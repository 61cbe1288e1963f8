/** The client panel (client/src/components/ClientDetails.tsx): the client's cases, their
    count in the header, and the two-case preview. The initials, avatar and status colour are
    the helpers of the clients page, which the panel repeats. */
module ClientDetails {
  import opened Wrappers
  import opened Seqs
  import opened Schema
  import opened Display
  import ClientsPage

  /** `clientCases`: the cases whose `clientId` is the client's id (a case with no client
      belongs to nobody). */
  function ClientCases(allCases: seq<CaseWithClient>, client: Client): (r: seq<CaseWithClient>)
    ensures forall c | c in r :: c in allCases && c.item.clientId == Some(client.id)
    ensures forall c | c in allCases && c.item.clientId == Some(client.id) :: c in r
  {
    Filter(allCases, (c: CaseWithClient) => c.item.clientId == Some(client.id))
  }

  /** What the panel shows for a client. */
  datatype Panel = Panel(
    initials: string,
    avatar: Option<Tone>,
    status: Tone,
    caseCount: nat,
    preview: seq<CaseWithClient>)

  function ShowPanel(client: Client, allCases: seq<CaseWithClient>): (p: Panel)
    ensures p.caseCount == |ClientCases(allCases, client)|
    ensures p.preview == Take(ClientCases(allCases, client), 2)
    ensures p.initials == ClientsPage.Initials(client.name)
    ensures p.avatar == ClientsPage.AvatarColor(client.name)
    ensures p.status == ClientsPage.StatusColor(client.status)
  {
    var cases := ClientCases(allCases, client);
    Panel(ClientsPage.Initials(client.name), ClientsPage.AvatarColor(client.name),
      ClientsPage.StatusColor(client.status), |cases|, Take(cases, 2))
  }

  /** The panel's cases are exactly the client's, in list order; the preview is the first
      two of them (fewer when the client has fewer), and the header counts them all. */
  lemma PanelShowsTheClientsCases(client: Client, allCases: seq<CaseWithClient>)
    ensures Sublist(ClientCases(allCases, client), allCases)
    ensures forall c | c in allCases :: c in ClientCases(allCases, client) <==> c.item.clientId == Some(client.id)
    ensures |ShowPanel(client, allCases).preview| == if ShowPanel(client, allCases).caseCount < 2 then ShowPanel(client, allCases).caseCount else 2
    ensures forall c | c in ShowPanel(client, allCases).preview :: c in allCases && c.item.clientId == Some(client.id)
    ensures |ShowPanel(client, allCases).initials| <= 2
  {
    ClientsPage.InitialsAreWordStarts(client.name);
    var cases := ClientCases(allCases, client);
    forall c | c in Take(cases, 2)
      ensures c in cases
    {
      var i :| 0 <= i < |Take(cases, 2)| && Take(cases, 2)[i] == c;
      assert cases[i] == c;
    }
  }
}
