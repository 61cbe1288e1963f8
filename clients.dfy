/** The clients page (client/src/pages/Clients.tsx): the search box, and the initials, avatar
    colour and status colour of a client. The client panel reuses the same three helpers. */
module ClientsPage {
  import opened Wrappers
  import opened Seqs
  import opened Schema
  import opened Text
  import opened Display

  /** The search test: name, email or phone, ignoring letter case. */
  predicate MatchesSearch(c: Client, term: string) {
    MatchesText(Some(c.name), term) || MatchesText(c.email, term) || MatchesText(c.phone, term)
  }

  /** `filteredClients`. */
  function FilteredClients(clients: seq<Client>, term: string): (r: seq<Client>)
    ensures forall c | c in r :: c in clients && MatchesSearch(c, term)
    ensures |r| <= |clients|
  {
    Filter(clients, c => MatchesSearch(c, term))
  }

  /** The filtered list keeps the page's order and keeps a client exactly when the lower-cased
      term occurs in its lower-cased name, email or phone; an empty term keeps them all. */
  lemma FilteredClientsAreTheMatches(clients: seq<Client>, term: string)
    ensures Sublist(FilteredClients(clients, term), clients)
    ensures forall c | c in clients :: c in FilteredClients(clients, term) <==>
      OccursIn(Some(c.name), term) || OccursIn(c.email, term) || OccursIn(c.phone, term)
    ensures FilteredClients(clients, "") == clients
  {
    forall c | c in clients
      ensures MatchesSearch(c, term) <==>
        OccursIn(Some(c.name), term) || OccursIn(c.email, term) || OccursIn(c.phone, term)
      ensures MatchesSearch(c, "")
    {
      MatchesTextIsOccurrence(Some(c.name), term);
      MatchesTextIsOccurrence(c.email, term);
      MatchesTextIsOccurrence(c.phone, term);
      ContainsEmpty(Lower(c.name));
    }
    FilterKeepsAll(clients, c => MatchesSearch(c, ""));
  }

  /** `getInitials`: the first character of each space-separated word, joined, upper-cased,
      at most two. */
  function Initials(name: string): (r: string)
    ensures |r| <= 2
  {
    Take(Upper(FirstChars(Split(name))), 2)
  }

  /** The initials are at most two characters, with no lower-case letter: the upper-cased
      starts of the words, in order, where an empty word (from a repeated space) gives
      nothing. */
  lemma InitialsAreWordStarts(name: string)
    ensures |Initials(name)| <= 2
    ensures Initials(name) == Take(Upper(WordStarts(name, true)), 2)
    ensures forall i :: 0 <= i < |Initials(name)| ==> !IsLowerAscii(Initials(name)[i])
  {
    FirstCharsOfSplit(name);
  }

  /** The gradient colours of `getAvatarColor`, in order. */
  const AvatarColors: seq<Tone> := [Emerald, Blue, Purple, Orange, Pink, Indigo]

  /** `getAvatarColor`: the colour at the first character's code modulo six. An empty name has
      no first character (`charCodeAt(0)` is NaN) and gets no colour. */
  function AvatarColor(name: string): (t: Option<Tone>)
    ensures t.Some? <==> name != []
    ensures t.Some? ==> t.value == AvatarColors[(name[0] as int) % 6] && t.value in AvatarColors
  {
    if name == [] then None else Some(AvatarColors[(name[0] as int) % |AvatarColors|])
  }

  /** `getStatusColor`: green for "active" in any letter case, gray otherwise. */
  function StatusColor(status: string): (t: Tone)
    ensures t == Green <==> Lower(status) == "active"
    ensures t == Gray <==> Lower(status) != "active"
  {
    match Lower(status)
    case "active" => Green
    case "inactive" => Gray
    case _ => Gray
  }

  lemma StatusColorIgnoresCase(status: string)
    ensures StatusColor(Upper(status)) == StatusColor(status)
    ensures StatusColor(Lower(status)) == StatusColor(status)
  {
    LowerIdempotent(status);
    LowerOfUpperAgrees(status);
  }
}
