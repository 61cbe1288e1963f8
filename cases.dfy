/** The cases page (client/src/pages/Cases.tsx): the search box with its status and type
    filters, and the icon and badge colour of a case. */
module CasesPage {
  import opened Wrappers
  import opened Seqs
  import opened Schema
  import opened Text
  import opened Display

  /** The search test: title, case number or client name, ignoring letter case. */
  predicate MatchesSearch(c: CaseWithClient, term: string) {
    MatchesText(Some(c.item.title), term) || MatchesText(c.item.caseNumber, term) ||
    (c.client.Some? && MatchesText(Some(c.client.value.name), term))
  }

  /** A select filter: "all", or a value the field must equal exactly. */
  predicate Selects(filter: string, value: string) {
    filter == "all" || value == filter
  }

  predicate Shown(c: CaseWithClient, term: string, statusFilter: string, typeFilter: string) {
    MatchesSearch(c, term) && Selects(statusFilter, c.item.status) && Selects(typeFilter, c.item.kind)
  }

  /** `filteredCases`. */
  function FilteredCases(cases: seq<CaseWithClient>, term: string, statusFilter: string, typeFilter: string): (r: seq<CaseWithClient>)
    ensures forall c | c in r :: c in cases && Shown(c, term, statusFilter, typeFilter)
    ensures |r| <= |cases|
  {
    Filter(cases, c => Shown(c, term, statusFilter, typeFilter))
  }

  /** The filtered list keeps the page's order and keeps a case exactly when the search
      matches and each filter is "all" or equals the field, so a filter other than "all"
      keeps only cases whose field equals it. */
  lemma FilteredCasesAreTheMatches(cases: seq<CaseWithClient>, term: string, statusFilter: string, typeFilter: string)
    ensures Sublist(FilteredCases(cases, term, statusFilter, typeFilter), cases)
    ensures forall c | c in cases :: c in FilteredCases(cases, term, statusFilter, typeFilter) <==>
      MatchesSearch(c, term) && (statusFilter == "all" || c.item.status == statusFilter) &&
      (typeFilter == "all" || c.item.kind == typeFilter)
    ensures statusFilter != "all" ==> forall c | c in FilteredCases(cases, term, statusFilter, typeFilter) ::
      c.item.status == statusFilter
    ensures typeFilter != "all" ==> forall c | c in FilteredCases(cases, term, statusFilter, typeFilter) ::
      c.item.kind == typeFilter
  {
  }

  /** The search ignores letter case: an upper-cased term finds the same cases. */
  lemma SearchIgnoresCase(c: CaseWithClient, term: string)
    ensures MatchesSearch(c, Upper(term)) == MatchesSearch(c, term)
  {
    LowerOfUpperAgrees(term);
  }

  /** An empty search with both filters on "all" shows every case, in order. */
  lemma NoFilterShowsAll(cases: seq<CaseWithClient>)
    ensures FilteredCases(cases, "", "all", "all") == cases
  {
    forall c | c in cases
      ensures Shown(c, "", "all", "all")
    {
      ContainsEmpty(Lower(c.item.title));
    }
    FilterKeepsAll(cases, c => Shown(c, "", "all", "all"));
  }

  /** `getCaseIcon`: matches the lower-cased type; the gavel for personal injury and for
      anything unknown. */
  function CaseIcon(kind: string): (i: Icon)
    ensures i == Handshake <==> Lower(kind) == "estate law"
    ensures i == Building <==> Lower(kind) == "corporate law"
    ensures i == Gavel <==> Lower(kind) !in {"estate law", "corporate law"}
  {
    match Lower(kind)
    case "personal injury" => Gavel
    case "estate law" => Handshake
    case "corporate law" => Building
    case _ => Gavel
  }

  /** `getStatusColor`: matches the lower-cased status, gray for "closed" and anything unknown. */
  function StatusColor(status: string): (t: Tone)
    ensures t == Green <==> Lower(status) == "active"
    ensures t == Yellow <==> Lower(status) == "pending"
    ensures t == Blue <==> Lower(status) == "review"
    ensures t == Gray <==> Lower(status) !in {"active", "pending", "review"}
  {
    match Lower(status)
    case "active" => Green
    case "pending" => Yellow
    case "review" => Blue
    case "closed" => Gray
    case _ => Gray
  }

  /** The icon does not depend on letter case. */
  lemma CaseIconIgnoresCase(kind: string)
    ensures CaseIcon(Upper(kind)) == CaseIcon(kind) && CaseIcon(Lower(kind)) == CaseIcon(kind)
  {
    LowerIdempotent(kind);
    LowerOfUpperAgrees(kind);
  }

  /** The status colour does not depend on letter case. */
  lemma StatusColorIgnoresCase(status: string)
    ensures StatusColor(Upper(status)) == StatusColor(status) && StatusColor(Lower(status)) == StatusColor(status)
  {
    LowerIdempotent(status);
    LowerOfUpperAgrees(status);
  }
}
