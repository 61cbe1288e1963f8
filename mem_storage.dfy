/** The in-memory store (`MemStorage` in server/storage.ts): four lists and an id counter,
    the read queries over them, and the create, update, delete and seeding operations.

    Every id the store hands out comes from one counter shared by all four lists, and each
    list keeps its records in the order they were created, so the ids of each list rise
    strictly and lie below the counter (`Valid`). */
module MemStore {
  import opened Wrappers
  import opened Seqs
  import opened Schema

  // ---------------------------------------------------------------------------
  // Keys the queries look records up and order them by
  // ---------------------------------------------------------------------------

  function UserId(u: User): int { u.id }
  function Username(u: User): string { u.username }
  function ClientId(c: Client): int { c.id }
  function CaseId(c: Case): int { c.id }
  function ReminderId(r: Reminder): int { r.id }
  function ClientCreatedAt(c: Client): int { c.createdAt }
  function CaseOf(v: CaseWithClient): Case { v.item }
  function ReminderOf(v: ReminderWithCase): Reminder { v.item }
  function ViewCreatedAt(v: CaseWithClient): int { v.item.createdAt }
  function ViewDueDate(v: ReminderWithCase): int { v.item.dueDate }

  // ---------------------------------------------------------------------------
  // Read queries, as functions of the stored lists
  // ---------------------------------------------------------------------------

  /** `key ? s.find(x => x.id === key) : undefined`: a null or zero foreign key embeds
      nothing; otherwise the record with that id, or nothing when no record has it. */
  function Embedded<T>(key: Option<int>, s: seq<T>, id: T -> int): (r: Option<T>)
    ensures r.Some? <==> key.Some? && key.value != 0 && exists i :: 0 <= i < |s| && id(s[i]) == key.value
    ensures r.Some? ==> r.value in s && id(r.value) == key.value
  {
    if key.Some? && key.value != 0 then Find(s, id, key.value) else None
  }

  /** `cases.map(c => ({ ...c, client: ... }))`. */
  function JoinClients(cases: seq<Case>, clients: seq<Client>): (r: seq<CaseWithClient>)
    ensures |r| == |cases|
    ensures forall i :: 0 <= i < |r| ==> r[i] == CaseWithClient(cases[i], Embedded(cases[i].clientId, clients, ClientId))
  {
    seq(|cases|, i requires 0 <= i < |cases| => CaseWithClient(cases[i], Embedded(cases[i].clientId, clients, ClientId)))
  }

  /** `reminders.map(r => ({ ...r, case: ... }))`. */
  function JoinCases(reminders: seq<Reminder>, cases: seq<Case>): (r: seq<ReminderWithCase>)
    ensures |r| == |reminders|
    ensures forall i :: 0 <= i < |r| ==> r[i] == ReminderWithCase(reminders[i], Embedded(reminders[i].caseId, cases, CaseId))
  {
    seq(|reminders|, i requires 0 <= i < |reminders| => ReminderWithCase(reminders[i], Embedded(reminders[i].caseId, cases, CaseId)))
  }

  /** `getClients`: every stored client, newest first. */
  function ClientsView(clients: seq<Client>): (r: seq<Client>)
    ensures multiset(r) == multiset(clients)
    ensures SortedBy(r, ClientCreatedAt, Descending)
  {
    SortIsSorted(clients, ClientCreatedAt, Descending);
    Sort(clients, ClientCreatedAt, Descending)
  }

  /** `getCases`: every stored case with its client embedded, newest first. */
  function CasesView(cases: seq<Case>, clients: seq<Client>): (r: seq<CaseWithClient>)
    ensures |r| == |cases|
    ensures multiset(r) == multiset(JoinClients(cases, clients))
    ensures SortedBy(r, ViewCreatedAt, Descending)
    ensures forall v | v in r :: v.item in cases && v.client == Embedded(v.item.clientId, clients, ClientId)
  {
    var joined := JoinClients(cases, clients);
    SortIsSorted(joined, ViewCreatedAt, Descending);
    var r := Sort(joined, ViewCreatedAt, Descending);
    assert forall v | v in r :: v in multiset(joined);
    r
  }

  /** `getReminders`: every stored reminder with its case embedded, soonest due first. */
  function RemindersView(reminders: seq<Reminder>, cases: seq<Case>): (r: seq<ReminderWithCase>)
    ensures |r| == |reminders|
    ensures multiset(r) == multiset(JoinCases(reminders, cases))
    ensures SortedBy(r, ViewDueDate, Ascending)
    ensures forall v | v in r :: v.item in reminders && v.linkedCase == Embedded(v.item.caseId, cases, CaseId)
  {
    var joined := JoinCases(reminders, cases);
    SortIsSorted(joined, ViewDueDate, Ascending);
    var r := Sort(joined, ViewDueDate, Ascending);
    assert forall v | v in r :: v in multiset(joined);
    r
  }

  /** `getCase`: the case with that id and its client, or nothing when no case has it. */
  function CaseView(id: int, cases: seq<Case>, clients: seq<Client>): (r: Option<CaseWithClient>)
    ensures r.None? <==> forall i :: 0 <= i < |cases| ==> cases[i].id != id
    ensures r.Some? ==>
      r.value.item in cases && r.value.item.id == id && r.value.client == Embedded(r.value.item.clientId, clients, ClientId)
  {
    match Find(cases, CaseId, id)
    case None => None
    case Some(c) => Some(CaseWithClient(c, Embedded(c.clientId, clients, ClientId)))
  }

  /** `getReminder`: the reminder with that id and its case, or nothing. */
  function ReminderView(id: int, reminders: seq<Reminder>, cases: seq<Case>): (r: Option<ReminderWithCase>)
    ensures r.None? <==> forall i :: 0 <= i < |reminders| ==> reminders[i].id != id
    ensures r.Some? ==>
      r.value.item in reminders && r.value.item.id == id && r.value.linkedCase == Embedded(r.value.item.caseId, cases, CaseId)
  {
    match Find(reminders, ReminderId, id)
    case None => None
    case Some(m) => Some(ReminderWithCase(m, Embedded(m.caseId, cases, CaseId)))
  }

  function BelongsTo(clientId: int): Case -> bool {
    (c: Case) => c.clientId == Some(clientId)
  }

  /** `getCasesByClient`: exactly the cases whose foreign key is that client, in stored order. */
  function CasesOfClient(cases: seq<Case>, clientId: int): (r: seq<Case>)
    ensures forall c | c in r :: c in cases && c.clientId == Some(clientId)
    ensures forall c | c in cases && c.clientId == Some(clientId) :: c in r
    ensures Sublist(r, cases)
  {
    var r := Filter(cases, BelongsTo(clientId));
    assert forall c | c in cases && c.clientId == Some(clientId) :: multiset(r)[c] > 0;
    r
  }

  predicate IsActive(c: Case) {
    c.status == "active"
  }

  /** Not completed and due strictly after `now`. */
  function PendingAt(now: int): Reminder -> bool {
    (m: Reminder) => !m.completed && m.dueDate > now
  }

  /** `getDashboardStats` at time `now`. */
  function Stats(cases: seq<Case>, clients: seq<Client>, reminders: seq<Reminder>, now: int): (s: DashboardStats)
    ensures s.totalCases == |cases| && s.totalClients == |clients|
    ensures s.activeCases <= s.totalCases && s.pendingReminders <= |reminders|
  {
    DashboardStats(|cases|, Count(cases, IsActive), |clients|, Count(reminders, PendingAt(now)))
  }

  // ---------------------------------------------------------------------------
  // Properties of the queries
  // ---------------------------------------------------------------------------

  /** The entries of `getCases` are the stored cases, each exactly once. */
  lemma CasesViewIsPermutation(cases: seq<Case>, clients: seq<Client>)
    ensures multiset(Keys(CasesView(cases, clients), CaseOf)) == multiset(cases)
  {
    var joined := JoinClients(cases, clients);
    assert Keys(joined, CaseOf) == cases;
    KeysPermutation(CasesView(cases, clients), joined, CaseOf);
  }

  /** The entries of `getReminders` are the stored reminders, each exactly once. */
  lemma RemindersViewIsPermutation(reminders: seq<Reminder>, cases: seq<Case>)
    ensures multiset(Keys(RemindersView(reminders, cases), ReminderOf)) == multiset(reminders)
  {
    var joined := JoinCases(reminders, cases);
    assert Keys(joined, ReminderOf) == reminders;
    KeysPermutation(RemindersView(reminders, cases), joined, ReminderOf);
  }

  /** Counting is independent of order. */
  lemma CountPermutation<T>(a: seq<T>, b: seq<T>, p: T -> bool)
    requires multiset(a) == multiset(b)
    ensures Count(a, p) == Count(b, p)
  {
    var fa, fb := Filter(a, p), Filter(b, p);
    assert forall x :: multiset(fa)[x] == multiset(fb)[x] by {
      forall x
        ensures multiset(fa)[x] == multiset(fb)[x]
      {
        assert multiset(a)[x] == multiset(b)[x];
        if x in a {
          assert x in multiset(b);
        } else {
          assert x !in multiset(b);
          assert x !in fa && x !in fb;
        }
      }
    }
    assert multiset(fa) == multiset(fb);
    assert |fa| == |multiset(fa)|;
  }

  /** Counting a list of records by a test on their keys is counting the keys. */
  lemma {:induction false} CountKeys<T, K>(s: seq<T>, key: T -> K, p: K -> bool, q: T -> bool)
    requires forall x :: q(x) == p(key(x))
    ensures Count(s, q) == Count(Keys(s, key), p)
  {
    if s != [] {
      CountKeys(s[1..], key, p, q);
      KeysCons(s, key);
      var ks := Keys(s, key);
      assert ks[1..] == Keys(s[1..], key);
      assert q(s[0]) == p(ks[0]);
    }
  }

  function ViewIsActive(v: CaseWithClient): bool {
    IsActive(v.item)
  }

  /** The dashboard's case figures agree with the case list: `totalCases` is its length and
      `activeCases` the number of its entries whose status is "active". */
  lemma StatsMatchCasesView(cases: seq<Case>, clients: seq<Client>, reminders: seq<Reminder>, now: int)
    ensures Stats(cases, clients, reminders, now).totalCases == |CasesView(cases, clients)|
    ensures Stats(cases, clients, reminders, now).activeCases == Count(CasesView(cases, clients), ViewIsActive)
  {
    var joined := JoinClients(cases, clients);
    assert Keys(joined, CaseOf) == cases;
    CountKeys(joined, CaseOf, IsActive, ViewIsActive);
    CountPermutation(CasesView(cases, clients), joined, ViewIsActive);
  }

  /** A new reminder raises the pending figure by one exactly when it is pending itself. */
  lemma PendingAfterCreate(cases: seq<Case>, clients: seq<Client>, reminders: seq<Reminder>, m: Reminder, now: int)
    ensures Stats(cases, clients, reminders + [m], now).pendingReminders
      == Stats(cases, clients, reminders, now).pendingReminders + (if !m.completed && m.dueDate > now then 1 else 0)
  {
    CountAppend(reminders, m, PendingAt(now));
  }

  /** Marking a pending reminder completed lowers the pending figure by one; marking any
      other reminder completed leaves it. */
  lemma PendingAfterCompleting(cases: seq<Case>, clients: seq<Client>, reminders: seq<Reminder>, i: int, now: int)
    requires 0 <= i < |reminders|
    ensures var done := PatchReminder(reminders[i], EmptyReminderPatch.(completed := Set(true)));
      Stats(cases, clients, reminders[i := done], now).pendingReminders
      == Stats(cases, clients, reminders, now).pendingReminders
        - (if !reminders[i].completed && reminders[i].dueDate > now then 1 else 0)
  {
    var done := PatchReminder(reminders[i], EmptyReminderPatch.(completed := Set(true)));
    CountUpdate(reminders, i, done, PendingAt(now));
  }

  /** After the client with id `k` is removed (ids being unique), a foreign key `k` embeds
      nothing: the cases that pointed at it are left dangling, not removed. */
  lemma DeletedClientEmbedsNothing(clients: seq<Client>, i: int)
    requires NoDuplicates(multiset(Keys(clients, ClientId)))
    requires 0 <= i < |clients|
    ensures Embedded(Some(clients[i].id), RemoveAt(clients, i), ClientId).None?
  {
    FindAfterRemoval(clients, ClientId, i);
  }

  // ---------------------------------------------------------------------------
  // The id invariant
  // ---------------------------------------------------------------------------

  /** Every id occurs once and lies in `[1, bound)`. */
  ghost predicate UniqueBelow(ids: multiset<int>, bound: int) {
    NoDuplicates(ids) && forall k | k in ids :: 1 <= k < bound
  }

  /** The ids of all four lists together. */
  ghost function AllIds(users: seq<User>, clients: seq<Client>, cases: seq<Case>, reminders: seq<Reminder>): multiset<int> {
    multiset(Keys(users, UserId)) + multiset(Keys(clients, ClientId))
    + multiset(Keys(cases, CaseId)) + multiset(Keys(reminders, ReminderId))
  }

  /** The ids a counter starting at 1 and now at `bound` can have handed out: each list holds
      its records in the order their ids were drawn, so its ids rise strictly and lie in
      `[1, bound)`, and no id is held by two records, in the same list or in different ones. */
  ghost predicate IdsIssued(users: seq<User>, clients: seq<Client>, cases: seq<Case>, reminders: seq<Reminder>, bound: int) {
    Rising(users, UserId, bound) && Rising(clients, ClientId, bound)
    && Rising(cases, CaseId, bound) && Rising(reminders, ReminderId, bound)
    && NoDuplicates(AllIds(users, clients, cases, reminders))
  }

  /** Every issued id lies below the counter. */
  lemma IssuedBelow(users: seq<User>, clients: seq<Client>, cases: seq<Case>, reminders: seq<Reminder>, bound: int)
    requires IdsIssued(users, clients, cases, reminders, bound)
    ensures forall k | k in AllIds(users, clients, cases, reminders) :: 1 <= k < bound
  {
    RisingUnique(users, UserId, bound);
    RisingUnique(clients, ClientId, bound);
    RisingUnique(cases, CaseId, bound);
    RisingUnique(reminders, ReminderId, bound);
  }

  /** Appending a record whose id is the counter keeps the ids issued, for the next counter. */
  lemma UserAdded(users: seq<User>, clients: seq<Client>, cases: seq<Case>, reminders: seq<Reminder>, u: User)
    requires 1 <= u.id && IdsIssued(users, clients, cases, reminders, u.id)
    ensures IdsIssued(users + [u], clients, cases, reminders, u.id + 1)
  {
    RisingPush(users, u, UserId, u.id + 1);
    IssuedBelow(users, clients, cases, reminders, u.id);
    KeysPush(users, u, UserId);
    NoDuplicatesAdd(AllIds(users, clients, cases, reminders), u.id);
    assert AllIds(users + [u], clients, cases, reminders) == AllIds(users, clients, cases, reminders) + multiset{u.id};
  }

  lemma ClientAdded(users: seq<User>, clients: seq<Client>, cases: seq<Case>, reminders: seq<Reminder>, c: Client)
    requires 1 <= c.id && IdsIssued(users, clients, cases, reminders, c.id)
    ensures IdsIssued(users, clients + [c], cases, reminders, c.id + 1)
  {
    RisingPush(clients, c, ClientId, c.id + 1);
    IssuedBelow(users, clients, cases, reminders, c.id);
    KeysPush(clients, c, ClientId);
    NoDuplicatesAdd(AllIds(users, clients, cases, reminders), c.id);
    assert AllIds(users, clients + [c], cases, reminders) == AllIds(users, clients, cases, reminders) + multiset{c.id};
  }

  lemma CaseAdded(users: seq<User>, clients: seq<Client>, cases: seq<Case>, reminders: seq<Reminder>, c: Case)
    requires 1 <= c.id && IdsIssued(users, clients, cases, reminders, c.id)
    ensures IdsIssued(users, clients, cases + [c], reminders, c.id + 1)
  {
    RisingPush(cases, c, CaseId, c.id + 1);
    IssuedBelow(users, clients, cases, reminders, c.id);
    KeysPush(cases, c, CaseId);
    NoDuplicatesAdd(AllIds(users, clients, cases, reminders), c.id);
    assert AllIds(users, clients, cases + [c], reminders) == AllIds(users, clients, cases, reminders) + multiset{c.id};
  }

  lemma ReminderAdded(users: seq<User>, clients: seq<Client>, cases: seq<Case>, reminders: seq<Reminder>, m: Reminder)
    requires 1 <= m.id && IdsIssued(users, clients, cases, reminders, m.id)
    ensures IdsIssued(users, clients, cases, reminders + [m], m.id + 1)
  {
    RisingPush(reminders, m, ReminderId, m.id + 1);
    IssuedBelow(users, clients, cases, reminders, m.id);
    KeysPush(reminders, m, ReminderId);
    NoDuplicatesAdd(AllIds(users, clients, cases, reminders), m.id);
    assert AllIds(users, clients, cases, reminders + [m]) == AllIds(users, clients, cases, reminders) + multiset{m.id};
  }

  /** Replacing a record by one with the same id keeps the ids issued, and the id then finds
      the new record. */
  lemma UserUpdated(users: seq<User>, clients: seq<Client>, cases: seq<Case>, reminders: seq<Reminder>, i: int, u: User, bound: int)
    requires 0 <= i < |users| && u.id == users[i].id && IdsIssued(users, clients, cases, reminders, bound)
    ensures IdsIssued(users[i := u], clients, cases, reminders, bound)
    ensures Find(users[i := u], UserId, u.id) == Some(u)
  {
    RisingUpdate(users, i, u, UserId, bound);
    KeysUpdate(users, i, u, UserId);
    RisingUnique(users, UserId, bound);
    FindUnique(users[i := u], UserId, i);
  }

  lemma ClientUpdated(users: seq<User>, clients: seq<Client>, cases: seq<Case>, reminders: seq<Reminder>, i: int, c: Client, bound: int)
    requires 0 <= i < |clients| && c.id == clients[i].id && IdsIssued(users, clients, cases, reminders, bound)
    ensures IdsIssued(users, clients[i := c], cases, reminders, bound)
    ensures Find(clients[i := c], ClientId, c.id) == Some(c)
  {
    RisingUpdate(clients, i, c, ClientId, bound);
    KeysUpdate(clients, i, c, ClientId);
    RisingUnique(clients, ClientId, bound);
    FindUnique(clients[i := c], ClientId, i);
  }

  lemma CaseUpdated(users: seq<User>, clients: seq<Client>, cases: seq<Case>, reminders: seq<Reminder>, i: int, c: Case, bound: int)
    requires 0 <= i < |cases| && c.id == cases[i].id && IdsIssued(users, clients, cases, reminders, bound)
    ensures IdsIssued(users, clients, cases[i := c], reminders, bound)
    ensures Find(cases[i := c], CaseId, c.id) == Some(c)
  {
    RisingUpdate(cases, i, c, CaseId, bound);
    KeysUpdate(cases, i, c, CaseId);
    RisingUnique(cases, CaseId, bound);
    FindUnique(cases[i := c], CaseId, i);
  }

  lemma ReminderUpdated(users: seq<User>, clients: seq<Client>, cases: seq<Case>, reminders: seq<Reminder>, i: int, m: Reminder, bound: int)
    requires 0 <= i < |reminders| && m.id == reminders[i].id && IdsIssued(users, clients, cases, reminders, bound)
    ensures IdsIssued(users, clients, cases, reminders[i := m], bound)
    ensures Find(reminders[i := m], ReminderId, m.id) == Some(m)
  {
    RisingUpdate(reminders, i, m, ReminderId, bound);
    KeysUpdate(reminders, i, m, ReminderId);
    RisingUnique(reminders, ReminderId, bound);
    FindUnique(reminders[i := m], ReminderId, i);
  }

  /** Removing one record keeps the ids issued, and its id is gone from its list. */
  lemma ClientRemoved(users: seq<User>, clients: seq<Client>, cases: seq<Case>, reminders: seq<Reminder>, i: int, bound: int)
    requires 0 <= i < |clients| && IdsIssued(users, clients, cases, reminders, bound)
    ensures IdsIssued(users, RemoveAt(clients, i), cases, reminders, bound)
    ensures Find(RemoveAt(clients, i), ClientId, clients[i].id).None?
  {
    RisingRemoveAt(clients, i, ClientId, bound);
    RisingUnique(clients, ClientId, bound);
    FindAfterRemoval(clients, ClientId, i);
    KeysRemoveAt(clients, i, ClientId);
    NoDuplicatesSub(AllIds(users, clients, cases, reminders), AllIds(users, RemoveAt(clients, i), cases, reminders));
  }

  lemma CaseRemoved(users: seq<User>, clients: seq<Client>, cases: seq<Case>, reminders: seq<Reminder>, i: int, bound: int)
    requires 0 <= i < |cases| && IdsIssued(users, clients, cases, reminders, bound)
    ensures IdsIssued(users, clients, RemoveAt(cases, i), reminders, bound)
    ensures Find(RemoveAt(cases, i), CaseId, cases[i].id).None?
  {
    RisingRemoveAt(cases, i, CaseId, bound);
    RisingUnique(cases, CaseId, bound);
    FindAfterRemoval(cases, CaseId, i);
    KeysRemoveAt(cases, i, CaseId);
    NoDuplicatesSub(AllIds(users, clients, cases, reminders), AllIds(users, clients, RemoveAt(cases, i), reminders));
  }

  lemma ReminderRemoved(users: seq<User>, clients: seq<Client>, cases: seq<Case>, reminders: seq<Reminder>, i: int, bound: int)
    requires 0 <= i < |reminders| && IdsIssued(users, clients, cases, reminders, bound)
    ensures IdsIssued(users, clients, cases, RemoveAt(reminders, i), bound)
    ensures Find(RemoveAt(reminders, i), ReminderId, reminders[i].id).None?
  {
    RisingRemoveAt(reminders, i, ReminderId, bound);
    RisingUnique(reminders, ReminderId, bound);
    FindAfterRemoval(reminders, ReminderId, i);
    KeysRemoveAt(reminders, i, ReminderId);
    NoDuplicatesSub(AllIds(users, clients, cases, reminders), AllIds(users, clients, cases, RemoveAt(reminders, i)));
  }

  // ---------------------------------------------------------------------------
  // The sample data of `initializeDatabase`
  // ---------------------------------------------------------------------------

  const DemoUsername := "demo_lawyer"

  /** One day in milliseconds. */
  const DayMs := 24 * 60 * 60 * 1000

  function DemoUser(id: int, now: int): User {
    User(id, DemoUsername, "demo123", Some("Demo Lawyer"), Some("demo@legalflow.com"),
      Some("+1 (555) 123-4567"), Some("BAR123456789"),
      Some("Personal Injury, Corporate Law, Estate Planning"), now)
  }

  /** The sample clients; the id and the creation time are given when they are stored. */
  const ClientsData: seq<Client> := [
    Client(0, "John Smith", Some("john.smith@email.com"), Some("+1 (555) 234-5678"),
      Some("123 Main St, Anytown, ST 12345"), "active", 0),
    Client(0, "Sarah Johnson", Some("sarah.j@email.com"), Some("+1 (555) 345-6789"),
      Some("456 Oak Ave, Somewhere, ST 67890"), "active", 0),
    Client(0, "Mike Wilson", Some("mike.wilson@email.com"), Some("+1 (555) 456-7890"),
      Some("789 Pine Rd, Elsewhere, ST 54321"), "active", 0)
  ]

  /** The sample cases; the i-th belongs to the i-th sample client. */
  const CasesData: seq<Case> := [
    Case(0, "Personal Injury Claim", Some("PI-2024-001"), "Personal Injury", "active", "high",
      Some("Auto accident case with significant injuries"), None, 0, 0),
    Case(0, "Contract Dispute", Some("CD-2024-002"), "Contract Law", "active", "medium",
      Some("Breach of contract dispute"), None, 0, 0),
    Case(0, "Estate Planning", Some("EP-2024-003"), "Estate Planning", "closed", "low",
      Some("Will and trust preparation"), None, 0, 0)
  ]

  /** A sample reminder, due a number of days after seeding. */
  datatype ReminderData = ReminderData(
    title: string, description: string, dueInDays: int, location: Option<string>,
    kind: string, priority: string, completed: bool)

  /** The sample reminders; the i-th belongs to the i-th sample case. */
  const RemindersData: seq<ReminderData> := [
    ReminderData("Client Meeting", "Initial consultation with new client", 2,
      Some("Law Office Conference Room A"), "meeting", "high", false),
    ReminderData("Court Filing Deadline", "File motion for summary judgment", 7, None, "deadline", "high", false),
    ReminderData("Document Review", "Review contract documents for case", 3, None, "task", "medium", false)
  ]

  /** Three clients, three cases and three reminders. */
  lemma SampleSizes()
    ensures |ClientsData| == 3 && |CasesData| == 3 && |RemindersData| == 3
  {
  }

  function SeedReminder(d: ReminderData, id: int, caseId: int, now: int): Reminder {
    Reminder(id, d.title, Some(d.description), now + d.dueInDays * DayMs, TextOrNull(d.location),
      d.kind, d.priority, d.completed, Some(caseId), now)
  }

  /** The clients seeding stores from `data`, with consecutive ids from `firstId`. */
  function SeedClients(data: seq<Client>, firstId: int, now: int): (r: seq<Client>)
    ensures |r| == |data|
  {
    seq(|data|, i requires 0 <= i < |data| => data[i].(id := firstId + i, createdAt := now))
  }

  /** The cases seeding stores from `data`: ids from `firstId`, the i-th linked to client
      `firstClientId + i`. */
  function SeedCases(data: seq<Case>, firstId: int, firstClientId: int, now: int): (r: seq<Case>)
    ensures |r| == |data|
  {
    seq(|data|, i requires 0 <= i < |data| =>
      data[i].(id := firstId + i, clientId := Some(firstClientId + i), createdAt := now, updatedAt := now))
  }

  /** The reminders seeding stores from `data`: ids from `firstId`, the i-th linked to case
      `firstCaseId + i`. */
  function SeedReminders(data: seq<ReminderData>, firstId: int, firstCaseId: int, now: int): (r: seq<Reminder>)
    ensures |r| == |data|
  {
    seq(|data|, i requires 0 <= i < |data| => SeedReminder(data[i], firstId + i, firstCaseId + i, now))
  }

  // ---------------------------------------------------------------------------
  // The store
  // ---------------------------------------------------------------------------

  class MemStorage {
    var users: seq<User>
    var clients: seq<Client>
    var cases: seq<Case>
    var reminders: seq<Reminder>
    var nextId: int

    /** The id invariant. The counter is bound by a quantifier so that the facts about the
        four lists are unfolded only where a proof names `IdsIssued` at the current counter. */
    ghost predicate Valid()
      reads this
    {
      1 <= nextId && forall b | b == nextId :: IdsIssued(users, clients, cases, reminders, b)
    }

    constructor ()
      ensures Valid()
      ensures users == [] && clients == [] && cases == [] && reminders == [] && nextId == 1
    {
      users, clients, cases, reminders := [], [], [], [];
      nextId := 1;
    }

    /** No two stored records share an id, within a list or across lists, and every id lies
        below the counter. */
    lemma UniqueIds()
      requires Valid()
      ensures UniqueBelow(AllIds(users, clients, cases, reminders), nextId)
      ensures UniqueBelow(multiset(Keys(users, UserId)), nextId)
      ensures UniqueBelow(multiset(Keys(clients, ClientId)), nextId)
      ensures UniqueBelow(multiset(Keys(cases, CaseId)), nextId)
      ensures UniqueBelow(multiset(Keys(reminders, ReminderId)), nextId)
    {
      assert IdsIssued(users, clients, cases, reminders, nextId);
      IssuedBelow(users, clients, cases, reminders, nextId);
      RisingUnique(users, UserId, nextId);
      RisingUnique(clients, ClientId, nextId);
      RisingUnique(cases, CaseId, nextId);
      RisingUnique(reminders, ReminderId, nextId);
    }

    // --- queries -------------------------------------------------------------

    function GetUser(id: int): (r: Option<User>)
      reads this
      ensures r.None? <==> forall i :: 0 <= i < |users| ==> users[i].id != id
      ensures r.Some? ==> r.value in users && r.value.id == id
    {
      Find(users, UserId, id)
    }

    function GetUserByUsername(username: string): (r: Option<User>)
      reads this
      ensures r.None? <==> forall i :: 0 <= i < |users| ==> users[i].username != username
      ensures r.Some? ==> r.value in users && r.value.username == username
      ensures r.Some? ==>
        exists k :: 0 <= k < |users| && users[k] == r.value && forall j :: 0 <= j < k ==> users[j].username != username
    {
      var k := FindIndex(users, Username, username);
      assert forall j :: 0 <= j < k ==> Username(users[j]) != username;
      Find(users, Username, username)
    }

    function GetClients(): (r: seq<Client>)
      reads this
      ensures multiset(r) == multiset(clients)
      ensures SortedBy(r, ClientCreatedAt, Descending)
    {
      ClientsView(clients)
    }

    function GetClient(id: int): (r: Option<Client>)
      reads this
      ensures r.None? <==> forall i :: 0 <= i < |clients| ==> clients[i].id != id
      ensures r.Some? ==> r.value in clients && r.value.id == id
    {
      Find(clients, ClientId, id)
    }

    function GetCases(): (r: seq<CaseWithClient>)
      reads this
      ensures |r| == |cases|
      ensures multiset(r) == multiset(JoinClients(cases, clients))
      ensures SortedBy(r, ViewCreatedAt, Descending)
      ensures forall v | v in r :: v.item in cases && v.client == Embedded(v.item.clientId, clients, ClientId)
    {
      CasesView(cases, clients)
    }

    function GetCase(id: int): (r: Option<CaseWithClient>)
      reads this
      ensures r.None? <==> forall i :: 0 <= i < |cases| ==> cases[i].id != id
      ensures r.Some? ==>
        r.value.item in cases && r.value.item.id == id && r.value.client == Embedded(r.value.item.clientId, clients, ClientId)
    {
      CaseView(id, cases, clients)
    }

    function GetCasesByClient(clientId: int): (r: seq<Case>)
      reads this
      ensures forall c | c in r :: c in cases && c.clientId == Some(clientId)
      ensures forall c | c in cases && c.clientId == Some(clientId) :: c in r
      ensures Sublist(r, cases)
    {
      CasesOfClient(cases, clientId)
    }

    function GetReminders(): (r: seq<ReminderWithCase>)
      reads this
      ensures |r| == |reminders|
      ensures multiset(r) == multiset(JoinCases(reminders, cases))
      ensures SortedBy(r, ViewDueDate, Ascending)
      ensures forall v | v in r :: v.item in reminders && v.linkedCase == Embedded(v.item.caseId, cases, CaseId)
    {
      RemindersView(reminders, cases)
    }

    function GetReminder(id: int): (r: Option<ReminderWithCase>)
      reads this
      ensures r.None? <==> forall i :: 0 <= i < |reminders| ==> reminders[i].id != id
      ensures r.Some? ==>
        r.value.item in reminders && r.value.item.id == id && r.value.linkedCase == Embedded(r.value.item.caseId, cases, CaseId)
    {
      ReminderView(id, reminders, cases)
    }

    function GetDashboardStats(now: int): (s: DashboardStats)
      reads this
      ensures s.totalCases == |cases| && s.totalClients == |clients|
      ensures s.activeCases == Count(cases, IsActive) && s.activeCases <= s.totalCases
      ensures s.pendingReminders == Count(reminders, PendingAt(now)) && s.pendingReminders <= |reminders|
    {
      Stats(cases, clients, reminders, now)
    }

    // --- ids -----------------------------------------------------------------

    /** `generateId`: the counter's value, then the counter moves on. */
    method GenerateId() returns (id: int)
      modifies this`nextId
      ensures id == old(nextId) && nextId == id + 1
    {
      id := nextId;
      nextId := nextId + 1;
    }

    /** Appends a record whose id was just generated; the store is valid again afterwards. */
    method PushUser(u: User)
      requires 1 <= u.id && nextId == u.id + 1 && IdsIssued(users, clients, cases, reminders, u.id)
      modifies this`users
      ensures users == old(users) + [u] && Valid()
    {
      UserAdded(users, clients, cases, reminders, u);
      users := users + [u];
    }

    method PushClient(c: Client)
      requires 1 <= c.id && nextId == c.id + 1 && IdsIssued(users, clients, cases, reminders, c.id)
      modifies this`clients
      ensures clients == old(clients) + [c] && Valid()
    {
      ClientAdded(users, clients, cases, reminders, c);
      clients := clients + [c];
    }

    method PushCase(c: Case)
      requires 1 <= c.id && nextId == c.id + 1 && IdsIssued(users, clients, cases, reminders, c.id)
      modifies this`cases
      ensures cases == old(cases) + [c] && Valid()
    {
      CaseAdded(users, clients, cases, reminders, c);
      cases := cases + [c];
    }

    method PushReminder(m: Reminder)
      requires 1 <= m.id && nextId == m.id + 1 && IdsIssued(users, clients, cases, reminders, m.id)
      modifies this`reminders
      ensures reminders == old(reminders) + [m] && Valid()
    {
      ReminderAdded(users, clients, cases, reminders, m);
      reminders := reminders + [m];
    }

    // --- users ---------------------------------------------------------------

    /** `createUser`: a fresh id; afterwards `getUser` of that id returns it. Usernames
        are not checked for uniqueness here. */
    method CreateUser(input: InsertUser, now: int) returns (u: User)
      requires Valid()
      modifies this`users, this`nextId
      ensures Valid()
      ensures u == NewUser(old(nextId), input, now) && nextId == old(nextId) + 1
      ensures users == old(users) + [u]
      ensures GetUser(u.id) == Some(u)
    {
      UniqueIds();
      var id := GenerateId();
      u := NewUser(id, input, now);
      assert u.id !in multiset(Keys(users, UserId));
      FindAppended(users, u, UserId);
      PushUser(u);
    }

    /** `updateUser`: the user with that id, overlaid with the update; `None` and no change
        when there is none. */
    method UpdateUser(id: int, patch: UserPatch) returns (r: Option<User>)
      requires Valid()
      modifies this`users
      ensures Valid()
      ensures var i := FindIndex(old(users), UserId, id);
        if i < 0 then r.None? && users == old(users)
        else r == Some(PatchUser(old(users)[i], patch)) && users == old(users)[i := r.value]
      ensures r.Some? ==> GetUser(id) == r
    {
      var i := FindIndex(users, UserId, id);
      if i == -1 {
        return None;
      }
      var updated := PatchUser(users[i], patch);
      assert IdsIssued(users, clients, cases, reminders, nextId);
      UserUpdated(users, clients, cases, reminders, i, updated, nextId);
      users := users[i := updated];
      r := Some(updated);
    }

    // --- clients -------------------------------------------------------------

    /** `createClient`. */
    method CreateClient(input: InsertClient, now: int) returns (c: Client)
      requires Valid()
      modifies this`clients, this`nextId
      ensures Valid()
      ensures c == NewClient(old(nextId), input, now) && nextId == old(nextId) + 1
      ensures clients == old(clients) + [c]
      ensures GetClient(c.id) == Some(c)
    {
      UniqueIds();
      var id := GenerateId();
      c := NewClient(id, input, now);
      assert c.id !in multiset(Keys(clients, ClientId));
      FindAppended(clients, c, ClientId);
      PushClient(c);
    }

    /** `updateClient`. */
    method UpdateClient(id: int, patch: ClientPatch) returns (r: Option<Client>)
      requires Valid()
      modifies this`clients
      ensures Valid()
      ensures var i := FindIndex(old(clients), ClientId, id);
        if i < 0 then r.None? && clients == old(clients)
        else r == Some(PatchClient(old(clients)[i], patch)) && clients == old(clients)[i := r.value]
      ensures r.Some? ==> GetClient(id) == r
    {
      var i := FindIndex(clients, ClientId, id);
      if i == -1 {
        return None;
      }
      var updated := PatchClient(clients[i], patch);
      assert IdsIssued(users, clients, cases, reminders, nextId);
      ClientUpdated(users, clients, cases, reminders, i, updated, nextId);
      clients := clients[i := updated];
      r := Some(updated);
    }

    /** `deleteClient`: removes the client with that id and reports whether there was one.
        The client's cases stay, and from then on embed no client. */
    method DeleteClient(id: int) returns (deleted: bool)
      requires Valid()
      modifies this`clients
      ensures Valid()
      ensures deleted == old(GetClient(id)).Some?
      ensures clients == RemoveKey(old(clients), ClientId, id)
      ensures GetClient(id).None?
    {
      var i := FindIndex(clients, ClientId, id);
      if i == -1 {
        return false;
      }
      ClientRemoved(users, clients, cases, reminders, i, nextId);
      clients := RemoveAt(clients, i);
      deleted := true;
    }

    // --- cases ---------------------------------------------------------------

    /** `createCase`. */
    method CreateCase(input: InsertCase, now: int) returns (c: Case)
      requires Valid()
      modifies this`cases, this`nextId
      ensures Valid()
      ensures c == NewCase(old(nextId), input, now) && nextId == old(nextId) + 1
      ensures cases == old(cases) + [c]
      ensures GetCase(c.id) == Some(CaseWithClient(c, Embedded(c.clientId, clients, ClientId)))
    {
      UniqueIds();
      var id := GenerateId();
      c := NewCase(id, input, now);
      assert c.id !in multiset(Keys(cases, CaseId));
      FindAppended(cases, c, CaseId);
      PushCase(c);
    }

    /** `updateCase`: like the other updates, and the case's `updatedAt` becomes `now`. */
    method UpdateCase(id: int, patch: CasePatch, now: int) returns (r: Option<Case>)
      requires Valid()
      modifies this`cases
      ensures Valid()
      ensures var i := FindIndex(old(cases), CaseId, id);
        if i < 0 then r.None? && cases == old(cases)
        else r == Some(PatchCase(old(cases)[i], patch, now)) && cases == old(cases)[i := r.value]
      ensures r.Some? ==> r.value.updatedAt == now && GetCase(id).Some? && GetCase(id).value.item == r.value
    {
      var i := FindIndex(cases, CaseId, id);
      if i == -1 {
        return None;
      }
      var updated := PatchCase(cases[i], patch, now);
      assert IdsIssued(users, clients, cases, reminders, nextId);
      CaseUpdated(users, clients, cases, reminders, i, updated, nextId);
      cases := cases[i := updated];
      r := Some(updated);
    }

    /** `deleteCase`: the case's reminders stay, and from then on embed no case. */
    method DeleteCase(id: int) returns (deleted: bool)
      requires Valid()
      modifies this`cases
      ensures Valid()
      ensures deleted == old(GetCase(id)).Some?
      ensures cases == RemoveKey(old(cases), CaseId, id)
      ensures GetCase(id).None?
    {
      var i := FindIndex(cases, CaseId, id);
      if i == -1 {
        return false;
      }
      CaseRemoved(users, clients, cases, reminders, i, nextId);
      cases := RemoveAt(cases, i);
      deleted := true;
    }

    // --- reminders -----------------------------------------------------------

    /** `createReminder`. */
    method CreateReminder(input: InsertReminder, now: int) returns (m: Reminder)
      requires Valid()
      modifies this`reminders, this`nextId
      ensures Valid()
      ensures m == NewReminder(old(nextId), input, now) && nextId == old(nextId) + 1
      ensures reminders == old(reminders) + [m]
      ensures GetReminder(m.id) == Some(ReminderWithCase(m, Embedded(m.caseId, cases, CaseId)))
    {
      UniqueIds();
      var id := GenerateId();
      m := NewReminder(id, input, now);
      assert m.id !in multiset(Keys(reminders, ReminderId));
      FindAppended(reminders, m, ReminderId);
      PushReminder(m);
    }

    /** `updateReminder`. */
    method UpdateReminder(id: int, patch: ReminderPatch) returns (r: Option<Reminder>)
      requires Valid()
      modifies this`reminders
      ensures Valid()
      ensures var i := FindIndex(old(reminders), ReminderId, id);
        if i < 0 then r.None? && reminders == old(reminders)
        else r == Some(PatchReminder(old(reminders)[i], patch)) && reminders == old(reminders)[i := r.value]
      ensures r.Some? ==> GetReminder(id).Some? && GetReminder(id).value.item == r.value
    {
      var i := FindIndex(reminders, ReminderId, id);
      if i == -1 {
        return None;
      }
      var updated := PatchReminder(reminders[i], patch);
      assert IdsIssued(users, clients, cases, reminders, nextId);
      ReminderUpdated(users, clients, cases, reminders, i, updated, nextId);
      reminders := reminders[i := updated];
      r := Some(updated);
    }

    /** `deleteReminder`. */
    method DeleteReminder(id: int) returns (deleted: bool)
      requires Valid()
      modifies this`reminders
      ensures Valid()
      ensures deleted == old(GetReminder(id)).Some?
      ensures reminders == RemoveKey(old(reminders), ReminderId, id)
      ensures GetReminder(id).None?
    {
      var i := FindIndex(reminders, ReminderId, id);
      if i == -1 {
        return false;
      }
      ReminderRemoved(users, clients, cases, reminders, i, nextId);
      reminders := RemoveAt(reminders, i);
      deleted := true;
    }

    // --- seeding -------------------------------------------------------------

    /** What `initializeDatabase` leaves behind, against the state before it: when no user was
        called "demo_lawyer", the demo user, then the sample clients, cases and reminders, each
        list linked position by position to the one before it, with consecutive ids; otherwise
        nothing changed. Either way "demo_lawyer" exists after, so a second run changes nothing. */
    twostate predicate Initialized(now: int)
      reads this
    {
      GetUserByUsername(DemoUsername).Some?
      && (old(GetUserByUsername(DemoUsername)).Some? ==>
            users == old(users) && clients == old(clients) && cases == old(cases)
            && reminders == old(reminders) && nextId == old(nextId))
      && (old(GetUserByUsername(DemoUsername)).None? ==>
            var first := old(nextId) + 1;
            users == old(users) + [DemoUser(old(nextId), now)] && nextId == old(nextId) + 10
            && clients == old(clients) + SeedClients(ClientsData, first, now)
            && cases == old(cases) + SeedCases(CasesData, first + 3, first, now)
            && reminders == old(reminders) + SeedReminders(RemindersData, first + 6, first + 3, now))
    }

    /** `initializeDatabase`. */
    method InitializeDatabase(now: int)
      requires Valid()
      modifies this`users, this`clients, this`cases, this`reminders, this`nextId
      ensures Valid() && Initialized(now)
    {
      var existing := GetUserByUsername(DemoUsername);
      if existing.Some? {
        return;
      }
      assert DemoUsername !in Keys(users, Username);
      FindAppended(users, DemoUser(nextId, now), Username);
      SampleSizes();
      SeedDatabase(ClientsData, CasesData, RemindersData, now);
    }

    /** The seeding branch of `initializeDatabase`: the demo user takes the next id, then
        come the sample clients, cases and reminders, each list matched position by position
        with the one before it. */
    method SeedDatabase(clientsData: seq<Client>, casesData: seq<Case>, remindersData: seq<ReminderData>, now: int)
      requires Valid()
      requires |casesData| == |clientsData| && |remindersData| == |clientsData|
      modifies this`users, this`clients, this`cases, this`reminders, this`nextId
      ensures Valid()
      ensures users == old(users) + [DemoUser(old(nextId), now)]
      ensures
        var first := old(nextId) + 1;
        var n := |clientsData|;
        nextId == first + 3 * n
        && clients == old(clients) + SeedClients(clientsData, first, now)
        && cases == old(cases) + SeedCases(casesData, first + n, first, now)
        && reminders == old(reminders) + SeedReminders(remindersData, first + 2 * n, first + n, now)
    {
      var userId := GenerateId();
      PushUser(DemoUser(userId, now));
      ghost var first := userId + 1;
      var n := |clientsData|;
      var createdClients := StoreSampleClients(clientsData, first, now);
      var createdCases := StoreSampleCases(casesData, createdClients, first, first + n, now);
      StoreSampleReminders(remindersData, createdCases, first + n, first + 2 * n, now);
    }

    /** The client loop of `initializeDatabase`, over the sample data `data`. */
    method StoreSampleClients(data: seq<Client>, ghost firstId: int, now: int) returns (created: seq<Client>)
      requires Valid() && nextId == firstId
      modifies this`clients, this`nextId
      ensures Valid() && nextId == firstId + |data|
      ensures created == SeedClients(data, firstId, now) && clients == old(clients) + created
      ensures forall i | 0 <= i < |data| :: created[i].id == firstId + i
    {
      created := [];
      for i := 0 to |data|
        invariant Valid() && nextId == firstId + i
        invariant created == SeedClients(data, firstId, now)[..i]
        invariant clients == old(clients) + created
      {
        var clientId := GenerateId();
        var client := data[i].(id := clientId, createdAt := now);
        assert SeedClients(data, firstId, now)[..i + 1] == created + [client];
        PushClient(client);
        created := created + [client];
      }
    }

    /** The case loop of `initializeDatabase`: the i-th case of `data` is stored, linked to the
        i-th created client, when that client has a truthy id. */
    method StoreSampleCases(data: seq<Case>, createdClients: seq<Client>, ghost firstClientId: int,
      ghost firstId: int, now: int) returns (created: seq<Case>)
      requires Valid() && nextId == firstId && 1 <= firstClientId
      requires |createdClients| == |data| && forall i | 0 <= i < |data| :: createdClients[i].id == firstClientId + i
      modifies this`cases, this`nextId
      ensures Valid() && nextId == firstId + |data|
      ensures created == SeedCases(data, firstId, firstClientId, now) && cases == old(cases) + created
      ensures forall i | 0 <= i < |data| :: created[i].id == firstId + i
    {
      created := [];
      for i := 0 to |data|
        invariant Valid() && nextId == firstId + i
        invariant created == SeedCases(data, firstId, firstClientId, now)[..i]
        invariant cases == old(cases) + created
      {
        var clientId := if i < |createdClients| then Some(createdClients[i].id) else None;
        if clientId.Some? && clientId.value != 0 {
          var caseId := GenerateId();
          var newCase := data[i].(id := caseId, clientId := clientId, createdAt := now, updatedAt := now);
          assert SeedCases(data, firstId, firstClientId, now)[..i + 1] == created + [newCase];
          PushCase(newCase);
          created := created + [newCase];
        } else {
          assert false;
        }
      }
    }

    /** The reminder loop of `initializeDatabase`: the i-th reminder of `data` is stored,
        linked to the i-th created case, when that case has a truthy id. */
    method StoreSampleReminders(data: seq<ReminderData>, createdCases: seq<Case>, ghost firstCaseId: int,
      ghost firstId: int, now: int)
      requires Valid() && nextId == firstId && 1 <= firstCaseId
      requires |createdCases| == |data| && forall i | 0 <= i < |data| :: createdCases[i].id == firstCaseId + i
      modifies this`reminders, this`nextId
      ensures Valid() && nextId == firstId + |data|
      ensures reminders == old(reminders) + SeedReminders(data, firstId, firstCaseId, now)
    {
      for i := 0 to |data|
        invariant Valid() && nextId == firstId + i
        invariant reminders == old(reminders) + SeedReminders(data, firstId, firstCaseId, now)[..i]
      {
        var caseId := if i < |createdCases| then Some(createdCases[i].id) else None;
        if caseId.Some? && caseId.value != 0 {
          var reminderId := GenerateId();
          var reminder := SeedReminder(data[i], reminderId, caseId.value, now);
          assert SeedReminders(data, firstId, firstCaseId, now)[..i + 1]
            == SeedReminders(data, firstId, firstCaseId, now)[..i] + [reminder];
          PushReminder(reminder);
        } else {
          assert false;
        }
      }
    }
  }
}
