/** The database-backed store (`SupabaseStorage` in server/storage.ts): every operation asks the
    database while the connection flag is up, and answers from an in-memory `MemStorage` when
    the flag is down or the query throws. The database itself is not modelled: each operation
    takes the outcome of its query (the rows it returned, or a thrown error) as a parameter. */
module Supabase {
  import opened Wrappers
  import opened Seqs
  import opened Schema
  import opened MemStore

  /** The outcome of one database query: the rows it returned, or a thrown error. */
  datatype Query<T> = Rows(value: T) | Failed

  /** Whether an operation takes the database's answer: only while connected, and only when
      the query did not throw. */
  predicate UsesDatabase<T>(connected: bool, query: Query<T>) {
    connected && query.Rows?
  }

  /** `result[0]`: the first returned row, or `undefined` when none came back. */
  function First<T>(rows: seq<T>): (r: Option<T>)
    ensures r.None? <==> rows == []
    ensures r.Some? ==> r.value == rows[0]
  {
    if rows == [] then None else Some(rows[0])
  }

  // ---------------------------------------------------------------------------
  // Rows of the joined queries
  // ---------------------------------------------------------------------------

  /** The record a left join on `key = id` pairs with a row: nothing for a null key (SQL
      equality with null never holds), otherwise the record with that id, if any. */
  function LeftJoin<T>(key: Option<int>, s: seq<T>, id: T -> int): Option<T> {
    if key.Some? then Find(s, id, key.value) else None
  }

  /** `row.client?.id ? row.client : undefined` (and the same for `row.case`): a joined record
      is kept only when its id is truthy, that is present and not 0. */
  function KeepTruthy<T>(joined: Option<T>, id: T -> int): (r: Option<T>)
    ensures r.Some? <==> joined.Some? && id(joined.value) != 0
    ensures r.Some? ==> r == joined
  {
    if joined.Some? && id(joined.value) != 0 then joined else None
  }

  /** The database path and the in-memory path embed alike: a left join filtered by a truthy id
      gives the same record as the in-memory lookup, which skips null and 0 keys. */
  lemma JoinEmbedsLikeMemory<T>(key: Option<int>, s: seq<T>, id: T -> int)
    ensures KeepTruthy(LeftJoin(key, s, id), id) == Embedded(key, s, id)
  {
    if key.Some? && key.value == 0 {
      var found := Find(s, id, 0);
      assert found.Some? ==> id(found.value) == 0;
    }
  }

  /** The mapping `getCases` applies to each joined row. */
  function CaseRow(row: CaseWithClient): CaseWithClient {
    row.(client := KeepTruthy(row.client, ClientId))
  }

  /** The mapping `getReminders` applies to each joined row. */
  function ReminderRow(row: ReminderWithCase): ReminderWithCase {
    row.(linkedCase := KeepTruthy(row.linkedCase, CaseId))
  }

  /** `result.map(...)` over the rows of a joined query. */
  function CaseRows(rows: seq<CaseWithClient>): (r: seq<CaseWithClient>)
    ensures |r| == |rows|
    ensures forall i :: 0 <= i < |r| ==> r[i] == CaseRow(rows[i])
  {
    seq(|rows|, i requires 0 <= i < |rows| => CaseRow(rows[i]))
  }

  function ReminderRows(rows: seq<ReminderWithCase>): (r: seq<ReminderWithCase>)
    ensures |r| == |rows|
    ensures forall i :: 0 <= i < |r| ==> r[i] == ReminderRow(rows[i])
  {
    seq(|rows|, i requires 0 <= i < |rows| => ReminderRow(rows[i]))
  }

  /** The rows `cases LEFT JOIN clients ON cases.clientId = clients.id` returns, in case order. */
  function CasesJoinClients(cases: seq<Case>, clients: seq<Client>): (r: seq<CaseWithClient>)
    ensures |r| == |cases|
    ensures forall i :: 0 <= i < |r| ==> r[i] == CaseWithClient(cases[i], LeftJoin(cases[i].clientId, clients, ClientId))
  {
    seq(|cases|, i requires 0 <= i < |cases| => CaseWithClient(cases[i], LeftJoin(cases[i].clientId, clients, ClientId)))
  }

  /** The rows `reminders LEFT JOIN cases ON reminders.caseId = cases.id` returns. */
  function RemindersJoinCases(reminders: seq<Reminder>, cases: seq<Case>): (r: seq<ReminderWithCase>)
    ensures |r| == |reminders|
    ensures forall i :: 0 <= i < |r| ==> r[i] == ReminderWithCase(reminders[i], LeftJoin(reminders[i].caseId, cases, CaseId))
  {
    seq(|reminders|, i requires 0 <= i < |reminders| => ReminderWithCase(reminders[i], LeftJoin(reminders[i].caseId, cases, CaseId)))
  }

  /** Over the same records, the mapped rows of the joined query are the in-memory join. */
  lemma CaseRowsMatchMemory(cases: seq<Case>, clients: seq<Client>)
    ensures CaseRows(CasesJoinClients(cases, clients)) == JoinClients(cases, clients)
  {
    forall i | 0 <= i < |cases|
      ensures CaseRows(CasesJoinClients(cases, clients))[i] == JoinClients(cases, clients)[i]
    {
      JoinEmbedsLikeMemory(cases[i].clientId, clients, ClientId);
    }
  }

  lemma ReminderRowsMatchMemory(reminders: seq<Reminder>, cases: seq<Case>)
    ensures ReminderRows(RemindersJoinCases(reminders, cases)) == JoinCases(reminders, cases)
  {
    forall i | 0 <= i < |reminders|
      ensures ReminderRows(RemindersJoinCases(reminders, cases))[i] == JoinCases(reminders, cases)[i]
    {
      JoinEmbedsLikeMemory(reminders[i].caseId, cases, CaseId);
    }
  }

  // ---------------------------------------------------------------------------
  // The dashboard counts
  // ---------------------------------------------------------------------------

  /** The rows of the four `count()` queries `getDashboardStats` runs together. */
  datatype CountRows = CountRows(totalCases: seq<nat>, activeCases: seq<nat>, totalClients: seq<nat>, pendingReminders: seq<nat>)

  /** `result[0]?.count || 0`. */
  function CountOf(rows: seq<nat>): nat {
    if rows == [] then 0 else rows[0]
  }

  /** The database's notion of a pending reminder: not completed, whatever its due date. */
  predicate Open(m: Reminder) {
    !m.completed
  }

  function DatabaseStats(rows: CountRows): DashboardStats {
    DashboardStats(CountOf(rows.totalCases), CountOf(rows.activeCases), CountOf(rows.totalClients),
      CountOf(rows.pendingReminders))
  }

  /** The counts a database holding these records returns. */
  function CountRowsOf(cases: seq<Case>, clients: seq<Client>, reminders: seq<Reminder>): CountRows {
    CountRows([|cases|], [Count(cases, IsActive)], [|clients|], [Count(reminders, Open)])
  }

  /** Over the same records the database agrees with the in-memory store on the case and client
      figures, but counts every open reminder as pending, so its pending figure is never below
      the in-memory one, and equals it exactly when no open reminder is already due. The records
      carry no `null` completed flag (see `Schema.Reminder`); one would count in memory only. */
  lemma DatabaseStatsAgainstMemory(cases: seq<Case>, clients: seq<Client>, reminders: seq<Reminder>, now: int)
    ensures var d, m := DatabaseStats(CountRowsOf(cases, clients, reminders)), Stats(cases, clients, reminders, now);
      d.totalCases == m.totalCases && d.activeCases == m.activeCases && d.totalClients == m.totalClients
      && d.pendingReminders >= m.pendingReminders
    ensures (forall m | m in reminders && Open(m) :: m.dueDate > now) <==>
      DatabaseStats(CountRowsOf(cases, clients, reminders)).pendingReminders
      == Stats(cases, clients, reminders, now).pendingReminders
  {
    CountWeaker(reminders, PendingAt(now), Open);
    if forall m | m in reminders && Open(m) :: m.dueDate > now {
      FilterCongruent(reminders, PendingAt(now), Open);
    } else {
      CountStrictlyWeaker(reminders, PendingAt(now), Open);
    }
  }

  // ---------------------------------------------------------------------------
  // The store
  // ---------------------------------------------------------------------------

  class SupabaseStorage {
    /** `isDbConnected && db`. */
    var connected: bool
    const fallback: MemStorage

    ghost predicate Valid()
      reads this, fallback
    {
      fallback.Valid()
    }

    /** `new SupabaseStorage()`: a fresh in-memory fallback, then `initializeDatabase`.
        `configured` says whether the connection was set up (a `DATABASE_URL` was given and
        opening it did not throw). */
    constructor (configured: bool, attempt: Query<()>, now: int)
      ensures Valid() && fresh(fallback)
      ensures connected <==> configured && attempt.Rows?
      ensures connected ==>
        fallback.users == [] && fallback.clients == [] && fallback.cases == []
        && fallback.reminders == [] && fallback.nextId == 1
      ensures !connected ==> fallback.GetUserByUsername(DemoUsername).Some? && fallback.nextId == 11
    {
      connected := configured;
      fallback := new MemStorage();
      new;
      assert fallback.GetUserByUsername(DemoUsername).None?;
      InitializeDatabase(attempt, now);
    }

    /** `initializeDatabase`. While connected, `attempt` is the outcome of the database work
        (the probe query and the seeding); any thrown error, or a lost connection, drops the
        flag for good and initialises the in-memory store instead. */
    method InitializeDatabase(attempt: Query<()>, now: int)
      requires Valid()
      modifies this`connected, fallback`users, fallback`clients, fallback`cases, fallback`reminders, fallback`nextId
      ensures Valid()
      ensures connected <==> old(connected) && attempt.Rows?
      ensures connected ==> unchanged(fallback)
      ensures !connected ==> fallback.Initialized(now)
    {
      if connected && attempt.Rows? {
        return;
      }
      connected := false;
      fallback.InitializeDatabase(now);
    }

    // --- reads ---------------------------------------------------------------

    function GetUser(id: int, query: Query<seq<User>>): (r: Option<User>)
      reads this, fallback
      ensures UsesDatabase(connected, query) ==> r == First(query.value)
      ensures !UsesDatabase(connected, query) ==> r == fallback.GetUser(id)
    {
      if UsesDatabase(connected, query) then First(query.value) else fallback.GetUser(id)
    }

    function GetUserByUsername(username: string, query: Query<seq<User>>): (r: Option<User>)
      reads this, fallback
      ensures UsesDatabase(connected, query) ==> r == First(query.value)
      ensures !UsesDatabase(connected, query) ==> r == fallback.GetUserByUsername(username)
    {
      if UsesDatabase(connected, query) then First(query.value) else fallback.GetUserByUsername(username)
    }

    function GetClients(query: Query<seq<Client>>): (r: seq<Client>)
      reads this, fallback
      ensures UsesDatabase(connected, query) ==> r == query.value
      ensures !UsesDatabase(connected, query) ==> r == fallback.GetClients()
    {
      if UsesDatabase(connected, query) then query.value else fallback.GetClients()
    }

    function GetClient(id: int, query: Query<seq<Client>>): (r: Option<Client>)
      reads this, fallback
      ensures UsesDatabase(connected, query) ==> r == First(query.value)
      ensures !UsesDatabase(connected, query) ==> r == fallback.GetClient(id)
    {
      if UsesDatabase(connected, query) then First(query.value) else fallback.GetClient(id)
    }

    /** `getCases`: from the database, each joined row with its client kept only when the
        client's id is truthy. */
    function GetCases(query: Query<seq<CaseWithClient>>): (r: seq<CaseWithClient>)
      reads this, fallback
      ensures UsesDatabase(connected, query) ==> r == CaseRows(query.value)
      ensures UsesDatabase(connected, query) ==> forall v | v in r :: v.client.Some? ==> v.client.value.id != 0
      ensures !UsesDatabase(connected, query) ==> r == fallback.GetCases()
    {
      if UsesDatabase(connected, query) then CaseRows(query.value) else fallback.GetCases()
    }

    function GetCase(id: int, query: Query<seq<CaseWithClient>>): (r: Option<CaseWithClient>)
      reads this, fallback
      ensures UsesDatabase(connected, query) ==>
        (r.None? <==> query.value == []) && (r.Some? ==> r.value == CaseRow(query.value[0]))
      ensures !UsesDatabase(connected, query) ==> r == fallback.GetCase(id)
    {
      if !UsesDatabase(connected, query) then fallback.GetCase(id)
      else if query.value == [] then None
      else Some(CaseRow(query.value[0]))
    }

    function GetCasesByClient(clientId: int, query: Query<seq<Case>>): (r: seq<Case>)
      reads this, fallback
      ensures UsesDatabase(connected, query) ==> r == query.value
      ensures !UsesDatabase(connected, query) ==> r == fallback.GetCasesByClient(clientId)
    {
      if UsesDatabase(connected, query) then query.value else fallback.GetCasesByClient(clientId)
    }

    function GetReminders(query: Query<seq<ReminderWithCase>>): (r: seq<ReminderWithCase>)
      reads this, fallback
      ensures UsesDatabase(connected, query) ==> r == ReminderRows(query.value)
      ensures UsesDatabase(connected, query) ==> forall v | v in r :: v.linkedCase.Some? ==> v.linkedCase.value.id != 0
      ensures !UsesDatabase(connected, query) ==> r == fallback.GetReminders()
    {
      if UsesDatabase(connected, query) then ReminderRows(query.value) else fallback.GetReminders()
    }

    function GetReminder(id: int, query: Query<seq<ReminderWithCase>>): (r: Option<ReminderWithCase>)
      reads this, fallback
      ensures UsesDatabase(connected, query) ==>
        (r.None? <==> query.value == []) && (r.Some? ==> r.value == ReminderRow(query.value[0]))
      ensures !UsesDatabase(connected, query) ==> r == fallback.GetReminder(id)
    {
      if !UsesDatabase(connected, query) then fallback.GetReminder(id)
      else if query.value == [] then None
      else Some(ReminderRow(query.value[0]))
    }

    /** `getDashboardStats`: from the database, the first count of each query, or 0. */
    function GetDashboardStats(query: Query<CountRows>, now: int): (r: DashboardStats)
      reads this, fallback
      ensures UsesDatabase(connected, query) ==> r == DatabaseStats(query.value)
      ensures !UsesDatabase(connected, query) ==> r == fallback.GetDashboardStats(now)
    {
      if UsesDatabase(connected, query) then DatabaseStats(query.value) else fallback.GetDashboardStats(now)
    }

    /** While the flag is down, every read answers as the in-memory store, whatever the
        database would have returned. */
    lemma ReadsWhileDisconnected(id: int, username: string, now: int,
      users: Query<seq<User>>, clients: Query<seq<Client>>, cases: Query<seq<CaseWithClient>>,
      byClient: Query<seq<Case>>, reminders: Query<seq<ReminderWithCase>>, counts: Query<CountRows>)
      requires !connected
      ensures GetUser(id, users) == fallback.GetUser(id)
      ensures GetUserByUsername(username, users) == fallback.GetUserByUsername(username)
      ensures GetClients(clients) == fallback.GetClients() && GetClient(id, clients) == fallback.GetClient(id)
      ensures GetCases(cases) == fallback.GetCases() && GetCase(id, cases) == fallback.GetCase(id)
      ensures GetCasesByClient(id, byClient) == fallback.GetCasesByClient(id)
      ensures GetReminders(reminders) == fallback.GetReminders() && GetReminder(id, reminders) == fallback.GetReminder(id)
      ensures GetDashboardStats(counts, now) == fallback.GetDashboardStats(now)
    {
    }

    // --- writes --------------------------------------------------------------

    method CreateUser(input: InsertUser, query: Query<seq<User>>, now: int) returns (r: Option<User>)
      requires Valid()
      modifies fallback`users, fallback`nextId
      ensures Valid()
      ensures UsesDatabase(connected, query) ==> r == First(query.value) && unchanged(fallback)
      ensures !UsesDatabase(connected, query) ==>
        r == Some(NewUser(old(fallback.nextId), input, now)) && fallback.users == old(fallback.users) + [r.value]
        && fallback.nextId == old(fallback.nextId) + 1
    {
      if UsesDatabase(connected, query) {
        return First(query.value);
      }
      var u := fallback.CreateUser(input, now);
      r := Some(u);
    }

    method UpdateUser(id: int, patch: UserPatch, query: Query<seq<User>>) returns (r: Option<User>)
      requires Valid()
      modifies fallback`users
      ensures Valid()
      ensures UsesDatabase(connected, query) ==> r == First(query.value) && unchanged(fallback)
      ensures !UsesDatabase(connected, query) ==>
        var i := FindIndex(old(fallback.users), UserId, id);
        if i < 0 then r.None? && fallback.users == old(fallback.users)
        else r == Some(PatchUser(old(fallback.users)[i], patch)) && fallback.users == old(fallback.users)[i := r.value]
    {
      if UsesDatabase(connected, query) {
        return First(query.value);
      }
      r := fallback.UpdateUser(id, patch);
    }

    method CreateClient(input: InsertClient, query: Query<seq<Client>>, now: int) returns (r: Option<Client>)
      requires Valid()
      modifies fallback`clients, fallback`nextId
      ensures Valid()
      ensures UsesDatabase(connected, query) ==> r == First(query.value) && unchanged(fallback)
      ensures !UsesDatabase(connected, query) ==>
        r == Some(NewClient(old(fallback.nextId), input, now)) && fallback.clients == old(fallback.clients) + [r.value]
        && fallback.nextId == old(fallback.nextId) + 1
    {
      if UsesDatabase(connected, query) {
        return First(query.value);
      }
      var c := fallback.CreateClient(input, now);
      r := Some(c);
    }

    method UpdateClient(id: int, patch: ClientPatch, query: Query<seq<Client>>) returns (r: Option<Client>)
      requires Valid()
      modifies fallback`clients
      ensures Valid()
      ensures UsesDatabase(connected, query) ==> r == First(query.value) && unchanged(fallback)
      ensures !UsesDatabase(connected, query) ==>
        var i := FindIndex(old(fallback.clients), ClientId, id);
        if i < 0 then r.None? && fallback.clients == old(fallback.clients)
        else r == Some(PatchClient(old(fallback.clients)[i], patch)) && fallback.clients == old(fallback.clients)[i := r.value]
    {
      if UsesDatabase(connected, query) {
        return First(query.value);
      }
      r := fallback.UpdateClient(id, patch);
    }

    /** `deleteClient`: from the database, whether the delete touched any row. `query` holds
        the affected-row count. */
    method DeleteClient(id: int, query: Query<nat>) returns (deleted: bool)
      requires Valid()
      modifies fallback`clients
      ensures Valid()
      ensures UsesDatabase(connected, query) ==> (deleted <==> query.value > 0) && unchanged(fallback)
      ensures !UsesDatabase(connected, query) ==>
        deleted == old(fallback.GetClient(id)).Some? && fallback.clients == RemoveKey(old(fallback.clients), ClientId, id)
    {
      if UsesDatabase(connected, query) {
        return query.value > 0;
      }
      deleted := fallback.DeleteClient(id);
    }

    method CreateCase(input: InsertCase, query: Query<seq<Case>>, now: int) returns (r: Option<Case>)
      requires Valid()
      modifies fallback`cases, fallback`nextId
      ensures Valid()
      ensures UsesDatabase(connected, query) ==> r == First(query.value) && unchanged(fallback)
      ensures !UsesDatabase(connected, query) ==>
        r == Some(NewCase(old(fallback.nextId), input, now)) && fallback.cases == old(fallback.cases) + [r.value]
        && fallback.nextId == old(fallback.nextId) + 1
    {
      if UsesDatabase(connected, query) {
        return First(query.value);
      }
      var c := fallback.CreateCase(input, now);
      r := Some(c);
    }

    method UpdateCase(id: int, patch: CasePatch, query: Query<seq<Case>>, now: int) returns (r: Option<Case>)
      requires Valid()
      modifies fallback`cases
      ensures Valid()
      ensures UsesDatabase(connected, query) ==> r == First(query.value) && unchanged(fallback)
      ensures !UsesDatabase(connected, query) ==>
        var i := FindIndex(old(fallback.cases), CaseId, id);
        if i < 0 then r.None? && fallback.cases == old(fallback.cases)
        else r == Some(PatchCase(old(fallback.cases)[i], patch, now)) && fallback.cases == old(fallback.cases)[i := r.value]
    {
      if UsesDatabase(connected, query) {
        return First(query.value);
      }
      r := fallback.UpdateCase(id, patch, now);
    }

    method DeleteCase(id: int, query: Query<nat>) returns (deleted: bool)
      requires Valid()
      modifies fallback`cases
      ensures Valid()
      ensures UsesDatabase(connected, query) ==> (deleted <==> query.value > 0) && unchanged(fallback)
      ensures !UsesDatabase(connected, query) ==>
        deleted == old(fallback.GetCase(id)).Some? && fallback.cases == RemoveKey(old(fallback.cases), CaseId, id)
    {
      if UsesDatabase(connected, query) {
        return query.value > 0;
      }
      deleted := fallback.DeleteCase(id);
    }

    method CreateReminder(input: InsertReminder, query: Query<seq<Reminder>>, now: int) returns (r: Option<Reminder>)
      requires Valid()
      modifies fallback`reminders, fallback`nextId
      ensures Valid()
      ensures UsesDatabase(connected, query) ==> r == First(query.value) && unchanged(fallback)
      ensures !UsesDatabase(connected, query) ==>
        r == Some(NewReminder(old(fallback.nextId), input, now)) && fallback.reminders == old(fallback.reminders) + [r.value]
        && fallback.nextId == old(fallback.nextId) + 1
    {
      if UsesDatabase(connected, query) {
        return First(query.value);
      }
      var m := fallback.CreateReminder(input, now);
      r := Some(m);
    }

    method UpdateReminder(id: int, patch: ReminderPatch, query: Query<seq<Reminder>>) returns (r: Option<Reminder>)
      requires Valid()
      modifies fallback`reminders
      ensures Valid()
      ensures UsesDatabase(connected, query) ==> r == First(query.value) && unchanged(fallback)
      ensures !UsesDatabase(connected, query) ==>
        var i := FindIndex(old(fallback.reminders), ReminderId, id);
        if i < 0 then r.None? && fallback.reminders == old(fallback.reminders)
        else r == Some(PatchReminder(old(fallback.reminders)[i], patch)) && fallback.reminders == old(fallback.reminders)[i := r.value]
    {
      if UsesDatabase(connected, query) {
        return First(query.value);
      }
      r := fallback.UpdateReminder(id, patch);
    }

    method DeleteReminder(id: int, query: Query<nat>) returns (deleted: bool)
      requires Valid()
      modifies fallback`reminders
      ensures Valid()
      ensures UsesDatabase(connected, query) ==> (deleted <==> query.value > 0) && unchanged(fallback)
      ensures !UsesDatabase(connected, query) ==>
        deleted == old(fallback.GetReminder(id)).Some? && fallback.reminders == RemoveKey(old(fallback.reminders), ReminderId, id)
    {
      if UsesDatabase(connected, query) {
        return query.value > 0;
      }
      deleted := fallback.DeleteReminder(id);
    }
  }
}
