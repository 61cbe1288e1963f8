/** The four stored entities (users, clients, cases, reminders), the shapes a create or an
    update receives, and the record-building rules of the in-memory store.

    Timestamps are integers (milliseconds). The column named `type` is called `kind`, and
    the case embedded in a reminder view `linkedCase`, because `type` and `case` are Dafny
    keywords. A nullable text column is an `Option<string>` (`None` is `null`). */
module Schema {
  import opened Wrappers

  datatype User = User(
    id: int,
    username: string,
    password: string,
    fullName: Option<string>,
    email: Option<string>,
    phone: Option<string>,
    barNumber: Option<string>,
    practiceAreas: Option<string>,
    createdAt: int)

  datatype Client = Client(
    id: int,
    name: string,
    email: Option<string>,
    phone: Option<string>,
    address: Option<string>,
    status: string,
    createdAt: int)

  datatype Case = Case(
    id: int,
    title: string,
    caseNumber: Option<string>,
    kind: string,
    status: string,
    priority: string,
    description: Option<string>,
    clientId: Option<int>,
    createdAt: int,
    updatedAt: int)

  /** `completed` is a nullable boolean column, folded here into a plain boolean with `null` as
      `false`. The in-memory store and the pages test `!completed`, for which `null` behaves as
      `false`; the database's pending count tests `completed = false`, for which it does not, so
      the database figures are stated only for records without a `null` flag. */
  datatype Reminder = Reminder(
    id: int,
    title: string,
    description: Option<string>,
    dueDate: int,
    location: Option<string>,
    kind: string,
    priority: string,
    completed: bool,
    caseId: Option<int>,
    createdAt: int)

  /** A case with its client embedded (`client` is `undefined` when there is none). */
  datatype CaseWithClient = CaseWithClient(item: Case, client: Option<Client>)

  /** A reminder with its case embedded. */
  datatype ReminderWithCase = ReminderWithCase(item: Reminder, linkedCase: Option<Case>)

  /** The pages' test for a reminder still to be done: `!reminder.completed`. */
  predicate Open(r: ReminderWithCase) {
    !r.item.completed
  }

  datatype DashboardStats = DashboardStats(
    totalCases: nat,
    activeCases: nat,
    totalClients: nat,
    pendingReminders: nat)

  // ---------------------------------------------------------------------------
  // Create inputs: the insert schemas omit `id` and the timestamps. An optional input is
  // an `Option` whose `None` is a missing key (or `null`).
  // ---------------------------------------------------------------------------

  datatype InsertUser = InsertUser(
    username: string,
    password: string,
    fullName: Option<string>,
    email: Option<string>,
    phone: Option<string>,
    barNumber: Option<string>,
    practiceAreas: Option<string>)

  datatype InsertClient = InsertClient(
    name: string,
    email: Option<string>,
    phone: Option<string>,
    address: Option<string>,
    status: Option<string>)

  datatype InsertCase = InsertCase(
    title: string,
    caseNumber: Option<string>,
    kind: string,
    status: Option<string>,
    priority: Option<string>,
    description: Option<string>,
    clientId: Option<int>)

  datatype InsertReminder = InsertReminder(
    title: string,
    description: Option<string>,
    dueDate: int,
    location: Option<string>,
    kind: Option<string>,
    priority: Option<string>,
    completed: Option<bool>,
    caseId: Option<int>)

  // ---------------------------------------------------------------------------
  // Update inputs: `Partial<Insert...>`. Validation strips unknown keys, so a patch can
  // never carry `id` or a timestamp.
  // ---------------------------------------------------------------------------

  /** A key present in a partial update (`Set`) or absent from it (`Keep`). */
  datatype Field<T> = Keep | Set(value: T)

  /** One key of `{ ...record, ...updates }`: the update's value when the key is present. */
  function Overlay<T>(f: Field<T>, current: T): T {
    match f
    case Keep => current
    case Set(v) => v
  }

  datatype UserPatch = UserPatch(
    username: Field<string>,
    password: Field<string>,
    fullName: Field<Option<string>>,
    email: Field<Option<string>>,
    phone: Field<Option<string>>,
    barNumber: Field<Option<string>>,
    practiceAreas: Field<Option<string>>)

  datatype ClientPatch = ClientPatch(
    name: Field<string>,
    email: Field<Option<string>>,
    phone: Field<Option<string>>,
    address: Field<Option<string>>,
    status: Field<string>)

  datatype CasePatch = CasePatch(
    title: Field<string>,
    caseNumber: Field<Option<string>>,
    kind: Field<string>,
    status: Field<string>,
    priority: Field<string>,
    description: Field<Option<string>>,
    clientId: Field<Option<int>>)

  /** A `completed: null` update is folded into `Set(false)`, as in `Reminder`. */
  datatype ReminderPatch = ReminderPatch(
    title: Field<string>,
    description: Field<Option<string>>,
    dueDate: Field<int>,
    location: Field<Option<string>>,
    kind: Field<string>,
    priority: Field<string>,
    completed: Field<bool>,
    caseId: Field<Option<int>>)

  const EmptyUserPatch := UserPatch(Keep, Keep, Keep, Keep, Keep, Keep, Keep)
  const EmptyClientPatch := ClientPatch(Keep, Keep, Keep, Keep, Keep)
  const EmptyCasePatch := CasePatch(Keep, Keep, Keep, Keep, Keep, Keep, Keep)
  const EmptyReminderPatch := ReminderPatch(Keep, Keep, Keep, Keep, Keep, Keep, Keep, Keep)

  // ---------------------------------------------------------------------------
  // JavaScript's `||` defaults: `undefined`, `null`, `""`, `0` and `false` are falsy.
  // ---------------------------------------------------------------------------

  /** `text || null`: a missing or empty text is stored as `null`. */
  function TextOrNull(o: Option<string>): (r: Option<string>)
    ensures r.Some? ==> r == o && r.value != ""
    ensures o.Some? && o.value != "" ==> r == o
  {
    if o.Some? && o.value != "" then o else None
  }

  /** `text || fallback`. */
  function TextOr(o: Option<string>, fallback: string): (r: string)
    ensures o.Some? && o.value != "" ==> r == o.value
    ensures o.None? || o.value == "" ==> r == fallback
  {
    if o.Some? && o.value != "" then o.value else fallback
  }

  /** `id || null`: a missing id and the id 0 are stored as `null`. */
  function IdOrNull(o: Option<int>): (r: Option<int>)
    ensures r.Some? ==> r == o && r.value != 0
    ensures o.Some? && o.value != 0 ==> r == o
  {
    if o.Some? && o.value != 0 then o else None
  }

  /** `flag || false`. */
  function FlagOrFalse(o: Option<bool>): (r: bool)
    ensures r <==> o == Some(true)
  {
    o == Some(true)
  }

  // ---------------------------------------------------------------------------
  // The records the in-memory store builds (server/storage.ts, create and update methods)
  // ---------------------------------------------------------------------------

  /** `createUser`: the fresh id and `now`; optional texts falsy-to-null. */
  function NewUser(id: int, input: InsertUser, now: int): (u: User)
    ensures u.id == id && u.createdAt == now
    ensures u.username == input.username && u.password == input.password
    ensures u.fullName == TextOrNull(input.fullName) && u.email == TextOrNull(input.email)
    ensures u.phone == TextOrNull(input.phone) && u.barNumber == TextOrNull(input.barNumber)
    ensures u.practiceAreas == TextOrNull(input.practiceAreas)
  {
    User(id, input.username, input.password, TextOrNull(input.fullName), TextOrNull(input.email),
      TextOrNull(input.phone), TextOrNull(input.barNumber), TextOrNull(input.practiceAreas), now)
  }

  /** `createClient`: status defaults to "active"; optional texts falsy-to-null. */
  function NewClient(id: int, input: InsertClient, now: int): (c: Client)
    ensures c.id == id && c.createdAt == now && c.name == input.name
    ensures c.status == TextOr(input.status, "active") && c.status != ""
    ensures c.email == TextOrNull(input.email) && c.phone == TextOrNull(input.phone)
    ensures c.address == TextOrNull(input.address)
  {
    Client(id, input.name, TextOrNull(input.email), TextOrNull(input.phone),
      TextOrNull(input.address), TextOr(input.status, "active"), now)
  }

  /** `createCase`: status "active" and priority "medium" by default; both timestamps `now`. */
  function NewCase(id: int, input: InsertCase, now: int): (c: Case)
    ensures c.id == id && c.createdAt == now && c.updatedAt == now
    ensures c.title == input.title && c.kind == input.kind
    ensures c.status == TextOr(input.status, "active") && c.status != ""
    ensures c.priority == TextOr(input.priority, "medium") && c.priority != ""
    ensures c.caseNumber == TextOrNull(input.caseNumber)
    ensures c.description == TextOrNull(input.description)
    ensures c.clientId == IdOrNull(input.clientId)
  {
    Case(id, input.title, TextOrNull(input.caseNumber), input.kind, TextOr(input.status, "active"),
      TextOr(input.priority, "medium"), TextOrNull(input.description), IdOrNull(input.clientId), now, now)
  }

  /** `createReminder`: type "general", priority "medium" and not completed by default. */
  function NewReminder(id: int, input: InsertReminder, now: int): (r: Reminder)
    ensures r.id == id && r.createdAt == now
    ensures r.title == input.title && r.dueDate == input.dueDate
    ensures r.kind == TextOr(input.kind, "general") && r.kind != ""
    ensures r.priority == TextOr(input.priority, "medium") && r.priority != ""
    ensures r.completed <==> input.completed == Some(true)
    ensures r.description == TextOrNull(input.description)
    ensures r.location == TextOrNull(input.location)
    ensures r.caseId == IdOrNull(input.caseId)
  {
    Reminder(id, input.title, TextOrNull(input.description), input.dueDate, TextOrNull(input.location),
      TextOr(input.kind, "general"), TextOr(input.priority, "medium"), FlagOrFalse(input.completed),
      IdOrNull(input.caseId), now)
  }

  /** `{ ...user, ...updates }`. */
  function PatchUser(u: User, p: UserPatch): (r: User)
    ensures r.id == u.id && r.createdAt == u.createdAt
    ensures p == EmptyUserPatch ==> r == u
  {
    User(u.id, Overlay(p.username, u.username), Overlay(p.password, u.password),
      Overlay(p.fullName, u.fullName), Overlay(p.email, u.email), Overlay(p.phone, u.phone),
      Overlay(p.barNumber, u.barNumber), Overlay(p.practiceAreas, u.practiceAreas), u.createdAt)
  }

  /** `{ ...client, ...updates }`. */
  function PatchClient(c: Client, p: ClientPatch): (r: Client)
    ensures r.id == c.id && r.createdAt == c.createdAt
    ensures p == EmptyClientPatch ==> r == c
  {
    Client(c.id, Overlay(p.name, c.name), Overlay(p.email, c.email), Overlay(p.phone, c.phone),
      Overlay(p.address, c.address), Overlay(p.status, c.status), c.createdAt)
  }

  /** `{ ...case, ...updates, updatedAt: new Date() }`: re-stamped even by an empty patch. */
  function PatchCase(c: Case, p: CasePatch, now: int): (r: Case)
    ensures r.id == c.id && r.createdAt == c.createdAt && r.updatedAt == now
    ensures p == EmptyCasePatch ==> r == c.(updatedAt := now)
  {
    Case(c.id, Overlay(p.title, c.title), Overlay(p.caseNumber, c.caseNumber), Overlay(p.kind, c.kind),
      Overlay(p.status, c.status), Overlay(p.priority, c.priority), Overlay(p.description, c.description),
      Overlay(p.clientId, c.clientId), c.createdAt, now)
  }

  /** `{ ...reminder, ...updates }`. */
  function PatchReminder(r: Reminder, p: ReminderPatch): (r': Reminder)
    ensures r'.id == r.id && r'.createdAt == r.createdAt
    ensures p == EmptyReminderPatch ==> r' == r
  {
    Reminder(r.id, Overlay(p.title, r.title), Overlay(p.description, r.description),
      Overlay(p.dueDate, r.dueDate), Overlay(p.location, r.location), Overlay(p.kind, r.kind),
      Overlay(p.priority, r.priority), Overlay(p.completed, r.completed), Overlay(p.caseId, r.caseId),
      r.createdAt)
  }

  /** Applying the same update twice is applying it once. */
  lemma PatchClientIdempotent(c: Client, p: ClientPatch)
    ensures PatchClient(PatchClient(c, p), p) == PatchClient(c, p)
  {
  }

  lemma PatchReminderIdempotent(r: Reminder, p: ReminderPatch)
    ensures PatchReminder(PatchReminder(r, p), p) == PatchReminder(r, p)
  {
  }
}
