/** The HTTP handlers of the API (server/routes.ts): each one awaits one storage call inside a
    `try` and turns what it produced into a status code and a JSON body.

    A handler is a function from the storage outcome to a `Reply`. Where the source validates
    the request body before calling storage, the storage call is a function parameter, so that
    "storage is never called on a validation failure" reads as "the reply does not depend on
    it". */
module Routes {
  import opened Wrappers
  import opened Seqs
  import opened Schema
  import MemStore

  /** What a rejected promise carried: an `Error` object with its message, or anything else. */
  datatype Thrown = Error(message: string) | NonError

  /** What an awaited storage call produced. */
  datatype Outcome<T> = Done(value: T) | Threw(error: Thrown)

  /** What `schema.parse(req.body)` produced: the validated data, or a `ZodError` with its issues. */
  datatype Parsed<D> = Valid(data: D) | Invalid(issues: seq<string>)

  /** `res.json(value)`, `res.json({ message })` or `res.json({ message, errors })`. */
  datatype Body<T> = Json(value: T) | Message(message: string) | Rejected(message: string, errors: seq<string>)

  datatype Reply<T> = Reply(status: int, body: Body<T>)

  datatype Entity = CaseRecord | ClientRecord | ReminderRecord | UserRecord

  /** The word the messages use for an entity ("case" in "Failed to fetch case"). */
  function Noun(e: Entity): string {
    match e
    case CaseRecord => "case"
    case ClientRecord => "client"
    case ReminderRecord => "reminder"
    case UserRecord => "user"
  }

  /** The same word at the start of a sentence ("Case not found"). */
  function Capitalised(e: Entity): string {
    match e
    case CaseRecord => "Case"
    case ClientRecord => "Client"
    case ReminderRecord => "Reminder"
    case UserRecord => "User"
  }

  // ---------------------------------------------------------------------------
  // Password stripping: `const { password: _, ...userWithoutPassword } = user`
  // ---------------------------------------------------------------------------

  /** A user record without its `password` key. */
  datatype PublicUser = PublicUser(
    id: int,
    username: string,
    fullName: Option<string>,
    email: Option<string>,
    phone: Option<string>,
    barNumber: Option<string>,
    practiceAreas: Option<string>,
    createdAt: int)

  function StripPassword(u: User): (p: PublicUser)
    ensures p.id == u.id && p.username == u.username && p.createdAt == u.createdAt
    ensures p.fullName == u.fullName && p.email == u.email && p.phone == u.phone
    ensures p.barNumber == u.barNumber && p.practiceAreas == u.practiceAreas
  {
    PublicUser(u.id, u.username, u.fullName, u.email, u.phone, u.barNumber, u.practiceAreas, u.createdAt)
  }

  /** Puts a password back: the inverse of `StripPassword`. */
  function WithPassword(p: PublicUser, password: string): (u: User)
    ensures u.password == password
  {
    User(p.id, p.username, password, p.fullName, p.email, p.phone, p.barNumber, p.practiceAreas, p.createdAt)
  }

  /** Stripping loses the password and nothing else: putting it back gives the user back, and
      two users strip alike exactly when they differ at most in their passwords. */
  lemma StripPasswordKeepsTheRest(u: User, v: User)
    ensures WithPassword(StripPassword(u), u.password) == u
    ensures StripPassword(u) == StripPassword(v) <==> u == v.(password := u.password)
  {
  }

  // ---------------------------------------------------------------------------
  // POST /api/auth/login
  // ---------------------------------------------------------------------------

  datatype LoginBody = LoginBody(user: PublicUser)

  /** `found` is the outcome of `storage.getUserByUsername(username)`; `password` is the body's
      `password`, absent when the body has none. The stored and supplied passwords are compared
      by plain equality. */
  function Login(password: Option<string>, found: Outcome<Option<User>>): (r: Reply<LoginBody>)
    ensures found.Threw? ==> r == Reply(500, Message("Login failed"))
    ensures found.Done? ==> (r.status == 200 <==> found.value.Some? && password == Some(found.value.value.password))
    ensures r.status == 200 ==> r.body == Json(LoginBody(StripPassword(found.value.value)))
    ensures found.Done? && r.status != 200 ==> r == Reply(401, Message("Invalid credentials"))
  {
    match found
    case Threw(_) => Reply(500, Message("Login failed"))
    case Done(user) =>
      if user.None? || Some(user.value.password) != password then
        Reply(401, Message("Invalid credentials"))
      else
        Reply(200, Json(LoginBody(StripPassword(user.value))))
  }

  /** Against the in-memory user list: a login succeeds exactly when the FIRST user with that
      username has the supplied password (user creation does not keep usernames unique, so a
      later namesake can never log in). */
  lemma LoginAgainstUsers(users: seq<User>, username: string, password: Option<string>)
    ensures Login(password, Done(Find(users, MemStore.Username, username))).status == 200 <==>
      exists i :: 0 <= i < |users| && users[i].username == username && password == Some(users[i].password) &&
        forall j :: 0 <= j < i ==> users[j].username != username
  {
    var k := FindIndex(users, MemStore.Username, username);
    if k >= 0 {
      assert MemStore.Username(users[k]) == users[k].username;
      forall i | 0 <= i < |users| && users[i].username == username &&
        forall j :: 0 <= j < i ==> users[j].username != username
        ensures i == k
      {
        assert MemStore.Username(users[i]) == users[i].username;
      }
    } else {
      forall i | 0 <= i < |users|
        ensures users[i].username != username
      {
        assert MemStore.Username(users[i]) == users[i].username;
      }
    }
  }

  /** With unique usernames, a login succeeds exactly when some user has both the username
      and the password. */
  lemma LoginWithUniqueUsernames(users: seq<User>, username: string, password: Option<string>)
    requires NoDuplicates(multiset(Keys(users, MemStore.Username)))
    ensures Login(password, Done(Find(users, MemStore.Username, username))).status == 200 <==>
      exists u :: u in users && u.username == username && password == Some(u.password)
  {
    if u :| u in users && u.username == username && password == Some(u.password) {
      var i :| 0 <= i < |users| && users[i] == u;
      assert MemStore.Username(users[i]) == username;
      FindUnique(users, MemStore.Username, i);
    }
  }

  // ---------------------------------------------------------------------------
  // GET handlers
  // ---------------------------------------------------------------------------

  /** A list or statistics GET (`/api/cases`, `/api/clients`, `/api/clients/:id/cases`,
      `/api/reminders`, `/api/dashboard/stats`): the value with 200, or `failure` with 500. */
  function Fetch<T>(outcome: Outcome<T>, failure: string): (r: Reply<T>)
    ensures r.status == 200 <==> outcome.Done?
    ensures outcome.Done? ==> r.body == Json(outcome.value)
    ensures outcome.Threw? ==> r == Reply(500, Message(failure))
  {
    match outcome
    case Done(v) => Reply(200, Json(v))
    case Threw(_) => Reply(500, Message(failure))
  }

  /** A single-record GET (`/api/cases/:id`, `/api/clients/:id`, `/api/reminders/:id`). */
  function FetchOne<T>(e: Entity, outcome: Outcome<Option<T>>): (r: Reply<T>)
    ensures r.status == 404 <==> outcome == Done(None)
    ensures r.status == 404 ==> r.body == Message(Capitalised(e) + " not found")
    ensures r.status == 200 <==> outcome.Done? && outcome.value.Some?
    ensures r.status == 200 ==> r.body == Json(outcome.value.value)
    ensures outcome.Threw? ==> r == Reply(500, Message("Failed to fetch " + Noun(e)))
  {
    match outcome
    case Threw(_) => Reply(500, Message("Failed to fetch " + Noun(e)))
    case Done(None) => Reply(404, Message(Capitalised(e) + " not found"))
    case Done(Some(v)) => Reply(200, Json(v))
  }

  /** Against the in-memory client list: 404 exactly when no client has the id, and otherwise
      the client with that id. */
  lemma FetchClientAgainstMemory(clients: seq<Client>, id: int)
    ensures FetchOne(ClientRecord, Done(Find(clients, MemStore.ClientId, id))).status == 404 <==>
      forall c | c in clients :: c.id != id
    ensures FetchOne(ClientRecord, Done(Find(clients, MemStore.ClientId, id))).status == 200 ==>
      FetchOne(ClientRecord, Done(Find(clients, MemStore.ClientId, id))).body.value in clients &&
      FetchOne(ClientRecord, Done(Find(clients, MemStore.ClientId, id))).body.value.id == id
  {
    var r := Find(clients, MemStore.ClientId, id);
    if r.None? {
      forall c | c in clients
        ensures c.id != id
      {
        var i :| 0 <= i < |clients| && clients[i] == c;
        assert MemStore.ClientId(clients[i]) != id;
      }
    } else {
      assert MemStore.ClientId(r.value) == r.value.id;
    }
  }

  // ---------------------------------------------------------------------------
  // POST and PUT handlers
  // ---------------------------------------------------------------------------

  /** `POST /api/cases`, `/api/clients`, `/api/reminders`: validate, then create; 201 with the
      created record. `create` is the storage call, applied to the validated data. */
  function Create<D, T>(e: Entity, parsed: Parsed<D>, create: D -> Outcome<T>): (r: Reply<T>)
    ensures r.status == 400 <==> parsed.Invalid?
    ensures parsed.Invalid? ==> r.body == Rejected("Invalid " + Noun(e) + " data", parsed.issues)
    ensures r.status == 201 <==> parsed.Valid? && create(parsed.data).Done?
    ensures r.status == 201 ==> r.body == Json(create(parsed.data).value)
    ensures parsed.Valid? && create(parsed.data).Threw? ==> r == Reply(500, Message("Failed to create " + Noun(e)))
  {
    match parsed
    case Invalid(issues) => Reply(400, Rejected("Invalid " + Noun(e) + " data", issues))
    case Valid(data) =>
      match create(data)
      case Done(v) => Reply(201, Json(v))
      case Threw(_) => Reply(500, Message("Failed to create " + Noun(e)))
  }

  /** A request that fails validation is answered without storage: any two stores give the
      same reply. */
  lemma CreateSkipsStorageWhenInvalid<D, T>(e: Entity, issues: seq<string>, create: D -> Outcome<T>, other: D -> Outcome<T>)
    ensures Create(e, Invalid(issues), create) == Create(e, Invalid(issues), other)
  {
  }

  /** `PUT /api/cases/:id`, `/api/clients/:id`, `/api/reminders/:id`: validate the partial
      record, then update; 404 when storage finds no record. */
  function Update<D, T>(e: Entity, parsed: Parsed<D>, update: D -> Outcome<Option<T>>): (r: Reply<T>)
    ensures r.status == 400 <==> parsed.Invalid?
    ensures parsed.Invalid? ==> r.body == Rejected("Invalid " + Noun(e) + " data", parsed.issues)
    ensures r.status == 404 <==> parsed.Valid? && update(parsed.data) == Done(None)
    ensures r.status == 404 ==> r.body == Message(Capitalised(e) + " not found")
    ensures r.status == 200 <==> parsed.Valid? && update(parsed.data).Done? && update(parsed.data).value.Some?
    ensures r.status == 200 ==> r.body == Json(update(parsed.data).value.value)
    ensures parsed.Valid? && update(parsed.data).Threw? ==> r == Reply(500, Message("Failed to update " + Noun(e)))
  {
    match parsed
    case Invalid(issues) => Reply(400, Rejected("Invalid " + Noun(e) + " data", issues))
    case Valid(data) =>
      match update(data)
      case Done(None) => Reply(404, Message(Capitalised(e) + " not found"))
      case Done(Some(v)) => Reply(200, Json(v))
      case Threw(_) => Reply(500, Message("Failed to update " + Noun(e)))
  }

  lemma UpdateSkipsStorageWhenInvalid<D, T>(e: Entity, issues: seq<string>, update: D -> Outcome<Option<T>>, other: D -> Outcome<Option<T>>)
    ensures Update(e, Invalid(issues), update) == Update(e, Invalid(issues), other)
  {
  }

  /** `PUT /api/user/:id`: like the other updates, but the updated user is sent without its
      password. */
  function UpdateProfile(parsed: Parsed<UserPatch>, update: UserPatch -> Outcome<Option<User>>): (r: Reply<PublicUser>)
    ensures r.status == 400 <==> parsed.Invalid?
    ensures parsed.Invalid? ==> r.body == Rejected("Invalid user data", parsed.issues)
    ensures r.status == 404 <==> parsed.Valid? && update(parsed.data) == Done(None)
    ensures r.status == 404 ==> r.body == Message("User not found")
    ensures r.status == 200 <==> parsed.Valid? && update(parsed.data).Done? && update(parsed.data).value.Some?
    ensures r.status == 200 ==> r.body == Json(StripPassword(update(parsed.data).value.value))
    ensures parsed.Valid? && update(parsed.data).Threw? ==> r == Reply(500, Message("Failed to update user"))
  {
    match parsed
    case Invalid(issues) => Reply(400, Rejected("Invalid user data", issues))
    case Valid(data) =>
      match update(data)
      case Done(None) => Reply(404, Message("User not found"))
      case Done(Some(u)) => Reply(200, Json(StripPassword(u)))
      case Threw(_) => Reply(500, Message("Failed to update user"))
  }

  /** The profile reply is the generic update reply with the password stripped from the record. */
  lemma UpdateProfileIsStrippedUpdate(parsed: Parsed<UserPatch>, update: UserPatch -> Outcome<Option<User>>)
    ensures UpdateProfile(parsed, update).status == Update(UserRecord, parsed, update).status
    ensures Update(UserRecord, parsed, update).body.Json? ==>
      UpdateProfile(parsed, update).body == Json(StripPassword(Update(UserRecord, parsed, update).body.value))
    ensures !Update(UserRecord, parsed, update).body.Json? ==>
      UpdateProfile(parsed, update).body.Message? == Update(UserRecord, parsed, update).body.Message?
  {
  }

  // ---------------------------------------------------------------------------
  // DELETE handlers
  // ---------------------------------------------------------------------------

  /** `DELETE /api/cases/:id` and `/api/reminders/:id`: 404 when storage reports nothing removed. */
  function Delete(e: Entity, outcome: Outcome<bool>): (r: Reply<()>)
    ensures r.status == 404 <==> outcome == Done(false)
    ensures r.status == 404 ==> r.body == Message(Capitalised(e) + " not found")
    ensures r.status == 200 <==> outcome == Done(true)
    ensures r.status == 200 ==> r.body == Message(Capitalised(e) + " deleted successfully")
    ensures outcome.Threw? ==> r == Reply(500, Message("Failed to delete " + Noun(e)))
  {
    match outcome
    case Done(false) => Reply(404, Message(Capitalised(e) + " not found"))
    case Done(true) => Reply(200, Message(Capitalised(e) + " deleted successfully"))
    case Threw(_) => Reply(500, Message("Failed to delete " + Noun(e)))
  }

  /** The message a client delete expects from a store that refuses to delete a client with cases. */
  const ClientHasCases := "Cannot delete client with associated cases"

  /** `DELETE /api/clients/:id`: as `Delete`, except that an `Error` with exactly the message
      `ClientHasCases` is answered 400 with an explanation. */
  function DeleteClient(outcome: Outcome<bool>): (r: Reply<()>)
    ensures r.status == 400 <==> outcome == Threw(Error(ClientHasCases))
    ensures r.status == 400 ==>
      r.body == Message("Cannot delete client with active cases. Please remove or reassign all cases first.")
    ensures r.status == 500 <==> outcome.Threw? && outcome != Threw(Error(ClientHasCases))
    ensures outcome != Threw(Error(ClientHasCases)) ==> r == Delete(ClientRecord, outcome)
  {
    if outcome == Threw(Error(ClientHasCases)) then
      Reply(400, Message("Cannot delete client with active cases. Please remove or reassign all cases first."))
    else
      Delete(ClientRecord, outcome)
  }

  /** Neither store rejects a delete, so a client delete is never answered 400: 404 exactly
      when the in-memory list has no client with the id, and 200 otherwise. */
  lemma DeleteClientAgainstMemory(clients: seq<Client>, id: int)
    ensures DeleteClient(Done(Find(clients, MemStore.ClientId, id).Some?)).status != 400
    ensures DeleteClient(Done(Find(clients, MemStore.ClientId, id).Some?)).status == 404 <==>
      forall c | c in clients :: c.id != id
  {
    if Find(clients, MemStore.ClientId, id).None? {
      forall c | c in clients
        ensures c.id != id
      {
        var i :| 0 <= i < |clients| && clients[i] == c;
        assert MemStore.ClientId(clients[i]) != id;
      }
    } else {
      var i := FindIndex(clients, MemStore.ClientId, id);
      assert clients[i] in clients && MemStore.ClientId(clients[i]) == clients[i].id;
    }
  }
}
