# LegalFlow core, modelled in Dafny

LegalFlow is a practice manager for a small law office. It keeps users (the lawyers), clients,
cases and reminders. An Express API serves these records from a storage layer. A React front end
lists, searches and groups them.

This project models the parts of the system that make decisions:

- **The in-memory store** (`MemStore.MemStorage`, from `MemStorage` in server/storage.ts). It is a
  class whose four record lists and shared id counter are fields. Creating, updating, deleting and
  seeding are methods that change them. The read queries are functions of the lists.
  - The store keeps one invariant, `Valid`: each list keeps its records with strictly rising
    ids, every id is below the counter, and no id is held twice, within a list or across lists.
  - Every method preserves `Valid` and states its whole new state.
  - Lemmas relate the queries to one another and to the stored records: the list views are
    permutations, the dashboard counts match the case list, and deletion leaves foreign keys
    dangling.
- **The database-backed store** (`Supabase.SupabaseStorage`). The database is an oracle: each
  operation receives the rows its query returned, or a failure. The model keeps the routing.
  While the connection flag is up and the query succeeds, the database's answer is used.
  Otherwise the in-memory fallback answers. Only `InitializeDatabase` can lower the flag, and
  nothing raises it again.
- **The HTTP handlers** (`Routes`, from server/routes.ts). Each handler is a function from the
  outcome of its storage call to a status code and a JSON body. This covers:
  - the login check;
  - password stripping;
  - the 400, 404, 201 and 500 paths;
  - the client-delete special case.
- **The page helpers of the front end**:
  - the reminder urgency groups (`RemindersPage`);
  - the dashboard's "next three reminders" (`DashboardPage`);
  - the case and client searches (`CasesPage`, `ClientsPage`);
  - initials and avatar colour;
  - the client panel (`ClientDetails`);
  - the reminder form's defaults, select and submit normalisation (`ReminderForm`);
  - the sidebar's active-item rule and theme cycle (`Sidebar`).

Supporting modules:

- `Wrappers` holds `Option`.
- `Seqs` holds generic list operations and their lemmas: `Find`, `FindIndex`, `Filter`, `Count`,
  `Take`, a stable insertion `Sort` proved sorted and a permutation, and `RemoveAt`/`RemoveKey`.
- `Text` holds ASCII case mapping, substring search, splitting on spaces and integer printing and
  parsing.
- `Schema` holds the records of shared/schema.ts and the record-building rules of the store.
- `Display` names the colours and icons the pages choose between.

The model's conventions:

- Timestamps are integers (milliseconds). The current time is a `now` parameter.
- The calendar tests of the reminders page (`isToday`, `isTomorrow`, `isThisWeek`, `isPast`) are
  a `Calendar` of predicates given to the page.
- The record field `type` is called `kind`, because `type` is a Dafny keyword.

## Model

| member | source | states |
|---|---|---|
| Schema.NewUser | server/storage.ts:244-258 | a created user carries the given id and time, the given username and password, and each optional text as given unless it is missing or empty, in which case it is null |
| Schema.NewClient | server/storage.ts:277-289 | a created client's status is the given one or "active" when falsy (never empty); optional texts falsy-to-null |
| Schema.NewCase | server/storage.ts:329-344 | a created case has status "active" and priority "medium" unless given; both timestamps are `now`; a 0 or missing client id becomes null |
| Schema.NewReminder | server/storage.ts:384-399 | a created reminder has type "general", priority "medium" unless given; it is completed exactly when `completed` was given as true; optional texts and the case id falsy-to-null |
| Schema.PatchUser | server/storage.ts:260-266 | an update keeps the user's id and creation time, and an empty update changes nothing |
| Schema.PatchClient | server/storage.ts:291-297 | an update keeps the client's id and creation time, and an empty update changes nothing |
| Schema.PatchCase | server/storage.ts:346-356 | an update keeps id and creation time and always re-stamps `updatedAt`, even for an empty patch |
| Schema.PatchReminder | server/storage.ts:401-407 | an update keeps id and creation time; an empty update changes nothing |
| Schema.PatchClientIdempotent | server/storage.ts:291-297 | applying the same client update twice is applying it once |
| Schema.PatchReminderIdempotent | server/storage.ts:401-407 | applying the same reminder update twice is applying it once |
| MemStore.Embedded | server/storage.ts:311 | a related record is embedded exactly when the foreign key is present, non-zero and some record has that id, and then it is a stored record with that id |
| MemStore.JoinClients | server/storage.ts:309-312 | each case is paired, in order, with its embedded client |
| MemStore.JoinCases | server/storage.ts:368-371 | each reminder is paired, in order, with its embedded case |
| MemStore.ClientsView | server/storage.ts:269-271 | `getClients` is a permutation of the stored clients sorted by `createdAt` descending |
| MemStore.CasesView | server/storage.ts:308-313 | `getCases` is a permutation of the joined cases sorted by `createdAt` descending, and each entry's client is the one its key embeds |
| MemStore.RemindersView | server/storage.ts:367-372 | `getReminders` is a permutation of the joined reminders sorted by `dueDate` ascending, each with the case its key embeds |
| MemStore.CaseView | server/storage.ts:315-323 | `getCase` finds nothing exactly when no case has the id; otherwise a stored case with that id and its embedded client |
| MemStore.ReminderView | server/storage.ts:374-382 | `getReminder` finds nothing exactly when no reminder has the id; otherwise a stored reminder with that id and its embedded case |
| MemStore.CasesOfClient | server/storage.ts:325-327 | `getCasesByClient` keeps exactly the cases whose client id equals the given one, as a sublist in stored order |
| MemStore.Stats | server/storage.ts:418-430 | total cases and clients are the list lengths; active and pending counts never exceed their totals |
| MemStore.CasesViewIsPermutation | server/storage.ts:308-313 | the cases of `getCases` are the stored cases, each exactly once |
| MemStore.RemindersViewIsPermutation | server/storage.ts:367-372 | the reminders of `getReminders` are the stored reminders, each exactly once |
| MemStore.CountPermutation | server/storage.ts:418-430 | a count does not depend on the order of the list |
| MemStore.CountKeys | server/storage.ts:420 | counting records by a test on one field is counting that field's values |
| MemStore.StatsMatchCasesView | server/storage.ts:418-421 | `totalCases` is the length of `getCases` and `activeCases` the number of its entries with status exactly "active" |
| MemStore.PendingAfterCreate | server/storage.ts:384-399 | a new reminder raises the pending count by one exactly when it is open and due after `now` (see also server/storage.ts:422) |
| MemStore.PendingAfterCompleting | server/storage.ts:401-407 | completing a pending reminder lowers the pending count by one; completing any other changes nothing (see also server/storage.ts:422) |
| MemStore.DeletedClientEmbedsNothing | server/storage.ts:299-305 | once a client is removed (ids unique), a case key pointing at it embeds nothing (see also server/storage.ts:311) |
| MemStore.IssuedBelow | server/storage.ts:70-74 | every issued id lies in `[1, counter)` |
| MemStore.UserAdded | server/storage.ts:244-258 | appending a user whose id is the counter keeps the ids issued |
| MemStore.ClientAdded | server/storage.ts:277-289 | the same for a client |
| MemStore.CaseAdded | server/storage.ts:329-344 | the same for a case |
| MemStore.ReminderAdded | server/storage.ts:384-399 | the same for a reminder |
| MemStore.UserUpdated | server/storage.ts:260-266 | replacing a user by one with the same id keeps the ids issued, and the id then finds the new record |
| MemStore.ClientUpdated | server/storage.ts:291-297 | the same for a client |
| MemStore.CaseUpdated | server/storage.ts:346-356 | the same for a case |
| MemStore.ReminderUpdated | server/storage.ts:401-407 | the same for a reminder |
| MemStore.ClientRemoved | server/storage.ts:299-305 | removing a client keeps the ids issued and its id is gone |
| MemStore.CaseRemoved | server/storage.ts:358-364 | removing a case keeps the ids issued and its id is gone |
| MemStore.ReminderRemoved | server/storage.ts:409-415 | removing a reminder keeps the ids issued and its id is gone |
| MemStore.SampleSizes | server/storage.ts:96-208 | the seed data has three clients, three cases and three reminders |
| MemStore.SeedClients | server/storage.ts:121-129 | one client is stored per sample entry |
| MemStore.SeedCases | server/storage.ts:163-174 | one case is stored per sample entry |
| MemStore.SeedReminders | server/storage.ts:210-226 | one reminder is stored per sample entry |
| MemStore.MemStorage.constructor | server/storage.ts:66-70 | a new store is empty with the counter at 1, and valid |
| MemStore.MemStorage.UniqueIds | server/storage.ts:70-74 | in a valid store no two records share an id, within a list or across lists, and all ids are below the counter |
| MemStore.MemStorage.GetUser | server/storage.ts:236-238 | nothing exactly when no user has the id, else a stored user with that id |
| MemStore.MemStorage.GetUserByUsername | server/storage.ts:240-242 | nothing exactly when no user has the username, else the first stored user with it (usernames need not be unique) |
| MemStore.MemStorage.GetClients | server/storage.ts:269-271 | a permutation of the stored clients, newest first |
| MemStore.MemStorage.GetClient | server/storage.ts:273-275 | nothing exactly when no client has the id, else a stored client with that id |
| MemStore.MemStorage.GetCases | server/storage.ts:308-313 | one entry per stored case, a permutation of the joined cases, newest first, each with the client its key names |
| MemStore.MemStorage.GetCase | server/storage.ts:315-323 | nothing exactly when no case has the id, else a stored case with that id and the client its key names |
| MemStore.MemStorage.GetCasesByClient | server/storage.ts:325-327 | an order-preserving sublist of the stored cases holding exactly those of the client |
| MemStore.MemStorage.GetReminders | server/storage.ts:367-372 | one entry per stored reminder, a permutation of the joined reminders, earliest due first, each with the case its key names |
| MemStore.MemStorage.GetReminder | server/storage.ts:374-382 | nothing exactly when no reminder has the id, else a stored reminder with that id and the case its key names |
| MemStore.MemStorage.GetDashboardStats | server/storage.ts:418-430 | the case and client totals are the list lengths; active cases and pending reminders are the counts of those passing the tests, never above the totals |
| MemStore.MemStorage.GenerateId | server/storage.ts:72-74 | returns the counter and advances it by one |
| MemStore.MemStorage.PushUser | server/storage.ts:256 | appends a freshly numbered user and restores validity |
| MemStore.MemStorage.PushClient | server/storage.ts:287 | appends a freshly numbered client and restores validity |
| MemStore.MemStorage.PushCase | server/storage.ts:342 | appends a freshly numbered case and restores validity |
| MemStore.MemStorage.PushReminder | server/storage.ts:397 | appends a freshly numbered reminder and restores validity |
| MemStore.MemStorage.CreateUser | server/storage.ts:244-258 | appends exactly one user built with the fresh id, advances the counter, changes no other list, and `getUser` of the id then returns it |
| MemStore.MemStorage.UpdateUser | server/storage.ts:260-266 | an absent id returns nothing and changes nothing; a present one replaces only that user by its overlay |
| MemStore.MemStorage.CreateClient | server/storage.ts:277-289 | appends exactly one client with the fresh id and defaults; `getClient` then finds it |
| MemStore.MemStorage.UpdateClient | server/storage.ts:291-297 | absent id: nothing, no change; present: only that client replaced by its overlay |
| MemStore.MemStorage.DeleteClient | server/storage.ts:299-305 | returns whether a client had the id, removes exactly that record keeping the rest in order, and checks no dependent cases |
| MemStore.MemStorage.CreateCase | server/storage.ts:329-344 | appends exactly one case with the fresh id and defaults; `getCase` then returns it with its client |
| MemStore.MemStorage.UpdateCase | server/storage.ts:346-356 | absent id: nothing, no change; present: only that case replaced by its overlay, with `updatedAt` set to `now` |
| MemStore.MemStorage.DeleteCase | server/storage.ts:358-364 | returns whether a case had the id, removes exactly it in order, and leaves its reminders in place |
| MemStore.MemStorage.CreateReminder | server/storage.ts:384-399 | appends exactly one reminder with the fresh id and defaults; `getReminder` then returns it with its case |
| MemStore.MemStorage.UpdateReminder | server/storage.ts:401-407 | absent id: nothing, no change; present: only that reminder replaced by its overlay |
| MemStore.MemStorage.DeleteReminder | server/storage.ts:409-415 | returns whether a reminder had the id and removes exactly it, keeping the rest in order |
| MemStore.MemStorage.InitializeDatabase | server/storage.ts:76-233 | seeds only when no user is called "demo_lawyer"; afterwards one exists, so a second call leaves all four lists and the counter unchanged |
| MemStore.MemStorage.SeedDatabase | server/storage.ts:81-224 | the demo user takes the next id; then come the sample clients, cases and reminders with consecutive ids, each case linked to the matching client and each reminder to the matching case |
| MemStore.MemStorage.StoreSampleClients | server/storage.ts:120-129 | the client loop stores one client per entry with consecutive ids |
| MemStore.MemStorage.StoreSampleCases | server/storage.ts:162-174 | the case loop stores one case per entry, linked to the created client at the same position |
| MemStore.MemStorage.StoreSampleReminders | server/storage.ts:210-226 | the reminder loop stores one reminder per entry, due the given number of days on, linked to the created case at the same position |
| Supabase.First | server/storage.ts:593-594 | the first returned row, or nothing exactly when no row came back |
| Supabase.KeepTruthy | server/storage.ts:736-739 | a joined record is kept exactly when it is there and has a non-zero id (see also server/storage.ts:881-884) |
| Supabase.JoinEmbedsLikeMemory | server/storage.ts:311 | a left join filtered by a truthy id embeds the same record as the in-memory lookup (see also server/storage.ts:736-739) |
| Supabase.CaseRows | server/storage.ts:736-739 | each joined case row is mapped, in order |
| Supabase.ReminderRows | server/storage.ts:881-884 | each joined reminder row is mapped, in order |
| Supabase.CasesJoinClients | server/storage.ts:711-734 | the left join pairs each case with the client whose id is its non-null key |
| Supabase.RemindersJoinCases | server/storage.ts:852-879 | the left join pairs each reminder with the case whose id is its non-null key |
| Supabase.CaseRowsMatchMemory | server/storage.ts:308-313 | over the same records the database's case list equals the in-memory join entry for entry (see also server/storage.ts:706-745) |
| Supabase.ReminderRowsMatchMemory | server/storage.ts:367-372 | over the same records the database's reminder list equals the in-memory join (see also server/storage.ts:847-889) |
| Supabase.DatabaseStatsAgainstMemory | server/storage.ts:418-430 | the database agrees on the case and client counts but counts every open reminder as pending, so, for reminders without a `null` completed flag, its pending count is never lower, and equal exactly when no open reminder is already due (see also server/storage.ts:979-1001) |
| Supabase.SupabaseStorage.constructor | server/storage.ts:436-439 | the flag is up exactly when the connection was set up and initialisation succeeded; otherwise the fallback has been seeded |
| Supabase.SupabaseStorage.InitializeDatabase | server/storage.ts:441-586 | a failure or a missing connection lowers the flag for good and seeds the fallback; success leaves the fallback untouched |
| Supabase.SupabaseStorage.GetUser | server/storage.ts:588-599 | the first row while connected and the query succeeds; otherwise the fallback's answer |
| Supabase.SupabaseStorage.GetUserByUsername | server/storage.ts:601-612 | the same routing for the username lookup |
| Supabase.SupabaseStorage.GetClients | server/storage.ts:641-651 | the same routing for the client list |
| Supabase.SupabaseStorage.GetClient | server/storage.ts:653-664 | the same routing for one client |
| Supabase.SupabaseStorage.GetCases | server/storage.ts:706-745 | from the database, the mapped rows, where no embedded client has id 0; otherwise the fallback's list |
| Supabase.SupabaseStorage.GetCase | server/storage.ts:747-790 | from the database, nothing for no rows, else the first row mapped; otherwise the fallback |
| Supabase.SupabaseStorage.GetCasesByClient | server/storage.ts:792-802 | the same routing for a client's cases |
| Supabase.SupabaseStorage.GetReminders | server/storage.ts:847-889 | from the database, the mapped rows, where no embedded case has id 0; otherwise the fallback's list |
| Supabase.SupabaseStorage.GetReminder | server/storage.ts:891-937 | from the database, nothing for no rows, else the first row mapped; otherwise the fallback |
| Supabase.SupabaseStorage.GetDashboardStats | server/storage.ts:979-1001 | from the database, the first count of each query or 0; otherwise the fallback's figures |
| Supabase.SupabaseStorage.ReadsWhileDisconnected | server/storage.ts:588-1001 | with the flag down, every read is the fallback's, whatever the database would return |
| Supabase.SupabaseStorage.CreateUser | server/storage.ts:614-625 | the database's first row, leaving the fallback untouched, or else the fallback's create: the new user, numbered with the fallback's counter, appended, and the counter advanced by one |
| Supabase.SupabaseStorage.UpdateUser | server/storage.ts:627-639 | the same routing for a user update |
| Supabase.SupabaseStorage.CreateClient | server/storage.ts:666-677 | the same routing for a client create, the fallback's counter advancing by one |
| Supabase.SupabaseStorage.UpdateClient | server/storage.ts:679-690 | the same routing for a client update |
| Supabase.SupabaseStorage.DeleteClient | server/storage.ts:692-704 | from the database, whether a row was affected; otherwise the fallback's delete |
| Supabase.SupabaseStorage.CreateCase | server/storage.ts:804-815 | the same routing for a case create, the fallback's counter advancing by one |
| Supabase.SupabaseStorage.UpdateCase | server/storage.ts:817-831 | the same routing for a case update |
| Supabase.SupabaseStorage.DeleteCase | server/storage.ts:833-845 | the same routing for a case delete |
| Supabase.SupabaseStorage.CreateReminder | server/storage.ts:939-950 | the same routing for a reminder create, the fallback's counter advancing by one |
| Supabase.SupabaseStorage.UpdateReminder | server/storage.ts:952-963 | the same routing for a reminder update |
| Supabase.SupabaseStorage.DeleteReminder | server/storage.ts:965-977 | the same routing for a reminder delete |
| Routes.StripPassword | server/routes.ts:19-20 | every field but the password is kept |
| Routes.WithPassword | server/routes.ts:19-20 | puts a password back |
| Routes.StripPasswordKeepsTheRest | server/routes.ts:19-20 | stripping then restoring the password gives the user back; two users strip alike exactly when they differ at most in password (see also server/routes.ts:291-293) |
| Routes.Login | server/routes.ts:9-24 | 200 exactly when a user was found and its stored password equals the supplied one, with the stripped user; otherwise 401 "Invalid credentials"; a storage failure is 500 "Login failed" |
| Routes.LoginAgainstUsers | server/routes.ts:12-16 | against the in-memory users, a login succeeds exactly when the first user with that username has that password (see also server/storage.ts:240-242) |
| Routes.LoginWithUniqueUsernames | server/routes.ts:12-16 | with unique usernames, a login succeeds exactly when some user has both the username and the password |
| Routes.Fetch | server/routes.ts:27-44 | lists and statistics are 200 with the value, or 500 with the handler's message (see also server/routes.ts:109-116, server/routes.ts:133-141, server/routes.ts:202-209) |
| Routes.FetchOne | server/routes.ts:46-59 | 404 "X not found" exactly when storage yields nothing, 200 with the record when it yields one, 500 "Failed to fetch x" on failure (see also server/routes.ts:118-131, server/routes.ts:211-224) |
| Routes.FetchClientAgainstMemory | server/routes.ts:118-131 | against the in-memory clients, 404 exactly when no client has the id; otherwise a stored client with that id |
| Routes.Create | server/routes.ts:61-72 | 400 with the issues exactly when validation fails; 201 with the created record exactly when validation passes and storage succeeds; otherwise 500 (see also server/routes.ts:143-154, server/routes.ts:226-241) |
| Routes.CreateSkipsStorageWhenInvalid | server/routes.ts:63-69 | a request that fails validation gets the same reply whatever storage would do |
| Routes.Update | server/routes.ts:74-91 | 400 exactly when validation fails, 404 exactly when the update yields nothing, 200 with the record when it yields one, otherwise 500 (see also server/routes.ts:156-173, server/routes.ts:243-260) |
| Routes.UpdateSkipsStorageWhenInvalid | server/routes.ts:76-87 | a request that fails validation gets the same reply whatever storage would do |
| Routes.UpdateProfile | server/routes.ts:281-300 | as an update, with the user sent without its password |
| Routes.UpdateProfileIsStrippedUpdate | server/routes.ts:281-300 | the profile reply is the generic update reply with the password stripped |
| Routes.Delete | server/routes.ts:93-106 | 404 exactly when storage removed nothing, 200 with "X deleted successfully" exactly when it removed the record, 500 on failure (see also server/routes.ts:262-278) |
| Routes.DeleteClient | server/routes.ts:175-199 | an error with exactly the message "Cannot delete client with associated cases" is 400; any other failure is 500; everything else as `Delete` |
| Routes.DeleteClientAgainstMemory | server/routes.ts:175-199 | against the in-memory store a client delete is never 400, and 404 exactly when no client has the id (see also server/storage.ts:299-305) |
| RemindersPage.GroupsPartitionOpenReminders | client/src/pages/Reminders.tsx:104-122 | the three groups are order-preserving sublists, pairwise disjoint, and together exactly the open reminders; urgent means "urgent" priority, due today or overdue |
| RemindersPage.GroupsHoldOnlyOpenReminders | client/src/pages/Reminders.tsx:104-122 | no group holds a completed reminder or anything not on the page |
| RemindersPage.Urgent | client/src/pages/Reminders.tsx:104-110 | exactly the page's reminders that are open and urgent, due today or overdue |
| RemindersPage.ThisWeek | client/src/pages/Reminders.tsx:112-117 | exactly the open, non-urgent reminders due this week |
| RemindersPage.Upcoming | client/src/pages/Reminders.tsx:118-122 | exactly the open reminders in neither other group |
| RemindersPage.DateColor | client/src/pages/Reminders.tsx:90-101 | red exactly when overdue or due today, yellow exactly when otherwise due tomorrow, green otherwise |
| RemindersPage.ReminderIcon | client/src/pages/Reminders.tsx:36-44 | each icon exactly for its types, the calendar for every other type |
| RemindersPage.PriorityColor | client/src/pages/Reminders.tsx:46-59 | each colour exactly for its lower-cased priority, slate for unknown ones |
| RemindersPage.PriorityColorIgnoresCase | client/src/pages/Reminders.tsx:46-59 | the priority colour does not depend on letter case |
| DashboardPage.UpcomingReminders | client/src/pages/Dashboard.tsx:47-53 | at most three entries, and no more than there are open reminders |
| DashboardPage.UpcomingAreOpenAndOrdered | client/src/pages/Dashboard.tsx:47-53 | the upcoming list has min(3, open count) entries, all open reminders of the list, in non-decreasing due date |
| DashboardPage.UpcomingLeaveOutLaterOnes | client/src/pages/Dashboard.tsx:49-52 | any open reminder left out is due no earlier than the last one shown, and then three are shown |
| DashboardPage.RecentCases | client/src/pages/Dashboard.tsx:42-45 | the first up-to-three cases in server order |
| DashboardPage.PriorityColor | client/src/pages/Dashboard.tsx:79-92 | each colour exactly for its lower-cased priority, gray otherwise |
| DashboardPage.PriorityColorIgnoresCase | client/src/pages/Dashboard.tsx:79-92 | the priority colour does not depend on letter case |
| CasesPage.FilteredCases | client/src/pages/Cases.tsx:72-81 | only cases of the list that the search and both filters let through |
| CasesPage.FilteredCasesAreTheMatches | client/src/pages/Cases.tsx:72-81 | an order-preserving sublist keeping a case exactly when the search matches and each filter is "all" or equals the field |
| CasesPage.SearchIgnoresCase | client/src/pages/Cases.tsx:73-75 | an upper-cased term finds the same cases |
| CasesPage.NoFilterShowsAll | client/src/pages/Cases.tsx:72-81 | an empty term with both filters "all" keeps every case in order |
| CasesPage.CaseIcon | client/src/pages/Cases.tsx:44-55 | the handshake for estate law and the building for corporate law, in any case; the gavel otherwise |
| CasesPage.StatusColor | client/src/pages/Cases.tsx:57-70 | each colour exactly for its lower-cased status, gray otherwise; the dashboard's `getStatusColor` names the same colour for every status, so it uses this function (see also client/src/pages/Dashboard.tsx:64-77) |
| CasesPage.CaseIconIgnoresCase | client/src/pages/Cases.tsx:44-55 | the icon does not depend on letter case |
| CasesPage.StatusColorIgnoresCase | client/src/pages/Cases.tsx:57-70 | the status colour does not depend on letter case |
| ClientsPage.FilteredClients | client/src/pages/Clients.tsx:67-71 | only clients of the list that the search lets through |
| ClientsPage.FilteredClientsAreTheMatches | client/src/pages/Clients.tsx:67-71 | an order-preserving sublist keeping a client exactly when the term occurs in its name, email or phone, ignoring case; an empty term keeps all |
| ClientsPage.Initials | client/src/pages/Clients.tsx:34-41 | at most two characters |
| ClientsPage.InitialsAreWordStarts | client/src/pages/Clients.tsx:34-41 | at most two characters, with no lower-case letter: the upper-cased first letters of the words in order, empty words giving nothing |
| ClientsPage.AvatarColor | client/src/pages/Clients.tsx:43-54 | for a non-empty name, the colour at the first character's code modulo six, always one of the six |
| ClientsPage.StatusColor | client/src/pages/Clients.tsx:56-65 | green exactly for "active" in any letter case, gray otherwise |
| ClientsPage.StatusColorIgnoresCase | client/src/pages/Clients.tsx:56-65 | the status colour does not depend on letter case |
| ClientDetails.ClientCases | client/src/components/ClientDetails.tsx:39 | exactly the cases of the list whose client id is the client's |
| ClientDetails.ShowPanel | client/src/components/ClientDetails.tsx:39-71 | the count is the number of the client's cases, the preview their first two, and the helpers are the clients page's (see also client/src/components/ClientDetails.tsx:157-162) |
| ClientDetails.PanelShowsTheClientsCases | client/src/components/ClientDetails.tsx:39 | the panel's cases are exactly those with the client's id, in list order; the preview holds min(2, count) of them; the initials are at most two (see also client/src/components/ClientDetails.tsx:157, client/src/components/ClientDetails.tsx:162) |
| ReminderForm.Submit | client/src/components/ReminderForm.tsx:78-91 | a case id becomes null exactly when absent or 0; `completed` defaults to false only when absent; empty or missing description and location become null; title, type, priority and due date pass through |
| ReminderForm.SubmitIdempotent | client/src/components/ReminderForm.tsx:78-91 | normalising twice is normalising once |
| ReminderForm.SubmitAgreesWithStore | client/src/components/ReminderForm.tsx:78-91 | the in-memory store builds the same reminder whether or not the form normalised it (see also server/storage.ts:384-399) |
| ReminderForm.SelectValue | client/src/components/ReminderForm.tsx:206 | "none" exactly when there is no case id; otherwise a text that `parseInt` reads back as the id |
| ReminderForm.OnSelect | client/src/components/ReminderForm.tsx:206 | "none" clears the case id; any other option sets it to the parsed integer |
| ReminderForm.SelectRoundTrip | client/src/components/ReminderForm.tsx:206 | choosing the option shown for a case id gives that case id back |
| ReminderForm.OptionsGiveCaseIds | client/src/components/ReminderForm.tsx:206-222 | choosing a listed option gives no case or the id of a listed case, never NaN |
| ReminderForm.Defaults | client/src/components/ReminderForm.tsx:64-76 | title, description and location are the given non-empty text or ""; type and priority the given non-empty text or "general" and "medium", so never empty; the due date the given one whatever instant it holds, else `now`; completed exactly when given true; the case id the given non-zero one or none |
| ReminderForm.DefaultsWithoutInitialData | client/src/components/ReminderForm.tsx:66-75 | without initial data: empty texts, due now, "general", "medium", not completed, no case |
| ReminderForm.UntouchedEditRebuildsReminder | client/src/components/ReminderForm.tsx:64-91 | the form's defaults and normalisation lose no field of a stored reminder: given its own id and creation time, `NewReminder` rebuilds it from the untouched form's data (the pages themselves never pass `initialData`) |
| Sidebar.IsActive | client/src/components/Sidebar.tsx:51-52 | the root item is active only at "/", another item exactly when the location starts with its href |
| Sidebar.NoSegmentBoundary | client/src/components/Sidebar.tsx:51-52 | "/casesX" activates the Cases item |
| Sidebar.ActiveItems | client/src/components/Sidebar.tsx:19-52 | exactly the positions of the items active at the location |
| Sidebar.AtMostOneActive | client/src/components/Sidebar.tsx:19-52 | at most one of the five items is active at any location |
| Sidebar.ActiveItemSignature | client/src/components/Sidebar.tsx:19-52 | an active root item means the location is "/"; another means the location's third character is the item's, and the items' third characters differ |
| Sidebar.NextTheme | client/src/components/Sidebar.tsx:81-85 | light to dark, dark to system, anything else to light |
| Sidebar.ThemeCycle | client/src/components/Sidebar.tsx:81-85 | three presses from light, dark or system return to the start, and one press always lands among the three |
| Text.Lower | client/src/pages/Clients.tsx:68-70 | ASCII `toLowerCase`, character by character |
| Text.Upper | client/src/pages/Clients.tsx:39 | ASCII `toUpperCase`, character by character |
| Text.ContainsIsOccurrence | client/src/pages/Cases.tsx:73-75 | `includes` holds exactly when the term occurs at some position |
| Text.MatchesTextIsOccurrence | client/src/pages/Clients.tsx:68-70 | a field matches exactly when it is present and the lower-cased term occurs in it lower-cased |
| Text.FirstCharsOfSplit | client/src/pages/Clients.tsx:36-38 | the first characters of the space-separated words are the characters that follow a space or the start |
| Text.ParseInt | client/src/components/ReminderForm.tsx:206 | after an optional sign, a `0x`/`0X` prefix reads hexadecimal digits and anything else decimal digits; a number exactly when at least one such digit follows; negative only after a minus sign |
| Text.ParseIntReadsHexPrefix | client/src/components/ReminderForm.tsx:206 | "0x1f" is 31 and "-0X1F" is -31 |
| Text.ParseIntNeedsADigit | client/src/components/ReminderForm.tsx:206 | "0xZ" and "x1" are NaN |
| Text.ParseIntStopsAtNonDigit | client/src/components/ReminderForm.tsx:206 | "12ab" is 12 |
| Text.ParseIntOfIntToString | client/src/components/ReminderForm.tsx:206 | `parseInt` of a printed integer gives it back |
| Seqs.Sort | server/storage.ts:270 | the same length and the same elements with their multiplicities, and each element in order with the next |
| Seqs.SortIsSorted | server/storage.ts:270 | the sort's result is ordered by the key between every two positions, not only neighbouring ones (see also server/storage.ts:312, server/storage.ts:371) |
| Seqs.RemoveKeyKeepsOthers | server/storage.ts:299-305 | with unique keys, removing by key keeps exactly the records whose key differs |

## Left out

- Database I/O. The SQL queries, the connection setup, `Promise.all` and `returning()` are not modelled. Each query's outcome is a parameter: its rows, or a failure. Only the routing on the connection flag and the mapping of joined rows are modelled.
- Database seeding. The seeding statements `SupabaseStorage.initializeDatabase` sends to the database are one opaque outcome. Only their success or failure is modelled.
- The un-awaited `initializeDatabase` in the `SupabaseStorage` constructor. Because it is not awaited, requests can in the source interleave with it. The model runs it to completion inside the constructor. Concurrency among requests is not modelled either.
- Path parameters. `parseInt(req.params.id)` is not modelled. Handlers receive the storage call's outcome. An id that parses to NaN finds no record in the source, so it is one more case of "not found".
- The request body of the login. A missing `password` is `None`.
- Console logging. It has no effect on any result.
- Clocks and dates. `new Date()` is a `now` parameter. The date-fns calendar tests are abstract predicates.
- Display formatting. `formatReminderDate`, `format` and `toISOString` are not modelled. Neither is the rest of JSX rendering, toasts and dialogs.
- Colours and icons. CSS class strings are abstracted to the colour or icon they name (`Display.Tone`, `Display.Icon`).
- `getTypeColor` in Reminders.tsx and `getCaseIcon` in Dashboard.tsx are not modelled. They are display mappings with no property beyond their tables.
- Unicode. Case mapping covers ASCII letters only. Characters are Dafny `char`s, not UTF-16 code units. `charCodeAt` of a character outside the first plane differs from `name[0] as int`.
- `ClientsPage.AvatarColor` gives no colour for an empty name, where the source indexes with NaN and gets `undefined`.
- Text.ParseInt: does not skip leading whitespace. Only option values the form itself prints reach it.
- `Reminder.completed` is a plain boolean, although the column is nullable and an update can store `null` (shared/schema.ts:48, server/storage.ts:957). A `null` is folded into `false`. That is exact for the in-memory store's pending count and for the pages, which all test `!completed`. It is not exact for the database's pending count, which tests `completed = false` and so leaves a `null` out (server/storage.ts:988).
- `Seqs.SortIsSorted` does not state that the sort is stable. JavaScript's sort is stable, and the model's insertion sort is too, but ties are not specified.
- Supabase.CasesJoinClients: database row order and duplicate ids in a joined table are not modelled, so the join finds the first record with the key.
- Supabase.DatabaseStatsAgainstMemory: holds only for reminders whose `completed` is not `null`. The database counts a reminder as pending when `completed` is false, whatever its due date; the in-memory store counts it when `!completed` and it is due after `now`. A `null` reminder due after `now` is pending in memory but not in the database, so with such reminders the database figure can also be lower.
- Routes.DeleteClient: the 400 branch cannot be reached from either store, because neither throws the message it checks for. The handler models it, and `Routes.DeleteClientAgainstMemory` states that it is unreachable from the in-memory store.
- Passwords are stored and compared in clear, as in the source. Hashing is not part of the system.
- The Django backend (backend/) is a different server. It is not part of this model.
- The validation schemas are not modelled. Validation is a `Parsed` value: the data, or the issues. Only the record shapes and defaults of shared/schema.ts are used.
- The React query hooks, AuthContext, Login, the other forms and MobileNav/Profile are not part of this model. MobileNav and Profile repeat the sidebar and initials helpers modelled here.
