# DormFix maintenance tickets in Dafny

DormFix is a dormitory maintenance app. Residents file repair tickets.
Technicians accept, resolve or give them back. An admin assigns
technicians, manages accounts and watches per-technician ratings.

This project models two halves of the app and proves properties about them.

- **The Express server (`server.js`).** The ticket and user tables are maps
  inside one `Database` class. Each route handler is a method that returns
  an error kind (400, 401, 403, 404, 409) or the new row. The pure rules
  they rest on are functions: the ticket patch, the listing filter, the
  delete rule, the account checks, the profile permission matrix and the
  rating aggregation.
- **The React client.** The ticket page, the admin's account page, the
  profile page, the new-ticket form and the chat panel are classes whose
  fields are the components' state cells. Their handlers call the
  `Database` methods. The guards, flags, request bodies, counts and small
  helpers are functions.

The central result lives in `Lifecycle`. A ticket stays consistent under
any sequence of requests built only by the ticket page's guarded
handlers, applied with the server's patch semantics:

- a rating exists only on a `Resolved` ticket, and only in 1..5;
- a technician is present exactly on `In-Progress` and `Resolved` tickets;
- a ticket is rated at most once.

The `Server…` lemmas in the same module show that the server by itself
guarantees none of these. It accepts a rating on a pending ticket,
re-rates a rated one, assigns a technician to a pending ticket and lets
a second accept overwrite the first.

Modules, one per source component:

- `Common`: the error kinds, the status and role strings, and JavaScript's `trim`.
- `ServerTickets`: ticket rows, the partial-update semantics, the listing filter and order, and the delete rule.
- `ServerUsers`: user rows, login matching, account-creation checks and the profile-update rules.
- `ServerRatings`: the per-technician rating table.
- `ServerDatabase`: the `Database` class, with one method per route.
- `TicketDetail` and `TicketDetailPage`: the ticket page's guards, the requests its handlers send and the timeline. The page class calls the server.
- `Lifecycle`: the trace invariants, and the lemmas about the server alone.
- `UsersPage`: the admin's account page.
- `ProfilePage`: the own-account page.
- `CreateTicketPage`: the new-ticket form.
- `Dashboard`: the status counts.
- `TicketChat`: the chat panel.
- `AuthContext`: the session cell and its storage.
- `StarRating`: the star widget.
- `Api`: the image URL builder.

Where the client and the server disagree, the model follows the server:

- The edit dialog of `Users.jsx` offers the role and the phone, but
  PUT /api/users/:id never writes either (server.js:326-347).
  `ServerUsers.RoleOrPhoneOnlyEditRefused` and
  `UsersPage.RoleOrPhoneEditRefused` show that an edit carrying only those
  fields is refused with 400.
- The create form of `Users.jsx` sends a phone, but POST /api/users ignores
  it. The route also does not check who the requester is.
- GET /api/users does not select the phone. The account page's phone
  comparison is therefore always against the empty string.

## Model

| member | source | states |
|---|---|---|
| Common.Trim | client/src/pages/TicketDetail.jsx:135 | `trim()` yields the empty string exactly when every character is JavaScript whitespace, and a non-empty result neither starts nor ends with whitespace |
| Common.TrimStart | client/src/components/TicketChat.jsx:49 | the leading run removed is all whitespace, the rest is a suffix of the input, and it does not start with whitespace |
| Common.TrimEnd | client/src/components/TicketChat.jsx:54 | the trailing run removed is all whitespace, the rest is a prefix of the input, and it does not end with whitespace |
| Common.TrimParts | client/src/pages/CreateTicket.jsx:39 | trimming both ends gives the empty string exactly for a blank input |
| ServerTickets.OrNull | server.js:135 | `x \|\| null`: null exactly for the empty string, else the string itself |
| ServerTickets.NewTicket | server.js:130-138 | a new row is Pending with no technician, no after-photo, no rating, review or cancel reason, and keeps title, creator, before-photo and creation time; empty description and room become NULL |
| ServerTickets.NewestExists | server.js:90 | every non-empty set of rows has a newest one, so ORDER BY created_at DESC is defined |
| ServerTickets.NewestFirst | server.js:90 | the rows of a set of ids listed once each, newest first |
| ServerTickets.ConsNewest | server.js:90 | putting the newest row before a newest-first listing of the others gives a newest-first listing of all |
| ServerTickets.IdsOfMember | server.js:92-93 | every listed row's id is among the listing's ids |
| ServerTickets.Visible | server.js:81-88 | a user sees exactly the tickets they created, a technician exactly the unassigned ones and those assigned to them, any other role every ticket |
| ServerTickets.Listing | server.js:67-98 | the listing holds exactly the visible rows, each once, newest first: a user sees their own tickets, a technician those assigned to them or unassigned, any other role all |
| ServerTickets.Patched | server.js:155-185 | a present status, rating, review or cancel reason is written as sent, and an absent one keeps its value; an absent `technician_id` keeps the technician, `null` or `'null'` clears it, and an id replaces it; an upload becomes the after-photo, and without one it stays; the other columns never change |
| ServerTickets.MayDelete | server.js:224-235 | an admin may delete any ticket; a user exactly a Pending ticket they created; any other role none |
| ServerTickets.UpdateOutcome | server.js:147-195 | 404 exactly for an unknown id, 400 exactly when nothing is present, otherwise the patched row |
| ServerTickets.AssignAllSnoc | server.js:191-195 | executing a SET list extended by one entry is executing the list, then the entry |
| ServerTickets.BuildAssignments | server.js:159-189 | the SET list built push by push is empty exactly when nothing is present, and executing it gives the patched row |
| ServerTickets.PushWorkflowColumns | server.js:162-173 | the status, technician and after-photo pushes give the row with those three columns patched, and push nothing exactly when none is present |
| ServerTickets.PushReviewColumns | server.js:174-185 | the rating, review and cancel-reason pushes write exactly the present ones |
| ServerTickets.Push | server.js:163-164 | one push appends one entry, and the executed row follows |
| ServerTickets.UpdateAcceptsAnyStatusAndRating | server.js:162-177 | any status string and any rating integer are stored on any existing ticket |
| ServerTickets.SecondAcceptOverwrites | server.js:162-169 | two accepts both succeed, and the second technician replaces the first |
| ServerUsers.AccountOf | server.js:53 | the login reply is the row's id, username, role, name and avatar |
| ServerUsers.NewUserCheck | server.js:262-273 | no error exactly when all four fields are present, the role is user or technician and the username is free; 400 exactly for a missing field or another role; 409 exactly for a taken username otherwise |
| ServerUsers.Edited | server.js:326-347 | id, role and phone never change; an admin editing themself changes at most the avatar; otherwise a new username and a non-empty name or password are written as sent, and nothing else changes those three; an upload becomes the avatar, and without one it stays |
| ServerUsers.ApplyUserAllSnoc | server.js:353-354 | executing a SET list extended by one entry is executing the list, then the entry |
| ServerUsers.BuildUserAssignments | server.js:312-347 | the SET list is empty exactly when nothing is written, and executing it gives the edited row |
| ServerUsers.PushUser | server.js:329-330 | one push appends one entry, and the executed row follows |
| ServerUsers.ProfileOutcome | server.js:288-351 | 404 exactly for an unknown target; 403 exactly when the requester is neither the target nor an admin, or is an admin editing another admin without a username clash; 409 exactly for a new username another row holds; 400 exactly when nothing would be written; otherwise the edited row |
| ServerUsers.ProfilePermissions | server.js:300-336 | an accepted update targets an existing user and comes from the target or an admin, never from an admin on another admin |
| ServerUsers.AdminSelfEditsOnlyAvatar | server.js:326-331 | an admin's accepted edit of themself changes only the avatar |
| ServerUsers.ProfileKeepsUsernamesUnique | server.js:318-324 | an accepted update keeps usernames unique |
| ServerUsers.RoleOrPhoneOnlyEditRefused | server.js:332-351 | an admin's edit of a non-admin with no username, name or password and no upload is refused with 400 |
| ServerRatings.RatedFor | server.js:387 | the rated tickets of a technician are among their assigned tickets |
| ServerRatings.RatingSumRemove | server.js:388 | the rating sum over a set is one member's rating plus the sum over the rest, whichever member is taken |
| ServerRatings.SubsetNoLarger | server.js:387-389 | a subset has no more members than its superset |
| ServerRatings.RatingRow | server.js:384-393 | total_tickets counts the assigned tickets and total_ratings the rated ones, so total_ratings ≤ total_tickets; the average is null exactly when there is no rating and is otherwise the sum over the count |
| ServerRatings.TechnicianRatings | server.js:390-393 | one row for exactly every user whose role is technician |
| ServerRatings.IdleTechnician | server.js:391 | a technician with no tickets still has a row, with zero counts and a null average |
| ServerRatings.FirstRating | server.js:387-389 | rating a ticket of a technician with no ratings yet gives them one rating equal to the stars, with the ticket count unchanged |
| ServerDatabase.Database.constructor | server.js:33-41 | the tables start as given, with the next ids above every existing id |
| ServerDatabase.Database.Login | server.js:46-64 | 400 exactly for a missing username or password; 401 exactly when no row matches both; otherwise the matching row without password and phone |
| ServerDatabase.Database.GetTicket | server.js:101-121 | the row for a known id, else 404 |
| ServerDatabase.Database.CreateTicket | server.js:124-144 | 400 exactly for a missing title or creator; otherwise the new row is inserted under a fresh id and returned, and nothing else changes |
| ServerDatabase.Database.UpdateTicket | server.js:147-212 | the reply is `UpdateOutcome`; on success only the addressed row changes, on error nothing |
| ServerDatabase.Database.DeleteTicket | server.js:215-243 | 404 for an unknown id; allowed for an admin, or for a user who created a Pending ticket, and then only that row is removed; otherwise 403 and the row stays |
| ServerDatabase.Database.CreateUser | server.js:259-285 | the reply is the first failing check of `NewUserCheck`, or the inserted row under a fresh id without its password; usernames stay unique |
| ServerDatabase.Database.UpdateUser | server.js:288-365 | the reply is the profile outcome without password and phone; on success only the target row changes, on error nothing |
| ServerDatabase.Database.Technicians | server.js:368-378 | the entries are exactly the id, username and name of every technician |
| ServerDatabase.Reply | server.js:356-360 | a row reply leaves out password and phone; an error passes through |
| ServerDatabase.NewUserKeepsUsernamesUnique | server.js:269-278 | inserting a free username under a new id keeps usernames unique |
| TicketDetail.CanDeleteMatchesServer | client/src/pages/TicketDetail.jsx:258-260 | the page offers delete exactly when the server's delete rule allows it |
| TicketDetail.RatedNotRateable | client/src/pages/TicketDetail.jsx:262-266 | a ticket with a non-zero rating is never offered for rating again |
| TicketDetail.ResolveAndCancelTogether | client/src/pages/TicketDetail.jsx:271-279 | resolve and cancel are offered under the same condition |
| TicketDetail.AcceptAndAssignExclusive | client/src/pages/TicketDetail.jsx:268-282 | no viewer is offered both accept and assign |
| TicketDetail.Sent | client/src/pages/TicketDetail.jsx:116-220 | each handler's request: accept sends In-Progress with the viewer; assign sends nothing until a technician is chosen, then In-Progress with them; cancel sends nothing for a blank reason, else Pending with null technician and the reason; resolve sends Resolved with the chosen photo; rate sends nothing for 0 stars, else exactly rating and review |
| TicketDetail.SentRequestsAccepted | client/src/pages/TicketDetail.jsx:120-193 | every request a handler sends is accepted by the server and yields the patched row |
| TicketDetail.PastSteps | client/src/pages/TicketDetail.jsx:419-426 | the steps marked past are among the three steps and are past for the status |
| TicketDetail.TimelinePastPrefix | client/src/pages/TicketDetail.jsx:419-426 | the past steps are a prefix of Pending, In-Progress, Resolved ending at the current status, and Pending is always past |
| Lifecycle.Step | client/src/pages/TicketDetail.jsx:116-220 | an action whose handler sends nothing leaves the ticket unchanged |
| Lifecycle.NewTicketConsistent | server.js:132-136 | a new ticket is consistent |
| Lifecycle.StepPreserves | client/src/pages/TicketDetail.jsx:258-282 | a guarded action applied with the server's patch keeps a ticket consistent |
| Lifecycle.StepKeepsRating | client/src/pages/TicketDetail.jsx:262-266 | only a sent rating changes the rating, and a rated ticket keeps its rating |
| Lifecycle.RunPreserves | client/src/pages/TicketDetail.jsx:258-282 | every sequence of guarded actions keeps a ticket consistent |
| Lifecycle.RunKeepsRating | client/src/pages/TicketDetail.jsx:262-266 | after a rating, no sequence of guarded actions sends another one or changes it |
| Lifecycle.RatedAtMostOnce | client/src/pages/TicketDetail.jsx:262-266 | every sequence of guarded actions sends at most one rating, and none for a ticket already rated |
| Lifecycle.SecondAcceptRefused | client/src/pages/TicketDetail.jsx:268-269 | after one accept, the page offers no second accept |
| Lifecycle.ServerRatesUnresolved | server.js:174-177 | the server alone stores a rating on a Pending ticket, breaking consistency |
| Lifecycle.ServerRerates | server.js:174-177 | the server alone replaces an existing rating |
| Lifecycle.ServerAssignsPending | server.js:166-169 | the server alone assigns a technician to a Pending ticket, breaking consistency |
| Lifecycle.ServerAcceptsSecondAccept | server.js:162-169 | the server accepts a second technician's accept that the page would not send |
| TicketDetailPage.StepKeepsAllConsistent | client/src/pages/TicketDetail.jsx:116-220 | a guarded action on one row keeps the whole table consistent |
| TicketDetailPage.TicketDetailPage.constructor | client/src/pages/TicketDetail.jsx:52-72 | the page mounts with no ticket, no error, zero stars and empty inputs |
| TicketDetailPage.TicketDetailPage.FetchTicket | client/src/pages/TicketDetail.jsx:81-91 | a known ticket becomes the page's current copy; an unknown one sets the not-found error |
| TicketDetailPage.TicketDetailPage.ClickStar | client/src/pages/TicketDetail.jsx:595 | a star click sets the chosen rating |
| TicketDetailPage.TicketDetailPage.Submit | client/src/pages/TicketDetail.jsx:120-127 | a PUT's reply replaces the page's ticket and the row, or sets the server's error and changes nothing |
| TicketDetailPage.TicketDetailPage.HandleAccept | client/src/pages/TicketDetail.jsx:116-131 | the table becomes what the server makes of the accept request; with a current copy, the row becomes the accepted ticket and the table stays consistent |
| TicketDetailPage.TicketDetailPage.HandleAssignTech | client/src/pages/TicketDetail.jsx:204-220 | the table becomes what the server makes of the request sent (none without a selection); with a current copy, the row becomes the assigned ticket and the table stays consistent |
| TicketDetailPage.TicketDetailPage.HandleCancelRepair | client/src/pages/TicketDetail.jsx:134-156 | a blank reason is refused locally; otherwise the table becomes what the server makes of the cancel request; with a current copy, the row goes back to Pending, the panel closes, the reason is cleared, and the table stays consistent |
| TicketDetailPage.TicketDetailPage.HandleResolve | client/src/pages/TicketDetail.jsx:159-182 | without a photo it is refused locally; otherwise the table becomes what the server makes of the resolve request; with a current copy, the row is resolved, the photo is cleared, and the table stays consistent |
| TicketDetailPage.TicketDetailPage.HandleRate | client/src/pages/TicketDetail.jsx:185-201 | zero stars are refused locally; otherwise the table becomes what the server makes of the rating request; with a current copy, the rating and review are stored and the table stays consistent |
| TicketDetailPage.TicketDetailPage.HandleDelete | client/src/pages/TicketDetail.jsx:100-113 | nothing happens unless confirmed; a confirmed delete removes the row and leaves the page exactly when the server's delete rule allows it, and otherwise changes nothing; with a current copy it is always allowed |
| UsersPage.Listed | server.js:249 | a listed account carries its password and avatar but no phone |
| UsersPage.FromAccount | server.js:280 | an entry built from a reply has no password and no phone |
| UsersPage.ReplaceById | client/src/pages/Users.jsx:158 | the list keeps its length; entries with the returned id become the reply, all others stay |
| UsersPage.Ids | client/src/pages/Users.jsx:158 | the ids of the list, in order |
| UsersPage.ReplaceByIdFacts | client/src/pages/Users.jsx:158 | replacing keeps every id in its place and is idempotent |
| UsersPage.WithRole | client/src/pages/Users.jsx:184-186 | the filtered list holds only entries of the role, all taken from the list |
| UsersPage.WithRoleConcat | client/src/pages/Users.jsx:184-186 | filtering keeps the original order: it distributes over concatenation |
| UsersPage.WithRoleKeeps | client/src/pages/Users.jsx:184-186 | every entry of the role is kept |
| UsersPage.Grouped | client/src/pages/Users.jsx:183-187 | the admin, technician and user groups hold only their role |
| UsersPage.GroupedPartition | client/src/pages/Users.jsx:183-187 | the groups are disjoint, cover every entry of a known role and hold no more than the list |
| UsersPage.FilledFormPassesServerChecks | client/src/pages/Users.jsx:86-94 | a form that passes the page's check, with a role from the buttons, is never refused with 400, only with 409 for a taken username |
| UsersPage.OpenedForm | client/src/pages/Users.jsx:106-114 | the dialog starts with the entry's username, name and role, `phone \|\| ''`, and no password |
| UsersPage.Flags | client/src/pages/Users.jsx:126-131 | each flag is set exactly when its field differs: phone against `phone \|\| ''`, password when non-empty, avatar when a file is chosen |
| UsersPage.UntouchedDialogHasNoChange | client/src/pages/Users.jsx:106-136 | a dialog opened and left alone has no flag set |
| UsersPage.BuildEditBody | client/src/pages/Users.jsx:143-151 | the body carries the requester and exactly the flagged fields |
| UsersPage.RoleOrPhoneEditRefused | client/src/pages/Users.jsx:124-156 | an edit flagging only role, phone or a blanked name is refused by the server with 400 |
| UsersPage.UsersPage.constructor | client/src/pages/Users.jsx:29-55 | the page mounts with the fetched list, an empty form with role user, and no dialog |
| UsersPage.UsersPage.PickRole | client/src/pages/Users.jsx:246-253 | the role buttons set only the role, to user or technician |
| UsersPage.UsersPage.HandleCreateUser | client/src/pages/Users.jsx:84-104 | a missing name, username or password is refused locally; a created account is appended at the end and the form is reset; a refusal leaves list and table alone |
| UsersPage.UsersPage.OpenEditModal | client/src/pages/Users.jsx:106-114 | opening from a non-admin entry fills the dialog and clears file and error |
| UsersPage.UsersPage.HandleEditSubmit | client/src/pages/Users.jsx:124-170 | nothing is sent without a flag and the dialog stays; otherwise the body of flagged fields goes to the server; a success replaces the entry with the reply, refills the dialog from it with an empty password and clears the file; a refusal leaves list, table and dialog as they were |
| UsersPage.UsersPage.TakeEditReply | client/src/pages/Users.jsx:158-161 | the entry with the returned id becomes the reply, the dialog is refilled from it and the file is cleared |
| ProfilePage.Flags | client/src/pages/Profile.jsx:50-53 | for an admin only the avatar can count as changed; otherwise each text field counts when it differs (password when non-empty) |
| ProfilePage.Body | client/src/pages/Profile.jsx:65-77 | the body has the account as requester and never a phone or role; it carries the username, the name and the password exactly when the account is not an admin and the field changed (the password when non-empty), each with the typed value |
| ProfilePage.SaveOutcome | client/src/pages/Profile.jsx:47-97 | an admin's save always succeeds and changes only the avatar; anyone else's is never 403 or 404, is 409 exactly for a taken new username, and is 400 exactly when every field sent is empty and no avatar comes along |
| ProfilePage.ProfilePage.constructor | client/src/pages/Profile.jsx:28-32 | the form starts from the session's username and name, with no password and no file |
| ProfilePage.ProfilePage.Type | client/src/pages/Profile.jsx:28-30 | typing sets the three text fields |
| ProfilePage.ProfilePage.ChooseAvatar | client/src/pages/Profile.jsx:39-45 | a chosen file becomes the avatar selection |
| ProfilePage.ProfilePage.BuildBody | client/src/pages/Profile.jsx:65-77 | the appended body is `Body` |
| ProfilePage.ProfilePage.TakeReply | client/src/pages/Profile.jsx:86-89 | the reply is merged into the session, which is stored, and the password and file are cleared |
| ProfilePage.ProfilePage.HandleSubmit | client/src/pages/Profile.jsx:47-97 | nothing is sent without a flag, and the session and its stored copy stay; otherwise the server's outcome decides: a success updates the row, merges the reply into the session and clears password and file; a refusal changes neither the row, the session, its stored copy, the password nor the file |
| CreateTicketPage.AcceptedTitlePassesServer | client/src/pages/CreateTicket.jsx:39 | a title the page accepts is non-empty, so it passes the server's title check |
| CreateTicketPage.CreateTicketPage.constructor | client/src/pages/CreateTicket.jsx:13-17 | the form starts with three empty fields and no file |
| CreateTicketPage.CreateTicketPage.HandleChange | client/src/pages/CreateTicket.jsx:19-21 | only the named field changes |
| CreateTicketPage.CreateTicketPage.ChooseFile | client/src/pages/CreateTicket.jsx:23-29 | a chosen file and its preview are stored |
| CreateTicketPage.CreateTicketPage.ClearImage | client/src/pages/CreateTicket.jsx:31-35 | file and preview are both cleared |
| CreateTicketPage.CreateTicketPage.BuildPayload | client/src/pages/CreateTicket.jsx:47-52 | the body carries title, description, room and creator, and the photo only when chosen |
| CreateTicketPage.CreateTicketPage.HandleSubmit | client/src/pages/CreateTicket.jsx:37-64 | a blank title is refused locally; otherwise the server inserts the new Pending ticket under a fresh id and the page leaves |
| Dashboard.CountStatus | client/src/pages/Dashboard.jsx:69-71 | a status count is at most the number of tickets; it is 0 exactly when no ticket has the status, and the full length exactly when every ticket has it |
| Dashboard.ComputeStats | client/src/pages/Dashboard.jsx:67-72 | total is the number of tickets, and pending, in-progress and resolved are the counts of their status, each at most the total |
| Dashboard.StatsSum | client/src/pages/Dashboard.jsx:68-71 | the three counts add up to at most the total, and to exactly the total when every status is one of the three |
| Dashboard.CountConcat | client/src/pages/Dashboard.jsx:69-71 | counting distributes over concatenation |
| Dashboard.CountPermutation | client/src/pages/Dashboard.jsx:69-71 | a count does not depend on the order of the list |
| Dashboard.StatsPermutation | client/src/pages/Dashboard.jsx:67-72 | the stats do not depend on the order of the list |
| Dashboard.FetchData | client/src/pages/Dashboard.jsx:48-65 | the tickets are the viewer's listing, and the ratings are loaded exactly for an admin |
| TicketChat.RoleBubble | client/src/components/TicketChat.jsx:68-81 | own messages first, then admin, then technician, then the default |
| TicketChat.Chat.constructor | client/src/components/TicketChat.jsx:16-19 | the panel starts empty, not sending, with count 0 |
| TicketChat.Chat.Type | client/src/components/TicketChat.jsx:17 | typing sets the input |
| TicketChat.Chat.Receive | client/src/components/TicketChat.jsx:23-28 | a poll replaces the list |
| TicketChat.Chat.HandleSend | client/src/components/TicketChat.jsx:47-60 | nothing for a blank input or while sending; otherwise the sender and the trimmed text are sent, a reply is appended and the input cleared, and sending is false afterwards |
| TicketChat.Chat.ScrollEffect | client/src/components/TicketChat.jsx:36-45 | scroll exactly when the list grew; the remembered count becomes the length |
| AuthContext.Merge | client/src/context/AuthContext.jsx:21 | every new key takes its new value, every other old key keeps its value, and no other key appears |
| AuthContext.MergeIdempotent | client/src/context/AuthContext.jsx:21 | merging the same data twice is merging it once |
| AuthContext.Persisted | client/src/context/AuthContext.jsx:11-17 | a user is stored under 'dorm_user', no user removes the key, and every other key keeps its value |
| AuthContext.Restored | client/src/context/AuthContext.jsx:6-9 | the initial user is exactly the object stored under 'dorm_user' when the key is present, else null |
| AuthContext.RestoreAfterPersist | client/src/context/AuthContext.jsx:6-17 | a reload after the effect restores exactly the stored user |
| AuthContext.AccountRecord | server.js:356-360 | an account reply becomes an object with exactly the keys id, username, role, name and avatar, each holding the account's value (a missing avatar as null) |
| AuthContext.MergeAccountReplaces | client/src/context/AuthContext.jsx:21 | merging one account reply into another replaces it |
| AuthContext.Auth.constructor | client/src/context/AuthContext.jsx:6-9 | the cell starts from storage |
| AuthContext.Auth.Login | client/src/context/AuthContext.jsx:19 | login sets the user |
| AuthContext.Auth.Logout | client/src/context/AuthContext.jsx:20 | logout clears the user |
| AuthContext.Auth.UpdateUser | client/src/context/AuthContext.jsx:21 | the user becomes the merge of the old user with the data |
| AuthContext.Auth.Persist | client/src/context/AuthContext.jsx:11-17 | storage becomes `Persisted` of the cell |
| StarRating.Range | client/src/components/StarRating.jsx:6 | the integers from lo up to hi, in order |
| StarRating.Stars | client/src/components/StarRating.jsx:6 | exactly five stars valued 1 to 5 in order |
| StarRating.FilledCount | client/src/components/StarRating.jsx:17 | at most as many filled stars as stars |
| StarRating.FilledCountRange | client/src/components/StarRating.jsx:6-17 | over a run of star values, the filled count is the rating clamped to the run |
| StarRating.FilledStarsIsClampedRating | client/src/components/StarRating.jsx:6-17 | star k is filled exactly when k ≤ rating, and the filled count is the rating clamped to 0..5 |
| StarRating.Click | client/src/components/StarRating.jsx:10-11 | a readonly widget or one without a handler never reports; otherwise a click reports its star |
| StarRating.ClickReportsStarValue | client/src/components/StarRating.jsx:6-11 | a reported value is in 1..5 |
| Api.GetImageUrl | client/src/api.js:9-12 | null exactly for a missing or empty path; otherwise the base address followed by the path |
| Api.StripBase | client/src/api.js:3-11 | removing the base address gives back the path |
| Api.DistinctPathsDistinctUrls | client/src/api.js:11 | distinct non-empty paths give distinct URLs |

## Left out

- Express, CORS, multer and MySQL plumbing: the tables are maps in one object. The random, time-based upload file names are parameters (`upload`, `avatar`, `afterFile`).
- Errors 500: every database call is assumed to succeed.
- Joined names: the `creator_name` and `technician_name` columns of the ticket queries are not modelled.
- Orders among equal keys: ORDER BY created_at DESC is modelled as some newest-first order. Rows created at the same time may come in any order, as in SQL.
- ServerDatabase.Database.Technicians: returns a set, so the ORDER BY name of the technician list is not modelled.
- Account listing: GET /api/users is modelled only as `UsersPage.Listed`, the shape of its entries. The ORDER BY role, name is not modelled.
- ServerRatings.RatingRow: the average is the exact quotient `Mean(sum, count)`. ROUND(AVG(...), 1), the ORDER BY avg_rating and the dashboard's `Math.round` are floating point and are left out.
- `parseInt` corner cases: ids and ratings are integers; NaN and trailing text are not modelled.
- Concurrency: each handler runs alone. The read-then-update of the ticket and user handlers is not atomic in the source; races are not modelled.
- Stale page copies: every page handler states the server's outcome for the request it sends, whatever the copy. The page's own state after the reply, and the consistency of the table, are stated only when the copy equals the row (`Current()`).
- UsersPage.FromAccount: the reply to POST /api/users has no avatar key; it is read as an account with no avatar.
- Chat on the server: there is no message route in `server.js`. The reply to a send is a parameter (`None` for a failed request). The polling interval and the DOM scrolling calls are not modelled.
- Browser storage and JSON: the stored text is abstracted as the object it encodes, in a map from keys to objects.
- Previews, confirm dialogs and navigation: `URL.createObjectURL`, `confirm()` (a `confirmed` parameter) and `navigate` (a `leftPage` flag) are not modelled further.
- Messages and markup: the Thai message texts, the `success` banners with their timeouts, loading flags other than the chat's `sending`, JSX and CSS class strings. Only the error kind is kept.
- Presentation and routing files: login and registration pages, navigation bar, theme hooks and routes are not part of this model. The registration route is absent from `server.js`.
- Passwords: stored and compared as plain strings, as in the source.
