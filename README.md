# Support-ticket system: a Dafny model

The system is a small support-ticket application with two halves.

- **Server.** An Express server stores users and tickets and exposes:
  - signup and login;
  - an authentication middleware (`auth`) and an admin gate (`isAdmin`);
  - two ticket routers, one with `createdBy`/`title` records and one with `user`/`subject` records;
  - admin user management.
- **Client.** A React/redux client keeps:
  - a session state and a ticket list;
  - guards for its routes;
  - an admin dashboard that filters, searches and counts tickets;
  - an admin login form that locks after three failed attempts.

The model follows the repository file by file, one Dafny module per file.

- **Server stores** are classes (`Users.UserDirectory`, `TicketRoutes.TicketStore`, `ApiTicketRoutes.TicketStore`).
  - Each holds a sequence of records and the next id it hands out.
  - Each keeps the invariant that ids are unique and below that next id.
- **Route handlers.**
  - Handlers that write become methods with `modifies` clauses. Their postconditions give the status and body of the answer and the whole new store.
  - Read-only handlers become functions that read the store.
  - Every handler receives the caller that `auth` admitted. The admin routes apply `isAdmin` first.
  - The `adminAuth` middleware of `server/routes/api/tickets.js` is taken to be exactly `isAdmin`. server/middleware/adminAuth.js is not part of this model.
- **Client-side code.**
  - The reducers and the pure decisions (permission check, route guards, dashboard filter and counts) are functions with lemmas.
  - Each thunk of `ticketActions.js` is a function from the server's answer to what one run of it does: whether it sends its request, the actions it dispatches in order, and whether it throws.
  - The admin login form is a class whose fields are the component's state. The lockout timer's expiry is a separate event (`LockoutExpires`).
- **Foreign calls** are function-typed parameters:
  - `jwt.sign` and `jwt.verify`;
  - the password hash and `comparePassword`;
  - express-validator's `isEmail`;
  - the outcome of `save()` (`saveError`);
  - the current time (`now`).
- **`Common.Filter`** is JavaScript's `Array.prototype.filter`.
- **`Ordering.SortNewestFirst`** is the `.sort({ createdAt: -1 })` both ticket listings ask for. It is proved to return the same records, newest first.

### Where the files disagree (modelled as written)

- **Mounted routers.** server/app.js:17-19 mounts `./routes/api/auth`, `./routes/api/tickets` and `./routes/api/users`.
  - server/routes/auth.js and server/routes/tickets.js are not mounted there, and no `routes/api/auth` router is part of this model.
  - The client's signup and login post to `${API_URL}/auth/register` and `${API_URL}/auth/login`, with a remote host as the default `API_URL` (client/src/redux/actions/authActions.js:10-11, 43, 85). server/routes/auth.js serves `/signup` and `/login`.
  - The client's ticket thunks call `http://localhost:5000/api/tickets` (client/src/redux/actions/ticketActions.js:18), which reaches server/routes/api/tickets.js. That router has no get-one route.
  - Every router is modelled on its own, as written. The `Wiring` lemmas assume a deployment in which the client's signup and login reach server/routes/auth.js and its ticket reads reach server/routes/tickets.js. They state what would follow there, not what the mounted server does.
- **Token shape.** `auth` reads the user id from `decoded.user.userId` (server/middleware/auth.js:13). The signup and login of server/routes/auth.js sign `{ userId }` (server/routes/auth.js:28, 55).
  - So a token that server/routes/auth.js signs never passes `auth`.
  - `Middleware.IssuedTokenRejected` and `Wiring.LoginTokenNeverAdmitted` prove this.
- **Token header.** `auth` reads the `x-auth-token` header. The client sends `Authorization: Bearer …` (client/src/redux/actions/ticketActions.js:25).
  - Headers are not modelled. The token is a parameter.
- **Echoed role.** The signup answer echoes the request's raw `role`, which may be absent. The stored role is the defaulted one (server/routes/auth.js:23, 34).
  - The client holds two router files. A `./App` import resolves to client/src/App.js before client/src/App.jsx; the entry file that imports it is not part of this model, so both are modelled.
  - Under client/src/App.jsx (client/src/App.jsx:21-22), `withAuth` sends a user who signed up without a role away from both dashboards, although the server stored "user".
  - Under client/src/App.js (client/src/App.js:39-53), `PrivateRoute` lets that user onto /dashboard and sends them from /admin to /dashboard.
  - `Wiring.RolelessSignupGuards` proves both halves.
- **Owner id field.** The signup and login answers of server/routes/auth.js name the id `id`. `checkPermission` compares `user._id` (client/src/redux/actions/ticketActions.js:33).
  - So for a logged-in user the client's check is the admin check alone. It is stricter than the server's owner-or-admin policy.
  - `TicketActions.PermissionWithoutObjectId` and `Wiring.ClientPermissionStricter` prove this.
- **Missing `GET_TICKETS` case.** The reducer has no case for `GET_TICKETS`, so the list that `getTickets` fetches is never stored (`TicketActions.FetchedTicketsNeverStored`).
- **Orphaned tickets on the dashboard.** Deleting a user leaves their tickets in place (server/routes/api/users.js:80-93), and populate then gives them a `null` user.
  - The dashboard's search reads `ticket.user.email` (client/src/components/admin/AdminDashboard.jsx:59) whenever the term is not empty and the subject does not contain it. For such a ticket that read throws a TypeError.
  - So one orphaned ticket breaks every search that its subject does not match (`AdminDashboard.OrphanBreaksSearch`).
- **Status PATCH.** It does not touch `lastUpdated` (server/routes/api/tickets.js:90-91). The model keeps `lastUpdated` as it was.
- **Comments.** Any admitted caller may comment on any ticket: there is no ownership check (server/routes/api/tickets.js:168-192).
- **Create status code.** A ticket created through `server/routes/api/tickets.js` is answered with status 200, not 201 (line 65).

### Where the model follows the evident intent

- **Undefined action types.** `client/src/redux/types.js` exports only the auth types and `GET_TICKETS`, `GET_TICKET`, `CREATE_TICKET`, `UPDATE_TICKET` and `TICKET_ERROR`.
  - The seven other names that the reducer and the thunks import (`FETCH_TICKETS_REQUEST`, `FETCH_TICKETS_SUCCESS`, `FETCH_TICKETS_FAILURE`, `UPDATE_TICKET_STATUS`, `DELETE_TICKET`, `SET_TICKET_FILTER`, `SET_TICKET_SEARCH`) are therefore `undefined`.
  - In the reducer each of their cases reads `case undefined:`. The first, `FETCH_TICKETS_REQUEST` (client/src/redux/reducers/ticketReducer.js:26), would take every action whose type is undefined, and the later six can never match.
  - An action with an undefined type never reaches the reducer: redux's `dispatch` throws for it. So the status-update and delete thunks, and the filter and search setters, end in that error instead of their intended action.
  - The model follows the evident intent instead. Every action kind is a constructor of its own in `TicketReducer.Action`, and the reducer handles each by its own case as written.
- **`auth` import in the api router.** `server/routes/api/tickets.js:3` binds `auth` to the whole object that the middleware module exports, not to its `auth` function.
  - Express refuses an object as a route handler: `router.get("/", auth, …)` at line 12 throws "Route.get() requires a callback function but got a [object Object]" while the module loads.
  - So the `require` of that router at server/app.js:18 stops the server from starting, and none of its routes is ever served.
  - The model takes the router's `auth` to be the middleware's `auth` and models the routes as they would behave then.

## Model

| member | source | states |
|---|---|---|
| Common.Find | server/middleware/auth.js:13 | `findById` on a list with keyed elements: the found element is in the list and has that key; nothing is found exactly when no element has that key |
| Common.Filter | client/src/redux/reducers/ticketReducer.js:80-82 | `filter` returns no more elements than the list has, each taken from the list and satisfying the predicate |
| Users.FindByEmail | server/routes/auth.js:45 | the found user has that email and comes before every other user with it; nothing is found exactly when no user has that email |
| Middleware.Auth | server/middleware/auth.js:4-24 | every refusal is 401 `{msg: "Token is not valid"}`; a missing or empty token is refused; a request is admitted exactly when the token verifies, its claims carry `user.userId` and a user with that id exists, and then the admitted user is that stored user |
| Middleware.IsAdmin | server/middleware/auth.js:26-35 | admits exactly the callers whose role is "admin", passing the caller on; every other caller gets 403 `{error: "Access denied"}` |
| Middleware.IssuedTokenRejected | server/middleware/auth.js:12-13 | a token that verifies to the claims signup and login sign (`{userId}`) is refused with 401 |
| AuthRoutes.StoredRole | server/routes/auth.js:23 | the stored role is the request's role when it is a non-empty string, otherwise "user" |
| AuthRoutes.Signup | server/routes/auth.js:7-38 | a user sharing the email or the username gives 400 "Username or email already exists" and the store is unchanged; a failed save gives 400 with its message; otherwise exactly one user is appended, with a fresh id, the hashed password and the defaulted role, and the answer is 201 with the raw request role echoed and a token for the new id |
| AuthRoutes.Login | server/routes/auth.js:41-66 | every refusal is 401 "Invalid credentials"; success happens exactly when the email is registered and the password matches, and then it carries the stored user's id, username and role and a token for that id |
| AuthRoutes.UniformCredentialError | server/routes/auth.js:45-53 | a login with an unregistered email and a login with a wrong password for a registered email get identical answers |
| UserRoutes.UpdateErrors | server/routes/api/users.js:42-54 | each validator's message is present exactly when its check fails (empty username, invalid email, a role outside user/admin), and there are no errors exactly when all three pass; the messages appear in the validators' order, each at most once, so there are at most three |
| UserRoutes.ListUsers | server/routes/api/users.js:10-18 | a non-admin gets 403; an admin gets every user in store order without the password |
| UserRoutes.Me | server/routes/api/users.js:23-31 | the answer is the caller's own record without the password, or null exactly when that record is gone |
| UserRoutes.UpdateUser | server/routes/api/users.js:36-75 | the checks run in order: the admin gate (403), then validation (400 with the failed messages), then the lookup (404); on success only the user with that id changes, in exactly `username`, `email` and `role`, and the saved record is the answer; an admin with a valid body and an existing id always succeeds |
| UserRoutes.DeleteUser | server/routes/api/users.js:80-93 | a non-admin gets 403 and a missing id 404, with the store unchanged; otherwise exactly the user with that id is removed, the others keep their order, and the answer is "User removed" |
| TicketRoutes.CanAccess | server/routes/tickets.js:46-49 | an admin may access every ticket; anyone else exactly the tickets whose `createdBy` is their own id |
| TicketRoutes.TicketStore.Create | server/routes/tickets.js:7-18 | a failed save gives 400 with its message; a body `_id` that a stored ticket already has gives 400 with the duplicate-key error; each leaves the store unchanged; otherwise exactly one ticket is appended, with the body's `_id` or else a fresh one, the body's fields, the body's `createdAt` or else the current time, and `createdBy` equal to the caller whatever the body said, answered with 201 |
| TicketRoutes.TicketStore.List | server/routes/tickets.js:21-31 | the answer holds exactly the stored tickets the caller may access (all of them, as a multiset, for an admin; their own for anyone else), newest first |
| TicketRoutes.TicketStore.GetOne | server/routes/tickets.js:34-57 | a missing id gives 404 before any permission check; a non-admin asking for an existing ticket whose owner is gone gets 500 with the TypeError's message; a 403 happens exactly for a non-admin who does not own an existing ticket whose owner exists; a success is the stored ticket and the caller may access it; an admin always gets an existing ticket |
| TicketRoutes.TicketStore.UpdateStatus | server/routes/tickets.js:60-78 | a non-admin gets 403, a missing id 404 and a rejected save 400 with its message, each with the store unchanged; otherwise only the matching ticket changes and only in `status`, and the updated ticket is the answer |
| Ordering.SortNewestFirst | server/routes/tickets.js:26 | the result is ordered newest first by `createdAt` and holds the same records as its input |
| ApiTicketRoutes.CreateErrors | server/routes/api/tickets.js:40-48 | each "… is required" message is present exactly when that field is empty, and there are no errors exactly when subject, description and category are all present; the messages appear in the order subject, description, category, each at most once, so there are at most three |
| ApiTicketRoutes.ExportRow | server/routes/api/tickets.js:143-153 | the row copies the ticket's fields and its creator's email, and gives "Unassigned" when nobody (or no longer existing user) is assigned; there is no row exactly when the creator is gone |
| ApiTicketRoutes.ExportRows | server/routes/api/tickets.js:143-153 | one row per ticket in store order, each the ticket's export row, exactly when every ticket's creator exists |
| ApiTicketRoutes.TicketStore.List | server/routes/api/tickets.js:12-30 | the answer holds exactly the stored tickets that are the caller's (all of them, as a multiset, for an admin), newest first |
| ApiTicketRoutes.TicketStore.Create | server/routes/api/tickets.js:35-71 | an empty subject, description or category gives 400 with the failed messages and stores nothing; otherwise exactly one ticket is appended with a fresh id, owned by the caller, priority "medium" unless one is given, status "open", no comments, answered with 200 |
| ApiTicketRoutes.TicketStore.PatchStatus | server/routes/api/tickets.js:76-98 | the checks run in order: admin gate (403), then a status outside open/in_progress/resolved/closed (400 "Invalid status", even for a missing id), then 404; on success only that ticket's `status` changes; an admin with a valid status and an existing id always succeeds |
| ApiTicketRoutes.TicketStore.Delete | server/routes/api/tickets.js:103-118 | a non-admin gets 403 and a missing id 404, with the store unchanged; otherwise exactly the ticket with that id is removed, the rest keep their order, and the answer is "Ticket removed" |
| ApiTicketRoutes.TicketStore.Export | server/routes/api/tickets.js:123-163 | a non-admin gets 403; a ticket whose creator is gone makes it 500 "Server Error"; otherwise one record per ticket in store order, "Unassigned" when no one is assigned |
| ApiTicketRoutes.TicketStore.AddComment | server/routes/api/tickets.js:168-198 | empty text gives 400 and a missing ticket 404, with the store unchanged; otherwise a comment by the caller is put in front of that ticket's comments, which keep their order, nothing else changes, and the new list is the answer; no ownership is required |
| TicketReducer.WithStatus | client/src/redux/reducers/ticketReducer.js:68-72 | the list keeps its length; each ticket with the id gets the new status and every other ticket stays as it was |
| TicketReducer.Without | client/src/redux/reducers/ticketReducer.js:80-82 | every copy of every ticket with another id stays, in the old order, and no ticket with the id is left |
| TicketReducer.Reduce | client/src/redux/reducers/ticketReducer.js:24-102 | FETCH_TICKETS_REQUEST starts loading and clears the error; every action that ends a request stops loading and records its error or clears it; the setters and the ignored actions keep list, loading, error and current ticket; only the setters change filter or search term, only GET_TICKET the current ticket; a ticket enters the list only from a fetched list, as the created ticket, or carrying the id and status of a status update |
| TicketReducer.GetTicketSetsCurrent | client/src/redux/reducers/ticketReducer.js:49-55 | GET_TICKET makes the payload the current ticket, stops loading, clears the error, and keeps the list, the filter and the search term |
| TicketReducer.CreatePrepends | client/src/redux/reducers/ticketReducer.js:41-47 | CREATE_TICKET puts the payload in front of the old list, which follows unchanged, and clears loading and error |
| TicketReducer.UpdateStatusOnlyMatching | client/src/redux/reducers/ticketReducer.js:65-75 | UPDATE_TICKET_STATUS keeps the length, changes only the status of matching tickets and leaves the filter, search term and current ticket alone |
| TicketReducer.DeleteRemovesId | client/src/redux/reducers/ticketReducer.js:77-85 | DELETE_TICKET keeps exactly the tickets with another id, with all their copies and in order, and changes nothing when no ticket has the id |
| TicketReducer.UpdateStatusIdempotent | client/src/redux/reducers/ticketReducer.js:65-75 | applying UPDATE_TICKET_STATUS twice with the same payload equals applying it once |
| TicketReducer.DeleteIdempotent | client/src/redux/reducers/ticketReducer.js:77-85 | applying DELETE_TICKET twice with the same id equals applying it once |
| TicketReducer.FetchSuccessReplaces | client/src/redux/reducers/ticketReducer.js:33-39 | FETCH_TICKETS_SUCCESS replaces the list and clears loading and error, touching nothing else |
| TicketReducer.ErrorsKeepTickets | client/src/redux/reducers/ticketReducer.js:57-63 | TICKET_ERROR and FETCH_TICKETS_FAILURE record the error, clear loading and keep the list |
| TicketReducer.SettersChangeOneField | client/src/redux/reducers/ticketReducer.js:87-97 | SET_TICKET_FILTER and SET_TICKET_SEARCH change only `filter` or only `searchTerm` |
| TicketReducer.UnhandledUnchanged | client/src/redux/reducers/ticketReducer.js:99-100 | GET_TICKETS, UPDATE_TICKET and any other action leave the state unchanged |
| AuthReducer.InitialState | client/src/redux/reducers/authReducer.js:9-15 | the session starts authenticated exactly when the stored token is a non-empty string |
| AuthReducer.Transitions | client/src/redux/reducers/authReducer.js:17-58 | both successes store the payload's token and its user (absent when the payload has none), authenticated with no error; both failures clear token and user and record the error; logout clears token, user and error; other actions change nothing |
| AuthReducer.Reduce | client/src/redux/reducers/authReducer.js:17-58 | every handled action leaves loading false and the session authenticated exactly when it holds a token; only the two successes authenticate, storing the payload's token and user as given; an unauthenticated result holds no user; only the two failures record an error; any other action changes nothing |
| TicketActions.CheckPermission | client/src/redux/actions/ticketActions.js:31-34 | false without a user; true exactly for an admin or the user whose `_id` is the ticket owner's |
| TicketActions.ErrorText | client/src/redux/actions/ticketActions.js:69-70 | the server's error text when present, else the exception's message when not empty, else the fallback |
| TicketActions.GetTicketsRun | client/src/redux/actions/ticketActions.js:36-51 | success dispatches GET_TICKETS with the fetched list; failure dispatches TICKET_ERROR and rethrows |
| TicketActions.GetTicketRun | client/src/redux/actions/ticketActions.js:53-74 | GET_TICKET is dispatched exactly when the ticket arrives with a creator and the permission check on that creator passes; a failed check dispatches "Not authorized to view this ticket" and throws; a ticket whose `createdBy` is null dispatches the TypeError's message and throws; a failed request dispatches the error text and throws |
| TicketActions.CreateTicketRun | client/src/redux/actions/ticketActions.js:76-92 | success dispatches CREATE_TICKET with the created ticket; failure dispatches TICKET_ERROR and rethrows |
| TicketActions.UpdateTicketStatusRun | client/src/redux/actions/ticketActions.js:95-124 | the request is sent exactly for an admin; a non-admin gets "Only admins can update ticket status" dispatched and thrown, a missing user the TypeError's message; success dispatches UPDATE_TICKET_STATUS with the server's status for that id |
| TicketActions.DeleteTicketRun | client/src/redux/actions/ticketActions.js:127-142 | success dispatches DELETE_TICKET with the id; failure dispatches TICKET_ERROR; it never throws |
| TicketActions.SetFilter | client/src/redux/actions/ticketActions.js:166-169 | the action is SET_TICKET_FILTER with its argument as payload |
| TicketActions.SetSearch | client/src/redux/actions/ticketActions.js:172-175 | the action is SET_TICKET_SEARCH with its argument as payload |
| TicketActions.NonAdminUpdateKeepsTickets | client/src/redux/actions/ticketActions.js:98-122 | after a status update by a non-admin the store's ticket list is unchanged and an error is recorded |
| TicketActions.FetchedTicketsNeverStored | client/src/redux/actions/ticketActions.js:40-43 | dispatching what a successful getTickets dispatches leaves the ticket state unchanged |
| TicketActions.PermissionWithoutObjectId | client/src/redux/actions/ticketActions.js:33 | for a user object without `_id` the permission check holds exactly for admins |
| AdminDashboard.Lower | client/src/components/admin/AdminDashboard.jsx:58-59 | `toLowerCase` keeps the length, lowers each character and leaves no ASCII capital |
| AdminDashboard.Includes | client/src/components/admin/AdminDashboard.jsx:58-59 | `includes` holds exactly when the term occurs at some position of the string |
| AdminDashboard.MatchesSearch | client/src/components/admin/AdminDashboard.jsx:56-59 | an empty term matches every ticket; a non-empty term matches exactly when, lower-cased, it occurs in the lower-cased subject or in the lower-cased creator email; the search throws exactly for a non-empty term that the subject does not contain on a ticket whose populated user is null |
| AdminDashboard.FilteredTickets | client/src/components/admin/AdminDashboard.jsx:54-61 | the filtering throws exactly when the search throws for some ticket; otherwise every copy of every ticket that passes the status filter and the search is shown, and nothing else |
| AdminDashboard.OrphanBreaksSearch | client/src/components/admin/AdminDashboard.jsx:56-60 | a ticket with a null user makes the filtering throw for every non-empty term that its subject does not contain |
| AdminDashboard.FilteredIsOrderedSelection | client/src/components/admin/AdminDashboard.jsx:55-62 | when the filtering does not throw, the shown tickets are an order-preserving sub-list holding exactly the tickets that pass filter and search; with a filter every shown ticket has that status |
| AdminDashboard.NoCriteriaShowsAll | client/src/components/admin/AdminDashboard.jsx:56-58 | with no filter and no search term every ticket is shown |
| AdminDashboard.SearchIgnoresCase | client/src/components/admin/AdminDashboard.jsx:57-60 | two search terms that agree after lower-casing show the same tickets |
| AdminDashboard.ComputeStats | client/src/components/admin/AdminDashboard.jsx:65-69 | total is the list length, open and resolved count those statuses, and open + resolved never exceeds total |
| AdminLogin.AdminLoginForm.constructor | client/src/components/auth/AdminLogin.jsx:7-14 | the form starts empty, unlocked, with no error and no attempts |
| AdminLogin.AdminLoginForm.HandleChange | client/src/components/auth/AdminLogin.jsx:22-27 | the edited field takes the value, the other stays, the error is cleared and the counter and lock are untouched |
| AdminLogin.AdminLoginForm.LockAccount | client/src/components/auth/AdminLogin.jsx:74-88 | the form is locked with the lockout message and a pending timer |
| AdminLogin.AdminLoginForm.HandleSubmit | client/src/components/auth/AdminLogin.jsx:29-72 | while locked nothing is attempted and the "temporarily locked" message is shown; a rejected login or a non-admin user adds exactly one attempt and the third locks the form; an admin resets the counter to 0; the counter stays below 3 unless locked |
| AdminLogin.AdminLoginForm.LockoutExpires | client/src/components/auth/AdminLogin.jsx:79-85 | a pending timer unlocks the form with no attempts and no error |
| AdminLogin.AdminLoginForm.AttemptsRemaining | client/src/components/auth/AdminLogin.jsx:136-140 | "Attempts remaining" is shown exactly under an error after a failed attempt while unlocked, and reads 3 − attempts, which is 1 or 2 |
| AdminLogin.Landing | client/src/components/auth/AdminLogin.jsx:93-99 | a signed-in admin goes to /admin, anyone else signed in to /dashboard, and the form is rendered only when nobody is signed in |
| AdminLogin.ThreeFailuresLock | client/src/components/auth/AdminLogin.jsx:29-88 | three failures on a fresh form lock it, a fourth submit attempts nothing, and the timer's expiry unlocks it with a fresh counter |
| PrivateRoute.Decide | client/src/components/PrivateRoute.jsx:5-16 | an unauthenticated visitor goes to /login whatever the route; a non-admin on an admin route goes to /dashboard; the children render exactly when authenticated and the route is not an admin route or the user is an admin |
| WithAuth.Decide | client/src/components/auth/withAuth.jsx:7-27 | loading wins over every other check; then an unauthenticated visitor goes to /login; a user whose role is not allowed (or absent) goes to /dashboard; the wrapped component renders exactly when authenticated and no role list is given or the role is in it |
| Wiring.AdminGuardsAgree | client/src/components/PrivateRoute.jsx:11-13 | after a successful login the client's admin guards open exactly for the users the server's `isAdmin` admits |
| Wiring.RolelessSignupGuards | server/routes/auth.js:32-34 | a signup answer without a role is stored as "user" on the server; on the client the `withAuth` guards of App.jsx keep the user out of both dashboards, while the `PrivateRoute` guards of App.js admit the user to /dashboard and send them from /admin to /dashboard |
| Wiring.ClientPermissionStricter | client/src/redux/actions/ticketActions.js:31-34 | for a logged-in user, whatever the client's check allows the server allows, and the client's check holds exactly for admins |
| Wiring.LoginTokenNeverAdmitted | server/routes/auth.js:55-57 | the token of a successful login is refused by `auth` whatever the user table holds |

## Left out

- Database failures: the `catch` branches that answer 500 "Server Error" (or 400/500 with the error message) when the database throws are not modelled. The exceptions modelled are of two kinds. Some arise from the model's own state: a ticket whose owner or creator no longer exists, a null populated user, or a duplicate `_id`. The others come from the schema's rejection of a save, which is passed in as `saveError` to AuthRoutes.Signup, TicketRoutes.TicketStore.Create and TicketRoutes.TicketStore.UpdateStatus.
- Populate: on the server `populate` is modelled only as the creator lookup that can fail. On the client a populated user that is `null` is a missing `createdBy` or email. The display fields it fetches (`username`, `email`, `name`) are not copied into the answers.
- Schema: the ticket and user schemas are not part of this model. The status "open" and the timestamps of a new api ticket are taken as the schema's defaults. Any other schema validation is the `saveError` parameter of `AuthRoutes.Signup`, `TicketRoutes.TicketStore.Create` and `TicketRoutes.TicketStore.UpdateStatus`.
- Password hashing, `comparePassword`, `jwt.sign`/`jwt.verify`, token expiry and `isEmail` are parameters, not definitions.
- Validation errors: `errors.array()` (server/routes/api/users.js:53, server/routes/api/tickets.js:48, 174) sends one object per failed check, with its `msg`, `param`, `location` and `value`. `ErrorsJson` keeps only each `msg`, in order.
- CSV: the CSV stringification and the response headers of the export are left out. Only the record mapping is modelled.
- UserRoutes.UpdateUser: a missing email is modelled as the empty string that the validator sees, and the validator's rules for ignoring a missing field are not modelled.
- UserRoutes.UpdateUser: the answer contains the stored password hash, as the source's `res.json(user)` does; the model returns the whole record.
- AdminDashboard.Lower: lower-casing is modelled for ASCII letters only. Unicode case mapping is left out.
- AdminLogin.AdminLoginForm.HandleSubmit: it does not state which message `error` shows after the third failure. The updater's message and `lockAccount`'s message are both set during one batch, and which one wins depends on React's batching.
- AdminLogin: the five-minute duration of the timer, clearing it on unmount, and two submissions in flight at once are not modelled.
- TicketActions.UpdateTicketStatusRun, TicketActions.DeleteTicketRun, TicketActions.SetFilter and TicketActions.SetSearch: they produce the intended action kinds. The error that redux's `dispatch` raises for an action whose type is undefined is not modelled.
- TicketActions.UpdateTicketStatusRun: a user stored as `undefined` (a login or signup success whose payload has no user) is treated like `null`. The thunk still throws before any request, but the TypeError's message would name `undefined` rather than `null`.
- TicketActions.GetTicketRun: a ticket without any `createdBy` field (`undefined` rather than `null`) is modelled as `null`. The TypeError's message would name `undefined`.
- Ticket actions: the axios requests, `getConfig` and the `exportTickets` blob download are left out. The server's answer is a parameter.
- client/src/redux/actions/authActions.js is modelled only through `Wiring.ClientUser`, as the user object it stores. Its logging and `localStorage` writes are left out.
- Storage: the `localStorage` reads at load time are parameters of `AuthReducer.InitialState`, and its clearing on failure and logout is left out.
- AdminDashboard.FilteredTickets: the table rows also read `ticket.user.name` (client/src/components/admin/AdminDashboard.jsx:302-313), which throws for every shown orphaned ticket. Rendering is not modelled, so only the search's throw is.
- TicketRoutes.TicketStore.Create: the duplicate-key error is modelled by the fixed start of its message. The collection and key that the database appends are not. Body paths other than `_id`, `createdAt` and the listed fields are not modelled, because the ticket schema is not part of this model.
- Presentational components: the admin dashboard's rendering and its resolution-rate percentage (floating point) are left out.
- Concurrency: concurrent requests on the same record are not modelled. Each handler is one atomic method call.
