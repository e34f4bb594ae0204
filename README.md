# Gym management system — a Dafny model

This project models a small gym-management web application made of two parts.

The Flask backend keeps these tables:
- users with a role (`user`, `trainer` or `admin`);
- subscription plans;
- the subscriptions users take out;
- workout classes with a capacity;
- class RSVPs;
- attendance records;
- a trainer–trainee assignment relation.

Each route of the backend either rejects a request with a status and a message, or changes the tables.

The React frontend holds the pages that call those routes: the member dashboard (in two copies), the class RSVP page, the admin dashboard, the login and registration forms, the navigation bar and a chat widget. The model keeps the decisions these pages make from the replies and the state they keep.

The model follows the source's structure. Pure logic becomes functions and lemmas. Code that updates state becomes classes whose methods state the new state.
- `Routes.GymStore` holds one sequence per table. The sequences are in insertion order, which is the order `.all()` lists rows and the order in which `.first()` picks one. Each route is one method. Its contract gives every reply, together with the exact new content of the tables it touches. Its `modifies` clause names only those tables. `Valid()` gathers the table invariants and every route preserves it:
  - user ids, usernames and emails are unique;
  - a plan lasts 30 to 1800 days in whole months, at a positive price;
  - a class's `current_capacity` is its number of RSVP rows and never exceeds `max_capacity`;
  - a user's subscriptions do not overlap in time and are to different plans;
  - the assignment relation has no duplicate pair.
- `Models` holds the database records, their column defaults, `set_password`/`check_password` and the `to_dict` field sets.
- Each frontend page is a module.
  - Its pure helpers are functions with contracts; the day count, the availability filter, the button rules and the form checks are examples.
  - Its component state is a class. Each handler is a method that takes the settled reply of its request as a parameter: `Ok`, an error `Status`, or `NetworkError`.
  - Each handler returns an `Effect`: whether a request went out, where the page navigates, which notice it shows and whether it reloads.
  - The browser's `localStorage` is the class `Session.LocalStorage`.

Some inputs are parameters or opaque functions:
- time is integer milliseconds (`now`), and an attendance date is a day number (`now / 86400000`);
- the identity decoded from the JWT is a parameter `uid`;
- password hashing (`hash`) and token issuance (`issueToken`) are opaque functions fixed when the store is created.

Where the two copies of the member dashboard disagree, each is modelled as written. `SrcUserDashboard.SectionCopiesDiffer` states exactly where they differ.

## Model

| member | source | states |
|---|---|---|
| Seqs.Filter | frontend/src/pages/UserDashboard.js:124 | `.filter`: every kept element comes from the input and satisfies the predicate, and every satisfying element is kept |
| Seqs.FilterAppend | frontend/src/pages/UserDashboard.js:124 | filtering splits over concatenation, so kept elements stay in their original relative order |
| Seqs.Find | backend/routes.py:32 | `.first()`: the index of the first row satisfying the filter, or none exactly when no row does |
| Seqs.CountAppend | backend/routes.py:156-157 | one more row adds one to a count exactly when the row matches |
| Seqs.AppendFresh | backend/models.py:8-11 | appending a pair that is not yet present keeps the relation free of duplicates |
| Models.SetPassword | backend/models.py:32-33 | after `set_password(p)` the stored hash is `hash(p)` and no other column changes |
| Models.SetThenCheck | backend/models.py:32-36 | after `set_password(p)`, `check_password(p)` holds, and `check_password(q)` holds exactly when `q` hashes like `p` |
| Models.NewWorkoutClass | backend/models.py:124-125 | a new class has `max_capacity` 10 unless one is given, and `current_capacity` 0 |
| Models.NewAttendance | backend/models.py:88 | `attended` defaults to false |
| Models.NewClassRsvp | backend/models.py:146 | `attending` defaults to false |
| Models.UserToDict | backend/models.py:38-44 | the user dictionary has exactly the keys `id`, `username`, `email` and `role` |
| Models.UserToDictHidesPassword | backend/models.py:38-44 | the dictionary has no password key and does not change when the password is set |
| Models.PlanToDict | backend/models.py:55-62 | the plan dictionary's five keys, with duration and price as stored |
| Models.SubscriptionToDict | backend/models.py:73-81 | the dictionary carries the plan's name; `end_date` is null exactly when the column is empty |
| Models.AttendanceToDict | backend/models.py:90-96 | the attendance dictionary's four keys |
| Models.ClassToDict | backend/models.py:130-139 | the class dictionary's seven keys, with both capacities |
| Models.RsvpToDict | backend/models.py:149-155 | the RSVP dictionary's four keys |
| Routes.Gate | backend/routes.py:389-393 | a caller with no row gets 500, because reading `user.role` raises; another role gets 403; only the named role passes |
| Routes.DashboardGate | backend/routes.py:51-54 | the dashboard routes answer 403 both to a missing caller and to a wrong role |
| Routes.PatchUser | backend/routes.py:262-266 | PUT partial update: username, email and role keep their values unless supplied; the password is re-hashed only for a non-empty one |
| Routes.PatchTrainer | backend/routes.py:309-312 | the trainer PUT never changes the role |
| Routes.EmptyPatchIsIdentity | backend/routes.py:262-266 | a body that supplies nothing, or an empty password, leaves the row unchanged |
| Routes.AddUserKeepsUsers | backend/models.py:15-17 | inserting a row with the next id and an unused username and email keeps ids, usernames and emails unique |
| Routes.ReplaceUserKeepsUsers | backend/models.py:15-17 | an in-place update that clashes with no other row keeps them unique |
| Routes.RemoveUserKeepsUsers | backend/models.py:15-17 | deleting a row keeps them unique |
| Routes.TakePlaceKeepsClasses | backend/routes.py:154-157 | an accepted RSVP adds one row for the class and raises its capacity by one, so capacity still equals the RSVP count and stays within `max_capacity` |
| Routes.AddClassKeepsClasses | backend/models.py:124-125 | a new class with capacity 0 has no RSVP rows |
| Routes.RegisterKeepsSubscriptions | backend/routes.py:400-417 | a subscription inserted after both checks pass overlaps none of the user's earlier ones and is to a new plan |
| Routes.AtMostOneActive | backend/routes.py:400-403 | at any time after both began, two distinct subscriptions of one user are never both active |
| Routes.OnlyNewSubscriptionActive | backend/routes.py:400-417 | right after a registration at `now`, the new subscription is the user's only active one |
| Routes.DurationFitsColumn | backend/routes.py:205-212 | a duration that passed the 1–60 month check is at most 1800 days, so the column-limit branch is never taken |
| Routes.MonthsArg | backend/routes.py:229-234 | `int(...)` of the duration (line 204): missing gives 0, null gives 500 (`TypeError`), a value the conversion refuses gives 400 "Invalid input format" |
| Routes.PriceArg | backend/routes.py:229-234 | the same for `float(...)` of the price (line 214) |
| Routes.SubscriptionCheck | backend/routes.py:389-408 | the checks of subscription registration, in order: caller and role, the `plan_id` key, an unknown plan (404), any subscription with `end_date > now` (400), an earlier subscription to the same plan (400); success exactly when all pass |
| Routes.FirstTrainer | backend/routes.py:58-59 | the trainer shown is an existing user assigned to this trainee; none exactly when no assigned trainer exists |
| Routes.TraineesOf | backend/routes.py:111 | every trainee listed is an existing user assigned to this trainer |
| Routes.TraineesOfComplete | backend/routes.py:111 | `trainees.all()` is complete: every assignment of this trainer whose trainee row exists lists that user |
| Routes.UserDashboardFields | backend/routes.py:62-70 | the member dashboard's seven keys; `trainer_details` is null exactly when there is no trainer |
| Routes.AdminDashboardFields | backend/routes.py:87-96 | the admin dashboard's keys, with `stats` giving the number of users, trainers and plans listed |
| Routes.GymStore.constructor | backend/models.py:8-155 | the store starts with all tables empty, satisfying `Valid()` |
| Routes.GymStore.InsertUser | backend/routes.py:14-17 | a new user gets the next id and a password that checks; the store stays valid |
| Routes.GymStore.Register | backend/routes.py:8-23 | a missing username gives 500; a taken username gives 400 "User exists" even without an email, because the `or` short-circuits; then a missing email gives 500, a taken email 400, a missing password 500; otherwise one row (role defaulting to `user`) is added and 201 returns the token and role |
| Routes.GymStore.Login | backend/routes.py:25-44 | a missing field gives 400; an unknown user and a wrong password give the same 401 "Invalid credentials"; 200 exactly when the user named has a matching hash, returning that user's token and role |
| Routes.GymStore.UserDashboard | backend/routes.py:46-73 | 200 exactly for a caller with role `user`, otherwise 403 "Access denied"; the body has the seven keys and `trainer_details` is null exactly when no trainer is assigned |
| Routes.GymStore.AdminDashboard | backend/routes.py:75-99 | 200 exactly for an admin, otherwise 403; the three counts equal the number of users, trainers and plans |
| Routes.GymStore.TrainerDashboard | backend/routes.py:101-121 | 200 exactly for a trainer, otherwise 403; `trained_users` is the dictionaries of `TraineesOf` (exactly the trainer's existing assigned trainees, by `TraineesOfComplete`); one `class_stats` entry per class the caller teaches, whose `attendance_count` is its `current_capacity` and so, under `Valid()`, its number of RSVPs |
| Routes.GymStore.MarkAttendance | backend/routes.py:123-139 | only role `user` may mark attendance, and any other caller leaves the store unchanged; otherwise exactly one attended record for today's date is added |
| Routes.GymStore.ListAttendance | backend/routes.py:128-133 | only role `user` may list; the list is the caller's own records |
| Routes.GymStore.Rsvp | backend/routes.py:144-164 | non-`user` callers and a missing `class_id` are refused with the store unchanged; a missing or full class gives 400 "Class full or not found" with nothing changed; otherwise exactly one RSVP is added and that class's capacity rises by one. Earlier RSVPs are not consulted, so duplicates are possible |
| Routes.GymStore.ListClasses | backend/routes.py:172-174 | every class, for any caller |
| Routes.GymStore.CreateClass | backend/routes.py:175-188 | only trainers; a missing name or date gives 500; otherwise one class, taught by the caller and with the default capacity when none is given, is added |
| Routes.GymStore.CreateSubscription | backend/routes.py:193-234 | checks in the source's order: non-admin 403; bad duration input 500/400; months outside 1–60 give 400; bad price input 500/400; price ≤ 0 gives 400; a missing name gives 500; only success changes the store, storing `duration_days = months*30 ≤ 1800`; "Duration too large" is never returned |
| Routes.GymStore.ListUsers | backend/routes.py:245-247 | admins only; every user's dictionary |
| Routes.GymStore.ListTrainers | backend/routes.py:292-294 | admins only; the users whose role is `trainer` |
| Routes.GymStore.CreateAccount | backend/routes.py:248-255 | the POST of both account routes (the trainer copy is lines 295-302): admins only; a missing username, email or password, or a taken username or email (the unique constraint fails on commit), gives 500 with nothing changed; otherwise one row is added with the given role (default `user`), or role `trainer` on the trainer route |
| Routes.GymStore.UpdateAccount | backend/routes.py:256-269 | the PUT of both account routes (the trainer copy is lines 303-315): admins only; a missing id gives 500; an unknown id gives 404 "User not found" / "Trainer not found" with nothing changed; otherwise the row becomes its partial update (the trainer route keeps the role), unless that would duplicate another row's username or email (500, nothing changed) |
| Routes.GymStore.DeleteAccount | backend/routes.py:270-278 | the DELETE of both account routes (the trainer copy is lines 316-324): admins only; the row with the given id is removed if present, otherwise 404 with nothing changed |
| Routes.GymStore.AssignTrainer | backend/routes.py:356-383 | admins only; a missing key gives 500; a missing user or trainer gives 404; a target whose role is not `trainer` gives 400; an existing pair gives 400; otherwise exactly that pair is added, and the relation never gains a duplicate |
| Routes.GymStore.RegisterSubscription | backend/routes.py:385-424 | any failed check of `SubscriptionCheck` is the reply, with nothing changed; otherwise one subscription is added that starts now and ends `duration_days` later, answered 201 |
| UserDashboard.CeilDiv | frontend/src/pages/UserDashboard.js:113 | `Math.ceil(a/b)` on integers: the least r with a ≤ r·b |
| UserDashboard.CeilDivUnique | frontend/src/pages/UserDashboard.js:113 | any integer with that bracketing property is the ceiling |
| UserDashboard.CalculateDaysLeft | frontend/src/pages/UserDashboard.js:108-115 | "N/A" exactly for a missing end date; "Expired" exactly when the end is not after now; otherwise the positive ceiling of the remaining days |
| UserDashboard.HasActiveSubscription | frontend/src/pages/UserDashboard.js:117-119 | true exactly when data is loaded and some subscription ends after now (a null end date counts as the epoch) |
| UserDashboard.GetAvailableSubscriptions | frontend/src/pages/UserDashboard.js:121-125 | empty without data; otherwise exactly the plans whose id no subscription names |
| UserDashboard.AvailablePreservesOrder | frontend/src/pages/UserDashboard.js:124 | the available plans keep the listing order |
| UserDashboard.NoSubscriptionsAllAvailable | frontend/src/pages/UserDashboard.js:121-125 | a member without subscriptions is offered every plan in order |
| UserDashboard.ShowAvailableSectionIff | frontend/src/pages/UserDashboard.js:173 | the Available Subscriptions section appears exactly when no subscription ends after now |
| UserDashboard.AttendanceMarkedToday | frontend/src/pages/UserDashboard.js:25-27 | true exactly when some record is dated today and attended |
| UserDashboard.RsvpButton | frontend/src/pages/UserDashboard.js:202-205 | disabled and labelled "RSVPed" exactly when some RSVP names the class, otherwise "RSVP" |
| UserDashboard.UserDashboardPage.FetchDashboard | frontend/src/pages/UserDashboard.js:11-42 | with no token: redirect to /login with a notice, no request, nothing changed; otherwise a success stores the data and derives `attendanceMarked`, an error shows `data.error` or the fallback, a 401 also removes token and role and redirects, and `loading` ends false |
| UserDashboard.UserDashboardPage.HandleRsvp | frontend/src/pages/UserDashboard.js:48-66 | success shows the server's message and reloads; a rejection shows `data.error` as is |
| UserDashboard.UserDashboardPage.HandleMarkAttendance | frontend/src/pages/UserDashboard.js:68-86 | a successful mark sets `attendanceMarked` and reloads; a failure leaves it |
| UserDashboard.UserDashboardPage.HandleRegisterSubscription | frontend/src/pages/UserDashboard.js:88-106 | the notices and the reload of a plan registration; the copy in src/pages/UserDashboard.js:85-103 behaves the same |
| SrcUserDashboard.NothingAvailable | src/pages/UserDashboard.js:119-123 | an empty available list means every plan is subscribed |
| SrcUserDashboard.SectionCopiesDiffer | src/pages/UserDashboard.js:165 | this copy shows the section only when there is no active subscription and something is available; the two copies differ exactly when all plans are subscribed |
| SrcUserDashboard.SrcUserDashboardPage.FetchDashboard | src/pages/UserDashboard.js:11-36 | no token guard: the request is always made; otherwise as the frontend copy, including clearing token and role on 401 |
| SrcUserDashboard.SrcUserDashboardPage.HandleRsvp | src/pages/UserDashboard.js:43-61 | a rejection shows `data.error` or "Failed to RSVP" |
| SrcUserDashboard.SrcUserDashboardPage.HandleMarkAttendance | src/pages/UserDashboard.js:64-82 | success sets `attendanceMarked`; a rejection shows `data.error` or "Failed to mark attendance" |
| ClassRsvp.InitialItems | frontend/src/pages/ClassRSVP.js:19 | every fetched class starts with `rsvped` false, same order and length |
| ClassRsvp.ButtonCaption | frontend/src/pages/ClassRSVP.js:96-103 | "RSVPed" exactly when rsvped; "Full" exactly when not rsvped and at capacity; "RSVP" exactly when the button is enabled |
| ClassRsvp.ApplyRsvp | frontend/src/pages/ClassRSVP.js:52-54 | same length and order; classes with another id unchanged; the matching class flagged and its capacity raised by one |
| ClassRsvp.ApplyRsvpDisables | frontend/src/pages/ClassRSVP.js:52-54 | under the disabling rule of line 96, after the update the class's button is disabled and reads "RSVPed" |
| ClassRsvp.EnabledRsvpKeepsCapacity | frontend/src/pages/ClassRSVP.js:52-54 | a click on an enabled button keeps the shown capacity within the maximum |
| ClassRsvp.ApplyRsvpKeepsDetails | frontend/src/pages/ClassRSVP.js:53 | only the flag and the count change |
| ClassRsvp.ClassRsvpPage.FetchClasses | frontend/src/pages/ClassRSVP.js:11-34 | success installs the initial items; a rejection shows the error or "Failed to fetch classes", and a 401 removes token and role; `loading` ends false |
| ClassRsvp.ClassRsvpPage.HandleRsvp | frontend/src/pages/ClassRSVP.js:39-62 | success replaces the list by its optimistic update; a rejection or network error leaves the list unchanged |
| AdminDashboard.ValidateSubscription | frontend/src/pages/AdminDashboard.js:44-55 | accepted exactly when the parsed duration is an integer in 1–60 and the price is above 0; the duration message is reported first |
| AdminDashboard.SubscriptionBodyOf | frontend/src/pages/AdminDashboard.js:60 | the body is the draft with the parsed duration and price in place of the strings |
| AdminDashboard.EditUserDraft | frontend/src/pages/AdminDashboard.js:120-123 | Edit copies id, username, email and role with an empty password |
| AdminDashboard.EditTrainerDraft | frontend/src/pages/AdminDashboard.js:180-183 | Edit copies id, username and email with an empty password |
| AdminDashboard.OptionalPassword | frontend/src/pages/AdminDashboard.js:135-137 | a password is included exactly when non-empty |
| AdminDashboard.UserUpdatePayload | frontend/src/pages/AdminDashboard.js:129-137 | always id, username, email and role; a password only when non-empty |
| AdminDashboard.TrainerUpdatePayload | frontend/src/pages/AdminDashboard.js:189-196 | never a role; a password only when non-empty |
| AdminDashboard.UntouchedEditRoundTrip | frontend/src/pages/AdminDashboard.js:120-137 | Edit then Update (and the trainer pair, lines 180-196) without changes sends the listed values and no password |
| AdminDashboard.AssignableUsers | frontend/src/pages/AdminDashboard.js:405 | the assign dropdown lists exactly the role-`user` accounts |
| AdminDashboard.MutationEffect | frontend/src/pages/AdminDashboard.js:62-72 | the shared reply handling: the success notice and a reload, `data.error` or the fallback, or the network notice |
| AdminDashboard.AdminPage.FetchDashboard | frontend/src/pages/AdminDashboard.js:16-38 | success stores the data; a 401 removes token and role and redirects; `loading` ends false |
| AdminDashboard.AdminPage.HandleSubscriptionSubmit | frontend/src/pages/AdminDashboard.js:44-74 | nothing is sent unless the checks pass; the body sent carries the parsed numbers; the draft resets only on success |
| AdminDashboard.AdminPage.HandleCreateUser | frontend/src/pages/AdminDashboard.js:76-96 | the draft is sent as is and reset to its initial value (role `user`) on success |
| AdminDashboard.AdminPage.HandleCreateTrainer | frontend/src/pages/AdminDashboard.js:98-118 | the draft is sent with role `trainer` and reset on success |
| AdminDashboard.AdminPage.HandleEditUser | frontend/src/pages/AdminDashboard.js:120-123 | the edit draft becomes the copy of the listed user |
| AdminDashboard.ApplyUserChange | frontend/src/pages/AdminDashboard.js:442-467 | `{ ...editingUser, field: value }`: only the named field changes, the id is kept, and a role comes from the select's three options |
| AdminDashboard.ApplyUserChanges | frontend/src/pages/AdminDashboard.js:442-467 | any run of edits keeps the draft's id, keeps a selectable role selectable, and keeps the password unless one is typed |
| AdminDashboard.EditedUpdateTargetsRow | frontend/src/pages/AdminDashboard.js:120-137 | Edit, any edits, then Update: the PUT names the listed row's id (user and trainer forms), with no password unless one was typed |
| AdminDashboard.AdminPage.EditUserForm | frontend/src/pages/AdminDashboard.js:442-467 | a form change applies one field change to the open draft and keeps its id |
| AdminDashboard.AdminPage.HandleUpdateUser | frontend/src/pages/AdminDashboard.js:125-156 | sends the user payload; the draft becomes null on success and is kept on rejection; with no draft nothing is sent |
| AdminDashboard.AdminPage.CancelEditUser | frontend/src/pages/AdminDashboard.js:475 | Cancel closes the draft |
| AdminDashboard.AdminPage.HandleEditTrainer | frontend/src/pages/AdminDashboard.js:180-183 | the trainer draft becomes the copy of the listed trainer |
| AdminDashboard.ApplyTrainerChange | frontend/src/pages/AdminDashboard.js:501-517 | `{ ...editingTrainer, field: value }`: only the named field changes and the id is kept; there is no role field |
| AdminDashboard.ApplyTrainerChanges | frontend/src/pages/AdminDashboard.js:501-517 | any run of edits keeps the draft's id, and the password unless one is typed |
| AdminDashboard.AdminPage.EditTrainerForm | frontend/src/pages/AdminDashboard.js:501-517 | a form change applies one field change to the open draft and keeps its id |
| AdminDashboard.AdminPage.HandleUpdateTrainer | frontend/src/pages/AdminDashboard.js:185-215 | the same lifecycle as the user form, with the role-free payload |
| AdminDashboard.AdminPage.CancelEditTrainer | frontend/src/pages/AdminDashboard.js:525 | Cancel closes the draft |
| AdminDashboard.AdminPage.HandleDeleteUser | frontend/src/pages/AdminDashboard.js:158-178 | a request goes out only after confirmation |
| AdminDashboard.AdminPage.HandleDeleteTrainer | frontend/src/pages/AdminDashboard.js:217-237 | a request goes out only after confirmation |
| AdminDashboard.AdminPage.HandleAssignTrainer | frontend/src/pages/AdminDashboard.js:239-263 | nothing is sent unless both ids are chosen; both reset to empty on success |
| GymChatWidget.BotText | frontend/src/components/GymChatWidget.js:24-31 | the bot text is `data.answer` when present and non-empty, "No answer." otherwise, and "Chat down. Try again later." after a failure |
| GymChatWidget.ChatWidget.Type | frontend/src/components/GymChatWidget.js:84 | typing sets the input |
| GymChatWidget.ChatWidget.BeginSend | frontend/src/components/GymChatWidget.js:10-21 | a blank input or a pending request changes nothing; otherwise the untrimmed user message is appended, `loading` is set, and the question sent is the input |
| GymChatWidget.ChatWidget.FinishSend | frontend/src/components/GymChatWidget.js:26-35 | the bot message is appended, then input is cleared and loading reset |
| GymChatWidget.ChatWidget.SendMessage | frontend/src/components/GymChatWidget.js:10-36 | an accepted send appends exactly two messages, user then bot, and ends with an empty input and `loading` false |
| Login.DashboardRoute | frontend/src/components/Login.js:36 | admin goes to /admin-dashboard, trainer to /trainer-dashboard, any other role to /dashboard |
| Login.StoredRoleSameRoute | frontend/src/components/Login.js:34-36 | the role string stored leads to the same dashboard as the reply's role |
| Login.HandleAuthReply | frontend/src/components/Login.js:30-46 | with an `access_token` the token and role are stored and the role's dashboard opened; otherwise storage is untouched and the notice is `data.error` or the fallback |
| Login.LoginForm.Submit | frontend/src/components/Login.js:14-47 | a request goes out exactly when the username is non-empty and the password has at least 6 characters; a token reply stores the session, opens the role's dashboard and shows "Login successful!"; "Login failed!" is the fallback; `submitting` ends false on every path |
| Register.RegisterForm.Submit | frontend/src/components/Register.js:14-49 | a request goes out exactly when username and email are present, the email is well formed, the password has 6 or more characters and the role is user/trainer/admin; reply handling as for login with "Registration successful!" and "Registration failed!"; `submitting` ends false |
| Navbar.VisibleLinks | src/components/Navbar.js:28-56 | Home always first; unauthenticated shows only Login and Register; authenticated ends with Logout; the member links exactly for role `user`, the admin link exactly for `admin`, the trainer link exactly for `trainer` |
| Navbar.UnknownRoleLinks | src/components/Navbar.js:30-50 | a signed-in session with another role sees only Home and Logout |
| Navbar.NavbarState.constructor | src/components/Navbar.js:7-13 | `isAuthenticated` is whether a token is stored, and the role is the stored one |
| Navbar.NavbarState.HandleLogout | src/components/Navbar.js:15-22 | both keys removed, state reset, the logged-out links, a notice and navigation to `/`; the result does not depend on the old state, so a repeat changes nothing |
| Session.LocalStorage.ClearSession | src/components/Navbar.js:16-17 | removing `token` and `role` leaves both absent |

## Left out

- HTTP, JSON parsing, hard-coded URLs, the bearer header, and logging: a request is the reply it settles to, and a route's input is its already-decoded body.
- JWT issuance and checking and werkzeug hashing are opaque functions. `check_password_hash` is modelled as comparing `hash(p)` with the stored value, which leaves out the per-hash salt.
- SQLAlchemy session and ORM cascade behaviour. DELETE removes only the `users` row. Assignment rows naming a deleted user stay behind, and the dashboards skip them. Loading and nulling of dependent rows is not modelled; in the source this can make the commit fail for a user who has subscriptions, attendance records or RSVPs.
- Routes.GymStore: user ids come from a counter and are never reused. A database engine that reuses the largest deleted id is not modelled.
- JSON `null` and non-string values for string and id fields are not modelled. Each field is either absent or a value of the expected type. The multi-way `NumField` is used only for the two numbers of `create_subscription`, where the source reacts differently to each case.
- Routes.MonthsArg: `int(...)` of a JSON number truncates a fraction. The model takes the converted integer as given.
- Routes.PriceArg: prices are `real`. Floating-point effects such as NaN passing the `price <= 0` check are not modelled.
- Routes.GymStore.CreateClass: `date_time` arrives as an already-parsed instant. How the column treats the raw string is not modelled.
- Date handling: ISO-8601 formatting and parsing, time zones and `toISOString().split('T')[0]` are not modelled. Instants are integer milliseconds and dates are day numbers, so `att.date === today` compares day numbers.
- The integer width of SQL columns: `current_capacity + 1` is unbounded here.
- The health profile (`/api/health-profile`, frontend/src/pages/HealthProfile.js), BMI and its floating-point formatting are not part of this model.
- frontend/src/pages/TrainerDashboard.js, src/pages/AdminDashboard.js, AttendanceCalendar.js, App.js, Home.js, LandingPage.js, src/api.js and backend/app.py are not part of this model. They fetch and render, or they configure.
- Rendering, Formik internals and Yup's choice of which message to show. `parseInt`/`parseFloat` leniency and Yup's email pattern are inputs: the parsed number (`None` for NaN) and a validity flag.
- Password length is counted in Dafny characters, not UTF-16 code units.
- Concurrency is not modelled: interleaved reloads, late replies after navigation, and two requests racing on the same rows.
- Routes.GymStore.UpdateAccount and Routes.GymStore.DeleteAccount act on any user id, whatever that user's role. The source's trainer routes do not check that the target is a trainer, and the model reproduces this.
