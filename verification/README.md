# User management: a Dafny model

A model of the core of a small user-management application.

The server side is an Express/Mongoose API:
- end users register, log in, edit their name and email, and upload a profile image;
- administrators log in separately, then list, add, edit and delete users;
- two middlewares guard the protected routes. `protect` guards the end-user routes; `protectAdmin` followed by `admin` guards the admin routes.

The client side is a React/Redux application:
- three slices hold the end-user session, the administrator session and the user listing;
- both sessions are mirrored in `localStorage`, and an end-user logout reaches the other tabs over a `BroadcastChannel`;
- the registration and profile pages validate their forms before they call the server;
- the admin dashboard filters the listing and shows it seven users per page.

One Dafny module per source file:

| module | file | models |
|---|---|---|
| `Users`, `Http` | `users.dfy` | the user collection (`UserCollection`: documents by id, the unique email index), the public projection without the password, the JSON responses, the shared `catch` block |
| `UserController` | `user_controller.dfy` | `register`, `login`, `updateData`, `updateProfile` |
| `AdminController` | `admin_controller.dfy` | `adminLogin`, `dataFetching`, `addUser`, `updateUser`, `deleteUser` |
| `AuthMiddleware` | `auth_middleware.dfy` | `protect`, and the request it writes `req.user` into |
| `AdminAuthMiddleware` | `admin_auth_middleware.dfy` | `protectAdmin`, `admin`, and the admin route chain |
| `UserRoutes` | `user_routes.dfy` | the two protected end-user routes |
| `ClientData`, `Browser` | `browser.dfy` | the user/admin objects the client holds; `localStorage` and `BroadcastChannel` as a window with a storage map and logs |
| `UserDataReducer` | `user_data_reducer.dfy` | the `userData` slice |
| `AdminDataReducer` | `admin_data_reducer.dfy` | the `adminData` slice |
| `AllUsersDataReducer` | `all_users_data_reducer.dfy` | the `users` slice |
| `Dashboard` | `dashboard.dfy` | the dashboard's filter, pagination and request guards |
| `RegisterPage` | `register_page.dfy` | the registration form's validation, submit guard and field update |
| `ProfilePage` | `profile_page.dfy` | the profile form's validation, submit and upload guards, edit buffer |
| `Text`, `Email`, `Wrappers` | `text.dfy`, `email.dfy`, `wrappers.dfy` | JavaScript's `trim`, `toLowerCase`, `includes`, `startsWith`, `split(' ')`; the email regular expression; `Option` |

How the model is built:
- Decisions are functions of a snapshot of the collection. Examples: the registration check chain, `login`, `adminLogin`, and the guards' decisions.
- Operations that write to the collection are methods over `UserCollection`.
- The middlewares assign `req.user` or `req.admin` in a `Request` object.
- Each Redux slice is a class whose fields the reducers assign. Each method is specified by a pure transition function, and lemmas prove that the slice's storage mirror is kept.

bcrypt and jsonwebtoken enter as a `Crypto` parameter:
- `hash` stands for the hash, and `compare(p, h)` is `hash(p) == h`;
- `sign` maps a user id to a token;
- `verify` gives back the id a token carries, or nothing when it throws.

Failures a store call can throw enter as parameters. The unique email index is kept by `save`: saving an email that another document holds is refused, and the answer is "Email already exists". A duplicate that `create` runs into, when another request inserts the same email after the `findOne` check, enters as a thrown duplicate-key error. The shared `catch` block answers it with the same 400.

Where the code and the system's written design disagree, the model follows the code:
- **`login` messages.** `login` answers an unknown email with "Invalid email or password" and a wrong password with "Password wrong.please try agian". The two answers differ, so the response reveals whether an email is registered (`UserController.LoginRevealsRegisteredEmail`). The design asks for one indistinguishable answer.
- **Deleted accounts behind `protect`.** `protect` admits a verified token whose account has been deleted, with `req.user` left null. `updateProfile` then fails with a 500 because it dereferences `req.user.id` (`UserRoutes.UpdateProfileRoute`). The design asks for a "user missing" rejection that makes the client log out.
- **500 bodies.** The 500 answers of the user controllers, `addUser` and `updateUser` put the caught error itself under `message`. Express writes it with `JSON.stringify`, which keeps only the error's enumerable own fields. A plain `Error` or `TypeError` therefore arrives as an empty object, and a driver error with enumerable fields such as `code` arrives with those fields. The design asks for an opaque message.
- **The `Bearer` prefix.** The header test is `startsWith("Bearer")` with no space required, and the token is the second space-separated field.
- **The admin response key.** The admin login response spells its last key `updatedAT`.
- **Checking the path id.** `update-data/:id` edits the account named in the path. Nothing compares it with the caller's account.

## Model

| member | source | states |
|---|---|---|
| Users.Public | backend/controller/userController.js:40-45 | the password-free projection carries the document's id, email and admin flag |
| Users.PublicForgetsOnlyPassword | backend/controller/userController.js:40-45 | two documents have the same projection exactly when they differ at most in the password hash |
| Users.PasswordMatches | backend/controller/userController.js:70 | `bcrypt.compare` succeeds exactly when the stored hash is the hash of the given password |
| Users.FindOne | backend/controller/userController.js:24 | `findOne({ email })` finds a document exactly when one holds the email, and the one it returns holds it |
| Users.UserCollection.FindById | backend/controller/userController.js:106 | `findById` returns the document stored under the id, or nothing when there is none |
| Users.UserCollection.Create | backend/controller/userController.js:31-36 | `create` stores the document under a fresh id and leaves every other document as it was; the unique-email invariant is kept |
| Users.UserCollection.Save | backend/controller/userController.js:114 | `save` is refused exactly when another document holds the new email (error code 11000); otherwise only that document changes |
| Users.UserCollection.Delete | backend/controller/adminController.js:151 | `findByIdAndDelete` removes exactly that document |
| Http.Caught | backend/controller/userController.js:50-60 | the shared `catch` block: a `ValidationError` answers 400 carrying exactly its messages; a duplicate-key error (code 11000) answers 400 "Email already exists"; any other error answers 500 with the error, as `JSON.stringify` renders it, as the body; 400 exactly when the error is not of the third kind |
| UserController.AccountCheck | backend/controller/userController.js:10-27 | registration checks run in order: missing field, email format, password length, then "already exists". Each outcome holds exactly when its check is the first to fail |
| UserController.StoreConsultedLast | backend/controller/userController.js:24-27 | only the last check reads the collection, so two snapshots can disagree only between acceptance and "already exists" |
| UserController.NewAccount | backend/controller/userController.js:29-36 | the created document is a non-admin, holds the password's hash rather than the password, and has no profile image |
| UserController.SecondRegistrationRefused | backend/controller/userController.js:24-27 | once an email is registered, a second registration with it is refused as "User already exists", whatever its name and password |
| UserController.RegisterRejection | backend/controller/userController.js:10-27 | each failed check answers 400, and each body belongs to exactly one check: `error` "please provide all required fields" for a missing field, `error` "Invalid email format.", `error` "Password must be at least 6 characters long.", and `message` "User already exists" for a taken email |
| UserController.Register | backend/controller/userController.js:6-61 | a failed check or a thrown error leaves the collection unchanged and gives the matching answer (a duplicate key thrown by `create` answers "Email already exists"); otherwise one non-admin document is added and the 201 answer carries its token and its password-free projection |
| UserController.Login | backend/controller/userController.js:63-87 | 200 exactly when a document holds the email and the password matches its hash; the answer carries that account's token and projection. An unknown email and a wrong password give two different 401 messages |
| UserController.LoginRevealsRegisteredEmail | backend/controller/userController.js:67-73 | a failed login for an unknown email never equals a failed login for a registered one |
| UserController.Patch | backend/controller/userController.js:111-114 | name and email change only when a non-empty value is sent; the password hash, the admin flag, the image and `createdAt` are kept |
| UserController.UpdateData | backend/controller/userController.js:101-139 | 404 for an unknown id; a thrown error or an email held by another account leaves the collection unchanged; otherwise exactly that document is replaced by its patched form |
| UserController.UpdateProfile | backend/controller/userController.js:141-172 | a missing `req.user` or `req.file` throws a TypeError, which answers 500 with an empty object (`{}`) and changes nothing; an unknown account answers 404; otherwise only the document's image (and `updatedAt`) changes |
| AdminController.AdminLogin | backend/controller/adminController.js:5-36 | 200 exactly when the email's account is an admin and the password matches. An unknown email gets 401 "Invalid email or password", a non-admin account 401 "Access denied. Admin privileges required.", and an admin account with a wrong password 401 "Admin login failed: Password mismatch". The 200 answer carries the account's token and admin view |
| AdminController.NonAdminPasswordIrrelevant | backend/controller/adminController.js:12-17 | the admin flag is checked before the password, so a non-admin account gets the same answer whatever password is sent |
| AdminController.ListUsers | backend/controller/adminController.js:40 | the listing has one entry per document, each the document without its password |
| AdminController.ListCoversAll | backend/controller/adminController.js:40 | every stored document appears in the listing |
| AdminController.ListNewestFirst | backend/controller/adminController.js:40 | the listing is ordered by `createdAt`, newest first |
| AdminController.DataFetching | backend/controller/adminController.js:38-46 | a store failure answers 500 "Server error while fetching users"; otherwise 200 with `ListUsers` of the collection, one entry per user |
| AdminController.AddUserRejection | backend/controller/adminController.js:52-67 | a missing field answers 400 `error` "Please provide all required fields"; every other failed check gets `register`'s answer; the answer differs from `register`'s exactly for a missing field |
| AdminController.AddUser | backend/controller/adminController.js:48-100 | the same check chain, thrown errors and insertion as `register`; the created account is never an admin, and the 201 answer carries no token |
| AdminController.UpdateUser | backend/controller/adminController.js:102-140 | 404 when the body has no id or the id is unknown; otherwise `updateData`'s partial update, which never changes the admin flag |
| AdminController.DeleteUser | backend/controller/adminController.js:142-160 | 404 for a missing or unknown id; otherwise exactly that document is removed and every other one is kept; a store failure answers 500 |
| AdminController.RegisteredAccountIsNotAdmin | backend/controller/adminController.js:12-14 | a freshly registered account can log in with its password, but the admin login refuses it with "Access denied. Admin privileges required." |
| AuthMiddleware.ReadBearer | backend/middleware/authMiddleware.js:7-9 | no header, or one that does not start with "Bearer", means no token; otherwise the token is the second space-separated field, which may be absent |
| AuthMiddleware.BearerTokenRead | backend/middleware/authMiddleware.js:9 | for `Bearer <t>` with `t` free of spaces, the token read is exactly `t` |
| AuthMiddleware.Verify | backend/middleware/authMiddleware.js:12 | a missing or empty token fails verification, as a bad one does; any other token is what `verify` makes of it |
| AuthMiddleware.ProtectDecision | backend/middleware/authMiddleware.js:7-25 | every refusal is a 401: "no token" exactly when there is no bearer header, and "token failed" exactly when verification fails. A verified token is admitted, with its account attached, or with none when the account no longer exists |
| AuthMiddleware.Protect | backend/middleware/authMiddleware.js:4-26 | either exactly one response is sent and `req.user` is untouched, or `req.user` is set and `next` runs |
| AuthMiddleware.Lookup | backend/middleware/authMiddleware.js:15 | `findById(id).select("-password")` finds an account exactly when the id is stored, and gives its id, email and admin flag |
| AdminAuthMiddleware.ProtectAdminDecision | backend/middleware/adminAuthMiddleware.js:6-27 | 403 exactly when there is no bearer header; 401 exactly when verification fails; 404 "Admin not found" exactly when the token's account is gone; a verified token whose account exists admits that account's password-free projection |
| AdminAuthMiddleware.ProtectAdmin | backend/middleware/adminAuthMiddleware.js:4-28 | either one response is sent, or `req.admin` is set and `next` runs |
| AdminAuthMiddleware.AdminGate | backend/middleware/adminAuthMiddleware.js:29-35 | `next` runs exactly when `req.admin` is present and flagged admin; otherwise the answer is 403 |
| AdminAuthMiddleware.AdminRoute | backend/routes/adminRoutes.js:9-12 | an admin handler runs exactly when the token verifies to an existing account flagged admin |
| AdminAuthMiddleware.NonAdminStoppedAtGate | backend/routes/adminRoutes.js:9-12 | a valid token of a non-admin passes `protect` but never reaches an admin handler: the chain answers 403 |
| AdminAuthMiddleware.EmptyTokenRefused | backend/middleware/authMiddleware.js:7-21 | the header `"Bearer "` passes the prefix test but carries an empty token. `protect` refuses it with 401 "Not authorized, token failed" and `protectAdmin` with 401 "Invalid or expired token", for every secret |
| AdminAuthMiddleware.GuardsDiffer | backend/middleware/adminAuthMiddleware.js:14-17 | with no token the user guard answers 401 and the admin guard 403; for a deleted account the user guard admits with no account, the admin guard answers 404 |
| UserRoutes.UpdateProfileRoute | backend/routes/userRoutes.js:12-27 | a refused token answers 401 and changes nothing; a still-valid token of a deleted account answers 500 with an empty object, the TypeError as `JSON.stringify` renders it |
| UserRoutes.UpdateDataRoute | backend/routes/userRoutes.js:10 | a refused token answers 401 and changes nothing. Any admitted caller, whoever they are, edits the account named in the path |
| Text.Trim | frontend/src/pages/Register/Register.jsx:35 | `trim()` gives a substring of the input that neither starts nor ends with JavaScript whitespace, and cuts away only whitespace: the result is `s[a..b]`, and everything before `a` and after `b` is whitespace. A non-empty string with no whitespace at either end is left unchanged |
| Text.TrimEmptyIffAllSpace | frontend/src/pages/Register/Register.jsx:35 | `trim()` gives the empty string exactly when every character is JavaScript whitespace |
| Text.Lower | frontend/src/pages/Dashboard/DashBoard.jsx:44 | `toLowerCase()` keeps the length and lowers each character |
| Text.Includes | frontend/src/pages/Dashboard/DashBoard.jsx:44-45 | `includes` holds for the empty string and for the string itself, and never for a longer string |
| Text.IncludesEmpty | frontend/src/pages/Dashboard/DashBoard.jsx:44-45 | every string includes the empty string |
| Text.StartsWith | backend/middleware/authMiddleware.js:7 | `startsWith(p)` holds exactly when the string is `p` followed by something, and then the string includes `p` |
| Text.Split | backend/middleware/authMiddleware.js:9 | `split(' ')` gives at least one field, and no field contains the separator |
| Text.JoinSplit | backend/middleware/authMiddleware.js:9 | joining the fields of `split(' ')` with the separator gives back the string |
| Text.SplitJoin | backend/middleware/authMiddleware.js:9 | splitting a join of separator-free fields gives back the fields |
| Text.Field | backend/middleware/authMiddleware.js:9 | `split(' ')[k]` is absent exactly when there are at most `k` fields |
| Email.ValidEmail | backend/controller/userController.js:13-14 | an accepted address has at least five characters, and its `@` is neither first nor among the last three |
| Email.ValidEmailIsMatch | backend/controller/userController.js:13-14 | a string with no whitespace, one `@`, a non-empty local part and an inner dot in the domain matches `^[^\s@]+@[^\s@]+\.[^\s@]+$` |
| Email.MatchIsValidEmail | backend/controller/userController.js:13-14 | a string that matches the expression has those properties |
| Email.ValidEmailIffMatch | backend/controller/userController.js:13-14 | the executable email test and the expression accept the same strings |
| Browser.TokenAt | frontend/redux-toolkit/userDataReducer.js:66 | `getItem(key) \|\| null` never reads an empty string as a token |
| Browser.Window.SetItem | frontend/redux-toolkit/userDataReducer.js:126-127 | `setItem` stores the value under the key and logs the write |
| Browser.Window.RemoveItem | frontend/redux-toolkit/userDataReducer.js:82-83 | `removeItem` deletes the key and logs the removal |
| Browser.Window.Post | frontend/redux-toolkit/userDataReducer.js:85-91 | the message is posted when `BroadcastChannel` exists; otherwise the thrown error is caught and nothing is posted |
| UserDataReducer.InitialState | frontend/redux-toolkit/userDataReducer.js:59-71 | not loading and no error; authenticated exactly when a non-empty `token` is stored; the state mirrors storage |
| UserDataReducer.SignedOut | frontend/redux-toolkit/userDataReducer.js:73-80 | token gone, not authenticated, profile fields empty; `loading` and `error` kept |
| UserDataReducer.SignedOutIdempotent | frontend/redux-toolkit/userDataReducer.js:99-106 | logging out twice is logging out once |
| UserDataReducer.Started | frontend/redux-toolkit/userDataReducer.js:111-114 | a pending case sets `loading` and clears `error`, and nothing else |
| UserDataReducer.Failed | frontend/redux-toolkit/userDataReducer.js:129-132 | a rejected case clears `loading` and stores the payload as `error`, and nothing else |
| UserDataReducer.ErrorCleared | frontend/redux-toolkit/userDataReducer.js:96-98 | `clearError` clears `error` and nothing else |
| UserDataReducer.SignedIn | frontend/redux-toolkit/userDataReducer.js:115-128 | after a fulfilled register or login, the profile is the payload's user, the token is the payload's, and the session is authenticated exactly when the token is non-empty |
| UserDataReducer.Refreshed | frontend/redux-toolkit/userDataReducer.js:161-171 | a profile refresh replaces the profile and never changes the token or `isAuthenticated` |
| UserDataReducer.LogoutMirrored | frontend/redux-toolkit/userDataReducer.js:73-95 | after `logout`, memory and storage agree, whatever state it started from |
| UserDataReducer.SyncLogoutMirrored | frontend/redux-toolkit/userDataReducer.js:99-107 | `syncLogout` writes no storage; its state mirrors storage once the `user` and `token` keys are gone |
| UserDataReducer.SignInMirrored | frontend/redux-toolkit/userDataReducer.js:115-128 | a sign-in stores exactly what it puts in memory |
| UserDataReducer.RefreshMirrored | frontend/redux-toolkit/userDataReducer.js:161-171 | a profile refresh keeps memory and storage in agreement |
| UserDataReducer.UserSlice.constructor | frontend/redux-toolkit/userDataReducer.js:59-71 | the slice starts from the state read from storage |
| UserDataReducer.UserSlice.Logout | frontend/redux-toolkit/userDataReducer.js:73-95 | clears the session; removes `user` and `token`; posts `LOGOUT` from `user` when the channel exists; sets then removes `logout-event`, so the key does not remain; memory mirrors storage afterwards |
| UserDataReducer.UserSlice.SyncLogout | frontend/redux-toolkit/userDataReducer.js:99-107 | the same in-memory result as `logout`, with no storage write and no broadcast |
| UserDataReducer.UserSlice.ClearError | frontend/redux-toolkit/userDataReducer.js:96-98 | only `error` changes, to null |
| UserDataReducer.UserSlice.Pending | frontend/redux-toolkit/userDataReducer.js:111-114 | every pending case: `loading` set and `error` cleared, every other field as before |
| UserDataReducer.UserSlice.Rejected | frontend/redux-toolkit/userDataReducer.js:129-132 | every rejected case: `loading` cleared and `error` set to the payload, every other field as before |
| UserDataReducer.UserSlice.SessionFulfilled | frontend/redux-toolkit/userDataReducer.js:138-151 | the sign-in transition; `token` and `user` are written to storage, in that order; the mirror holds afterwards |
| UserDataReducer.UserSlice.ProfileFulfilled | frontend/redux-toolkit/userDataReducer.js:201-210 | the refresh transition; only `user` is written; a mirror that held before still holds |
| UserDataReducer.CrossTabLogout | frontend/redux-toolkit/userDataReducer.js:85-107 | a logout in one tab, delivered to a second tab as `syncLogout`, leaves both tabs with the same cleared session, both mirroring storage, after exactly one broadcast |
| AdminDataReducer.InitialState | frontend/redux-toolkit/adminDataReducer.js:19-27 | not loading and no error; authenticated exactly when a non-empty `admin-token` is stored; the state mirrors storage |
| AdminDataReducer.SignedOut | frontend/redux-toolkit/adminDataReducer.js:29-34 | email, id, token, `isAuthenticated` and `isAdmin` cleared; `loading` and `error` kept |
| AdminDataReducer.SignedIn | frontend/redux-toolkit/adminDataReducer.js:46-57 | the admin fields come from the payload, and the session is authenticated exactly when the token is non-empty |
| AdminDataReducer.LogoutMirrored | frontend/redux-toolkit/adminDataReducer.js:29-38 | after the admin logout, memory and storage agree |
| AdminDataReducer.SignInMirrored | frontend/redux-toolkit/adminDataReducer.js:46-57 | the admin sign-in stores exactly what it puts in memory |
| AdminDataReducer.SessionsIndependent | frontend/redux-toolkit/adminDataReducer.js:36-37 | the admin sign-in and logout keep the end-user session's mirror, and the end-user logout keeps the admin's |
| AdminDataReducer.AdminSlice.constructor | frontend/redux-toolkit/adminDataReducer.js:19-27 | the slice starts from the state read from storage |
| AdminDataReducer.AdminSlice.Logout | frontend/redux-toolkit/adminDataReducer.js:29-38 | clears the session and removes only `admin` and `admin-token`; nothing is broadcast |
| AdminDataReducer.AdminSlice.Pending | frontend/redux-toolkit/adminDataReducer.js:42-45 | `loading` set and `error` cleared, and nothing else |
| AdminDataReducer.AdminSlice.Rejected | frontend/redux-toolkit/adminDataReducer.js:59-62 | `loading` cleared and `error` set to the payload, and nothing else |
| AdminDataReducer.AdminSlice.Fulfilled | frontend/redux-toolkit/adminDataReducer.js:46-58 | the sign-in transition; `admin-token` and `admin` are stored; the mirror holds afterwards |
| AllUsersDataReducer.Reduce | frontend/redux-toolkit/allUsersDataReducer.js:57-69 | pending sets `loading` and clears `error`; fulfilled replaces `data` wholesale and keeps `error`; rejected keeps `data` and stores the error; every other thunk's action leaves the slice unchanged |
| AllUsersDataReducer.HistoryDetermines | frontend/redux-toolkit/allUsersDataReducer.js:57-69 | from the initial state, the list held is the payload of the last fulfilled fetch (or empty), and `loading` holds exactly when the last fetch action is the pending one |
| AllUsersDataReducer.FetchCycle | frontend/redux-toolkit/allUsersDataReducer.js:57-65 | a pending then fulfilled fetch leaves the fetched list with no error; a fulfilled case alone keeps a stale error |
| AllUsersDataReducer.UsersSlice.constructor | frontend/redux-toolkit/allUsersDataReducer.js:49-53 | empty list, not loading, no error |
| AllUsersDataReducer.UsersSlice.Dispatch | frontend/redux-toolkit/allUsersDataReducer.js:57-69 | the slice's fields become the reducer's result |
| Dashboard.FilteredUsers | frontend/src/pages/Dashboard/DashBoard.jsx:41-46 | every listed user is a non-admin who matches the search term, and the filter never adds users |
| Dashboard.FilteredIsSubsequence | frontend/src/pages/Dashboard/DashBoard.jsx:41 | the filter keeps the order of the listing |
| Dashboard.FilteredMembership | frontend/src/pages/Dashboard/DashBoard.jsx:41-46 | a user is shown exactly when they are in the listing, are not an admin, and their lowered name or email includes the lowered term |
| Dashboard.EmptyTermKeepsNonAdmins | frontend/src/pages/Dashboard/DashBoard.jsx:44-45 | with an empty term every non-admin is shown |
| Dashboard.JsSlice | frontend/src/pages/Dashboard/DashBoard.jsx:50 | `slice` returns a contiguous window `s[b..e]` of the array; for in-range bounds `0 <= start <= end` it is exactly `s[start..end]`; a start at or past the end, or an end at or before a non-negative start, gives `[]` |
| Dashboard.SliceBounds | frontend/src/pages/Dashboard/DashBoard.jsx:50 | a negative start `-k` counts back from the end (`slice(-k)` is the last `k` entries), a start before the beginning clamps to 0, and an end past the last entry clamps to the length |
| Dashboard.CurrentUsers | frontend/src/pages/Dashboard/DashBoard.jsx:48-50 | page `p` is entries `7(p-1)` up to `7p` of the filtered list, clipped to its end, so at most 7 users |
| Dashboard.TotalPages | frontend/src/pages/Dashboard/DashBoard.jsx:51 | the least number of pages of 7 that hold the filtered list, i.e. the ceiling of its length divided by 7 |
| Dashboard.PageButtons | frontend/src/pages/Dashboard/DashBoard.jsx:270 | the buttons are exactly 1 to `totalPages` |
| Dashboard.AllPagesShowAll | frontend/src/pages/Dashboard/DashBoard.jsx:48-51 | pages 1 to `totalPages`, one after another, are the filtered list |
| Dashboard.PastLastPageEmpty | frontend/src/pages/Dashboard/DashBoard.jsx:48-51 | a page past `totalPages` is empty |
| Dashboard.UpdateRequest | frontend/src/pages/Dashboard/DashBoard.jsx:72-75 | no update is dispatched without a selected user; otherwise it is sent with that user's id and the form's name and email |
| Dashboard.DeleteRequest | frontend/src/pages/Dashboard/DashBoard.jsx:92-95 | no delete is dispatched without a selected user; otherwise it is sent with that user's id |
| RegisterPage.Validation | frontend/src/pages/Register/Register.jsx:32-49 | rules run in the order name (not blank after trim), email (the expression), password (at least 6). Each failure is reported exactly when it is the first rule to fail; the form is valid exactly when all pass |
| RegisterPage.Submit | frontend/src/pages/Register/Register.jsx:51-59 | the form is dispatched exactly when it is valid; otherwise nothing is dispatched and the failing field and message are recorded |
| RegisterPage.Change | frontend/src/pages/Register/Register.jsx:71-77 | only the named field changes |
| RegisterPage.DispatchedPassesServerFormat | backend/controller/userController.js:10-22 | a form the page dispatches passes every format check of `register`: the server can only accept it or answer "User already exists" |
| RegisterPage.BlankNameRefusedOnlyByPage | frontend/src/pages/Register/Register.jsx:35-37 | a whitespace-only name is refused by the page, while `register` lets it through its checks |
| ProfilePage.Validation | frontend/src/pages/Profile/Profile.jsx:56-69 | the name rule, then the email rule, with no password rule; the first failure is reported |
| ProfilePage.SameRulesAsRegistration | frontend/src/pages/Profile/Profile.jsx:56-69 | on any password registration accepts, the profile page and the registration page give the same verdict |
| ProfilePage.SubmitRequest | frontend/src/pages/Profile/Profile.jsx:70-77 | an update is dispatched exactly when the edit buffer is valid |
| ProfilePage.UploadRequest | frontend/src/pages/Profile/Profile.jsx:35-44 | with no image selected only "Please select an image first!" is shown and nothing is uploaded |
| ProfilePage.Reset | frontend/src/pages/Profile/Profile.jsx:83-86 | on a failed update, as on Cancel, the buffer returns to the session's name and email and editing stops |
| ProfilePage.Saved | frontend/src/pages/Profile/Profile.jsx:79-82 | on success editing stops and the buffer is kept |
| ProfilePage.FailureRestoresPreviousProfile | frontend/src/pages/Profile/Profile.jsx:83-86 | a rejected update leaves the session's name and email as before, so the reset buffer holds the values from before the edit |

## Left out

- bcrypt and jsonwebtoken are foreign. They are the `Crypto` parameter: hashing cost and salts, token expiry, and the secret are not modelled.
- Mongoose read failures are not modelled. A `findOne` or `findById` that throws is outside the model, and so are `adminLogin`'s 500 answer "Error during admin login" and the 500 of `login`'s `catch` block.
- A malformed id string is not modelled. Ids are natural numbers, so the `CastError` that `findById` throws on a bad id cannot arise.
- The schema file is not part of this model. Its validators, any email normalisation and the `timestamps` option are absent. `save` is assumed to stamp `updatedAt`, and failures of `save` other than the unique index enter as a parameter.
- Text.Lower: lowers only ASCII letters. Other Unicode case mappings are not modelled.
- Lengths are counted in characters, not in UTF-16 code units.
- The upload plumbing is outside the model: Cloudinary, multer, and the route's multer wrapper with its 400 "Upload error". `req.file.path` is an opaque string.
- The server wiring is outside the model: CORS, the database connection and `listen`. The route files are used only for middleware order.
- The axios calls inside the thunks are network I/O. Only their outcomes are modelled, as pending, fulfilled or rejected actions.
- Rejected payloads are abstracted as strings. The source stores the server's response body, or a fallback text, in `error`.
- The listener that dispatches `syncLogout` in other tabs is not part of this model. `UserDataReducer.CrossTabLogout` delivers the message directly.
- Stored JSON values are typed. A `user` or `admin` key holding text that is not JSON, on which `JSON.parse` throws, reads as absent.
- `login` and `adminLogin` take the email and password as strings. A request body missing them is not modelled.
- AdminController.ListUsers: the order among users created at the same instant is left open. The listing is ghost because the order is chosen among ties.
- The `console.log` and `console.error` calls in the controllers, the middlewares and the pages are output only and are not modelled.
- `register`, `addUser`, `updateData` and `updateUser` read their body fields as strings or absent (`Option<string>`). A field sent as a number, an object or an array is not modelled.
- `JSON.stringify` itself is not modelled. A thrown error enters as the JSON text of its enumerable fields, and only the plain `Error` (`{}`) is fixed by the model. The `'server error'` fallback, used when the thrown value is falsy, is not modelled, because store calls throw error objects.
- Rendering, navigation and toasts are left out. So are the dashboard's add-user form and its refetch after each change, and the pages not listed above.
