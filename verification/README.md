# MERN admin dashboard — session, store gate, access levels and backend rules in Dafny

This project models the logic of a MERN admin dashboard that can be stated exactly.

- **Client session.** The Redux `user` slice holds `user`, `loading`, `error`, `isAuthenticated` and `users`. It is modelled as the class `Session.Session`. The class also holds:
  - the browser's `localStorage`, as a `map<string, string>`;
  - the current path;
  - a log of every dispatch, server request, storage write or removal, navigation and reload, so the order of a handler's steps can be stated.
- **Reducers.** Each reducer is a method whose frame lists exactly the fields it assigns. Each is proved against the pure transition `UserSlice.Reduce`. The class invariant `Valid` says that the slice state is always the initial state with the dispatched actions replayed on it. Each dispatch adds its action to that history and logs it.
- **Handlers.** The handlers of the Login, App, Topbar, Register and Team screens are methods of the same class. The server's replies are their parameters.
- **JavaScript values.** A value used as a condition is a `Json.Flag` (`true`, `false`, `null` or `undefined`), and only `true` is truthy.
- **JSON texts.** The stored `isAuthenticated` text is read by a literal-name decoder. The decoder follows RFC 8259 section 3 (literal names) and the whitespace rule of section 2. `JSON.stringify(undefined)` is stored as the text `undefined`, which that decoder rejects.
- **Stored user objects.** They go through a fixed-key-order JSON writer and reader (strings with the escapes of RFC 8259 section 7, integers as in section 6). The reader is proved to invert the writer.
- **Store gate.** `protectStoreMiddleware` is a pure allow/drop function (`Store.Gate`). The store is configured without it: `Store.Installed` is the empty custom chain, and every dispatch in `Session` goes through it.
- **Access levels.** The Register form's label-to-value lookup and the Team grid's value-to-label switch are proved inverse on 10/20/30.
- **Team ids.** The grid numbers rows 1..n.
- **Backend user model.** The model covers:
  - the postal-code validator and comma stripping;
  - the `fullName` virtual;
  - the `pre("save")` hook, with bcrypt as a hash/compare pair of function parameters;
  - `matchPassword` and `updateProfileImage`;
  - the `isAdmin` default;
  - unique email and phone, as the invariant of an in-memory collection.
- **Text store.** The single-document text store is an `Option<string>` with `getText` and an upserting `updateText`.

Three consequences the model makes explicit:
- A page load with no usable cached `"user"` entry (a first visit, or after a logout) leaves the placeholder user in place. The admin check then sets `isAuthenticated` to `undefined`, because the placeholder has no `isAdmin`, and the root persists the text `undefined` (`Session.LoadPage`). With a cached admin user, the login screen's mount effect runs first and the persisted text is `true`. A cached entry that does not parse makes that effect throw: the root's effects of the same commit still run, so the text `false` stays stored.
- Once the text `undefined` is stored, the start-up redirect only logs a parse error and never redirects (`App.RedirectAfterPersist`).
- The Register screen dispatches the promise `registerUser` returns, and the configured store throws on it. So every submit that passes the level lookup sends the request and then ends with "Registration failed", whatever the server answers (`Session.Session.RegisterSubmit`).

## Model

| member | source | states |
|---|---|---|
| UserSlice.RequestOnlyStartsLoading | frontend/src/redux/userSlice.js:22-24 | each of the five `*Request` reducers sets `loading` to true and leaves every other field as it was |
| UserSlice.LoginSuccessAuthenticates | frontend/src/redux/userSlice.js:25-35 | a login success stores the payload as the user, clears the error and `loading`, sets `isAuthenticated` to true, and leaves `users` alone |
| UserSlice.FailureDropsUser | frontend/src/redux/userSlice.js:36-40 | the login, register and logout failures set `user` to null, `error` to the reason and `loading` to false, and change nothing else (so `isAuthenticated` is kept) |
| UserSlice.RegisterKeepsAuthentication | frontend/src/redux/userSlice.js:44-53 | a register success makes the payload the user but never changes `isAuthenticated` |
| UserSlice.ProfileUpdateFailureKeepsUser | frontend/src/redux/userSlice.js:81-84 | a failed profile update keeps the user and only clears `loading` and records the error |
| UserSlice.UpdateProfileImageOnlyImage | frontend/src/redux/userSlice.js:85-87 | setting the image on a present user changes only that user's `profileImage` |
| UserSlice.GetUsersFailureEmptiesList | frontend/src/redux/userSlice.js:96-100 | a failed users fetch leaves a present, empty list |
| UserSlice.AuthenticationChanges | frontend/src/redux/userSlice.js:62-67 | `isAuthenticated` is written only by login success (true), logout success (false) and the admin check (the user's flag); every other action keeps it |
| UserSlice.OnlyLogoutOrAdminCheckDeauthenticates | frontend/src/redux/userSlice.js:62-67 | an authenticated session stops being authenticated only through a logout success or an admin check on a non-admin user |
| UserSlice.AdminCheckAuthenticatesAdmins | frontend/src/redux/userSlice.js:101-104 | after the admin check, `isAuthenticated` is truthy exactly when a user is present whose `isAdmin` is true |
| UserSlice.InitialAdminCheckIsUndefined | frontend/src/redux/userSlice.js:5-15 | the initial user has no `isAdmin`, so the admin check on the initial state makes `isAuthenticated` undefined |
| UserSlice.RunAppend | frontend/src/redux/userSlice.js:18-106 | replaying a history and then one more action is the same as applying that action to the replayed state |
| UserSlice.RunKeepsAuthentication | frontend/src/redux/userSlice.js:18-106 | a history with no login success, logout success or admin check leaves `isAuthenticated` unchanged |
| UserSlice.AuthenticatedOnlyAfterLoginOrAdminCheck | frontend/src/redux/userSlice.js:5-15 | from the initial state, a session is authenticated only if its history contains a login success or an admin check |
| Session.Session.AuthenticatedOnlyAfterLoginOrAdminCheck | frontend/src/redux/userSlice.js:25-35 | in any session, a truthy `isAuthenticated` means a login success or an admin check has been dispatched since the page loaded |
| Session.Session.constructor | frontend/src/redux/userSlice.js:5-15 | a page load starts from the initial slice state (placeholder user, not loading, no error, `isAuthenticated` false) over the stored map, with an empty log |
| Session.Session.UserLoginRequest | frontend/src/redux/userSlice.js:22-24 | the reducer method ends in the state `Reduce` gives for a login request; its frame allows only `loading` to change |
| Session.Session.UserLoginSuccess | frontend/src/redux/userSlice.js:25-35 | ends in `Reduce`'s state for a login success; its frame leaves `users` untouched |
| Session.Session.UserLoginFailure | frontend/src/redux/userSlice.js:36-40 | ends in `Reduce`'s state for a login failure; its frame leaves `isAuthenticated` and `users` untouched |
| Session.Session.UserRegisterRequest | frontend/src/redux/userSlice.js:41-43 | ends in `Reduce`'s state for a register request; only `loading` may change |
| Session.Session.UserRegisterSuccess | frontend/src/redux/userSlice.js:44-53 | ends in `Reduce`'s state for a register success; `isAuthenticated` is outside its frame |
| Session.Session.UserRegisterFailure | frontend/src/redux/userSlice.js:54-58 | ends in `Reduce`'s state for a register failure; `isAuthenticated` is outside its frame |
| Session.Session.UserLogoutRequest | frontend/src/redux/userSlice.js:59-61 | ends in `Reduce`'s state for a logout request; only `loading` may change |
| Session.Session.UserLogoutSuccess | frontend/src/redux/userSlice.js:62-67 | ends in `Reduce`'s state for a logout success: the payload as user, not loading, no error, `isAuthenticated` false |
| Session.Session.UserLogoutFailure | frontend/src/redux/userSlice.js:68-72 | ends in `Reduce`'s state for a logout failure; `isAuthenticated` is outside its frame |
| Session.Session.UserProfileUpdateRequest | frontend/src/redux/userSlice.js:73-75 | ends in `Reduce`'s state for a profile-update request; only `loading` may change |
| Session.Session.UserProfileUpdateSuccess | frontend/src/redux/userSlice.js:76-80 | ends in `Reduce`'s state for a profile-update success |
| Session.Session.UserProfileUpdateFailure | frontend/src/redux/userSlice.js:81-84 | ends in `Reduce`'s state for a profile-update failure; `user` is outside its frame |
| Session.Session.SetProfileImage | frontend/src/redux/userSlice.js:85-87 | reports a throw exactly when there is no user (then nothing changes), and otherwise replaces only the user's image |
| Session.Session.UsersRequest | frontend/src/redux/userSlice.js:88-90 | ends in `Reduce`'s state for a users request; only `loading` may change |
| Session.Session.UsersSuccess | frontend/src/redux/userSlice.js:91-95 | ends in `Reduce`'s state for a users success: the rows stored, not loading, no error |
| Session.Session.UsersFailure | frontend/src/redux/userSlice.js:96-100 | ends in `Reduce`'s state for a users failure: an empty list, not loading, the error recorded |
| Session.Session.AdminAccessCheck | frontend/src/redux/userSlice.js:101-104 | ends in `Reduce`'s state for the admin check; only `isAuthenticated` may change |
| Session.Session.Dispatch | frontend/src/store.js:25-30 | every action passes the installed (empty) middleware chain and reaches its reducer. The new slice is `Reduce` of the old, the action is logged and added to the history, and the replay invariant is kept |
| Session.Session.LoginOutcome | frontend/src/scenes/Login.jsx:37-79 | after the server call: a thrown error dispatches the failure and writes no storage. A falsy `isAdmin` changes nothing (no success, no `"user"` write, no navigation). An admin reply dispatches the success, stores the user's JSON under `"user"` and navigates to `/`, in that order |
| Session.Session.LoginSubmit | frontend/src/scenes/Login.jsx:32-80 | the login request is dispatched before the server call. A thrown error dispatches the failure and writes no storage. A falsy `isAdmin` leaves `loading` true with no success, no `"user"` write and no navigation. An admin reply dispatches the success, then stores the user's JSON under `"user"`, then navigates to `/`, in that order. `isAuthenticated` changes only on an admin reply |
| Session.Session.LoginMount | frontend/src/scenes/Login.jsx:82-89 | a present, non-empty `"user"` entry that parses is dispatched as a login success (so `isAuthenticated` becomes true with no `isAdmin` check); text that does not parse throws and changes nothing; no entry does nothing |
| Session.Session.AppAdminCheck | frontend/src/App.js:32-35 | the first effect dispatches the admin check and nothing else |
| Session.Session.AppRedirect | frontend/src/App.js:37-53 | navigates exactly to the target `RedirectTarget` chooses for the stored text and path; on the login page it never navigates |
| Session.Session.AppRehydrateUserData | frontend/src/App.js:55-69 | a parseable `"userData"` entry is dispatched as a register success and leaves `isAuthenticated` unchanged; unparseable text is only logged |
| Session.Session.AppPersistAuth | frontend/src/App.js:71-73 | stores the JSON text of the rendered `isAuthenticated` under `"isAuthenticated"` and changes nothing else |
| Session.RehydratedUser | frontend/src/App.js:55-69 | the user-data effect replaces the user with the cached `"userData"` entry when it parses, and never changes `isAuthenticated` |
| Session.Session.AppEffects | frontend/src/App.js:32-73 | the root's four effects in declaration order. The slice is the admin check followed by the user-data effect, and the path is where the redirect leaves it. Only the `"isAuthenticated"` key is written, with the rendered value. The log holds the admin check, the redirect, the rehydration and the write, in that order |
| Session.Session.AppMount | frontend/src/App.js:32-73 | the root's effects, then the persistence effect again when `isAuthenticated` changed. The final state, user, path and log are as `AppEffects` gives them, plus the second write. Only `"isAuthenticated"` changes in storage, and it holds the JSON text of the final value, which is the `isAdmin` flag of the user the slice held. From the initial state it is `undefined`, stored as the text "undefined" |
| Session.Session.MountPage | frontend/src/App.js:27-84 | the first commit of a fresh page: the login screen's mount effect, then the root's effects, in that order. The final flag, user, path, storage and log are given for each stored map; after a cached entry that does not parse, the persistence effect does not run again |
| Session.LoadPage | frontend/src/App.js:27-84 | a page load from what the browser stored. With no cached user the stored flag is the text "undefined"; a cached admin gives "true"; an unparseable cached user leaves "false". A first visit to any page but `/login` lands on `/login`, and a stored "undefined" stays where it is |
| Session.Session.AppRender | frontend/src/App.js:71-113 | after a handler changes `isAuthenticated`, the next render stores its JSON text under `"isAuthenticated"`; an unchanged value writes nothing; the login screen or the route table is chosen from the current value |
| Session.Session.TopbarLogout | frontend/src/scenes/global/Topbar.jsx:43-55 | logout dispatches only the logout request (so `isAuthenticated` is kept), removes exactly the `"user"` key (the `"isAuthenticated"` and `"userData"` entries are kept), then navigates to `/login` and reloads, in that order |
| Session.Session.TopbarLogin | frontend/src/scenes/global/Topbar.jsx:57-61 | navigates to `/login` only when there is no user, and otherwise does nothing |
| Session.Session.RegisterSucceeded | frontend/src/scenes/Register.jsx:67-73 | for a `dispatch` that returned the settled action: the form values are dispatched, then `response.payload` is stored under `"userData"`, then it is dispatched. The final user is the payload, and `isAuthenticated` is unchanged |
| Session.Session.RegisterCall | frontend/src/scenes/Register.jsx:66-75 | the request is sent, then `dispatch` throws on the promise. The failure is dispatched with the Redux core's message, the toast is "Registration failed", and storage is untouched |
| Session.Session.RegisterLookup | frontend/src/scenes/Register.jsx:62-66 | an unknown label (or a number left by an earlier submit) throws before the server is called. Otherwise the number is written over `values.accessLevel` in Formik's values and the call fails as `RegisterCall` says. Either way the values Formik keeps never pass the lookup again |
| Session.Session.RegisterSubmit | frontend/src/scenes/Register.jsx:58-92 | the handler runs only on a form the schema accepts. The register request is dispatched first, and every outcome's final state, storage, log and kept form values are given. Every submit that runs ends with no user and "Registration failed", and `isAuthenticated` never changes |
| Session.Session.UsersOutcome | frontend/src/scenes/Team.jsx:29-39 | after the server call, the numbered rows are stored or the failure is dispatched, and the grid is shown |
| Session.Session.FetchUsers | frontend/src/scenes/Team.jsx:24-43 | the users request is dispatched before the server call. Then either the rows numbered by `AssignIds` are stored, or the failure is dispatched. Either way the grid, not the loader, is shown afterwards |
| Store.Gate | frontend/src/store.js:5-23 | a falsy `isAuthenticated` drops any action. An admin-only action is dropped unless `isAdmin` is truthy. Otherwise the action is passed on unchanged |
| Store.ProtectForwardsUnchanged | frontend/src/store.js:5-23 | the middleware never rewrites an action: it forwards it as it is or drops it, and it forwards exactly when authenticated and not admin-only |
| Store.ProtectDropsEveryAdminAction | frontend/src/store.js:7 | the slice never defines `isAdmin`, so every admin-only action would be dropped |
| Store.Deliver | frontend/src/store.js:25-30 | passing a middleware chain either drops the action or delivers it unchanged |
| Store.InstalledChainDeliversAll | frontend/src/store.js:25-30 | with the chain the store is configured with, every action reaches the reducer |
| Store.ChainWithGateIsGate | frontend/src/store.js:5-23 | a chain made of the gate, however many times, decides exactly as the gate does once |
| Store.DispatchPromise | frontend/src/store.js:25-30 | dispatching a promise either throws the Redux core's not-a-plain-object error, or, only when the gate is installed and the session is not authenticated, is dropped |
| Store.InstalledChainRejectsPromises | frontend/src/store.js:25-30 | with the chain the store is configured with, dispatching a promise always throws |
| Json.ParseLiteral | frontend/src/App.js:42 | JSON.parse of a stored flag accepts only the literal names, never yields undefined, and its result is the trimmed text |
| Json.ParseStoredText | frontend/src/App.js:72 | the text stored for `true`, `false` and `null` parses back to the same value; the text stored for `undefined` does not parse |
| Json.ParseIgnoresWhitespace | frontend/src/App.js:42 | whitespace around a stored flag does not change what it parses to |
| ProfileJson.ParseStringRoundTrip | frontend/src/scenes/Login.jsx:53 | a quoted, escaped string is read back to the same string, with the rest of the text left over |
| ProfileJson.ParseIntRoundTrip | frontend/src/scenes/Login.jsx:53 | the decimal text of an integer is read back to the same integer when no digit follows |
| ProfileJson.DecodeEncode | frontend/src/scenes/Login.jsx:86 | parsing the JSON text the login handler stored for a user gives back the same user object |
| AccessLevels.Find | frontend/src/scenes/Register.jsx:62-64 | `find` returns nothing exactly when no option has the label, and otherwise the value of the first option with it |
| AccessLevels.LevelOfTable | frontend/src/scenes/Register.jsx:51-55 | the lookup maps Admin to 10, Manager to 20 and User to 30, and every other label to nothing |
| AccessLevels.LabelOf | frontend/src/scenes/Team.jsx:84-101 | a level gets a label exactly when it gets an icon |
| AccessLevels.LabelOfKnownLevels | frontend/src/scenes/Team.jsx:97-100 | only 10, 20 and 30 get a non-empty label; every other value gets an empty label and no icon |
| AccessLevels.LabelOfLevelOf | frontend/src/scenes/Team.jsx:84-96 | showing the value a known label looks up gives the label back |
| AccessLevels.LevelOfLabelOf | frontend/src/scenes/Register.jsx:51-55 | looking up the label shown for 10, 20 or 30 gives the value back |
| AccessLevels.BackgroundSplitsUsers | frontend/src/scenes/Team.jsx:109-113 | level 30 gets one background token and every other level the other |
| Team.AssignIds | frontend/src/scenes/Team.jsx:31-34 | numbering keeps the length and each user in its place |
| Team.AssignIdsNumbers | frontend/src/scenes/Team.jsx:31-34 | the ids are i+1 in list order, pairwise distinct, exactly 1..n as a set, and dropping them gives the fetched list back |
| Team.TeamView | frontend/src/scenes/Team.jsx:126-138 | the loader is shown exactly while `users` is undefined |
| RegisterForm.SchemaAcceptsExactly | frontend/src/scenes/Register.jsx:31-48 | Formik submits exactly when every field is non-empty (a number in the access-level field counts as its text), the confirmation equals the password, and the email and phone format checks pass |
| RegisterForm.Lookup | frontend/src/scenes/Register.jsx:62-64 | a label is looked up in the option table; a number written over the field matches no label |
| RegisterForm.ErrorToastText | frontend/src/scenes/Register.jsx:77-89 | the specific toast appears exactly for status 409 with error "User already exists"; every other error gets "Registration failed" |
| App.RedirectTarget | frontend/src/App.js:37-53 | the redirect effect navigates only to `/login`, and never when already on it |
| App.RedirectWhenMissing | frontend/src/App.js:50-52 | with no stored flag, every page but `/login` redirects to `/login` |
| App.NoRedirectOnParseError | frontend/src/App.js:47-49 | a stored text that does not parse never redirects |
| App.RedirectAfterPersist | frontend/src/App.js:40-46 | a stored false or null redirects away from every other page. A stored true does not, and neither does the text "undefined" |
| App.ScreenFor | frontend/src/App.js:75-113 | the route table is rendered exactly when `isAuthenticated` is true, and the login screen otherwise |
| Topbar.UserMenu | frontend/src/scenes/global/Topbar.jsx:128-135 | the menu has Logout exactly when there is a user, and then starts with the user's `fullName`; it has Login exactly when there is none |
| UserModel.StripCommas | backend/models/userModel.js:84 | the stripped postal code holds no comma and is no longer than the original |
| UserModel.StripCommasAppend | backend/models/userModel.js:84 | stripping works piece by piece, so the non-comma characters keep their order |
| UserModel.StripCommasKeepsOthers | backend/models/userModel.js:84 | every character other than a comma occurs as often after stripping as before |
| UserModel.StripCommasIdempotent | backend/models/userModel.js:84 | stripping twice is the same as stripping once |
| UserModel.StripCommasFixedExactly | backend/models/userModel.js:35-41 | the validator accepts a postal code exactly when stripping leaves it unchanged |
| UserModel.ResaveLocksOutAsWritten | backend/models/userModel.js:75-82 | as written, the hook hashes the stored hash on a save that did not touch the password, after which the user's own password no longer matches |
| UserModel.ResaveKeepsLogin | backend/models/userModel.js:75-82 | with the early return, the original password still matches after a later save that did not touch it |
| UserModel.AppendUniqueExactly | backend/models/userModel.js:14-23 | a record can join a collection with unique emails and phones exactly when it clashes with no stored record |
| UserModel.UserCollection.Insert | backend/models/userModel.js:14-23 | an insert succeeds exactly when neither the email nor the phone is taken, and keeps both unique |
| UserModel.UserDocument.constructor | backend/models/userModel.js:54-57 | `isAdmin` defaults to false when not given, and a new document's password counts as modified |
| UserModel.UserDocument.FullName | backend/models/userModel.js:65-67 | `fullName` is the first name, one space, then the last name |
| UserModel.UserDocument.MatchPassword | backend/models/userModel.js:70-72 | `matchPassword` is bcrypt's comparison of the candidate with the stored value and nothing else |
| UserModel.UserDocument.UpdateProfileImage | backend/models/userModel.js:90-92 | only `profileImage` changes, to the given path |
| UserModel.UserDocument.PreSaveAsWritten | backend/models/userModel.js:75-87 | as written, the hook hashes the password on every save and calls `next` twice when the password was unmodified; it always strips commas from the postal code |
| UserModel.UserDocument.PreSave | backend/models/userModel.js:75-87 | with the early return, only a modified password is hashed, `next` is called once, and commas are stripped from the postal code |
| UserModel.UserDocument.Save | backend/models/userModel.js:4-87 | a save succeeds exactly when every required string is non-empty and the postal code passes the validator. A refused save changes nothing. A successful one runs the hook as written, so the document's password is hashed whether or not it was modified; it keeps the postal code as it was and leaves the password unmodified |
| UserModel.UserDocument.SaveCorrected | backend/models/userModel.js:4-87 | the same save with the corrected hook: only a modified password is hashed |
| UserModel.CreateSaveTwiceLogin | backend/models/userModel.js:70-87 | as written, a user created with a non-empty password and saved twice is saved both times and then no longer logs in with it |
| UserModel.CreateSaveTwiceLoginCorrected | backend/models/userModel.js:70-87 | with the corrected hook, the same user is saved both times and still logs in with the password |
| TextController.GetReply | backend/controllers/textController.js:4-12 | `getText` answers with the stored document (null when there is none), or 500 "Server Error" when the lookup fails |
| TextController.Upsert | backend/controllers/textController.js:15-32 | a successful update leaves exactly one document holding the text and answers "Text updated successfully"; a failure keeps the store and answers 500 "Server Error" |
| TextController.UpdateThenGet | backend/controllers/textController.js:15-28 | after a successful update, reading returns exactly the text written |
| TextController.UpsertIdempotent | backend/controllers/textController.js:19-27 | updating twice with the same text is the same as updating once |
| TextController.FailureNeverSucceeds | backend/controllers/textController.js:29-32 | a failing database call never reports success and never changes the store |
| TextController.TextStore.GetText | backend/controllers/textController.js:4-12 | the method answers as `GetReply` does for the current store |
| TextController.TextStore.UpdateText | backend/controllers/textController.js:15-32 | the method leaves the store and answers as `Upsert` does; after a success the store holds exactly the text |
| TextController.WriteThenRead | backend/controllers/textController.js:4-32 | writing then reading through the store returns the text written |

## Left out

- Network I/O: the axios calls in `frontend/src/redux/apiCalls.js`, the editor and the profile upload. Server replies are parameters of the handlers: `LoginReply` for the login, and `Result<seq<Profile>, string>` for the users fetch. The register reply never reaches the session, so it is not a parameter. The extra `fullName` that `getUsers` adds to each fetched user is taken as part of the reply.
- The `registerUserRequest` async thunk (frontend/src/redux/userSlice.js:108-120): it is network sequencing that no modelled screen uses.
- Session.Session.RegisterCall: the promise `registerUser` returns is left unobserved after `dispatch` throws. Its rejection, and the server creating the user anyway, are not modelled. The Redux core's message is cut after its first two sentences.
- Session.Session.RegisterSucceeded: models lines 67-73 only for a present `response.payload`. A missing payload (the text "undefined" stored, then a reducer that throws) is not modelled. With the configured store these lines are never reached.
- The shape of the errors `apiCalls.js` throws (message strings) is not tied to the `RegisterError` record the Register handler inspects. `RegisterForm.ErrorToastText` covers every shape that record can take.
- bcrypt internals: hashing and comparison are function parameters constrained only by `UserModel.BcryptLike`. Salt generation is a parameter.
- UserModel.BcryptLike: real bcrypt reads only the first 72 bytes of a password, so two passwords that agree on those bytes compare equal. The model's "compares equal to no other password" holds only for passwords of at most 72 bytes.
- Mongoose persistence: validation runs before the `pre("save")` hook, as Mongoose orders them, and covers the required strings and the postal-code validator. Casting to `Number`, the timestamps and the write itself are not modelled. The unique indexes are modelled only as the invariant of `UserModel.UserCollection`. `textModel.js` is not part of this model.
- Route tables and the `protect`/`admin`/`authUser` handlers they delegate to. No token or session verification is modelled.
- The email format rule and the phone regular expression of the register schema: they are parameters (`emailOk`, `phoneOk`).
- UI: layout, toast styling, grid columns, the Loader component, Contacts (a duplicate of Team's numbering), and the Profile screen's upload flow, whose state effect is the `updateProfileImage` reducer.
- Framework behaviour: React effect scheduling, re-renders, `navigate` and `window.location.reload`. Navigation and reload are only recorded in the log. `Session.LoadPage` runs the login screen's mount effect and then the root's effects once, in declaration order, with the persistence effect re-run when `isAuthenticated` changed. After a cached entry that does not parse, the root's effects of that commit still run and the tree is then torn down; the blank page that follows is not modelled.
- Json.ParseLiteral: decodes only the literal names `true`, `false` and `null`, which is all the persistence effect ever writes apart from `undefined`. Other JSON values stored under `"isAuthenticated"` are treated as parse errors.
- ProfileJson.DecodeProfile: reads only user objects whose keys come in the order `EncodeProfile` writes them. A user object holds only the fields the client reads (names, access level, image, full name, admin flag); the other fields of `{...values}` and of server replies are not carried.
- JavaScript `null` and a missing property are both `None` in `Option` fields of a user object. Only `isAdmin`, a `Flag`, keeps them apart.
- Errors passed to failure reducers are modelled by their message text, not as error objects.
- UserModel.UserDocument.MatchPassword: `bcrypt.compare` is asynchronous in the source; the model returns its result directly.

## Findings

| source | as written | input that shows it | evidently intended | confidence | as-written member | corrected member |
|---|---|---|---|---|---|---|
| backend/models/userModel.js:75-82 | when the password is unmodified the hook calls `next()` without returning, so it goes on to hash the already hashed password (and calls `next()` a second time) | create a user with password "pw" and save it (the document's password becomes `hash("pw")`), then save it again without touching the password: the document's password becomes `hash(hash("pw"))` and `matchPassword("pw")` is false. The first `next()` lets the save go ahead while bcrypt runs, so the double hash may reach the database only with a later save of the same document | `return next()` so that an unmodified password is left alone; the corrected hook still strips commas on every save | not executed | UserModel.ResaveLocksOutAsWritten | UserModel.ResaveKeepsLogin |
| backend/models/userModel.js:75-87 | every save of a document runs the hook as written, so a save that does not touch the password re-hashes it | `new UserDocument(...)` with a password `p`, `save()` twice: both saves succeed and `matchPassword(p)` is false | the same two saves with `return next()`: `matchPassword(p)` is true | not executed | UserModel.CreateSaveTwiceLogin | UserModel.CreateSaveTwiceLoginCorrected |
