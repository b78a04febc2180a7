/**
 * The client session: the Redux `user` slice held in place, the browser's
 * `localStorage`, the current path, and the handlers of the Login, App,
 * Topbar, Register and Team screens that drive them. Server replies are
 * parameters; navigation is recorded as a target path; every dispatch,
 * request, storage write, navigation and reload is appended to `log`, so the
 * order of a handler's steps can be stated.
 */
module Session {
  import opened Wrappers
  import opened Json
  import opened UserSlice
  import opened ProfileJson
  import opened Store
  import opened AccessLevels
  import opened RegisterForm
  import opened Team
  import opened App
  import opened Toasts

  /** The server endpoints a handler calls. */
  datatype Api = LoginApi | RegisterApi | UsersApi

  /** One observable step of a handler. */
  datatype Event =
    | Dispatched(action: Action)
    | Requested(api: Api)
    | Stored(key: string)
    | Removed(key: string)
    | Navigated(target: string)
    | Reloaded

  const UserKey: string := "user"
  const UserDataKey: string := "userData"
  const AuthKey: string := "isAuthenticated"
  const HomePath: string := "/"

  /** The reply to the login request: the user data, or what `loginUser` throws. */
  datatype LoginReply = LoginReplied(data: Profile) | LoginThrew(reason: string)

  const NoAdminAccess: string := "You do not have admin access."
  const LoginSucceeded: string := "Login successful!"
  const LoginFailed: string := "Login failed. Please try again."

  /**
   * The message of the TypeError raised by reading `.value` of the
   * `undefined` that `find` returns for an unknown label (the text is the
   * JavaScript engine's).
   */
  const LookupErrorMessage: string := "Cannot read properties of undefined (reading 'value')"

  /** The cached `"user"` entry, when it is present, non-empty and parses. */
  function CachedUser(stored: map<string, string>): Option<Profile> {
    var entry := Get(stored, UserKey);
    if entry.None? || entry.value == "" then None else DecodeProfile(entry.value)
  }

  /** The cached `"userData"` entry, when it is present, non-empty and parses. */
  function CachedUserData(stored: map<string, string>): Option<Profile> {
    var entry := Get(stored, UserDataKey);
    if entry.None? || entry.value == "" then None else DecodeProfile(entry.value)
  }

  /** The steps of the login screen's mount effect over what is stored. */
  function LoginMountSteps(stored: map<string, string>): seq<Event> {
    match CachedUser(stored)
    case None => []
    case Some(p) => [Dispatched(LoginSuccess(p))]
  }

  /** Where the redirect effect leaves the path, and its steps. */
  function PathAfterRedirect(stored: map<string, string>, location: string): string {
    match RedirectTarget(Get(stored, AuthKey), location)
    case None => location
    case Some(t) => t
  }

  function RedirectSteps(stored: map<string, string>, location: string): seq<Event> {
    match RedirectTarget(Get(stored, AuthKey), location)
    case None => []
    case Some(t) => [Navigated(t)]
  }

  /** The slice after the user-data effect, and its steps. */
  function Rehydrated(s: SliceState, stored: map<string, string>): SliceState {
    match CachedUserData(stored)
    case None => s
    case Some(p) => Reduce(s, RegisterSuccess(p))
  }

  /** The user-data effect replaces the user with the cached one, if any, and keeps `isAuthenticated`. */
  lemma RehydratedUser(s: SliceState, stored: map<string, string>)
    ensures Rehydrated(s, stored).user == if CachedUserData(stored).Some? then CachedUserData(stored) else s.user
    ensures Rehydrated(s, stored).isAuthenticated == s.isAuthenticated
  {
  }

  function RehydrateSteps(stored: map<string, string>): seq<Event> {
    match CachedUserData(stored)
    case None => []
    case Some(p) => [Dispatched(RegisterSuccess(p))]
  }

  class Session {
    // The `user` slice.
    var user: Option<Profile>
    var loading: bool
    var error: Option<string>
    var isAuthenticated: Flag
    var users: Option<seq<Row>>
    // The browser around it.
    var storage: map<string, string>
    var path: string
    var log: seq<Event>
    /** The actions dispatched so far, in order: the `Dispatched` entries of `log`. */
    ghost var history: seq<Action>

    function Slice(): SliceState
      reads this`user, this`loading, this`error, this`isAuthenticated, this`users
    {
      SliceState(user, loading, error, isAuthenticated, users)
    }

    /** The slice state is always the initial state with the dispatched actions replayed on it. */
    ghost predicate Valid()
      reads this
    {
      Slice() == Run(Initial, history)
    }

    /**
     * A session is authenticated only after a login success or an admin
     * check was dispatched since the page loaded.
     */
    lemma AuthenticatedOnlyAfterLoginOrAdminCheck()
      requires Valid() && Truthy(isAuthenticated)
      ensures exists i :: 0 <= i < |history| && (history[i].LoginSuccess? || history[i].CheckAdminAccess?)
    {
      UserSlice.AuthenticatedOnlyAfterLoginOrAdminCheck(history);
    }

    /** A fresh page load: the slice in its initial state over whatever the browser has stored. */
    constructor (stored: map<string, string>, location: string)
      ensures Valid()
      ensures Slice() == Initial && storage == stored && path == location && log == [] && history == []
    {
      user := Some(InitialUser);
      loading := false;
      error := None;
      isAuthenticated := False;
      users := None;
      storage := stored;
      path := location;
      log := [];
      history := [];
    }

    // ---- Reducers (frontend/src/redux/userSlice.js)

    method UserLoginRequest()
      modifies this`loading
      ensures Slice() == Reduce(old(Slice()), LoginRequest)
    {
      loading := true;
    }

    method UserLoginSuccess(payload: Profile)
      modifies this`loading, this`user, this`error, this`isAuthenticated
      ensures Slice() == Reduce(old(Slice()), LoginSuccess(payload))
    {
      loading := false;
      user := Some(payload);
      error := None;
      isAuthenticated := True;
    }

    method UserLoginFailure(reason: Option<string>)
      modifies this`loading, this`user, this`error
      ensures Slice() == Reduce(old(Slice()), LoginFailure(reason))
    {
      loading := false;
      user := None;
      error := reason;
    }

    method UserRegisterRequest()
      modifies this`loading
      ensures Slice() == Reduce(old(Slice()), RegisterRequest)
    {
      loading := true;
    }

    method UserRegisterSuccess(payload: Profile)
      modifies this`loading, this`user, this`error
      ensures Slice() == Reduce(old(Slice()), RegisterSuccess(payload))
    {
      loading := false;
      user := Some(payload);
      error := None;
    }

    method UserRegisterFailure(reason: Option<string>)
      modifies this`loading, this`user, this`error
      ensures Slice() == Reduce(old(Slice()), RegisterFailure(reason))
    {
      loading := false;
      user := None;
      error := reason;
    }

    method UserLogoutRequest()
      modifies this`loading
      ensures Slice() == Reduce(old(Slice()), LogoutRequest)
    {
      loading := true;
    }

    method UserLogoutSuccess(next: Option<Profile>)
      modifies this`loading, this`user, this`error, this`isAuthenticated
      ensures Slice() == Reduce(old(Slice()), LogoutSuccess(next))
    {
      loading := false;
      user := next;
      error := None;
      isAuthenticated := False;
    }

    method UserLogoutFailure(reason: Option<string>)
      modifies this`loading, this`user, this`error
      ensures Slice() == Reduce(old(Slice()), LogoutFailure(reason))
    {
      loading := false;
      user := None;
      error := reason;
    }

    method UserProfileUpdateRequest()
      modifies this`loading
      ensures Slice() == Reduce(old(Slice()), ProfileUpdateRequest)
    {
      loading := true;
    }

    method UserProfileUpdateSuccess(payload: Profile)
      modifies this`loading, this`user, this`error
      ensures Slice() == Reduce(old(Slice()), ProfileUpdateSuccess(payload))
    {
      loading := false;
      user := Some(payload);
      error := None;
    }

    method UserProfileUpdateFailure(reason: Option<string>)
      modifies this`loading, this`error
      ensures Slice() == Reduce(old(Slice()), ProfileUpdateFailure(reason))
    {
      loading := false;
      error := reason;
    }

    /** `state.user.profileImage = payload`; with no user the assignment throws and nothing changes. */
    method SetProfileImage(image: Option<string>) returns (threw: bool)
      modifies this`user
      ensures threw == ReducerThrows(old(Slice()), Action.UpdateProfileImage(image))
      ensures Slice() == Reduce(old(Slice()), Action.UpdateProfileImage(image))
    {
      if user.None? {
        threw := true;
      } else {
        user := Some(user.value.(profileImage := image));
        threw := false;
      }
    }

    method UsersRequest()
      modifies this`loading
      ensures Slice() == Reduce(old(Slice()), Action.GetUsersRequest)
    {
      loading := true;
    }

    method UsersSuccess(rows: seq<Row>)
      modifies this`loading, this`users, this`error
      ensures Slice() == Reduce(old(Slice()), Action.GetUsersSuccess(rows))
    {
      loading := false;
      users := Some(rows);
      error := None;
    }

    method UsersFailure(reason: Option<string>)
      modifies this`loading, this`users, this`error
      ensures Slice() == Reduce(old(Slice()), Action.GetUsersFailure(reason))
    {
      loading := false;
      users := Some([]);
      error := reason;
    }

    /** `state.isAuthenticated = state.user && state.user.isAdmin`. */
    method AdminAccessCheck()
      modifies this`isAuthenticated
      ensures Slice() == Reduce(old(Slice()), Action.CheckAdminAccess)
    {
      isAuthenticated := AdminFlag(user);
    }

    // ---- The store

    /**
     * `dispatch(a)`: the action runs through the installed middleware chain
     * (which forwards it untouched) to its reducer; `threw` reports a
     * reducer that threw.
     */
    method Dispatch(a: Action) returns (threw: bool)
      requires Valid()
      modifies this`user, this`loading, this`error, this`isAuthenticated, this`users, this`log, this`history
      ensures Valid()
      ensures threw == ReducerThrows(old(Slice()), a)
      ensures Slice() == Reduce(old(Slice()), a)
      ensures log == old(log) + [Dispatched(a)] && history == old(history) + [a]
    {
      InstalledChainDeliversAll(Slice(), StoreAction(a, false));
      var delivered := Deliver(Installed, Slice(), StoreAction(a, false)).value;
      threw := false;
      match delivered.action {
      case LoginRequest => UserLoginRequest();
      case LoginSuccess(p) => UserLoginSuccess(p);
      case LoginFailure(e) => UserLoginFailure(e);
      case RegisterRequest => UserRegisterRequest();
      case RegisterSuccess(p) => UserRegisterSuccess(p);
      case RegisterFailure(e) => UserRegisterFailure(e);
      case LogoutRequest => UserLogoutRequest();
      case LogoutSuccess(u) => UserLogoutSuccess(u);
      case LogoutFailure(e) => UserLogoutFailure(e);
      case ProfileUpdateRequest => UserProfileUpdateRequest();
      case ProfileUpdateSuccess(p) => UserProfileUpdateSuccess(p);
      case ProfileUpdateFailure(e) => UserProfileUpdateFailure(e);
      case UpdateProfileImage(img) => threw := SetProfileImage(img);
      case GetUsersRequest => UsersRequest();
      case GetUsersSuccess(rows) => UsersSuccess(rows);
      case GetUsersFailure(e) => UsersFailure(e);
      case CheckAdminAccess => AdminAccessCheck();
      }
      RunAppend(Initial, history, a);
      log := log + [Dispatched(a)];
      history := history + [a];
    }

    /** Appends a step that is not a dispatch; the slice is untouched. */
    method Record(e: Event)
      requires Valid() && !e.Dispatched?
      modifies this`log
      ensures Valid() && log == old(log) + [e] && Slice() == old(Slice())
    {
      log := log + [e];
    }

    method SetItem(key: string, value: string)
      requires Valid()
      modifies this`storage, this`log
      ensures Valid()
      ensures storage == old(storage)[key := value] && log == old(log) + [Stored(key)]
      ensures Slice() == old(Slice())
    {
      storage := storage[key := value];
      Record(Stored(key));
    }

    method Navigate(target: string)
      requires Valid()
      modifies this`path, this`log
      ensures Valid()
      ensures path == target && log == old(log) + [Navigated(target)]
      ensures Slice() == old(Slice())
    {
      path := target;
      Record(Navigated(target));
    }

    // ---- Login screen (frontend/src/scenes/Login.jsx)

    /**
     * The part of `handleFormSubmit` after the server call: a thrown error
     * dispatches the failure; a non-admin reply only shows a toast; an admin
     * reply dispatches the success, stores the user's JSON under `"user"`
     * and moves to the home page, in that order.
     */
    method LoginOutcome(reply: LoginReply) returns (toast: Toast)
      requires Valid()
      modifies this
      ensures Valid()
      ensures match reply
        case LoginThrew(e) =>
          && Slice() == Reduce(old(Slice()), LoginFailure(Some(e)))
          && storage == old(storage) && path == old(path)
          && log == old(log) + [Dispatched(LoginFailure(Some(e)))]
          && toast == ToastError(LoginFailed)
        case LoginReplied(d) =>
          if !Truthy(d.isAdmin) then
            && Slice() == old(Slice()) && storage == old(storage) && path == old(path) && log == old(log)
            && toast == ToastError(NoAdminAccess)
          else
            && Slice() == Reduce(old(Slice()), LoginSuccess(d))
            && storage == old(storage)[UserKey := EncodeProfile(d)] && path == HomePath
            && log == old(log) + [Dispatched(LoginSuccess(d)), Stored(UserKey), Navigated(HomePath)]
            && toast == ToastSuccess(LoginSucceeded)
    {
      match reply
      case LoginThrew(e) =>
        var _ := Dispatch(LoginFailure(Some(e)));
        toast := ToastError(LoginFailed);
      case LoginReplied(d) =>
        if !Truthy(d.isAdmin) {
          toast := ToastError(NoAdminAccess);
          return;
        }
        ghost var l0 := log;
        var _ := Dispatch(LoginSuccess(d));
        SetItem(UserKey, EncodeProfile(d));
        assert log == l0 + [Dispatched(LoginSuccess(d)), Stored(UserKey)];
        toast := ToastSuccess(LoginSucceeded);
        Navigate(HomePath);
    }

    /**
     * `handleFormSubmit`: the request action and the server call, in that
     * order, then `LoginOutcome`.
     */
    method LoginSubmit(reply: LoginReply) returns (toast: Toast)
      requires Valid()
      modifies this
      ensures Valid()
      ensures match reply
        case LoginThrew(e) =>
          && Slice() == Reduce(Reduce(old(Slice()), LoginRequest), LoginFailure(Some(e)))
          && storage == old(storage) && path == old(path)
          && log == old(log) + [Dispatched(LoginRequest), Requested(LoginApi)] + [Dispatched(LoginFailure(Some(e)))]
          && toast == ToastError(LoginFailed)
        case LoginReplied(d) =>
          if !Truthy(d.isAdmin) then
            && Slice() == Reduce(old(Slice()), LoginRequest)
            && storage == old(storage) && path == old(path)
            && log == old(log) + [Dispatched(LoginRequest), Requested(LoginApi)]
            && toast == ToastError(NoAdminAccess)
          else
            && Slice() == Reduce(Reduce(old(Slice()), LoginRequest), LoginSuccess(d))
            && storage == old(storage)[UserKey := EncodeProfile(d)] && path == HomePath
            && log == old(log) + [Dispatched(LoginRequest), Requested(LoginApi)]
                      + [Dispatched(LoginSuccess(d)), Stored(UserKey), Navigated(HomePath)]
            && toast == ToastSuccess(LoginSucceeded)
      // a non-admin reply leaves the request pending
      ensures reply.LoginReplied? && !Truthy(reply.data.isAdmin) ==> loading
      ensures isAuthenticated != old(isAuthenticated) ==> reply.LoginReplied? && Truthy(reply.data.isAdmin)
    {
      ghost var l0 := log;
      var _ := Dispatch(LoginRequest);
      Record(Requested(LoginApi));
      assert log == l0 + [Dispatched(LoginRequest), Requested(LoginApi)];
      toast := LoginOutcome(reply);
    }

    /**
     * The mount effect: a present, non-empty `"user"` entry is parsed and
     * dispatched as a login success, with no `isAdmin` check. `threw`
     * reports text that JSON.parse rejects (the effect then throws).
     */
    method LoginMount() returns (threw: bool)
      requires Valid()
      modifies this
      ensures Valid()
      ensures storage == old(storage) && path == old(path)
      ensures var stored := Get(old(storage), UserKey);
        if stored.None? || stored.value == "" then
          !threw && Slice() == old(Slice()) && log == old(log)
        else
          match DecodeProfile(stored.value)
          case None => threw && Slice() == old(Slice()) && log == old(log)
          case Some(p) =>
            && !threw && Slice() == Reduce(old(Slice()), LoginSuccess(p))
            && log == old(log) + [Dispatched(LoginSuccess(p))]
    {
      threw := false;
      var stored := Get(storage, UserKey);
      if stored.Some? && stored.value != "" {
        match DecodeProfile(stored.value)
        case None =>
          threw := true;
        case Some(p) =>
          var _ := Dispatch(LoginSuccess(p));
      }
    }

    // ---- Root component (frontend/src/App.js)

    /** The first effect: `dispatch(checkAdminAccess())`. */
    method AppAdminCheck()
      requires Valid()
      modifies this
      ensures Valid()
      ensures Slice() == Reduce(old(Slice()), Action.CheckAdminAccess)
      ensures storage == old(storage) && path == old(path) && log == old(log) + [Dispatched(Action.CheckAdminAccess)]
    {
      var _ := Dispatch(Action.CheckAdminAccess);
    }

    /** The second effect: navigate to the login page when the stored flag says so. */
    method AppRedirect()
      requires Valid()
      modifies this
      ensures Valid()
      ensures Slice() == old(Slice()) && storage == old(storage)
      ensures match RedirectTarget(Get(old(storage), AuthKey), old(path))
        case None => path == old(path) && log == old(log)
        case Some(t) => path == t && log == old(log) + [Navigated(t)]
      ensures old(path) == LoginPath ==> path == LoginPath && log == old(log)
    {
      var target := RedirectTarget(Get(storage, AuthKey), path);
      if target.Some? {
        Navigate(target.value);
      }
    }

    /**
     * The third effect: a present, non-empty `"userData"` entry is parsed and
     * dispatched as a register success; `logged` reports a parse error,
     * which is only logged.
     */
    method AppRehydrateUserData() returns (logged: bool)
      requires Valid()
      modifies this
      ensures Valid()
      ensures storage == old(storage) && path == old(path)
      ensures isAuthenticated == old(isAuthenticated)
      ensures var stored := Get(old(storage), UserDataKey);
        if stored.None? || stored.value == "" then
          !logged && Slice() == old(Slice()) && log == old(log)
        else
          match DecodeProfile(stored.value)
          case None => logged && Slice() == old(Slice()) && log == old(log)
          case Some(p) =>
            && !logged && Slice() == Reduce(old(Slice()), RegisterSuccess(p))
            && log == old(log) + [Dispatched(RegisterSuccess(p))]
    {
      logged := false;
      var stored := Get(storage, UserDataKey);
      if stored.Some? && stored.value != "" {
        match DecodeProfile(stored.value)
        case None =>
          logged := true;
        case Some(p) =>
          var _ := Dispatch(RegisterSuccess(p));
      }
    }

    /** The fourth effect: store the JSON text of the `isAuthenticated` value the component rendered with. */
    method AppPersistAuth(rendered: Flag)
      requires Valid()
      modifies this
      ensures Valid()
      ensures Slice() == old(Slice()) && path == old(path)
      ensures storage == old(storage)[AuthKey := StoredText(rendered)]
      ensures log == old(log) + [Stored(AuthKey)]
    {
      SetItem(AuthKey, StoredText(rendered));
    }

    /**
     * The root's effects on its first commit, in declaration order: the
     * admin check, the redirect, the user-data effect, and the persistence
     * of `rendered`, the value the root was rendered with. The other
     * storage keys are left as they were.
     */
    method AppEffects(rendered: Flag)
      requires Valid()
      modifies this
      ensures Valid()
      ensures Slice() == Rehydrated(Reduce(old(Slice()), Action.CheckAdminAccess), old(storage))
      ensures path == PathAfterRedirect(old(storage), old(path))
      ensures storage == old(storage)[AuthKey := StoredText(rendered)]
      ensures log == old(log) + [Dispatched(Action.CheckAdminAccess)] + RedirectSteps(old(storage), old(path))
                     + RehydrateSteps(old(storage)) + [Stored(AuthKey)]
    {
      ghost var s0, st0, p0, l0 := Slice(), storage, path, log;
      AppAdminCheck();
      AppRedirect();
      assert path == PathAfterRedirect(st0, p0);
      assert log == l0 + [Dispatched(Action.CheckAdminAccess)] + RedirectSteps(st0, p0);
      var _ := AppRehydrateUserData();
      assert Slice() == Rehydrated(Reduce(s0, Action.CheckAdminAccess), st0);
      assert log == l0 + [Dispatched(Action.CheckAdminAccess)] + RedirectSteps(st0, p0) + RehydrateSteps(st0);
      AppPersistAuth(rendered);
    }

    /**
     * Mounting the root: its effects, then, when the dispatches changed
     * `isAuthenticated`, the persistence effect again with the new value.
     */
    method AppMount(rendered: Flag)
      requires Valid()
      modifies this
      ensures Valid()
      ensures Slice() == Rehydrated(Reduce(old(Slice()), Action.CheckAdminAccess), old(storage))
      ensures user == if CachedUserData(old(storage)).Some? then CachedUserData(old(storage)) else old(user)
      ensures path == PathAfterRedirect(old(storage), old(path))
      ensures storage == old(storage)[AuthKey := StoredText(isAuthenticated)]
      ensures log == old(log) + [Dispatched(Action.CheckAdminAccess)] + RedirectSteps(old(storage), old(path))
                     + RehydrateSteps(old(storage)) + [Stored(AuthKey)]
                     + (if isAuthenticated == rendered then [] else [Stored(AuthKey)])
      // the mounted app trusts the cached user's `isAdmin`
      ensures isAuthenticated == AdminFlag(old(user))
      ensures old(Slice()) == Initial ==> isAuthenticated == Undefined && storage[AuthKey] == "undefined"
    {
      AppEffects(rendered);
      if isAuthenticated != rendered {
        AppPersistAuth(isAuthenticated);
      }
    }

    /**
     * A re-render of the root after a handler ran: the persistence effect
     * runs again exactly when `isAuthenticated` differs from its value at the
     * previous render, and the tree is chosen from the current value.
     */
    method AppRender(previous: Flag) returns (screen: Screen)
      requires Valid()
      modifies this
      ensures Valid()
      ensures Slice() == old(Slice()) && path == old(path)
      ensures screen == ScreenFor(isAuthenticated)
      ensures isAuthenticated != previous ==>
        storage == old(storage)[AuthKey := StoredText(isAuthenticated)] && log == old(log) + [Stored(AuthKey)]
      ensures isAuthenticated == previous ==> storage == old(storage) && log == old(log)
    {
      if isAuthenticated != previous {
        AppPersistAuth(isAuthenticated);
      }
      screen := ScreenFor(isAuthenticated);
    }

    // ---- Top bar (frontend/src/scenes/global/Topbar.jsx)

    /**
     * `handleLogout`: only the logout request is dispatched, only the
     * `"user"` entry is removed, then the login page and a reload.
     */
    method TopbarLogout()
      requires Valid()
      modifies this
      ensures Valid()
      ensures Slice() == Reduce(old(Slice()), LogoutRequest)
      ensures isAuthenticated == old(isAuthenticated)
      ensures storage == old(storage) - {UserKey}
      ensures Get(storage, AuthKey) == Get(old(storage), AuthKey) && Get(storage, UserDataKey) == Get(old(storage), UserDataKey)
      ensures path == LoginPath
      ensures log == old(log) + [Dispatched(LogoutRequest), Removed(UserKey), Navigated(LoginPath), Reloaded]
    {
      var _ := Dispatch(LogoutRequest);
      storage := storage - {UserKey};
      Record(Removed(UserKey));
      Navigate(LoginPath);
      Record(Reloaded);
    }

    /** `handleLogin`: to the login page only when there is no user. */
    method TopbarLogin()
      requires Valid()
      modifies this
      ensures Valid()
      ensures Slice() == old(Slice()) && storage == old(storage)
      ensures old(user).None? ==> path == LoginPath && log == old(log) + [Navigated(LoginPath)]
      ensures old(user).Some? ==> path == old(path) && log == old(log)
    {
      if user.None? {
        Navigate(LoginPath);
      }
    }

    // ---- Register screen (frontend/src/scenes/Register.jsx)

    /**
     * The rest of the `try` block, for a `dispatch` that hands back the
     * settled thunk action: the form values are dispatched, `payload` (the
     * reply's `response.payload`) is stored under `"userData"`, then it is
     * dispatched, so the user ends as `payload`. With the configured store
     * `dispatch` throws before this point (`RegisterCall`).
     */
    method RegisterSucceeded(form: Form, level: int, payload: Profile)
      requires Valid()
      modifies this
      ensures Valid()
      ensures path == old(path) && isAuthenticated == old(isAuthenticated)
      ensures Slice() == Reduce(Reduce(old(Slice()), RegisterSuccess(FormProfile(form, level))), RegisterSuccess(payload))
      ensures user == Some(payload)
      ensures storage == old(storage)[UserDataKey := EncodeProfile(payload)]
      ensures log == old(log) + [Dispatched(RegisterSuccess(FormProfile(form, level))), Stored(UserDataKey),
                                 Dispatched(RegisterSuccess(payload))]
    {
      ghost var l0 := log;
      var _ := Dispatch(RegisterSuccess(FormProfile(form, level)));
      SetItem(UserDataKey, EncodeProfile(payload));
      assert log == l0 + [Dispatched(RegisterSuccess(FormProfile(form, level))), Stored(UserDataKey)];
      var _ := Dispatch(RegisterSuccess(payload));
    }

    /**
     * `await dispatch(registerUser(values))` after the lookup: calling
     * `registerUser` sends the request, and the promise it returns is handed
     * to `dispatch`, which the configured store rejects. The catch block
     * dispatches the failure with that message, and the error has no
     * `response`, so the general toast is shown. Whatever the server answers
     * never reaches the session.
     */
    method RegisterCall() returns (toast: Toast)
      requires Valid()
      modifies this
      ensures Valid()
      ensures path == old(path) && storage == old(storage) && isAuthenticated == old(isAuthenticated)
      ensures Slice() == Reduce(old(Slice()), RegisterFailure(Some(NotPlainObject)))
      ensures log == old(log) + [Requested(RegisterApi)] + [Dispatched(RegisterFailure(Some(NotPlainObject)))]
      ensures toast == ToastError(RegistrationFailed)
    {
      Record(Requested(RegisterApi));
      InstalledChainRejectsPromises(Slice());
      var thrown := DispatchPromise(Installed, Slice()).value;
      var _ := Dispatch(RegisterFailure(Some(thrown)));
      toast := ToastError(ErrorToastText(RegisterError(Some(thrown), None)));
    }

    /**
     * The submit handler after the request action. The level lookup writes
     * the number it finds over `values.accessLevel`, in Formik's own values
     * object, which `values` returns; an unknown label (or a number written
     * by an earlier submit) makes it throw before the server is called.
     */
    method RegisterLookup(form: Form) returns (toast: Toast, values: Form)
      requires Valid()
      modifies this
      ensures Valid()
      ensures path == old(path) && storage == old(storage) && isAuthenticated == old(isAuthenticated)
      ensures toast == ToastError(RegistrationFailed)
      ensures Lookup(form.accessLevel).None? ==>
        && values == form
        && Slice() == Reduce(old(Slice()), RegisterFailure(Some(LookupErrorMessage)))
        && log == old(log) + [Dispatched(RegisterFailure(Some(LookupErrorMessage)))]
      ensures Lookup(form.accessLevel).Some? ==>
        && values == form.(accessLevel := Number(Lookup(form.accessLevel).value))
        && Slice() == Reduce(old(Slice()), RegisterFailure(Some(NotPlainObject)))
        && log == old(log) + [Requested(RegisterApi)] + [Dispatched(RegisterFailure(Some(NotPlainObject)))]
      // the values Formik keeps never pass the lookup again
      ensures Lookup(values.accessLevel).None?
    {
      var level := Lookup(form.accessLevel);
      if level.None? {
        values := form;
        var _ := Dispatch(RegisterFailure(Some(LookupErrorMessage)));
        toast := ToastError(RegistrationFailed);
      } else {
        values := form.(accessLevel := Number(level.value));
        toast := RegisterCall();
      }
    }

    /**
     * Submitting the register form. Formik calls the handler only when the
     * schema accepts the form (`submitted`); the handler dispatches the
     * request action and goes on as `RegisterLookup` describes. `values` is
     * what Formik's values object holds afterwards.
     */
    method RegisterSubmit(form: Form, emailOk: bool, phoneOk: bool) returns (submitted: bool, toast: Toast, values: Form)
      requires Valid()
      modifies this
      ensures Valid()
      ensures path == old(path) && storage == old(storage)
      ensures submitted == SchemaAccepts(form, emailOk, phoneOk)
      ensures !submitted ==> Slice() == old(Slice()) && log == old(log) && toast == NoToast && values == form
      ensures submitted && Lookup(form.accessLevel).None? ==>
        && values == form
        && Slice() == Reduce(Reduce(old(Slice()), RegisterRequest), RegisterFailure(Some(LookupErrorMessage)))
        && log == old(log) + [Dispatched(RegisterRequest)] + [Dispatched(RegisterFailure(Some(LookupErrorMessage)))]
      ensures submitted && Lookup(form.accessLevel).Some? ==>
        && values == form.(accessLevel := Number(Lookup(form.accessLevel).value))
        && Slice() == Reduce(Reduce(old(Slice()), RegisterRequest), RegisterFailure(Some(NotPlainObject)))
        && log == old(log) + [Dispatched(RegisterRequest)] + [Requested(RegisterApi)]
                  + [Dispatched(RegisterFailure(Some(NotPlainObject)))]
      // every submit the handler runs ends in the catch block, and a second one fails at the lookup
      ensures submitted ==> toast == ToastError(RegistrationFailed) && user == None && Lookup(values.accessLevel).None?
      // registering never logs in or out
      ensures isAuthenticated == old(isAuthenticated)
    {
      submitted := SchemaAccepts(form, emailOk, phoneOk);
      toast := NoToast;
      values := form;
      if !submitted {
        return;
      }
      var _ := Dispatch(RegisterRequest);
      toast, values := RegisterLookup(form);
    }

    // ---- Team screen (frontend/src/scenes/Team.jsx)

    /** The part of `fetchUsers` after the server call: the numbered rows, or the failure. */
    method UsersOutcome(reply: Result<seq<Profile>, string>)
      requires Valid()
      modifies this
      ensures Valid()
      ensures storage == old(storage) && path == old(path)
      ensures match reply
        case Ok(us) =>
          && Slice() == Reduce(old(Slice()), Action.GetUsersSuccess(AssignIds(us)))
          && log == old(log) + [Dispatched(Action.GetUsersSuccess(AssignIds(us)))]
        case Err(e) =>
          && Slice() == Reduce(old(Slice()), Action.GetUsersFailure(Some(e)))
          && log == old(log) + [Dispatched(Action.GetUsersFailure(Some(e)))]
      ensures TeamView(users) != Loader
    {
      match reply
      case Ok(us) =>
        var _ := Dispatch(Action.GetUsersSuccess(AssignIds(us)));
        assert users == Some(AssignIds(us));
      case Err(e) =>
        var _ := Dispatch(Action.GetUsersFailure(Some(e)));
        assert users == Some([]);
    }

    /** `fetchUsers`: the request, the server call, then the numbered rows or the failure. */
    method FetchUsers(reply: Result<seq<Profile>, string>)
      requires Valid()
      modifies this
      ensures Valid()
      ensures storage == old(storage) && path == old(path)
      ensures match reply
        case Ok(us) =>
          && Slice() == Reduce(Reduce(old(Slice()), Action.GetUsersRequest), Action.GetUsersSuccess(AssignIds(us)))
          && log == old(log) + [Dispatched(Action.GetUsersRequest)] + [Requested(UsersApi)]
                    + [Dispatched(Action.GetUsersSuccess(AssignIds(us)))]
        case Err(e) =>
          && Slice() == Reduce(Reduce(old(Slice()), Action.GetUsersRequest), Action.GetUsersFailure(Some(e)))
          && log == old(log) + [Dispatched(Action.GetUsersRequest)] + [Requested(UsersApi)]
                    + [Dispatched(Action.GetUsersFailure(Some(e)))]
      // afterwards the grid is shown, never the loader
      ensures TeamView(users) != Loader
    {
      var _ := Dispatch(Action.GetUsersRequest);
      Record(Requested(UsersApi));
      UsersOutcome(reply);
    }

    /**
     * The first commit of a fresh page. The root renders with the initial
     * `isAuthenticated` (false), so it shows the login screen, and React
     * runs the child's mount effect before the root's: the cached `"user"`
     * entry is dispatched as a login success before the admin check reads
     * it. `threw` reports a cached entry that does not parse. React still
     * runs the root's effects of that commit, then tears the tree down, so
     * the persistence effect never runs again.
     */
    method MountPage() returns (threw: bool)
      requires Valid() && Slice() == Initial && log == []
      modifies this
      ensures Valid()
      ensures var cached := Get(old(storage), UserKey);
        threw == (cached.Some? && cached.value != "" && DecodeProfile(cached.value).None?)
      ensures isAuthenticated == if CachedUser(old(storage)).Some? then CachedUser(old(storage)).value.isAdmin else Undefined
      ensures user == if CachedUserData(old(storage)).Some? then CachedUserData(old(storage))
                      else if CachedUser(old(storage)).Some? then CachedUser(old(storage)) else Some(InitialUser)
      ensures path == PathAfterRedirect(old(storage), old(path))
      ensures !threw ==> storage == old(storage)[AuthKey := StoredText(isAuthenticated)]
      ensures threw ==> storage == old(storage)[AuthKey := StoredText(False)]
      ensures log == LoginMountSteps(old(storage)) + [Dispatched(Action.CheckAdminAccess)]
                     + RedirectSteps(old(storage), old(path)) + RehydrateSteps(old(storage)) + [Stored(AuthKey)]
                     + (if threw || isAuthenticated == False then [] else [Stored(AuthKey)])
    {
      var rendered := isAuthenticated;
      assert ScreenFor(rendered) == LoginScreen;
      ghost var st0, p0, l0 := storage, path, log;
      threw := LoginMount();
      assert log == LoginMountSteps(st0) && storage == st0 && path == p0;
      assert user == if CachedUser(st0).Some? then CachedUser(st0) else Some(InitialUser);
      ghost var s1 := Slice();
      assert AdminFlag(s1.user) == if CachedUser(st0).Some? then CachedUser(st0).value.isAdmin else Undefined;
      RehydratedUser(Reduce(s1, Action.CheckAdminAccess), st0);
      if threw {
        AppEffects(rendered);
      } else {
        AppMount(rendered);
      }
    }
  }

  /**
   * Loading the page: a fresh session over what the browser has stored,
   * then its first commit (`Session.MountPage`).
   */
  method LoadPage(stored: map<string, string>, location: string) returns (s: Session, threw: bool)
    ensures fresh(s) && s.Valid()
    ensures var cached := Get(stored, UserKey);
      threw == (cached.Some? && cached.value != "" && DecodeProfile(cached.value).None?)
    ensures s.isAuthenticated == if CachedUser(stored).Some? then CachedUser(stored).value.isAdmin else Undefined
    ensures s.user == if CachedUserData(stored).Some? then CachedUserData(stored)
                      else if CachedUser(stored).Some? then CachedUser(stored) else Some(InitialUser)
    ensures s.path == PathAfterRedirect(stored, location)
    ensures !threw ==> s.storage == stored[AuthKey := StoredText(s.isAuthenticated)]
    ensures threw ==> s.storage == stored[AuthKey := StoredText(False)]
    ensures s.log == LoginMountSteps(stored) + [Dispatched(Action.CheckAdminAccess)] + RedirectSteps(stored, location)
                     + RehydrateSteps(stored) + [Stored(AuthKey)]
                     + (if threw || s.isAuthenticated == False then [] else [Stored(AuthKey)])
    // with no cached user (a first visit, or after a logout) the flag stored is the text "undefined"
    ensures var cached := Get(stored, UserKey);
      (cached.None? || cached.value == "") ==> s.isAuthenticated == Undefined && s.storage[AuthKey] == "undefined"
    // a cached admin is trusted: the flag stored is the text "true"
    ensures CachedUser(stored).Some? && CachedUser(stored).value.isAdmin == True ==>
      s.isAuthenticated == True && s.storage[AuthKey] == "true"
    // a first visit to any page but the login page lands on it; a stored "undefined" redirects nowhere
    ensures Get(stored, AuthKey).None? && location != LoginPath ==> s.path == LoginPath
    ensures Get(stored, AuthKey) == Some("undefined") ==> s.path == location
  {
    s := new Session(stored, location);
    threw := s.MountPage();
    if Get(stored, UserKey).None? || Get(stored, UserKey).value == "" {
      assert !threw && CachedUser(stored).None?;
      assert s.storage[AuthKey] == StoredText(Undefined);
    }
    if CachedUser(stored).Some? && CachedUser(stored).value.isAdmin == True {
      assert !threw;
      assert s.storage[AuthKey] == StoredText(True);
    }
    if Get(stored, AuthKey).None? && location != LoginPath {
      RedirectWhenMissing(location);
      assert RedirectTarget(None, location) == Some(LoginPath);
    }
    if Get(stored, AuthKey) == Some("undefined") {
      RedirectAfterPersist(Undefined, location);
      assert RedirectTarget(Some(StoredText(Undefined)), location) == None;
    }
  }
}
