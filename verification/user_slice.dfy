/**
 * The client's Redux `user` slice (frontend/src/redux/userSlice.js) as a
 * value: its state record, its initial state, the actions its reducers
 * accept, and `Reduce`, the state each reducer produces. The class
 * `Session.Session` holds these fields and runs the reducers in place; this
 * module is the specification those methods are proved against.
 */
module UserSlice {
  import opened Wrappers
  import opened Json

  /**
   * The user object the client keeps: the fields any reducer or screen
   * reads. `None` stands for `null` or a missing property.
   */
  datatype Profile = Profile(
    firstName: string,
    lastName: string,
    accessLevel: Option<int>,
    profileImage: Option<string>,
    fullName: Option<string>,
    isAdmin: Flag)

  /** A row of the team grid: a fetched user with the `id` the Team screen assigns. */
  datatype Row = Row(user: Profile, id: int)

  /** The slice state; `users` is `None` until a users reducer has run. */
  datatype SliceState = SliceState(
    user: Option<Profile>,
    loading: bool,
    error: Option<string>,
    isAuthenticated: Flag,
    users: Option<seq<Row>>)

  /** The placeholder user of the initial state: empty names, null level and image, no `isAdmin` key. */
  const InitialUser: Profile := Profile("", "", None, None, None, Undefined)

  const Initial: SliceState := SliceState(Some(InitialUser), false, None, False, None)

  /** The actions the slice exports, one per reducer, with their payloads. */
  datatype Action =
    | LoginRequest
    | LoginSuccess(payload: Profile)
    | LoginFailure(reason: Option<string>)
    | RegisterRequest
    | RegisterSuccess(payload: Profile)
    | RegisterFailure(reason: Option<string>)
    | LogoutRequest
    | LogoutSuccess(next: Option<Profile>)
    | LogoutFailure(reason: Option<string>)
    | ProfileUpdateRequest
    | ProfileUpdateSuccess(payload: Profile)
    | ProfileUpdateFailure(reason: Option<string>)
    | UpdateProfileImage(image: Option<string>)
    | GetUsersRequest
    | GetUsersSuccess(rows: seq<Row>)
    | GetUsersFailure(reason: Option<string>)
    | CheckAdminAccess
  {
    /** The five `*Request` actions. */
    predicate IsRequest() {
      LoginRequest? || RegisterRequest? || LogoutRequest? || ProfileUpdateRequest? || GetUsersRequest?
    }

    /** The three failure actions whose reducer also drops the user. */
    predicate DropsUser() {
      LoginFailure? || RegisterFailure? || LogoutFailure?
    }
  }

  /** `state.user && state.user.isAdmin`: null when there is no user, else the user's flag. */
  function AdminFlag(user: Option<Profile>): Flag {
    match user
    case None => Null
    case Some(u) => u.isAdmin
  }

  /**
   * `updateProfileImage` assigns through `state.user`; with no user that
   * assignment throws a TypeError and the state is left as it was.
   */
  predicate ReducerThrows(s: SliceState, a: Action) {
    a.UpdateProfileImage? && s.user.None?
  }

  /** The state each reducer leaves (the state itself when it throws). */
  function Reduce(s: SliceState, a: Action): SliceState {
    match a
    case LoginRequest => s.(loading := true)
    case LoginSuccess(p) => s.(loading := false, user := Some(p), error := None, isAuthenticated := True)
    case LoginFailure(e) => s.(loading := false, user := None, error := e)
    case RegisterRequest => s.(loading := true)
    case RegisterSuccess(p) => s.(loading := false, user := Some(p), error := None)
    case RegisterFailure(e) => s.(loading := false, user := None, error := e)
    case LogoutRequest => s.(loading := true)
    case LogoutSuccess(u) => s.(loading := false, user := u, error := None, isAuthenticated := False)
    case LogoutFailure(e) => s.(loading := false, user := None, error := e)
    case ProfileUpdateRequest => s.(loading := true)
    case ProfileUpdateSuccess(p) => s.(loading := false, user := Some(p), error := None)
    case ProfileUpdateFailure(e) => s.(loading := false, error := e)
    case UpdateProfileImage(img) =>
      if s.user.None? then s else s.(user := Some(s.user.value.(profileImage := img)))
    case GetUsersRequest => s.(loading := true)
    case GetUsersSuccess(rows) => s.(loading := false, users := Some(rows), error := None)
    case GetUsersFailure(e) => s.(loading := false, users := Some([]), error := e)
    case CheckAdminAccess => s.(isAuthenticated := AdminFlag(s.user))
  }

  /** Every `*Request` reducer sets `loading` and nothing else. */
  lemma RequestOnlyStartsLoading(s: SliceState, a: Action)
    requires a.IsRequest()
    ensures Reduce(s, a) == s.(loading := true)
  {
  }

  /** A successful login authenticates, clears the error and stores the payload as the user. */
  lemma LoginSuccessAuthenticates(s: SliceState, p: Profile)
    ensures var r := Reduce(s, LoginSuccess(p));
      r.isAuthenticated == True && !r.loading && r.error == None && r.user == Some(p) && r.users == s.users
  {
  }

  /** The login, register and logout failures drop the user, record the reason and keep `isAuthenticated`. */
  lemma FailureDropsUser(s: SliceState, a: Action)
    requires a.DropsUser()
    ensures Reduce(s, a) == s.(loading := false, user := None, error := a.reason)
  {
  }

  /** A failed profile update keeps the user, unlike the other failures. */
  lemma ProfileUpdateFailureKeepsUser(s: SliceState, e: Option<string>)
    ensures Reduce(s, ProfileUpdateFailure(e)) == s.(loading := false, error := e)
  {
  }

  /** Registering replaces the user but never logs in or out. */
  lemma RegisterKeepsAuthentication(s: SliceState, p: Profile)
    ensures Reduce(s, RegisterSuccess(p)).isAuthenticated == s.isAuthenticated
    ensures Reduce(s, RegisterSuccess(p)).user == Some(p)
  {
  }

  /**
   * `isAuthenticated` moves only under three actions: a login success sets
   * it, a logout success clears it, and the admin check copies the user's
   * `isAdmin` flag into it.
   */
  lemma AuthenticationChanges(s: SliceState, a: Action)
    ensures Reduce(s, a).isAuthenticated ==
      match a
      case LoginSuccess(_) => True
      case LogoutSuccess(_) => False
      case CheckAdminAccess => AdminFlag(s.user)
      case _ => s.isAuthenticated
  {
  }

  /** Only a logout success and the admin check can take an authenticated session out of that state. */
  lemma OnlyLogoutOrAdminCheckDeauthenticates(s: SliceState, a: Action)
    requires Truthy(s.isAuthenticated) && !Truthy(Reduce(s, a).isAuthenticated)
    ensures a.LogoutSuccess? || (a.CheckAdminAccess? && !Truthy(AdminFlag(s.user)))
  {
    AuthenticationChanges(s, a);
  }

  /** After the admin check, the session is authenticated exactly when a user is present whose `isAdmin` is true. */
  lemma AdminCheckAuthenticatesAdmins(s: SliceState)
    ensures Truthy(Reduce(s, CheckAdminAccess).isAuthenticated) <==> s.user.Some? && Truthy(s.user.value.isAdmin)
  {
  }

  /** The admin check on the initial state leaves `isAuthenticated` undefined: the placeholder user has no `isAdmin`. */
  lemma InitialAdminCheckIsUndefined()
    ensures Reduce(Initial, CheckAdminAccess).isAuthenticated == Undefined
  {
  }

  /** Setting the profile image changes only the image of a present user. */
  lemma UpdateProfileImageOnlyImage(s: SliceState, img: Option<string>)
    requires !ReducerThrows(s, UpdateProfileImage(img))
    ensures var r := Reduce(s, UpdateProfileImage(img));
      r.user.Some? && r.user.value == s.user.value.(profileImage := img) &&
      r.(user := s.user) == s
  {
  }

  /** A failed users fetch leaves an empty (present) list. */
  lemma GetUsersFailureEmptiesList(s: SliceState, e: Option<string>)
    ensures Reduce(s, GetUsersFailure(e)).users == Some([])
  {
  }

  // ---- Histories

  /** The state after dispatching `acts` in order, starting from `s`. */
  function Run(s: SliceState, acts: seq<Action>): SliceState
    decreases |acts|
  {
    if acts == [] then s else Reduce(Run(s, acts[..|acts| - 1]), acts[|acts| - 1])
  }

  /** The three actions whose reducer writes `isAuthenticated`. */
  predicate WritesAuthentication(a: Action) {
    a.LoginSuccess? || a.LogoutSuccess? || a.CheckAdminAccess?
  }

  lemma RunAppend(s: SliceState, acts: seq<Action>, a: Action)
    ensures Run(s, acts + [a]) == Reduce(Run(s, acts), a)
  {
    assert (acts + [a])[..|acts|] == acts;
  }

  /** A history without login success, logout success or admin check leaves `isAuthenticated` where it was. */
  lemma {:induction false} RunKeepsAuthentication(s: SliceState, acts: seq<Action>)
    requires forall i :: 0 <= i < |acts| ==> !WritesAuthentication(acts[i])
    ensures Run(s, acts).isAuthenticated == s.isAuthenticated
    decreases |acts|
  {
    if acts != [] {
      RunKeepsAuthentication(s, acts[..|acts| - 1]);
      AuthenticationChanges(Run(s, acts[..|acts| - 1]), acts[|acts| - 1]);
    }
  }

  /**
   * From the initial state, a session is authenticated only if its history
   * holds a login success or an admin check.
   */
  lemma {:induction false} AuthenticatedOnlyAfterLoginOrAdminCheck(acts: seq<Action>)
    requires Truthy(Run(Initial, acts).isAuthenticated)
    ensures exists i :: 0 <= i < |acts| && (acts[i].LoginSuccess? || acts[i].CheckAdminAccess?)
    decreases |acts|
  {
    var last := acts[|acts| - 1];
    if !(last.LoginSuccess? || last.CheckAdminAccess?) {
      AuthenticationChanges(Run(Initial, acts[..|acts| - 1]), last);
      AuthenticatedOnlyAfterLoginOrAdminCheck(acts[..|acts| - 1]);
      var i :| 0 <= i < |acts| - 1 && (acts[..|acts| - 1][i].LoginSuccess? || acts[..|acts| - 1][i].CheckAdminAccess?);
      assert acts[i] == acts[..|acts| - 1][i];
    }
  }
}
