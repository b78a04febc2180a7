/**
 * The Redux store configuration (frontend/src/store.js): the
 * `protectStoreMiddleware` allow/drop decision and the middleware chain the
 * store is actually configured with, which does not contain it.
 */
module Store {
  import opened Wrappers
  import opened Json
  import opened UserSlice

  /** A dispatched action with its `meta.requiresAdmin` marker (false when `meta` is absent). */
  datatype StoreAction = StoreAction(action: Action, requiresAdmin: bool)

  /**
   * The gate over the two values the middleware reads: the action is passed
   * on unchanged, or dropped (`None`: `next` is never called).
   */
  function Gate(isAuthenticated: Flag, isAdmin: Flag, a: StoreAction): (r: Option<StoreAction>)
    ensures !Truthy(isAuthenticated) ==> r == None
    ensures Truthy(isAuthenticated) && a.requiresAdmin && !Truthy(isAdmin) ==> r == None
    ensures Truthy(isAuthenticated) && (!a.requiresAdmin || Truthy(isAdmin)) ==> r == Some(a)
  {
    if !Truthy(isAuthenticated) then None
    else if a.requiresAdmin && !Truthy(isAdmin) then None
    else Some(a)
  }

  /**
   * `store.getState().user.isAdmin`: the slice state has no `isAdmin` key —
   * neither the initial state nor any reducer defines one — so the read is
   * always undefined.
   */
  function SliceIsAdmin(s: SliceState): Flag {
    Undefined
  }

  /** `protectStoreMiddleware` applied to the current slice state. */
  function Protect(s: SliceState, a: StoreAction): Option<StoreAction> {
    Gate(s.isAuthenticated, SliceIsAdmin(s), a)
  }

  /** Because the slice never defines `isAdmin`, the gate would drop every admin-only action. */
  lemma ProtectDropsEveryAdminAction(s: SliceState, a: StoreAction)
    requires a.requiresAdmin
    ensures Protect(s, a) == None
  {
  }

  /** The gate never rewrites an action: it forwards it as it is, or drops it. */
  lemma ProtectForwardsUnchanged(s: SliceState, a: StoreAction)
    ensures Protect(s, a) == None || Protect(s, a) == Some(a)
    ensures Protect(s, a) == Some(a) <==> Truthy(s.isAuthenticated) && !a.requiresAdmin
  {
  }

  /** The custom middlewares the application defines. */
  datatype Middleware = ProtectStore

  /**
   * The custom middlewares `configureStore` installs: the
   * `getDefaultMiddleware().concat()` call appends none.
   */
  const Installed: seq<Middleware> := []

  /** What reaches the reducer after an action passes through a middleware chain. */
  function Deliver(chain: seq<Middleware>, s: SliceState, a: StoreAction): (r: Option<StoreAction>)
    ensures r == None || r == Some(a)
  {
    if chain == [] then Some(a)
    else
      match chain[0]
      case ProtectStore =>
        match Protect(s, a)
        case None => None
        case Some(a') => Deliver(chain[1..], s, a')
  }

  /** With the installed chain, every dispatched action reaches the reducer ungated. */
  lemma InstalledChainDeliversAll(s: SliceState, a: StoreAction)
    ensures Deliver(Installed, s, a) == Some(a)
  {
  }

  /**
   * The message the Redux core throws when the value handed to `dispatch`
   * is a promise rather than a plain object (the pointers to the Redux
   * documentation that follow it are left out).
   */
  const NotPlainObject: string := "Actions must be plain objects. Instead, the actual type was: 'Promise'."

  /**
   * `dispatch(promise)`, the call an `async` function's result gets when it
   * is dispatched. The default middlewares pass a promise on (redux-thunk
   * runs only functions); the gate would drop it, reading `meta` of a
   * promise as absent, when the session is not authenticated; and the core
   * throws on what reaches it. `Some(m)`: the dispatch throws `m`; `None`:
   * it returns `undefined`.
   */
  function DispatchPromise(chain: seq<Middleware>, s: SliceState): (r: Option<string>)
    ensures r == None || r == Some(NotPlainObject)
    ensures r == None <==> chain != [] && !Truthy(s.isAuthenticated)
  {
    if chain == [] then Some(NotPlainObject)
    else
      match chain[0]
      case ProtectStore =>
        if !Truthy(s.isAuthenticated) then None else DispatchPromise(chain[1..], s)
  }

  /** With the installed chain, dispatching a promise always throws. */
  lemma InstalledChainRejectsPromises(s: SliceState)
    ensures DispatchPromise(Installed, s) == Some(NotPlainObject)
  {
  }

  /** A chain that contains the gate, however often, decides exactly as the gate does once. */
  lemma {:induction false} ChainWithGateIsGate(chain: seq<Middleware>, s: SliceState, a: StoreAction)
    requires chain != []
    ensures Deliver(chain, s, a) == Protect(s, a)
  {
    match chain[0]
    case ProtectStore =>
      if Protect(s, a).Some? && chain[1..] != [] {
        ChainWithGateIsGate(chain[1..], s, a);
      }
  }
}
