/**
 * The pure decisions of the root component (frontend/src/App.js): where
 * the start-up effect redirects, given the stored `isAuthenticated` text and
 * the current path, and which tree is rendered.
 */
module App {
  import opened Wrappers
  import opened Json

  const LoginPath: string := "/login"

  /** `localStorage.getItem(key)`: `None` is `null`. */
  function Get(storage: map<string, string>, key: string): Option<string> {
    if key in storage then Some(storage[key]) else None
  }

  /**
   * The target the redirect effect navigates to, if any. A present,
   * non-empty text is parsed: a falsy value redirects, a parse error is only
   * logged. A missing or empty text redirects. Nothing redirects on the
   * login page itself.
   */
  function RedirectTarget(stored: Option<string>, path: string): (r: Option<string>)
    ensures r.Some? ==> r.value == LoginPath && path != LoginPath
  {
    if stored.Some? && stored.value != "" then
      match ParseLiteral(stored.value)
      case None => None
      case Some(f) => if !Truthy(f) && path != LoginPath then Some(LoginPath) else None
    else if path != LoginPath then Some(LoginPath)
    else None
  }

  /** With nothing stored, every page but the login page redirects to it. */
  lemma RedirectWhenMissing(path: string)
    ensures RedirectTarget(None, path).Some? <==> path != LoginPath
  {
  }

  /** A stored text that does not parse never redirects. */
  lemma NoRedirectOnParseError(text: string, path: string)
    requires text != "" && ParseLiteral(text).None?
    ensures RedirectTarget(Some(text), path) == None
  {
  }

  /**
   * Reading back what the persistence effect wrote: `false` and `null`
   * redirect away from every other page; `true` never redirects, and
   * neither does the text "undefined", which does not parse.
   */
  lemma RedirectAfterPersist(f: Flag, path: string)
    ensures RedirectTarget(Some(StoredText(f)), path) ==
      if f == True || f == Undefined || path == LoginPath then None else Some(LoginPath)
  {
    ParseStoredText(f);
  }

  /** The two trees the root renders. */
  datatype Screen = LoginScreen | RouteTable

  /** Only the login screen while `isAuthenticated` is falsy; the route table only when it is true. */
  function ScreenFor(isAuthenticated: Flag): (s: Screen)
    ensures s == RouteTable <==> Truthy(isAuthenticated)
  {
    if !Truthy(isAuthenticated) then LoginScreen else RouteTable
  }
}
