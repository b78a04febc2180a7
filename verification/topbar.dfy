/** The user menu of the top bar (frontend/src/scenes/global/Topbar.jsx). */
module Topbar {
  import opened Wrappers
  import opened UserSlice

  /** The entries of the user menu: the user's `fullName`, Logout, or Login. */
  datatype MenuItem = NameItem(fullName: Option<string>) | LogoutItem | LoginItem

  function UserMenu(user: Option<Profile>): (items: seq<MenuItem>)
    ensures LogoutItem in items <==> user.Some?
    ensures LoginItem in items <==> user.None?
    ensures user.Some? ==> items[0] == NameItem(user.value.fullName)
  {
    match user
    case Some(u) => [NameItem(u.fullName), LogoutItem]
    case None => [LoginItem]
  }
}
