/**
 * The top navigation bar of `src/components/Navigation.tsx`: the menu for
 * each role, the role badge, the active-link test, the creator-only
 * "Create Token" button and the logout handler.
 */
module Navigation {
  import opened Wrappers
  import opened Session
  import Routing

  datatype NavItem = NavItem(caption: string, path: string)

  predicate IsCreator(user: Option<User>) {
    user.Some? && user.value.role == Creator
  }

  predicate IsAdmin(user: Option<User>) {
    user.Some? && user.value.role == Admin
  }

  /** `getNavigationItems`: creators and admins get their own menus; everyone else, signed in or not, the investor menu. */
  function NavigationItems(user: Option<User>): seq<NavItem> {
    if IsCreator(user) then
      [NavItem("Dashboard", "/creator"), NavItem("My Tokens", "/creator/tokens"),
       NavItem("Analytics", "/creator/analytics")]
    else if IsAdmin(user) then
      [NavItem("Overview", "/admin"), NavItem("Users", "/admin/users"),
       NavItem("Tokens", "/admin/tokens"), NavItem("Analytics", "/admin/analytics")]
    else
      [NavItem("Dashboard", "/dashboard"), NavItem("Explore", "/explore"),
       NavItem("Portfolio", "/portfolio")]
  }

  function Paths(items: seq<NavItem>): (paths: seq<string>)
    ensures |paths| == |items| && forall i :: 0 <= i < |items| ==> paths[i] == items[i].path
  {
    if items == [] then [] else [items[0].path] + Paths(items[1..])
  }

  /** The menu each kind of visitor sees, as the sequence of link targets. */
  lemma MenuPaths(user: Option<User>)
    ensures IsCreator(user) ==>
      Paths(NavigationItems(user)) == ["/creator", "/creator/tokens", "/creator/analytics"]
    ensures IsAdmin(user) ==>
      Paths(NavigationItems(user)) == ["/admin", "/admin/users", "/admin/tokens", "/admin/analytics"]
    ensures !IsCreator(user) && !IsAdmin(user) ==>
      Paths(NavigationItems(user)) == ["/dashboard", "/explore", "/portfolio"]
  {
  }

  /** No two items of a menu share a path (the path is the list key). */
  predicate DistinctPaths(items: seq<NavItem>) {
    forall i, j :: 0 <= i < j < |items| ==> items[i].path != items[j].path
  }

  lemma MenusHaveDistinctPaths(user: Option<User>)
    ensures DistinctPaths(NavigationItems(user))
  {
  }

  /** A link is highlighted when the current path equals its path exactly. */
  predicate IsActive(pathname: string, item: NavItem) {
    pathname == item.path
  }

  /** Whatever the current path, at most one link of the menu is highlighted. */
  lemma AtMostOneActive(user: Option<User>, pathname: string, i: nat, j: nat)
    requires i < j < |NavigationItems(user)|
    ensures !(IsActive(pathname, NavigationItems(user)[i]) && IsActive(pathname, NavigationItems(user)[j]))
  {
    MenusHaveDistinctPaths(user);
  }

  /** The badge next to the logo. */
  function BadgeLabel(user: Option<User>): (badge: string)
    ensures badge == "Admin" <==> IsAdmin(user)
    ensures badge == "Creator" <==> IsCreator(user)
    ensures badge == "Beta" <==> !IsAdmin(user) && !IsCreator(user)
  {
    if IsAdmin(user) then "Admin" else if IsCreator(user) then "Creator" else "Beta"
  }

  /** The "Create Token" button is shown only to creators. */
  predicate ShowsCreateToken(user: Option<User>) {
    IsCreator(user)
  }

  /** The button appears exactly when the badge reads "Creator" and the menu starts at "/creator". */
  lemma CreateTokenForCreatorsOnly(user: Option<User>)
    ensures ShowsCreateToken(user) <==> BadgeLabel(user) == "Creator"
    ensures ShowsCreateToken(user) <==> NavigationItems(user)[0].path == "/creator"
  {
  }

  /** `handleLogout`: sign out, then go to the login page. */
  method HandleLogout(store: SessionStore, router: Routing.Router)
    modifies store, router
    ensures store.Snapshot() == LoggedOut(old(store.Snapshot()))
    ensures !store.IsAuthenticated() && router.pathname == "/login"
  {
    store.Logout();
    router.Navigate("/login");
  }
}
