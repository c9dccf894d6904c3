/**
 * The admin dashboard of `src/pages/AdminDashboard.tsx`: the route-to-tab
 * effect, the tab-to-route handler, the status badge classes and the ban action.
 */
module AdminDashboard {
  import Text
  import Routing

  /** The five tab values, in the order the tab list shows them. */
  const Tabs: seq<string> := ["overview", "users", "tokens", "revenue", "system"]

  /** The route effect: the first segment the path includes decides the tab. */
  function PathToTab(path: string): (tab: string)
    ensures tab in Tabs
    ensures Text.Includes(path, "/users") ==> tab == "users"
    ensures !Text.Includes(path, "/users") && Text.Includes(path, "/tokens") ==> tab == "tokens"
    ensures (!Text.Includes(path, "/users") && !Text.Includes(path, "/tokens")
             && Text.Includes(path, "/revenue")) ==> tab == "revenue"
    ensures (!Text.Includes(path, "/users") && !Text.Includes(path, "/tokens")
             && !Text.Includes(path, "/revenue") && Text.Includes(path, "/system")) ==> tab == "system"
    ensures tab == "overview" <==>
      (!Text.Includes(path, "/users") && !Text.Includes(path, "/tokens")
       && !Text.Includes(path, "/revenue") && !Text.Includes(path, "/system"))
  {
    if Text.Includes(path, "/users") then "users"
    else if Text.Includes(path, "/tokens") then "tokens"
    else if Text.Includes(path, "/revenue") then "revenue"
    else if Text.Includes(path, "/system") then "system"
    else "overview"
  }

  /** `handleTabChange`: where a tab value navigates to. */
  function TabToPath(tab: string): (path: string)
    ensures tab == "overview" ==> path == "/admin"
    ensures tab != "overview" ==> path == "/admin/" + tab
  {
    if tab == "overview" then "/admin" else "/admin/" + tab
  }

  /** Going to a tab's path and reading the tab back gives the same tab. */
  lemma TabRoundTrip(tab: string)
    requires tab in Tabs
    ensures PathToTab(TabToPath(tab)) == tab
  {
    if tab == "overview" {
      BareAdminPath();
    } else if tab == "users" {
      assert TabToPath(tab) == "/admin/users";
      UsersPath();
    } else if tab == "tokens" {
      assert TabToPath(tab) == "/admin/tokens";
      TokensPath();
    } else if tab == "revenue" {
      assert TabToPath(tab) == "/admin/revenue";
      RevenuePath();
    } else {
      assert TabToPath(tab) == "/admin/system";
      SystemPath();
    }
  }

  lemma UsersPath()
    ensures PathToTab("/admin/users") == "users"
  {
    Text.IncludesAt("/admin/users", "/users", 6);
  }

  lemma TokensPath()
    ensures PathToTab("/admin/tokens") == "tokens"
  {
    var path := "/admin/tokens";
    Text.NotIncludesMissingChar(path, "/users", 'u');
    assert path[6..] == "/tokens";
    Text.IncludesAt(path, "/tokens", 6);
  }

  lemma RevenuePath()
    ensures PathToTab("/admin/revenue") == "revenue"
  {
    var path := "/admin/revenue";
    Text.NotIncludesMissingChar(path, "/users", 's');
    Text.NotIncludesMissingChar(path, "/tokens", 'k');
    assert path[6..] == "/revenue";
    Text.IncludesAt(path, "/revenue", 6);
  }

  lemma SystemPath()
    ensures PathToTab("/admin/system") == "system"
  {
    var path := "/admin/system";
    Text.NotIncludesMissingChar(path, "/users", 'u');
    Text.NotIncludesMissingChar(path, "/tokens", 'k');
    Text.NotIncludesMissingChar(path, "/revenue", 'v');
    assert path[6..] == "/system";
    Text.IncludesAt(path, "/system", 6);
  }

  /** The bare dashboard path selects the overview tab. */
  lemma BareAdminPath()
    ensures PathToTab("/admin") == "overview"
  {
    Text.NotIncludesMissingChar("/admin", "/users", 'u');
    Text.NotIncludesMissingChar("/admin", "/tokens", 't');
    Text.NotIncludesMissingChar("/admin", "/revenue", 'r');
    Text.NotIncludesMissingChar("/admin", "/system", 's');
  }

  /** "/admin/overview", which no tab navigates to, selects the overview tab too. */
  lemma OverviewPath()
    ensures PathToTab("/admin/overview") == "overview"
  {
    Text.NotIncludesMissingChar("/admin/overview", "/users", 'u');
    Text.NotIncludesMissingChar("/admin/overview", "/tokens", 't');
    Text.NotIncludesMissingChar("/admin/overview", "/revenue", 'u');
    Text.NotIncludesMissingChar("/admin/overview", "/system", 's');
  }

  const SuccessClass: string := "bg-success text-success-foreground"
  const WarningClass: string := "bg-warning text-warning-foreground"
  const DestructiveClass: string := "bg-destructive text-destructive-foreground"
  const SecondaryClass: string := "bg-secondary text-secondary-foreground"

  /** `getStatusColor`. */
  function StatusColor(status: string): (cls: string)
    ensures cls == SuccessClass <==> status == "active" || status == "verified"
    ensures cls == WarningClass <==> status == "pending"
    ensures cls == DestructiveClass <==> status == "flagged"
    ensures cls == SecondaryClass <==> status !in {"active", "verified", "pending", "flagged"}
  {
    match status
    case "active" => SuccessClass
    case "verified" => SuccessClass
    case "pending" => WarningClass
    case "flagged" => DestructiveClass
    case _ => SecondaryClass
  }

  /** The ban button is rendered only for flagged tokens. */
  predicate CanBan(status: string) {
    status == "flagged"
  }

  /** A token can be banned exactly when its badge is drawn in the destructive colour. */
  lemma BanMatchesBadge(status: string)
    ensures CanBan(status) <==> StatusColor(status) == DestructiveClass
  {
  }

  /** The page's `selectedTab` state. */
  class AdminDashboardPage {
    var selectedTab: string

    constructor ()
      ensures selectedTab == "overview"
    {
      selectedTab := "overview";
    }

    /** The effect that runs whenever the location's path changes. */
    method OnPathChange(path: string)
      modifies this
      ensures selectedTab == PathToTab(path)
    {
      selectedTab := PathToTab(path);
    }

    /** `handleTabChange`: select the tab, then navigate to its path. */
    method HandleTabChange(value: string, router: Routing.Router)
      modifies this, router
      ensures selectedTab == value && router.pathname == TabToPath(value)
      ensures value in Tabs ==> PathToTab(router.pathname) == selectedTab
    {
      selectedTab := value;
      router.Navigate(TabToPath(value));
      if value in Tabs {
        TabRoundTrip(value);
      }
    }
  }
}
