/**
 * The investor dashboard of `src/pages/UserDashboard.tsx`: the route-to-tab
 * effect and the tab-to-route handler.
 */
module UserDashboard {
  import Text
  import Routing

  /** The three tab values, in the order the tab list shows them. */
  const Tabs: seq<string> := ["portfolio", "trades", "watchlist"]

  /** The route effect: "/trades" wins over "/watchlist"; anything else is the portfolio. */
  function PathToTab(path: string): (tab: string)
    ensures tab in Tabs
    ensures Text.Includes(path, "/trades") ==> tab == "trades"
    ensures !Text.Includes(path, "/trades") && Text.Includes(path, "/watchlist") ==> tab == "watchlist"
    ensures tab == "portfolio" <==> !Text.Includes(path, "/trades") && !Text.Includes(path, "/watchlist")
  {
    if Text.Includes(path, "/trades") then "trades"
    else if Text.Includes(path, "/watchlist") then "watchlist"
    else "portfolio"
  }

  /** `handleTabChange`: where a tab value navigates to. */
  function TabToPath(tab: string): (path: string)
    ensures tab == "portfolio" ==> path == "/dashboard"
    ensures tab != "portfolio" ==> path == "/dashboard/" + tab
  {
    if tab == "portfolio" then "/dashboard" else "/dashboard/" + tab
  }

  lemma DashboardPath()
    ensures PathToTab("/dashboard") == "portfolio"
  {
    Text.NotIncludesMissingChar("/dashboard", "/trades", 't');
    Text.NotIncludesMissingChar("/dashboard", "/watchlist", 'w');
  }

  lemma TradesPath()
    ensures PathToTab("/dashboard/trades") == "trades"
  {
    var path := "/dashboard/trades";
    assert path[10..] == "/trades";
    Text.IncludesAt(path, "/trades", 10);
  }

  lemma WatchlistPath()
    ensures PathToTab("/dashboard/watchlist") == "watchlist"
  {
    var path := "/dashboard/watchlist";
    Text.NotIncludesMissingChar(path, "/trades", 'e');
    assert path[10..] == "/watchlist";
    Text.IncludesAt(path, "/watchlist", 10);
  }

  /** Going to a tab's path and reading the tab back gives the same tab. */
  lemma TabRoundTrip(tab: string)
    requires tab in Tabs
    ensures PathToTab(TabToPath(tab)) == tab
  {
    if tab == "portfolio" {
      DashboardPath();
    } else if tab == "trades" {
      assert TabToPath(tab) == "/dashboard/trades";
      TradesPath();
    } else {
      assert TabToPath(tab) == "/dashboard/watchlist";
      WatchlistPath();
    }
  }

  /** The navigation's "/portfolio" link shows the portfolio tab. */
  lemma PortfolioLinkPath()
    ensures PathToTab("/portfolio") == "portfolio"
  {
    Text.NotIncludesMissingChar("/portfolio", "/trades", 'd');
    Text.NotIncludesMissingChar("/portfolio", "/watchlist", 'w');
  }

  /** "/dashboard/portfolio", which no tab navigates to, shows the portfolio tab too. */
  lemma PortfolioTabPath()
    ensures PathToTab("/dashboard/portfolio") == "portfolio"
  {
    Text.NotIncludesMissingChar("/dashboard/portfolio", "/trades", 'e');
    Text.NotIncludesMissingChar("/dashboard/portfolio", "/watchlist", 'w');
  }

  /** The page's `selectedTab` state. */
  class UserDashboardPage {
    var selectedTab: string

    constructor ()
      ensures selectedTab == "portfolio"
    {
      selectedTab := "portfolio";
    }

    /** The effect that runs whenever the location's path changes. */
    method OnPathChange(path: string)
      modifies this
      ensures selectedTab == PathToTab(path)
    {
      selectedTab := PathToTab(path);
    }

    /** `handleTabChange`: select the tab, then navigate to its path. */
    method HandleTabChange(value: string, router: Routing.Router)
      modifies this, router
      ensures selectedTab == value && router.pathname == TabToPath(value)
      ensures value in Tabs ==> PathToTab(router.pathname) == selectedTab
    {
      selectedTab := value;
      router.Navigate(TabToPath(value));
      if value in Tabs {
        TabRoundTrip(value);
      }
    }
  }
}
