/**
 * The KarryTask navigation bar: the fixed table of items, the highlight of the item whose
 * screen is current, and the mobile menu flag.
 */
module KarryTaskNavbar {
  import opened KarryTaskPage

  /** An entry of `navItems`; the icon is not modelled. */
  datatype NavItem = NavItem(name: string, screen: string)

  const NavItems: seq<NavItem> := [
    NavItem("Productivity Hub", "productivity"),
    NavItem("Whiteboard", "whiteboard"),
    NavItem("Mr. Karry", "ai-agent"),
    NavItem("Report", "report"),
    NavItem("Account", "account")
  ]

  /** An item is highlighted when the current screen is its screen, in both the desktop and the mobile list. */
  predicate Highlighted(currentScreen: string, i: nat)
    requires i < |NavItems|
    ensures Highlighted(currentScreen, i) ==> RenderScreen(currentScreen) != LandingView
  {
    currentScreen == NavItems[i].screen
  }

  /** No two items lead to the same screen. */
  lemma NavScreensDistinct(i: nat, j: nat)
    requires i < |NavItems| && j < |NavItems|
    ensures NavItems[i].screen == NavItems[j].screen <==> i == j
  {
  }

  /** The items' screens are exactly the names the page renders as something other than the landing view. */
  lemma NavScreensAreRoutes(s: string)
    ensures RenderScreen(s) != LandingView <==> exists i :: 0 <= i < |NavItems| && NavItems[i].screen == s
  {
    if RenderScreen(s) != LandingView {
      if s == "productivity" { assert NavItems[0].screen == s; }
      else if s == "whiteboard" { assert NavItems[1].screen == s; }
      else if s == "ai-agent" { assert NavItems[2].screen == s; }
      else if s == "report" { assert NavItems[3].screen == s; }
      else { assert NavItems[4].screen == s; }
    }
  }

  /** At most one item is highlighted, and one is exactly when the page shows a screen other than the landing view. */
  lemma HighlightIsUnique(currentScreen: string, i: nat, j: nat)
    requires i < |NavItems| && j < |NavItems|
    ensures Highlighted(currentScreen, i) && Highlighted(currentScreen, j) ==> i == j
    ensures Highlighted(currentScreen, i) ==> RenderScreen(currentScreen) != LandingView
  {
    NavScreensDistinct(i, j);
    NavScreensAreRoutes(currentScreen);
  }

  /** On the start screen `"dashboard"` no item is highlighted. */
  lemma NothingHighlightedOnDashboard(i: nat)
    requires i < |NavItems|
    ensures !Highlighted("dashboard", i)
  {
    HighlightIsUnique("dashboard", i, i);
  }

  /** The navigation bar's state. */
  class Navbar {
    var isMenuOpen: bool

    constructor ()
      ensures !isMenuOpen
    {
      isMenuOpen := false;
    }

    /** The menu button opens a closed menu and closes an open one. */
    method ToggleMenu()
      modifies this`isMenuOpen
      ensures isMenuOpen == !old(isMenuOpen)
    {
      isMenuOpen := !isMenuOpen;
    }

    /** A desktop item calls `onNavigate` with its screen; the menu flag is left alone. */
    method ClickDesktop(i: nat, page: KarryTask)
      requires i < |NavItems|
      modifies page`currentScreen
      ensures page.currentScreen == NavItems[i].screen
      ensures page.Rendered() != LandingView && Highlighted(page.currentScreen, i)
    {
      page.Navigate(NavItems[i].screen);
      NavScreensAreRoutes(NavItems[i].screen);
    }

    /** A mobile item, listed only while the menu is open, navigates and closes the menu. */
    method ClickMobile(i: nat, page: KarryTask)
      requires i < |NavItems| && isMenuOpen
      modifies this`isMenuOpen, page`currentScreen
      ensures page.currentScreen == NavItems[i].screen && !isMenuOpen
      ensures page.Rendered() != LandingView && Highlighted(page.currentScreen, i)
    {
      page.Navigate(NavItems[i].screen);
      isMenuOpen := false;
      NavScreensAreRoutes(NavItems[i].screen);
    }
  }
}
