/**
 * The KarryTask page: one current-screen string, set verbatim by navigation, and the
 * `switch` that turns it into the screen to show.
 */
module KarryTaskPage {

  /** What the page shows below the navigation bar. */
  datatype View = ProductivityHubView | WhiteboardView | MrKarryView | ReportsView | AccountView | LandingView

  /**
   * `renderScreen`: five names select their screens; every other string, the start screen
   * `"dashboard"` among them, selects the landing view.
   */
  function RenderScreen(screen: string): (v: View)
    ensures screen == "dashboard" ==> v == LandingView
  {
    if screen == "productivity" then ProductivityHubView
    else if screen == "whiteboard" then WhiteboardView
    else if screen == "ai-agent" then MrKarryView
    else if screen == "report" then ReportsView
    else if screen == "account" then AccountView
    else LandingView
  }

  /** The name that selects a screen other than the landing view. */
  function ScreenName(v: View): (s: string)
    requires v != LandingView
    ensures RenderScreen(s) == v
  {
    match v
    case ProductivityHubView => "productivity"
    case WhiteboardView => "whiteboard"
    case MrKarryView => "ai-agent"
    case ReportsView => "report"
    case AccountView => "account"
  }

  /** The five names are the only strings that leave the landing view, and each selects one screen. */
  lemma RenderScreenRoundTrip(s: string, v: View)
    ensures v != LandingView ==> RenderScreen(ScreenName(v)) == v
    ensures RenderScreen(s) != LandingView ==> ScreenName(RenderScreen(s)) == s
    ensures RenderScreen(s) == LandingView <==> forall w :: w != LandingView ==> s != ScreenName(w)
  {
    if RenderScreen(s) == LandingView {
      forall w | w != LandingView ensures s != ScreenName(w) {
        assert RenderScreen(ScreenName(w)) == w;
      }
    }
  }

  /** The page's state. */
  class KarryTask {
    var currentScreen: string

    constructor ()
      ensures currentScreen == "dashboard"
      ensures Rendered() == LandingView
    {
      currentScreen := "dashboard";
    }

    /** The view under the navigation bar; a screen other than the landing view is shown only under its own name. */
    function Rendered(): (v: View)
      reads this
      ensures v != LandingView ==> ScreenName(v) == currentScreen
    {
      RenderScreen(currentScreen)
    }

    /** `handleNavigation(screen)`: the screen name is stored as given, without validation. */
    method Navigate(screen: string)
      modifies this`currentScreen
      ensures currentScreen == screen
      ensures Rendered() == RenderScreen(screen)
    {
      currentScreen := screen;
    }
  }
}
