/** Routing and the onboarding gate (App.tsx). */
module App {
  import opened Wrappers
  import opened Text
  import opened Types

  datatype Page = OnboardingPage | DashboardPage | DiscoveryPage | SavedSearchesPage | BookmarksPage | AlertsPage | SettingsPage

  /** What the router renders at a path: a page, a redirect, or nothing for
      a path no route matches. */
  datatype Screen = Show(page: Page) | RedirectTo(target: string) | Blank

  /** The preferences a first visit starts with. */
  const DefaultPrefs := UserPreferences(false, None)

  /** The initial preferences: the stored ones, or the default. */
  function LoadPrefs(stored: Option<UserPreferences>): (p: UserPreferences)
    ensures stored.None? ==> p == UserPreferences(false, None)
    ensures stored.Some? ==> p == stored.value
  {
    stored.GetOr(DefaultPrefs)
  }

  /** The path as the router compares it with a route's path: letter case
      is ignored and any run of trailing '/' is accepted. */
  function RoutePath(path: string): (r: string)
    ensures |r| <= |path|
  {
    ToLower(TrimEndChar(path, '/'))
  }

  /** The paths the two onboarding-gated routes match: "/onboarding" in any
      letter case, and "/" (one or more '/'). */
  predicate Gated(path: string) {
    RoutePath(path) == "/onboarding" || (path != "" && RoutePath(path) == "")
  }

  /** What the router renders at a path. Only the two gated routes redirect,
      each to the other, and the redirect target is decided by the onboarding
      flag; the dashboard needs it, the onboarding page needs its absence. */
  function Route(path: string, prefs: UserPreferences): (r: Screen)
    ensures r.RedirectTo? ==> Gated(path) && (r.target == "/" <==> prefs.isOnboarded)
    ensures r.RedirectTo? ==> r.target == "/" || r.target == "/onboarding"
    ensures r == Show(DashboardPage) ==> prefs.isOnboarded
    ensures r == Show(OnboardingPage) ==> !prefs.isOnboarded
  {
    var key := RoutePath(path);
    if key == "/onboarding" then
      if prefs.isOnboarded then RedirectTo("/") else Show(OnboardingPage)
    else if path != "" && key == "" then
      if prefs.isOnboarded then Show(DashboardPage) else RedirectTo("/onboarding")
    else if key == "/discovery" then Show(DiscoveryPage)
    else if key == "/saved" then Show(SavedSearchesPage)
    else if key == "/bookmarks" then Show(BookmarksPage)
    else if key == "/alerts" then Show(AlertsPage)
    else if key == "/settings" then Show(SettingsPage)
    else Blank
  }

  /** The router's keys for the two paths the gate redirects to. */
  lemma RedirectTargetPaths()
    ensures RoutePath("/") == "" && Gated("/")
    ensures RoutePath("/onboarding") == "/onboarding" && Gated("/onboarding")
  {
    assert "/"[..0] == "";
    ToLowerWithoutCapitals("/onboarding");
  }

  /** "/" shows the dashboard exactly when onboarded, and otherwise sends
      the visitor to onboarding; "/onboarding" is the mirror image. */
  lemma GateRoutes(prefs: UserPreferences)
    ensures Route("/", prefs) == Show(DashboardPage) <==> prefs.isOnboarded
    ensures !prefs.isOnboarded ==> Route("/", prefs) == RedirectTo("/onboarding")
    ensures Route("/onboarding", prefs) == RedirectTo("/") <==> prefs.isOnboarded
    ensures !prefs.isOnboarded ==> Route("/onboarding", prefs) == Show(OnboardingPage)
  {
    RedirectTargetPaths();
  }

  /** A redirect always lands on a page: at most one redirect happens and
      the two gated routes never send the visitor round in a cycle. */
  lemma AtMostOneRedirect(path: string, prefs: UserPreferences)
    ensures Route(path, prefs).RedirectTo? ==> Route(Route(path, prefs).target, prefs).Show?
  {
    RedirectTargetPaths();
  }

  /** The router's key for "/Discovery": letter case is ignored. */
  lemma CapitalisedPath()
    ensures RoutePath("/Discovery") == "/discovery"
  {
    assert TrimEndChar("/Discovery", '/') == "/Discovery";
    assert LowerChar('D') == 'd';
  }

  /** The router's key for "/discovery/": the trailing '/' is ignored. */
  lemma TrailingSlashPath()
    ensures RoutePath("/discovery/") == "/discovery"
  {
    assert "/discovery/"[..10] == "/discovery";
    ToLowerWithoutCapitals("/discovery");
  }

  /** The router's key for "/Onboarding" is that of "/onboarding". */
  lemma CapitalisedOnboardingPath()
    ensures RoutePath("/Onboarding") == "/onboarding"
  {
    assert TrimEndChar("/Onboarding", '/') == "/Onboarding";
    assert LowerChar('O') == 'o';
  }

  /** Letter case and trailing slashes do not change what is rendered, and
      a capitalised "/Onboarding" is gated like "/onboarding". */
  lemma RouteVariants(prefs: UserPreferences)
    ensures Route("/Discovery", prefs) == Show(DiscoveryPage)
    ensures Route("/discovery/", prefs) == Show(DiscoveryPage)
    ensures Route("/Onboarding", prefs) == Route("/onboarding", prefs)
    ensures Route("//", prefs) == Route("/", prefs)
  {
    RedirectTargetPaths();
    CapitalisedPath();
    TrailingSlashPath();
    CapitalisedOnboardingPath();
    assert RoutePath("//") == "" by {
      assert "//"[..1] == "/";
      assert "/"[..0] == "";
    }
  }

  /** Every route but the two gated ones renders the same whatever the
      onboarding state, and shows a page exactly for the five other paths. */
  lemma OtherRoutesIgnorePrefs(path: string, p: UserPreferences, q: UserPreferences)
    requires !Gated(path)
    ensures Route(path, p) == Route(path, q)
    ensures Route(path, p).Show? <==>
      RoutePath(path) in ["/discovery", "/saved", "/bookmarks", "/alerts", "/settings"]
  {
  }

  /** The application shell: the preferences in memory and the copy the
      effect persists after every change. */
  class AppState {
    var prefs: UserPreferences
    var persisted: Option<UserPreferences>

    constructor(stored: Option<UserPreferences>)
      ensures prefs == LoadPrefs(stored)
      ensures persisted == Some(prefs)
    {
      prefs := LoadPrefs(stored);
      persisted := Some(LoadPrefs(stored));
    }

    /** Completing onboarding records the intent and marks the user
        onboarded; the stored copy follows. */
    method HandleOnboard(intent: Intent)
      modifies this
      ensures prefs == UserPreferences(true, Some(intent))
      ensures persisted == Some(prefs)
      ensures Route("/", prefs) == Show(DashboardPage)
      ensures Route("/onboarding", prefs) == RedirectTo("/")
    {
      RedirectTargetPaths();
      prefs := UserPreferences(true, Some(intent));
      persisted := Some(prefs);
    }
  }
}
