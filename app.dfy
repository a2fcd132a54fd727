/**
 * The application shell (src/App.js): the sidebar when a user is signed in, and the route
 * table, in which three pages need a user and every unknown path goes to "/".
 */
module App {

  datatype Page = Login | Register | ForgotPassword | Dashboard | Threats | Settings

  /** What a path shows: a page, or a `<Navigate>` to another path. */
  datatype Outcome = Render(page: Page) | Redirect(to: string)

  /** `ProtectedRoute`: the page when a user is present, otherwise a redirect to login. */
  function ProtectedRoute(userPresent: bool, page: Page): Outcome
  {
    if userPresent then Render(page) else Redirect("/login")
  }

  /** The `<Routes>` table, matched on the exact path. */
  function Route(path: string, userPresent: bool): Outcome
  {
    match path
    case "/login" => Render(Login)
    case "/register" => Render(Register)
    case "/forgot-password" => Render(ForgotPassword)
    case "/" => ProtectedRoute(userPresent, Dashboard)
    case "/threats" => ProtectedRoute(userPresent, Threats)
    case "/settings" => ProtectedRoute(userPresent, Settings)
    case _ => Redirect("/")
  }

  /** The whole screen: whether the sidebar is drawn, and what the content area shows. */
  datatype Screen = Screen(sidebar: bool, content: Outcome)

  function AppScreen(path: string, userPresent: bool): Screen
  {
    Screen(userPresent, Route(path, userPresent))
  }

  predicate IsPublicPath(path: string)
  {
    path == "/login" || path == "/register" || path == "/forgot-password"
  }

  predicate IsProtectedPath(path: string)
  {
    path == "/" || path == "/threats" || path == "/settings"
  }

  /** The page a known path names. */
  function PageAt(path: string): Page
    requires IsPublicPath(path) || IsProtectedPath(path)
  {
    match path
    case "/login" => Login
    case "/register" => Register
    case "/forgot-password" => ForgotPassword
    case "/" => Dashboard
    case "/threats" => Threats
    case "/settings" => Settings
  }

  /** The sidebar is drawn exactly when a user is present. */
  lemma SidebarIffUser(path: string, userPresent: bool)
    ensures AppScreen(path, userPresent).sidebar <==> userPresent
  {
  }

  /** The login, register and forgot-password pages render with or without a user. */
  lemma PublicPathsRender(path: string, userPresent: bool)
    requires IsPublicPath(path)
    ensures Route(path, userPresent) == Render(PageAt(path))
  {
  }

  /** The dashboard, threats and settings pages render iff a user is present, else go to login. */
  lemma ProtectedPathsGuarded(path: string, userPresent: bool)
    requires IsProtectedPath(path)
    ensures Route(path, userPresent).Render? <==> userPresent
    ensures userPresent ==> Route(path, userPresent) == Render(PageAt(path))
    ensures !userPresent ==> Route(path, userPresent) == Redirect("/login")
  {
  }

  /** Every other path redirects to "/". */
  lemma UnknownPathsFallBack(path: string, userPresent: bool)
    requires !IsPublicPath(path) && !IsProtectedPath(path)
    ensures Route(path, userPresent) == Redirect("/")
  {
  }

  /** "/dashboard", where the login page navigates after signing in, is not a route. */
  lemma DashboardAliasRedirects(userPresent: bool)
    ensures Route("/dashboard", userPresent) == Redirect("/")
    ensures Follow("/dashboard", userPresent, 2) == Render(if userPresent then Dashboard else Login)
  {
  }

  /** Follows redirects for at most `hops` steps. */
  function Follow(path: string, userPresent: bool, hops: nat): Outcome
    decreases hops
  {
    match Route(path, userPresent)
    case Render(p) => Render(p)
    case Redirect(to) => if hops == 0 then Redirect(to) else Follow(to, userPresent, hops - 1)
  }

  /**
   * Redirects never loop: from any path at most two redirects reach a page, which is the
   * path's own page when it may be shown, else login without a user and the dashboard
   * with one.
   */
  lemma RedirectsSettle(path: string, userPresent: bool)
    ensures Follow(path, userPresent, 2).Render?
    ensures var page := Follow(path, userPresent, 2).page;
      && (IsPublicPath(path) ==> page == PageAt(path))
      && (IsProtectedPath(path) && userPresent ==> page == PageAt(path))
      && (!IsPublicPath(path) && !userPresent ==> page == Login)
      && (!IsPublicPath(path) && !IsProtectedPath(path) && userPresent ==> page == Dashboard)
  {
    assert Route("/login", userPresent) == Render(Login);
    assert Route("/", userPresent) == ProtectedRoute(userPresent, Dashboard);
  }
}
