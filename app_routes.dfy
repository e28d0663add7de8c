/**
 * The route table of frontend/src/App.jsx and its `ProtectedRoute`
 * wrapper, which shows a loading screen, redirects to `/login`, or renders
 * the page, depending on the session's loading flag and user.
 */
module AppRoutes {
  import opened Wrappers

  datatype Page = LoginPage | SignupPage | DashboardPage | ProfilePage

  /** What a route's element renders. */
  datatype Screen = LoadingScreen | Redirect(to: string) | Show(page: Page)

  /** A route's element: a page as it is, a page wrapped in `ProtectedRoute`, or a redirect. */
  datatype Element = Public(page: Page) | Protected(page: Page) | Navigate(to: string)

  /** `ProtectedRoute`: loading wins over everything; then a missing user is sent to `/login`. */
  function ProtectedRoute<U>(loading: bool, user: Option<U>, page: Page): (s: Screen)
    ensures s == LoadingScreen <==> loading
    ensures s == Redirect("/login") <==> !loading && user.None?
    ensures s.Show? <==> !loading && user.Some?
    ensures s.Show? ==> s.page == page
  {
    if loading then LoadingScreen
    else if user.None? then Redirect("/login")
    else Show(page)
  }

  /** ASCII case folding, the only folding a case-insensitive match of these all-ASCII patterns can use. */
  function LowerAscii(c: char): (d: char)
    ensures d == '/' <==> c == '/'
    ensures !('A' <= d <= 'Z')
    ensures !('A' <= c <= 'Z') ==> d == c
  {
    if 'A' <= c <= 'Z' then (c as int - 'A' as int + 'a' as int) as char else c
  }

  function Lower(s: string): (r: string)
    ensures |r| == |s| && forall i :: 0 <= i < |s| ==> r[i] == LowerAscii(s[i])
  {
    seq(|s|, i requires 0 <= i < |s| => LowerAscii(s[i]))
  }

  /** Drops trailing slashes, keeping the first character. */
  function StripTrailingSlashes(s: string): (r: string)
    ensures r <= s
    ensures |s| >= 1 ==> |r| >= 1
    ensures |r| <= 1 || r[|r| - 1] != '/'
    ensures forall i :: |r| <= i < |s| ==> s[i] == '/'
    decreases |s|
  {
    if |s| > 1 && s[|s| - 1] == '/' then StripTrailingSlashes(s[..|s| - 1]) else s
  }

  /** The form in which a path is looked up in the route table: case folded, trailing slashes dropped. */
  function Normalize(path: string): string {
    StripTrailingSlashes(Lower(path))
  }

  /**
   * How the router matches a route path against the location: the path's
   * characters agree with the pattern's up to case, and whatever follows
   * is slashes only: the pattern, then any number of `/`, matched without regard to case.
   */
  predicate MatchesPattern(path: string, pattern: string) {
    && |path| >= |pattern|
    && (forall i :: 0 <= i < |pattern| ==> LowerAscii(path[i]) == pattern[i])
    && (forall i :: |pattern| <= i < |path| ==> path[i] == '/')
  }

  /** A route path as written in the table: absolute, lower case, with no trailing slash unless it is `/`. */
  predicate IsRoutePattern(pattern: string) {
    && |pattern| >= 1 && pattern[0] == '/'
    && (|pattern| == 1 || pattern[|pattern| - 1] != '/')
    && forall i :: 0 <= i < |pattern| ==> !('A' <= pattern[i] <= 'Z')
  }

  /** Looking a path up by its normal form is the router's own matching. */
  lemma NormalizeMatches(path: string, pattern: string)
    requires IsRoutePattern(pattern)
    ensures Normalize(path) == pattern <==> MatchesPattern(path, pattern)
  {
  }

  /** The `<Routes>` table; a path it does not list matches no route. */
  function RouteElement(path: string): (e: Option<Element>)
    ensures e.Some? <==> Normalize(path) in {"/login", "/signup", "/dashboard", "/profile", "/"}
  {
    var p := Normalize(path);
    if p == "/login" then Some(Public(LoginPage))
    else if p == "/signup" then Some(Public(SignupPage))
    else if p == "/dashboard" then Some(Protected(DashboardPage))
    else if p == "/profile" then Some(Protected(ProfilePage))
    else if p == "/" then Some(Navigate("/dashboard"))
    else None
  }

  /** Normalizing twice changes nothing more. */
  lemma NormalizeIdempotent(path: string)
    ensures Normalize(Normalize(path)) == Normalize(path)
  {
  }

  /** The table treats a path, its case variants and its slash-terminated forms alike. */
  lemma RouteOfNormalForm(path: string)
    ensures RouteElement(Normalize(path)) == RouteElement(path)
  {
  }

  /** What the application shows at a path, for a given session. */
  function Render<U>(path: string, loading: bool, user: Option<U>): (s: Option<Screen>)
    ensures s.None? <==> RouteElement(path).None?
  {
    match RouteElement(path)
    case None => None
    case Some(Public(p)) => Some(Show(p))
    case Some(Protected(p)) => Some(ProtectedRoute(loading, user, p))
    case Some(Navigate(to)) => Some(Redirect(to))
  }

  /** The dashboard and the profile are only ever shown to a signed-in user, once loading is over. */
  lemma ProtectedPagesNeedUser<U>(path: string, loading: bool, user: Option<U>, p: Page)
    requires Render(path, loading, user) == Some(Show(p))
    requires p == DashboardPage || p == ProfilePage
    ensures user.Some? && !loading
  {
  }

  /**
   * Exactly the paths the router matches to `/dashboard` and `/profile` are
   * wrapped in `ProtectedRoute`; those it matches to `/login` and `/signup` are not.
   */
  lemma ProtectedRoutes(path: string)
    ensures (RouteElement(path).Some? && RouteElement(path).value.Protected?) <==>
              MatchesPattern(path, "/dashboard") || MatchesPattern(path, "/profile")
    ensures MatchesPattern(path, "/login") ==> RouteElement(path) == Some(Public(LoginPage))
    ensures MatchesPattern(path, "/signup") ==> RouteElement(path) == Some(Public(SignupPage))
  {
    NormalizeMatches(path, "/dashboard");
    NormalizeMatches(path, "/profile");
    NormalizeMatches(path, "/login");
    NormalizeMatches(path, "/signup");
  }

  /** The sign-in pages render whatever the session. */
  lemma PublicPagesAlwaysRender<U>(loading: bool, user: Option<U>)
    ensures Render("/login", loading, user) == Some(Show(LoginPage))
    ensures Render("/signup", loading, user) == Some(Show(SignupPage))
  {
  }

  /** `/` redirects to `/dashboard`; a settled session without a user lands on the login page after one more redirect. */
  lemma RootLeadsToDashboardOrLogin<U>(user: Option<U>)
    ensures Render("/", false, user) == Some(Redirect("/dashboard"))
    ensures user.Some? ==> Render("/dashboard", false, user) == Some(Show(DashboardPage))
    ensures user.None? ==> Render("/dashboard", false, user) == Some(Redirect("/login"))
                           && Render("/login", false, user) == Some(Show(LoginPage))
  {
  }
}
