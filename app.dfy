/**
 * The route table and its guard (frontend/src/App.jsx).
 */
module App {
  import opened Wrappers
  import opened Text
  import AuthContext

  datatype Page = Landing | AuthScreen | Dashboard | Chat | Breathe | Journal
                | Insights | Profile | Settings | Resources | Emergency

  /** What a route renders: nothing, a redirect, the page, or no match at all. */
  datatype Outcome = Nothing | Redirect(to: string) | Show(page: Page) | NoMatch

  /** `ProtectedRoute`. */
  function ProtectedRoute(loading: bool, user: Option<AuthContext.User>, child: Page): (r: Outcome)
    ensures r.Nothing? <==> loading
    ensures r.Redirect? <==> !loading && user.None?
    ensures r.Redirect? ==> r.to == "/auth"
    ensures r.Show? ==> r.page == child
  {
    if loading then Nothing
    else if user.None? then Redirect("/auth")
    else Show(child)
  }

  datatype Route = Route(path: string, page: Page, guarded: bool)

  /** The `<Routes>` table, in order. */
  const Routes: seq<Route> := [
    Route("/", Landing, false),
    Route("/auth", AuthScreen, false),
    Route("/dashboard", Dashboard, true),
    Route("/chat", Chat, true),
    Route("/breathe", Breathe, true),
    Route("/journal", Journal, true),
    Route("/insights", Insights, true),
    Route("/profile", Profile, true),
    Route("/settings", Settings, true),
    Route("/resources", Resources, true),
    Route("/emergency", Emergency, false)
  ]

  /** The path without its trailing slashes. */
  function DropTrailingSlashes(p: string): (r: string)
    ensures |r| <= |p| && r == p[..|r|]
    ensures r == [] || r[|r| - 1] != '/'
    ensures forall k :: |r| <= k < |p| ==> p[k] == '/'
  {
    if p != [] && p[|p| - 1] == '/' then DropTrailingSlashes(p[..|p| - 1]) else p
  }

  /**
   * What the router compares with a route's path: trailing slashes are
   * optional and letter case is ignored (`caseSensitive` is off by default).
   * The route paths are ASCII, and a case-insensitive match without the
   * `u` flag never pairs a non-ASCII character with an ASCII one, so ASCII
   * lower-casing decides the match. The root keeps its "/".
   */
  function RouteKey(path: string): (key: string)
    ensures key != []
    ensures forall k :: 0 <= k < |key| ==> !IsUpper(key[k])
    ensures key == "/" || key == ToLower(DropTrailingSlashes(path))
    ensures DropTrailingSlashes(path) == [] ==> key == "/"
  {
    var s := DropTrailingSlashes(path);
    if s == [] then "/" else ToLower(s)
  }

  /** The first route whose path is `key`. */
  function Lookup(routes: seq<Route>, key: string): (r: Option<Route>)
    ensures r.Some? ==> r.value in routes && r.value.path == key
    ensures r.None? ==> forall k :: 0 <= k < |routes| ==> routes[k].path != key
  {
    if routes == [] then None
    else if routes[0].path == key then Some(routes[0])
    else Lookup(routes[1..], key)
  }

  /** The element rendered at location `path`. */
  function Render(path: string, loading: bool, user: Option<AuthContext.User>): (o: Outcome)
    ensures o.NoMatch? <==> Lookup(Routes, RouteKey(path)).None?
    ensures o.Show? && RouteKey(path) !in PublicPaths ==> user.Some?
  {
    match Lookup(Routes, RouteKey(path))
    case None => NoMatch
    case Some(route) =>
      PublicRoutes();
      if route.guarded then ProtectedRoute(loading, user, route.page) else Show(route.page)
  }

  /** A path found at position `k` and nowhere before it is looked up to that route. */
  lemma {:induction false} LookupFirst(routes: seq<Route>, k: nat)
    requires k < |routes|
    requires forall j :: 0 <= j < k ==> routes[j].path != routes[k].path
    ensures Lookup(routes, routes[k].path) == Some(routes[k])
  {
    if k > 0 {
      assert routes[1..][k - 1] == routes[k];
      LookupFirst(routes[1..], k - 1);
    }
  }

  /** No two routes share a path. */
  lemma DistinctPaths()
    ensures forall j, k :: 0 <= j < k < |Routes| ==> Routes[j].path != Routes[k].path
  {
  }

  const PublicPaths: set<string> := {"/", "/auth", "/emergency"}

  /** Exactly three routes are unguarded. */
  lemma PublicRoutes()
    ensures forall k :: 0 <= k < |Routes| ==> (!Routes[k].guarded <==> Routes[k].path in PublicPaths)
  {
  }

  /** `/resources` sits under the "Public Routes" comment but is guarded. */
  lemma ResourcesIsGuarded()
    ensures Render("/resources", false, None) == Redirect("/auth")
  {
    assert "/resources" == Routes[9].path;
    LowerPathIsItsKey(Routes[9].path);
    DistinctPaths();
    LookupFirst(Routes, 9);
  }

  /** Signed out, a page shows only at a location that the router reads as a public path. */
  lemma SignedOutSeesOnlyPublicPages(path: string, loading: bool)
    ensures Render(path, loading, None).Show? ==> RouteKey(path) in PublicPaths
  {
  }

  /** Every location the router reads as a public path shows its page, signed in or not. */
  lemma PublicPagesAlwaysShow(path: string, loading: bool, user: Option<AuthContext.User>)
    requires RouteKey(path) in PublicPaths
    ensures Render(path, loading, user).Show?
  {
    var key := RouteKey(path);
    var k := if key == "/" then 0 else if key == "/auth" then 1 else 10;
    assert Routes[k].path == key && !Routes[k].guarded;
    UnguardedShows(k, path, loading, user);
  }

  /** A location read as the path of route `k`, when that route is unguarded, shows its page. */
  lemma UnguardedShows(k: nat, path: string, loading: bool, user: Option<AuthContext.User>)
    requires k < |Routes| && !Routes[k].guarded && RouteKey(path) == Routes[k].path
    ensures Render(path, loading, user) == Show(Routes[k].page)
  {
    DistinctPaths();
    LookupFirst(Routes, k);
  }

  /** Signed in and not loading, every location the router matches shows its page. */
  lemma SignedInSeesEveryPage(path: string, user: AuthContext.User)
    requires Lookup(Routes, RouteKey(path)).Some?
    ensures Render(path, false, Some(user)) == Show(Lookup(Routes, RouteKey(path)).value.page)
  {
  }

  /** A trailing slash still reaches the page: "/dashboard/" shows the dashboard. */
  lemma TrailingSlashIgnored(user: AuthContext.User)
    ensures Render("/dashboard/", false, Some(user)) == Show(Dashboard)
  {
    var p := "/dashboard/";
    assert p[..|p| - 1] == Routes[2].path;
    assert DropTrailingSlashes(p) == Routes[2].path;
    LowerPathIsItsKey(Routes[2].path);
    DistinctPaths();
    LookupFirst(Routes, 2);
  }

  /** Capital letters still reach the page: "/AUTH" shows the sign-in screen. */
  lemma CaseIgnored()
    ensures Render("/AUTH", false, None) == Show(AuthScreen)
  {
    var p := "/AUTH";
    assert DropTrailingSlashes(p) == p;
    assert ToLower(p) == Routes[1].path by {
      assert LowerChar('A') == 'a' && LowerChar('U') == 'u' && LowerChar('T') == 't' && LowerChar('H') == 'h';
    }
    UnguardedShows(1, p, false, None);
  }

  /** A lower-case path without a trailing slash is its own key. */
  lemma LowerPathIsItsKey(p: string)
    requires p != [] && p[|p| - 1] != '/' && forall k :: 0 <= k < |p| ==> !IsUpper(p[k])
    ensures RouteKey(p) == p
  {
  }
}
