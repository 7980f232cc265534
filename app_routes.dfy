/** The router (src/App.tsx): which page a visit to a path shows, given the
    session's `isAuthenticated` flag and user. Every page except the login
    page sits behind `ProtectedRoute` with a list of admitted roles. */
module AppRoutes {
  import opened Types
  import Login
  import MenuManagement

  datatype RouteEntry = RouteEntry(path: string, allowedRoles: seq<UserRole>)

  /** The protected routes, in declaration order. */
  const ProtectedRoutes: seq<RouteEntry> := [
    RouteEntry("/dashboard", [Admin, Manager]),
    RouteEntry("/waiter", [Waiter, Admin, Manager]),
    RouteEntry("/kds", [Kitchen, Admin, Manager]),
    RouteEntry("/billing", [Cashier, Admin, Manager]),
    RouteEntry("/menu", [Admin, Manager]),
    RouteEntry("/inventory", [Storekeeper, Admin, Manager]),
    RouteEntry("/reports", [Admin, Manager, Cashier]),
    RouteEntry("/settings", [Admin, Manager])
  ]

  datatype GuardResult = RedirectToLogin | RenderPage

  /** `ProtectedRoute`: no session goes to the login page; a user whose role is
      not admitted goes there too; otherwise the page renders. A session without
      a user object is let through, as the source does. */
  function Guard(isAuthenticated: bool, user: Option<User>, allowedRoles: Option<seq<UserRole>>): (g: GuardResult)
    ensures !isAuthenticated ==> g == RedirectToLogin
    ensures isAuthenticated && allowedRoles.Some? && user.Some? ==>
      (g == RenderPage <==> user.value.role in allowedRoles.value)
    ensures isAuthenticated && (allowedRoles.None? || user.None?) ==> g == RenderPage
  {
    if !isAuthenticated then RedirectToLogin
    else if allowedRoles.Some? && user.Some? && user.value.role !in allowedRoles.value then RedirectToLogin
    else RenderPage
  }

  /** The admitted roles of a protected path, looked up in the route table. */
  function AllowedRolesFor(routes: seq<RouteEntry>, path: string): (r: Option<seq<UserRole>>)
    ensures r.None? <==> forall k :: 0 <= k < |routes| ==> routes[k].path != path
    ensures r.Some? ==> exists k :: 0 <= k < |routes| && routes[k].path == path && routes[k].allowedRoles == r.value
  {
    if routes == [] then None
    else if routes[0].path == path then Some(routes[0].allowedRoles)
    else
      var r := AllowedRolesFor(routes[1..], path);
      if r.Some? then
        var k :| 0 <= k < |routes[1..]| && routes[1..][k].path == path && routes[1..][k].allowedRoles == r.value;
        assert routes[k + 1] == routes[1..][k];
        r
      else r
  }

  datatype Screen = LoginScreen | Page(path: string) | NoRoute

  /** The path without its trailing slashes. */
  function TrimSlashes(path: string): (r: string)
    ensures |r| <= |path| && r == path[..|r|]
    ensures r == [] || r[|r| - 1] != '/'
    ensures forall k :: |r| <= k < |path| ==> path[k] == '/'
  {
    if path != [] && path[|path| - 1] == '/' then TrimSlashes(path[..|path| - 1]) else path
  }

  /** The route a browser path is matched against: routes are not case
      sensitive and a trailing slash is optional, so `/Waiter/` is `/waiter`
      and a path of slashes only is `/`. */
  function RoutePath(path: string): (r: string)
    ensures r != [] && (r == "/" || r[|r| - 1] != '/')
  {
    var t := TrimSlashes(path);
    if t == [] then "/"
    else
      var l := MenuManagement.Lower(t);
      assert l[|l| - 1] == MenuManagement.LowerChar(t[|t| - 1]);
      l
  }

  /** What visiting a path shows: the login page unguarded, `/` redirected to
      it, a protected page through the guard, anything else no route. */
  function Visit(path: string, isAuthenticated: bool, user: Option<User>): (s: Screen)
    ensures RoutePath(path) == "/login" ==> s == LoginScreen
    ensures RoutePath(path) == "/" ==> s == LoginScreen
    ensures s.Page? ==> s.path == RoutePath(path) && isAuthenticated
    ensures s == NoRoute <==>
      (RoutePath(path) != "/login" && RoutePath(path) != "/" &&
       forall k :: 0 <= k < |ProtectedRoutes| ==> ProtectedRoutes[k].path != RoutePath(path))
  {
    var p := RoutePath(path);
    if p == "/login" || p == "/" then LoginScreen
    else
      var allowed := AllowedRolesFor(ProtectedRoutes, p);
      if allowed.None? then NoRoute
      else if Guard(isAuthenticated, user, allowed) == RenderPage then Page(p)
      else LoginScreen
  }

  /** A path already in route form is its own route path. */
  lemma RoutePathCanonical(path: string)
    requires path != [] && path[|path| - 1] != '/'
    requires forall k :: 0 <= k < |path| ==> !('A' <= path[k] <= 'Z')
    ensures RoutePath(path) == path
  {
  }

  /** Every path of the table, and the login path, is in route form. */
  lemma TablePathsCanonical()
    ensures forall k :: 0 <= k < |ProtectedRoutes| ==> RoutePath(ProtectedRoutes[k].path) == ProtectedRoutes[k].path
    ensures RoutePath("/login") == "/login"
  {
    forall k | 0 <= k < |ProtectedRoutes| ensures RoutePath(ProtectedRoutes[k].path) == ProtectedRoutes[k].path {
      RoutePathCanonical(ProtectedRoutes[k].path);
    }
    RoutePathCanonical("/login");
  }

  /** Lowering letters and dropping trailing slashes can be done in either order. */
  lemma {:induction false} TrimLower(path: string)
    ensures TrimSlashes(MenuManagement.Lower(path)) == MenuManagement.Lower(TrimSlashes(path))
    decreases |path|
  {
    var l := MenuManagement.Lower(path);
    if path != [] && path[|path| - 1] == '/' {
      assert l[..|l| - 1] == MenuManagement.Lower(path[..|path| - 1]);
      TrimLower(path[..|path| - 1]);
    }
  }

  /** A route path is its own route path. */
  lemma RoutePathIdempotent(path: string)
    ensures RoutePath(RoutePath(path)) == RoutePath(path)
  {
    var t := TrimSlashes(path);
    if t != [] {
      TrimLower(t);
      MenuManagement.LowerIdempotent(t);
    }
  }

  /** A trailing slash makes no difference to a visit. */
  lemma TrailingSlashIgnored(path: string, isAuthenticated: bool, user: Option<User>)
    ensures Visit(path + "/", isAuthenticated, user) == Visit(path, isAuthenticated, user)
  {
    assert (path + "/")[..|path|] == path;
  }

  /** Upper-case letters in the path make no difference to a visit. */
  lemma CaseIgnored(path: string, isAuthenticated: bool, user: Option<User>)
    ensures Visit(MenuManagement.Lower(path), isAuthenticated, user) == Visit(path, isAuthenticated, user)
  {
    TrimLower(path);
    MenuManagement.LowerIdempotent(TrimSlashes(path));
    assert RoutePath(MenuManagement.Lower(path)) == RoutePath(path);
  }

  /** A protected page is shown to a logged-in user exactly when the table admits the user's role. */
  predicate Admits(path: string, role: UserRole)
  {
    exists k :: 0 <= k < |ProtectedRoutes| && ProtectedRoutes[k].path == path && role in ProtectedRoutes[k].allowedRoles
  }

  /** The table has one entry per path. */
  lemma PathsDistinct()
    ensures forall i, j :: 0 <= i < j < |ProtectedRoutes| ==> ProtectedRoutes[i].path != ProtectedRoutes[j].path
  {
  }

  /** An unauthenticated visitor to any protected path, however spelled, ends on the login page. */
  lemma UnauthenticatedRedirected(path: string, user: Option<User>)
    requires exists k :: 0 <= k < |ProtectedRoutes| && ProtectedRoutes[k].path == RoutePath(path)
    ensures Visit(path, false, user) == LoginScreen
  {
  }

  /** A logged-in user sees a protected page iff the table admits the user's role there. */
  lemma GuardFollowsTable(path: string, user: User)
    requires exists k :: 0 <= k < |ProtectedRoutes| && ProtectedRoutes[k].path == RoutePath(path)
    ensures Visit(path, true, Some(user)) == Page(RoutePath(path)) <==> Admits(RoutePath(path), user.role)
    ensures !Admits(RoutePath(path), user.role) ==> Visit(path, true, Some(user)) == LoginScreen
  {
    PathsDistinct();
  }

  /** The guard on the route at position `k` admits a logged-in user exactly
      when that route's own list names the user's role. */
  lemma RouteAt(k: nat, user: User)
    requires k < |ProtectedRoutes|
    ensures Visit(ProtectedRoutes[k].path, true, Some(user)) == Page(ProtectedRoutes[k].path) <==>
      user.role in ProtectedRoutes[k].allowedRoles
  {
    var path := ProtectedRoutes[k].path;
    TablePathsCanonical();
    GuardFollowsTable(path, user);
    if Admits(path, user.role) {
      var j :| 0 <= j < |ProtectedRoutes| && ProtectedRoutes[j].path == path && user.role in ProtectedRoutes[j].allowedRoles;
      PathsDistinct();
      assert j == k;
    }
  }

  /** Admins and managers are admitted on every protected route. */
  lemma AdminAndManagerEverywhere()
    ensures forall k :: 0 <= k < |ProtectedRoutes| ==>
      Admin in ProtectedRoutes[k].allowedRoles && Manager in ProtectedRoutes[k].allowedRoles
  {
  }

  /** Each role's landing page after login is a page the guard lets that role see. */
  lemma LandingPagesAdmitted(user: User)
    ensures Visit(Login.LandingRoute(user.role), true, Some(user)) == Page(Login.LandingRoute(user.role))
  {
    var path := Login.LandingRoute(user.role);
    var k := match user.role
      case Admin => 0
      case Manager => 0
      case Waiter => 1
      case Kitchen => 2
      case Cashier => 3
      case Storekeeper => 5;
    assert ProtectedRoutes[k].path == path && user.role in ProtectedRoutes[k].allowedRoles;
    TablePathsCanonical();
    GuardFollowsTable(path, user);
  }
}
