/**
 * The router of the lending client (vue-app/src/router/index.js): the static
 * route table and the global `beforeEach` guard, which consults the auth
 * store's `isAdmin` and `isAuthenticated` flags.
 */
module Router {
  import opened Wrappers
  import Auth
  import Seqs

  /** The requirement flags a route declares in its `meta`. */
  datatype Meta = Meta(requiresAuth: bool, requiresAdmin: bool)

  /** A route without `meta` requirements. */
  const Public := Meta(false, false)

  /** One record of the route table (the view component is left out). */
  datatype Route = Route(path: string, name: Option<string>, meta: Meta, redirect: Option<string>)

  /** What the guard tells the router: go on, or go to another path instead. */
  datatype Decision = Allow | Redirect(target: string)

  /** The route table, in declaration order. */
  const Routes: seq<Route> := [
    Route("/", Some("landing"), Public, None),
    Route("/equipment", Some("home"), Public, None),
    Route("/dashboard", Some("dashboard"), Meta(true, false), None),
    Route("/meeting-rooms", Some("meeting-rooms"), Public, None),
    Route("/cart", Some("cart"), Public, None),
    Route("/consumables", Some("consumables"), Public, None),
    Route("/login", None, Public, Some("/")),
    Route("/admin/login", None, Public, Some("/")),
    Route("/debug", Some("debug"), Public, None),
    Route("/admin/dashboard", Some("admin-dashboard"), Meta(false, true), None)
  ]

  /** beforeEach: an admin route needs the admin view, an authenticated
      route a signed-in user; a refusal always sends to the landing page. */
  function BeforeEach(to: Meta, isAdmin: bool, isAuthenticated: bool): (d: Decision)
    ensures d == Allow || d == Redirect("/")
    ensures d == Allow <==> (to.requiresAdmin ==> isAdmin) && (to.requiresAuth ==> isAuthenticated)
  {
    if to.requiresAdmin && !isAdmin then
      if !isAuthenticated then Redirect("/")
      else Redirect("/")
    else if to.requiresAuth && !isAuthenticated then Redirect("/")
    else Allow
  }

  /** The guard as run against the auth store. */
  function Guard(to: Meta, store: Auth.AuthStore): Decision
    reads store
  {
    BeforeEach(to, store.IsAdmin(), store.IsAuthenticated())
  }

  /** Position of the first route declared for `path`, or -1. */
  function RouteIndex(routes: seq<Route>, path: string): (r: int)
    ensures -1 <= r < |routes|
    ensures r == -1 <==> forall k :: 0 <= k < |routes| ==> routes[k].path != path
    ensures 0 <= r ==> routes[r].path == path && forall k :: 0 <= k < r ==> routes[k].path != path
  {
    Seqs.FirstIndex(routes, (r: Route) => r.path, path)
  }

  /** The first route of `routes` declared for `path`, if any. */
  function Lookup(routes: seq<Route>, path: string): Option<Route>
  {
    var i := RouteIndex(routes, path);
    if i == -1 then None else Some(routes[i])
  }

  /** The requirements the guard sees when navigating to `path`: those of
      the route it ends on after a redirect, none for an unknown path. Only
      /dashboard asks for authentication and only /admin/dashboard for the
      admin view; the login paths see the landing page's. */
  function MetaFor(path: string): (m: Meta)
    ensures m.requiresAuth <==> path == "/dashboard"
    ensures m.requiresAdmin <==> path == "/admin/dashboard"
  {
    RouteTableFlags();
    LookupDeclared(0);
    LookupDeclared(2);
    LookupDeclared(9);
    match Lookup(Routes, path)
    case None => Public
    case Some(route) =>
      match route.redirect
      case None => route.meta
      case Some(target) =>
        match Lookup(Routes, target)
        case None => Public
        case Some(landing) => landing.meta
  }

  /** The guard's decision for a navigation to `path`: /dashboard needs a
      signed-in user, /admin/dashboard the admin view, and everything else,
      unknown paths included, is allowed. */
  function Navigate(path: string, isAdmin: bool, isAuthenticated: bool): (d: Decision)
    ensures d == Allow || d == Redirect("/")
    ensures d == Allow <==>
      (path == "/dashboard" ==> isAuthenticated) && (path == "/admin/dashboard" ==> isAdmin)
  {
    BeforeEach(MetaFor(path), isAdmin, isAuthenticated)
  }

  // ---------------------------------------------------------------------
  // Properties of the guard
  // ---------------------------------------------------------------------

  /** An admin route refuses every session without the admin view, signed in
      or not, with the same redirect. */
  lemma AdminRouteRefusesNonAdmins(to: Meta, isAuthenticated: bool)
    requires to.requiresAdmin
    ensures BeforeEach(to, false, isAuthenticated) == Redirect("/")
    ensures BeforeEach(to, false, false) == BeforeEach(to, false, true)
  {
  }

  /** An authenticated route refuses an anonymous session. */
  lemma AuthRouteRefusesAnonymous(to: Meta, isAdmin: bool)
    requires to.requiresAuth
    ensures BeforeEach(to, isAdmin, false) == Redirect("/")
  {
  }

  /** A route without requirements is always allowed. */
  lemma PublicRouteAllowed(to: Meta, isAdmin: bool, isAuthenticated: bool)
    requires !to.requiresAuth && !to.requiresAdmin
    ensures BeforeEach(to, isAdmin, isAuthenticated) == Allow
  {
  }

  /** An admin-only route that does not also ask for authentication is
      allowed on the admin view alone. */
  lemma AdminViewOpensAdminRoute(to: Meta, isAuthenticated: bool)
    requires to.requiresAdmin && !to.requiresAuth
    ensures BeforeEach(to, true, isAuthenticated) == Allow
  {
  }

  // ---------------------------------------------------------------------
  // Properties of the route table
  // ---------------------------------------------------------------------

  /** Only /dashboard requires authentication, only /admin/dashboard requires
      the admin view, and only /login and /admin/login redirect, both to /. */
  lemma {:induction false} RouteTableFlags()
    ensures forall k :: 0 <= k < |Routes| ==>
      (Routes[k].meta.requiresAuth <==> Routes[k].path == "/dashboard") &&
      (Routes[k].meta.requiresAdmin <==> Routes[k].path == "/admin/dashboard") &&
      (Routes[k].redirect.Some? <==> Routes[k].path in {"/login", "/admin/login"}) &&
      (Routes[k].redirect.Some? ==> Routes[k].redirect.value == "/")
  {
  }

  /** No two routes share a path. */
  lemma PathsDistinct()
    ensures forall j, k :: 0 <= j < k < |Routes| ==> Routes[j].path != Routes[k].path
  {
  }

  /** Every declared path finds its own route. */
  lemma LookupDeclared(k: nat)
    requires k < |Routes|
    ensures Lookup(Routes, Routes[k].path) == Some(Routes[k])
  {
    PathsDistinct();
  }

  /** A navigation can be refused only on the two dashboards. */
  lemma OnlyDashboardsGuarded(path: string, isAdmin: bool, isAuthenticated: bool)
    ensures Navigate(path, isAdmin, isAuthenticated) != Allow ==>
      path == "/dashboard" || path == "/admin/dashboard"
  {
    RouteTableFlags();
    LookupDeclared(0);
  }

  /** The two login paths land on the landing page, which is public. */
  lemma LoginPathsLandOnRoot(isAdmin: bool, isAuthenticated: bool)
    ensures Lookup(Routes, "/login") == Some(Route("/login", None, Public, Some("/")))
    ensures Lookup(Routes, "/admin/login") == Some(Route("/admin/login", None, Public, Some("/")))
    ensures Navigate("/login", isAdmin, isAuthenticated) == Allow
    ensures Navigate("/admin/login", isAdmin, isAuthenticated) == Allow
  {
    LookupDeclared(0);
    LookupDeclared(6);
    LookupDeclared(7);
  }

  // ---------------------------------------------------------------------
  // The guard against the auth store's navigation
  // ---------------------------------------------------------------------

  /** In a consistent store the admin view reaches every route. */
  lemma AdminViewAllowedEverywhere(store: Auth.AuthStore, to: Meta)
    requires store.Valid() && store.IsAdmin()
    ensures Guard(to, store) == Allow
  {
  }

  /** Where switchRole and logout navigate is a declared, non-redirecting
      route, and the guard lets the new view in: the admin dashboard after
      taking the admin view, the equipment page and the landing page always. */
  lemma NavigationTargetsAllowed(targetRole: string, currentPath: string, isAuthenticated: bool)
    ensures var t := Auth.SwitchTarget(targetRole, currentPath);
      t.Some? ==>
        Lookup(Routes, t.value).Some? && Lookup(Routes, t.value).value.redirect.None? &&
        Navigate(t.value, targetRole == Auth.Admin, isAuthenticated) == Allow
    ensures Lookup(Routes, "/") == Some(Routes[0]) && Routes[0].redirect.None?
    ensures forall isAdmin, isAuth :: Navigate("/", isAdmin, isAuth) == Allow
  {
    LookupDeclared(0);
    LookupDeclared(1);
    LookupDeclared(9);
  }

  /** Why switching to the regular view leaves the admin area: after
      switchRole("USER") isAdmin is false, and staying on the admin
      dashboard would now be refused. */
  lemma RegularViewRefusedOnAdminDashboard(isAuthenticated: bool)
    ensures Navigate("/admin/dashboard", false, isAuthenticated) == Redirect("/")
    ensures Auth.SwitchTarget(Auth.RegularUser, "/admin/dashboard") == Some("/equipment")
  {
    LookupDeclared(9);
  }
}
