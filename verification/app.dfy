/**
 * The route guards of the application shell and the table saying which guard
 * wraps which route. Paths are the route patterns as declared (`/schemes/:id`);
 * matching a concrete URL against a pattern is the router's business and is not
 * modelled.
 */
module App {
  import opened Wrappers
  import opened Auth

  /** A guard either renders its page or redirects elsewhere. */
  datatype RouteOutcome = Render | Redirect(to: string)

  datatype Guard = Unguarded | Protected | OfficerAdmin | AdminOnly

  /** `ProtectedRoute`: any signed-in user, whatever the role string; otherwise to the login page. */
  function ProtectedRoute(user: Option<User>): (r: RouteOutcome)
    ensures r == Render <==> user.Some?
    ensures r != Render ==> r == Redirect("/login")
  {
    if user.Some? then Render else Redirect("/login")
  }

  /** `AdminRoute`: only the Admin role; everyone else, signed in or not, to `/unauthorized`. */
  function AdminRoute(user: Option<User>): (r: RouteOutcome)
    ensures r == Render <==> user.Some? && user.value.role == "Admin"
    ensures r != Render ==> r == Redirect("/unauthorized")
  {
    if HasRole(user, AdminRole) then Render else Redirect("/unauthorized")
  }

  /** `OfficerAdminRoute`: the Admin or Officer role; everyone else to `/unauthorized`. */
  function OfficerAdminRoute(user: Option<User>): (r: RouteOutcome)
    ensures r == Render <==> user.Some? && (user.value.role == "Admin" || user.value.role == "Officer")
    ensures r != Render ==> r == Redirect("/unauthorized")
  {
    if HasRole(user, AdminRole) || HasRole(user, OfficerRole) then Render else Redirect("/unauthorized")
  }

  function Check(g: Guard, user: Option<User>): RouteOutcome {
    match g
    case Unguarded => Render
    case Protected => ProtectedRoute(user)
    case OfficerAdmin => OfficerAdminRoute(user)
    case AdminOnly => AdminRoute(user)
  }

  predicate Admits(g: Guard, user: Option<User>) {
    Check(g, user) == Render
  }

  /**
   * The guards are nested: whoever `AdminRoute` admits, `OfficerAdminRoute`
   * admits, and whoever that admits, `ProtectedRoute` admits. Each inclusion
   * is strict.
   */
  lemma GuardsAreNested(user: Option<User>)
    ensures Admits(AdminOnly, user) ==> Admits(OfficerAdmin, user)
    ensures Admits(OfficerAdmin, user) ==> Admits(Protected, user)
    ensures Admits(Protected, user) ==> Admits(Unguarded, user)
    ensures HasRole(user, OfficerRole) ==> Admits(OfficerAdmin, user) && !Admits(AdminOnly, user)
    ensures HasRole(user, CitizenRole) ==> Admits(Protected, user) && !Admits(OfficerAdmin, user)
  {
  }

  /**
   * A signed-out visitor is sent to `/login` by `ProtectedRoute` but to
   * `/unauthorized`, not `/login`, by the two role guards.
   */
  lemma SignedOutRedirects()
    ensures Check(Protected, None) == Redirect("/login")
    ensures Check(OfficerAdmin, None) == Redirect("/unauthorized")
    ensures Check(AdminOnly, None) == Redirect("/unauthorized")
  {
  }

  /**
   * The first render after a reload, as written. The provider starts with no
   * user and `isLoading` set, and the guards read only `user`. React runs the
   * effect of the `Navigate` child before the provider's restore effect, so a
   * guard redirects before the stored session is adopted: a stored user is sent
   * away from every guarded page, an Admin included, although the session is
   * restored right after.
   */
  lemma ReloadRedirectsStoredUser(u: User)
    ensures Restore(Mount(Some(u))).user == Some(u)
    ensures Check(Protected, Mount(Some(u)).user) == Redirect("/login")
    ensures Check(OfficerAdmin, Mount(Some(u)).user) == Redirect("/unauthorized")
    ensures Check(AdminOnly, Mount(Some(u)).user) == Redirect("/unauthorized")
    ensures u.role == "Admin" ==> Admits(AdminOnly, Restore(Mount(Some(u))).user)
  {
  }

  /** A guard that waits for the restore effect: it decides nothing while `isLoading` holds. */
  function AwaitRestore(g: Guard, s: Session): (r: Option<RouteOutcome>)
    ensures r.None? <==> s.isLoading
    ensures r.Some? ==> r.value == Check(g, s.user)
  {
    if s.isLoading then None else Some(Check(g, s.user))
  }

  /**
   * With the wait, a reload keeps the session: the first render decides
   * nothing, and once the stored user is restored every guard gives the
   * outcome it gave that user before the reload.
   */
  lemma ReloadAdmitsStoredUser(g: Guard, stored: Option<User>)
    ensures AwaitRestore(g, Mount(stored)).None?
    ensures AwaitRestore(g, Restore(Mount(stored))) == Some(Check(g, stored))
    ensures stored.Some? ==> AwaitRestore(Protected, Restore(Mount(stored))) == Some(Render)
  {
  }

  /** The routes of `AppRoutes`, in declaration order, each with the guard around its page. */
  const Routes: seq<(string, Guard)> := [
    ("/", Unguarded),
    ("/home", Unguarded),
    ("/about", Unguarded),
    ("/login", Unguarded),
    ("/register", Unguarded),
    ("/dashboard", Protected),
    ("/schemes", Protected),
    ("/schemes/:id", Protected),
    ("/apply/:schemeId", Protected),
    ("/applications", Protected),
    ("/applications/:id", Protected),
    ("/profile", Protected),
    ("/notifications", Protected),
    ("/settings", Protected),
    ("/review/:id", OfficerAdmin),
    ("/admin/schemes", AdminOnly),
    ("/admin/officers", AdminOnly),
    ("/admin/citizens", AdminOnly),
    ("/admin/analytics", AdminOnly),
    ("/unauthorized", Unguarded),
    ("/server-error", Unguarded)
  ]

  /**
   * The guard of a route pattern, one case per `<Route>` element; `None` for a
   * path no route declares.
   */
  function GuardOf(path: string): Option<Guard> {
    match path
    case "/" => Some(Unguarded)
    case "/home" => Some(Unguarded)
    case "/about" => Some(Unguarded)
    case "/login" => Some(Unguarded)
    case "/register" => Some(Unguarded)
    case "/dashboard" => Some(Protected)
    case "/schemes" => Some(Protected)
    case "/schemes/:id" => Some(Protected)
    case "/apply/:schemeId" => Some(Protected)
    case "/applications" => Some(Protected)
    case "/applications/:id" => Some(Protected)
    case "/profile" => Some(Protected)
    case "/notifications" => Some(Protected)
    case "/settings" => Some(Protected)
    case "/review/:id" => Some(OfficerAdmin)
    case "/admin/schemes" => Some(AdminOnly)
    case "/admin/officers" => Some(AdminOnly)
    case "/admin/citizens" => Some(AdminOnly)
    case "/admin/analytics" => Some(AdminOnly)
    case "/unauthorized" => Some(Unguarded)
    case "/server-error" => Some(Unguarded)
    case _ => None
  }

  /** Every declared route gets its own guard from the case table. */
  lemma DeclaredRoutesGetTheirGuard()
    ensures forall i :: 0 <= i < |Routes| ==> GuardOf(Routes[i].0) == Some(Routes[i].1)
  {
  }

  /** A path has no guard exactly when no route declares it. */
  lemma UndeclaredPathsHaveNoGuard(path: string)
    ensures GuardOf(path).None? <==> forall i :: 0 <= i < |Routes| ==> Routes[i].0 != path
  {
    DeclaredRoutesGetTheirGuard();
    if forall i :: 0 <= i < |Routes| ==> Routes[i].0 != path {
      var paths := ["/", "/home", "/about", "/login", "/register", "/dashboard", "/schemes", "/schemes/:id",
                    "/apply/:schemeId", "/applications", "/applications/:id", "/profile", "/notifications",
                    "/settings", "/review/:id", "/admin/schemes", "/admin/officers", "/admin/citizens",
                    "/admin/analytics", "/unauthorized", "/server-error"];
      assert forall i :: 0 <= i < |Routes| ==> Routes[i].0 == paths[i];
      assert path !in paths;
    }
  }

  /**
   * Visiting a route pattern: its guard decides; a path that no route declares
   * falls to the catch-all `NotFound` page, which has no guard.
   */
  function Visit(path: string, user: Option<User>): RouteOutcome {
    match GuardOf(path)
    case Some(g) => Check(g, user)
    case None => Render
  }

  /** No path is declared twice, so each route has exactly one guard. */
  lemma RoutePathsDistinct()
    ensures forall i, j :: 0 <= i < j < |Routes| ==> Routes[i].0 != Routes[j].0
  {
  }

  /** The guard table: review behind `OfficerAdminRoute`, the four admin pages behind `AdminRoute`. */
  lemma GuardedRoutes()
    ensures GuardOf("/review/:id") == Some(OfficerAdmin)
    ensures GuardOf("/admin/schemes") == Some(AdminOnly)
    ensures GuardOf("/admin/officers") == Some(AdminOnly)
    ensures GuardOf("/admin/citizens") == Some(AdminOnly)
    ensures GuardOf("/admin/analytics") == Some(AdminOnly)
  {
  }

  /** The entry, auth and error pages have no guard. */
  lemma PublicRoutes()
    ensures GuardOf("/") == Some(Unguarded) && GuardOf("/home") == Some(Unguarded)
    ensures GuardOf("/about") == Some(Unguarded) && GuardOf("/login") == Some(Unguarded)
    ensures GuardOf("/register") == Some(Unguarded) && GuardOf("/unauthorized") == Some(Unguarded)
    ensures GuardOf("/server-error") == Some(Unguarded)
  {
  }
}
