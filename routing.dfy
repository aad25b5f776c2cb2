/** The application's routes: the `ProtectedRoute` gate and the table of paths
    with the roles each one requires. */
module Routing {
  import opened Models
  import Text
  import Auth
  import Dashboard

  /** The pages the route table can show. */
  datatype Page = Home | DashboardHome | TenantsPage | CompaniesPage | CouponsPage

  /** What a route yields: the loading placeholder, a redirect, or a page. */
  datatype Outcome = ShowLoading | Navigate(to: string) | Render(page: Page)

  /** The role check of `ProtectedRoute`: a role list is given, the user has a
      non-null role, and that role is not in the list. */
  predicate RoleRefused(user: UserData, requiredRole: Option<seq<Role>>)
  {
    requiredRole.Some? && user.role.Some? && user.role.value !in requiredRole.value
  }

  /** `ProtectedRoute`: the session's `loading` flag and `currentUser`, the
      route's `requiredRole`, and the page it guards. */
  function ProtectedRoute(loading: bool, user: Option<UserData>, requiredRole: Option<seq<Role>>, child: Page): Outcome
  {
    if loading then ShowLoading
    else if user.None? then Navigate("/")
    else if RoleRefused(user.value, requiredRole) then Navigate("/dashboard")
    else Render(child)
  }

  /** The decision, outcome by outcome. */
  lemma ProtectedRouteDecision(loading: bool, user: Option<UserData>, requiredRole: Option<seq<Role>>, child: Page)
    ensures var r := ProtectedRoute(loading, user, requiredRole, child);
      && (r == ShowLoading <==> loading)
      && (r == Navigate("/") <==> !loading && user.None?)
      && (r == Navigate("/dashboard") <==>
            !loading && user.Some? && requiredRole.Some?
            && user.value.role.Some? && user.value.role.value !in requiredRole.value)
      && (r == Render(child) <==>
            !loading && user.Some?
            && (requiredRole.None? || user.value.role.None? || user.value.role.value in requiredRole.value))
  {
  }

  /** A user whose role is null passes every role check, and a route with no
      role list lets every signed-in user through. */
  lemma NullRoleOrNoListPasses(user: UserData, requiredRole: Option<seq<Role>>, child: Page)
    requires user.role.None? || requiredRole.None?
    ensures ProtectedRoute(false, Some(user), requiredRole, child) == Render(child)
  {
  }

  /** The role list each guarded page's route passes (`None`: guarded
      without a list). */
  function RequiredRoles(page: Page): Option<seq<Role>>
  {
    match page
    case TenantsPage => Some([SuperAdmin])
    case CompaniesPage => Some([SuperAdmin])
    case CouponsPage => Some([SuperAdmin, Owner])
    case _ => None
  }

  /** The path without its trailing slashes: the router's patterns accept
      any number of slashes at the end, so "/dashboard/coupons/" matches the
      "/dashboard/coupons" route, and "/" is the empty path. */
  function StripTrailingSlashes(path: string): (r: string)
    ensures |r| <= |path| && r == path[..|r|]
    ensures r == [] || r[|r| - 1] != '/'
  {
    if path != [] && path[|path| - 1] == '/' then StripTrailingSlashes(path[..|path| - 1]) else path
  }

  /** Only slashes are dropped: every character past the result is one. */
  lemma {:induction false} StripDropsOnlySlashes(path: string)
    ensures forall i :: |StripTrailingSlashes(path)| <= i < |path| ==> path[i] == '/'
    decreases |path|
  {
    if path != [] && path[|path| - 1] == '/' {
      var n := |path| - 1;
      StripDropsOnlySlashes(path[..n]);
      assert forall i :: 0 <= i < n ==> path[..n][i] == path[i];
    }
  }

  /** The router's comparison of a path with a route's pattern: letter case
      does not matter. */
  predicate SameIgnoringCase(a: string, b: string)
  {
    |a| == |b| && forall i :: 0 <= i < |a| ==> Text.LowerChar(a[i]) == Text.LowerChar(b[i])
  }

  /** The guarded page whose route matches `key`, a path without trailing
      slashes, tried in the table's order. */
  function MatchedPage(key: string): Option<Page>
  {
    if SameIgnoringCase(key, "/dashboard") then Some(DashboardHome)
    else if SameIgnoringCase(key, "/dashboard/tenants") then Some(TenantsPage)
    else if SameIgnoringCase(key, "/dashboard/companies") then Some(CompaniesPage)
    else if SameIgnoringCase(key, "/dashboard/coupons") then Some(CouponsPage)
    else None
  }

  /** `AppRoutes`: what a path yields for the session's state. "/" is not
      guarded, and every path not in the table goes to "/". */
  function Route(path: string, loading: bool, user: Option<UserData>): Outcome
  {
    var key := StripTrailingSlashes(path);
    if key == [] then (if user.Some? then Navigate("/dashboard") else Render(Home))
    else if MatchedPage(key).Some? then
      ProtectedRoute(loading, user, RequiredRoles(MatchedPage(key).value), MatchedPage(key).value)
    else Navigate("/")
  }

  /** Lower-casing keeps the slashes where they were, so it commutes with
      dropping trailing slashes. */
  lemma {:induction false} StripTrailingSlashesOfLower(path: string)
    ensures StripTrailingSlashes(Text.ToLower(path)) == Text.ToLower(StripTrailingSlashes(path))
    decreases |path|
  {
    var lower := Text.ToLower(path);
    if path != [] {
      var n := |path| - 1;
      assert lower[n] == Text.LowerChar(path[n]);
      assert Text.ToLower(path[..n]) == lower[..n];
      if path[n] == '/' {
        StripTrailingSlashesOfLower(path[..n]);
      }
    }
  }

  /** Paths that are the same ignoring case match the same patterns. */
  lemma SameIgnoringCaseTransfer(a: string, b: string, pattern: string)
    requires SameIgnoringCase(a, b)
    ensures SameIgnoringCase(a, pattern) == SameIgnoringCase(b, pattern)
  {
  }

  /** Two paths whose slash-free forms are the same ignoring case reach the
      same route. */
  lemma SameKeySameRoute(p: string, q: string, loading: bool, user: Option<UserData>)
    requires SameIgnoringCase(StripTrailingSlashes(p), StripTrailingSlashes(q))
    ensures Route(p, loading, user) == Route(q, loading, user)
  {
    var kp, kq := StripTrailingSlashes(p), StripTrailingSlashes(q);
    SameIgnoringCaseTransfer(kp, kq, "/dashboard");
    SameIgnoringCaseTransfer(kp, kq, "/dashboard/tenants");
    SameIgnoringCaseTransfer(kp, kq, "/dashboard/companies");
    SameIgnoringCaseTransfer(kp, kq, "/dashboard/coupons");
    assert MatchedPage(kp) == MatchedPage(kq);
  }

  /** A trailing slash does not change the route a path reaches. */
  lemma TrailingSlashIrrelevant(path: string, loading: bool, user: Option<UserData>)
    ensures Route(path + "/", loading, user) == Route(path, loading, user)
  {
    assert (path + "/")[..|path|] == path;
    assert StripTrailingSlashes(path + "/") == StripTrailingSlashes(path);
  }

  /** The letter case of a path does not change the route it reaches. */
  lemma LetterCaseIrrelevant(path: string, loading: bool, user: Option<UserData>)
    ensures Route(Text.ToLower(path), loading, user) == Route(path, loading, user)
  {
    StripTrailingSlashesOfLower(path);
    var key := StripTrailingSlashes(path);
    assert SameIgnoringCase(Text.ToLower(key), key);
    SameKeySameRoute(Text.ToLower(path), path, loading, user);
  }

  /** The signed-in user with a given role. */
  predicate HasRole(user: Option<UserData>, role: Role)
  {
    user.Some? && user.value.role == Some(role)
  }

  /** Nothing behind the gate is shown without a signed-in user or while the
      session is loading: the only page rendered otherwise is the home page. */
  lemma GuardedPagesNeedSession(path: string, loading: bool, user: Option<UserData>)
    ensures Route(path, loading, user).Render? && Route(path, loading, user).page != Home
      ==> user.Some? && !loading
    ensures Route(path, loading, user) == Render(Home) <==> StripTrailingSlashes(path) == [] && user.None?
  {
  }

  /** The paths of the route table select their pages; the two paths of the
      same length differ at their twelfth character. */
  lemma TablePaths()
    ensures MatchedPage("/dashboard") == Some(DashboardHome)
    ensures MatchedPage("/dashboard/tenants") == Some(TenantsPage)
    ensures MatchedPage("/dashboard/companies") == Some(CompaniesPage)
    ensures MatchedPage("/dashboard/coupons") == Some(CouponsPage)
  {
    assert "/dashboard/coupons"[11] == 'c' && "/dashboard/tenants"[11] == 't';
  }

  /** "user" is sent back to "/dashboard" from the tenant, company and coupon
      pages, and reaches the dashboard itself. */
  lemma UserRoleRoutes(loading: bool, user: Option<UserData>)
    requires !loading && HasRole(user, User)
    ensures Route("/dashboard/tenants", loading, user) == Navigate("/dashboard")
    ensures Route("/dashboard/companies", loading, user) == Navigate("/dashboard")
    ensures Route("/dashboard/coupons", loading, user) == Navigate("/dashboard")
    ensures Route("/dashboard", loading, user) == Render(DashboardHome)
  {
    TablePaths();
  }

  /** "owner" reaches the coupon page but not the tenant or company pages. */
  lemma OwnerRoleRoutes(loading: bool, user: Option<UserData>)
    requires !loading && HasRole(user, Owner)
    ensures Route("/dashboard/tenants", loading, user) == Navigate("/dashboard")
    ensures Route("/dashboard/companies", loading, user) == Navigate("/dashboard")
    ensures Route("/dashboard/coupons", loading, user) == Render(CouponsPage)
    ensures Route("/dashboard", loading, user) == Render(DashboardHome)
  {
    TablePaths();
  }

  /** The coupon route also matches its path with a trailing slash. */
  lemma OwnerReachesCouponsWithSlash(loading: bool, user: Option<UserData>)
    requires !loading && HasRole(user, Owner)
    ensures Route("/dashboard/coupons" + "/", loading, user) == Render(CouponsPage)
  {
    OwnerRoleRoutes(loading, user);
    TrailingSlashIrrelevant("/dashboard/coupons", loading, user);
  }

  /** "superadmin" reaches every guarded page. */
  lemma SuperAdminRoutes(path: string, loading: bool, user: Option<UserData>)
    requires !loading && HasRole(user, SuperAdmin)
    requires MatchedPage(StripTrailingSlashes(path)).Some?
    ensures Route(path, loading, user) == Render(MatchedPage(StripTrailingSlashes(path)).value)
  {
  }

  /** "/" sends a signed-in user to "/dashboard"; a path outside the table
      redirects to "/". */
  lemma RootAndUnknownPaths(path: string, loading: bool, user: Option<UserData>)
    ensures user.Some? ==> Route("/", loading, user) == Navigate("/dashboard")
    ensures StripTrailingSlashes(path) != [] && MatchedPage(StripTrailingSlashes(path)).None?
      ==> Route(path, loading, user) == Navigate("/")
  {
    assert StripTrailingSlashes("/") == [];
  }

  /** The owner's and the user's sidebar links after "Dashboard" match no
      route and lead back to "/". */
  lemma UnroutedRoleLinks(loading: bool, user: Option<UserData>)
    ensures forall item :: item in Dashboard.RoleBlock(Owner) + Dashboard.RoleBlock(User) ==>
                             Route(item.href, loading, user) == Navigate("/")
  {
    assert "/dashboard/coupons"[11] == 'c' && "/dashboard/tenants"[11] == 't';
    assert "/dashboard/reports"[11] == 'r' && "/dashboard/profile"[11] == 'p';
  }

  /** The superadmin's user-management and settings links match no route
      and lead back to "/". */
  lemma UnroutedSuperAdminLinks(loading: bool, user: Option<UserData>)
    ensures Route(Dashboard.RoleBlock(SuperAdmin)[2].href, loading, user) == Navigate("/")
    ensures Route(Dashboard.RoleBlock(SuperAdmin)[4].href, loading, user) == Navigate("/")
  {
  }

  /** A user who signed in through a login handler always has a role, so the
      null-role pass does not apply; such a user reaches the tenant and
      company pages exactly when the address contains "admin", and the coupon
      page exactly when it contains "admin" or "owner". */
  lemma LoginEmailDecidesAccess(a: Auth.Account)
    ensures Auth.SessionUser(a).role.Some?
    ensures var user := Some(Auth.SessionUser(a));
      && (Route("/dashboard/tenants", false, user) == Render(TenantsPage)
          <==> a.email.Some? && Text.Includes(a.email.value, "admin"))
      && (Route("/dashboard/companies", false, user) == Render(CompaniesPage)
          <==> a.email.Some? && Text.Includes(a.email.value, "admin"))
      && (Route("/dashboard/coupons", false, user) == Render(CouponsPage)
          <==> a.email.Some? && (Text.Includes(a.email.value, "admin") || Text.Includes(a.email.value, "owner")))
  {
    Auth.RoleClassification(a.email);
    TablePaths();
  }
}
