/** The route guard (src/components/common/ProtectedRoute.js): which page an authenticated or
    anonymous caller reaches. `requiredRole` and `userRole` may be absent; `redirectPath` takes its
    default only when the prop is not passed at all. */
module RouteGuard {
  import opened Wrappers

  datatype Outcome = Redirect(path: string) | Allow

  const LoginPath := "/login"
  const DashboardPath := "/dashboard"

  /** `requiredRole && …`: an absent or empty required role imposes nothing. */
  predicate RoleRequired(requiredRole: Option<string>)
  {
    requiredRole.Some? && requiredRole.value != ""
  }

  /** The page an anonymous caller is sent to. */
  function RedirectTarget(redirectPath: Option<string>): string
  {
    GetOr(redirectPath, LoginPath)
  }

  function Guard(isAuthenticated: bool, requiredRole: Option<string>, userRole: Option<string>,
                 redirectPath: Option<string>): (r: Outcome)
    ensures r.Allow? <==> isAuthenticated && (!RoleRequired(requiredRole) || userRole == requiredRole)
    ensures !isAuthenticated ==> r == Redirect(RedirectTarget(redirectPath))
    ensures isAuthenticated && r.Redirect? ==> r.path == DashboardPath
  {
    if !isAuthenticated then Redirect(RedirectTarget(redirectPath))
    else if RoleRequired(requiredRole) && requiredRole != userRole then Redirect(DashboardPath)
    else Allow
  }

  /** An anonymous caller is redirected to the same page whatever role is asked for or held. */
  lemma AnonymousIgnoresRoles(req1: Option<string>, role1: Option<string>, req2: Option<string>,
                              role2: Option<string>, redirectPath: Option<string>)
    ensures Guard(false, req1, role1, redirectPath) == Guard(false, req2, role2, redirectPath)
    ensures redirectPath.None? ==> Guard(false, req1, role1, redirectPath) == Redirect(LoginPath)
  {
  }

  /** Dropping the role requirement never turns an allowed caller away. */
  lemma RequirementOnlyRestricts(isAuthenticated: bool, requiredRole: Option<string>,
                                 userRole: Option<string>, redirectPath: Option<string>)
    requires Guard(isAuthenticated, requiredRole, userRole, redirectPath).Allow?
    ensures Guard(isAuthenticated, None, userRole, redirectPath).Allow?
  {
  }

  /** A caller holding the required role is let through exactly when signed in. */
  lemma MatchingRoleAllowed(isAuthenticated: bool, role: string, redirectPath: Option<string>)
    ensures Guard(isAuthenticated, Some(role), Some(role), redirectPath).Allow? <==> isAuthenticated
  {
  }
}
