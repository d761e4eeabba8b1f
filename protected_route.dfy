/**
 * The route guard wrapped around the role-specific subtrees: wait while the
 * session is loading, send strangers to the login page, send users of the
 * other role to their own dashboard, and otherwise render the children.
 */
module ProtectedRoute {
  import opened Wrappers
  import opened AuthContext

  /** A location as its list of path segments: `/seeker/dashboard` is `["seeker", "dashboard"]`. */
  type Path = seq<string>

  const LoginPath: Path := ["login"]

  /** `/${type}/dashboard`. */
  function DashboardPath(t: UserType): (p: Path)
    ensures |p| == 2 && p[1] == "dashboard"
    ensures p[0] == UserTypeName(t)
  {
    [UserTypeName(t), "dashboard"]
  }

  datatype Decision =
    | Pending            // the spinner
    | RedirectTo(to: Path)
    | Allow              // render the children

  /** The guard's decision from the session snapshot and the role the subtree requires (if any). */
  function Guard(loading: bool, isAuthenticated: bool, currentUserType: UserType, required: Option<Role>): (d: Decision)
    ensures d == Pending <==> loading
    ensures d.RedirectTo? ==> d.to == LoginPath || d.to == DashboardPath(currentUserType)
  {
    if loading then Pending
    else if !isAuthenticated then RedirectTo(LoginPath)
    else if required.Some? && currentUserType != required then RedirectTo(DashboardPath(currentUserType))
    else Allow
  }

  /** While the session is loading the guard waits, whatever else holds. */
  lemma PendingWhileLoading(isAuthenticated: bool, t: UserType, required: Option<Role>)
    ensures Guard(true, isAuthenticated, t, required) == Pending
  {
  }

  /** Once loaded, an unauthenticated visitor goes to the login page, for every required role. */
  lemma StrangerGoesToLogin(t: UserType, required: Option<Role>)
    ensures Guard(false, false, t, required) == RedirectTo(["login"])
  {
  }

  /** A signed-in user of another type is sent to their own dashboard, never let in. */
  lemma WrongRoleRedirected(t: UserType, required: Role)
    requires t != Some(required)
    ensures Guard(false, true, t, Some(required)) == RedirectTo([UserTypeName(t), "dashboard"])
  {
  }

  /** The guard lets a visitor in exactly when loaded, signed in and of the required type (if one is required). */
  lemma AllowIff(loading: bool, isAuthenticated: bool, t: UserType, required: Option<Role>)
    ensures Guard(loading, isAuthenticated, t, required) == Allow
        <==> !loading && isAuthenticated && (required.None? || t == required)
  {
  }

  /** A signed-in user whose type is null never enters a role-guarded subtree. */
  lemma NullTypeNeverAllowed(required: Role)
    ensures Guard(false, true, None, Some(required)) == RedirectTo(["null", "dashboard"])
  {
  }

  /** Every redirect goes either to the login page or to some dashboard. */
  lemma RedirectTargets(loading: bool, isAuthenticated: bool, t: UserType, required: Option<Role>)
    ensures var d := Guard(loading, isAuthenticated, t, required);
            d.RedirectTo? ==> d.to == LoginPath || d.to == DashboardPath(t)
  {
  }
}
