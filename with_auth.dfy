/** client/src/components/auth/withAuth.jsx: the guard that wraps a component
    for a list of allowed roles. While the session is loading it shows the
    loading view; then an unauthenticated visitor goes to the login page, and a
    user whose role is not allowed goes to the dashboard. */
module WithAuth {
  import opened Common
  import AuthReducer

  datatype View = Loading | Redirect(to: string) | Wrapped

  /** `allowedRoles.includes(user?.role)`: an absent user or role is never
      in a list of role names. */
  predicate RoleAllowed(allowedRoles: seq<string>, user: Option<AuthReducer.AuthUser>)
  {
    user.Some? && user.value.role.Some? && user.value.role.value in allowedRoles
  }

  /** `allowedRoles` is `None` when the wrapper was made without a list. */
  function Decide(allowedRoles: Option<seq<string>>, isAuthenticated: bool,
                  user: Option<AuthReducer.AuthUser>, loading: bool): (v: View)
    ensures loading ==> v == Loading
    ensures !loading && !isAuthenticated ==> v == Redirect("/login")
    ensures !loading && isAuthenticated && allowedRoles.Some? && !RoleAllowed(allowedRoles.value, user) ==>
              v == Redirect("/dashboard")
    ensures v == Wrapped <==>
              !loading && isAuthenticated && (allowedRoles.None? || RoleAllowed(allowedRoles.value, user))
  {
    if loading then Loading
    else if !isAuthenticated then Redirect("/login")
    else if allowedRoles.Some? && !RoleAllowed(allowedRoles.value, user) then Redirect("/dashboard")
    else Wrapped
  }
}
