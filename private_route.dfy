/** client/src/components/PrivateRoute.jsx: the route guard of the client's
    main router. An unauthenticated visitor goes to the login page; on a route
    marked `isAdmin` a user whose role is not "admin" goes to the dashboard. */
module PrivateRoute {
  import opened Common
  import AuthReducer

  datatype View = Redirect(to: string) | Children

  /** `user?.role === "admin"`. */
  predicate IsAdminUser(user: Option<AuthReducer.AuthUser>)
  {
    user.Some? && user.value.role == Some(AdminRole)
  }

  function Decide(isAuthenticated: bool, adminRoute: bool, user: Option<AuthReducer.AuthUser>): (v: View)
    ensures !isAuthenticated ==> v == Redirect("/login")
    ensures isAuthenticated && adminRoute && !IsAdminUser(user) ==> v == Redirect("/dashboard")
    ensures v == Children <==> isAuthenticated && (!adminRoute || IsAdminUser(user))
  {
    if !isAuthenticated then Redirect("/login")
    else if adminRoute && !IsAdminUser(user) then Redirect("/dashboard")
    else Children
  }
}
