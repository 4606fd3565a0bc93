/** How the answers of server/routes/auth.js and the client's guards fit
    together, in a deployment where the client's signup and login reach that
    router and its ticket reads reach server/routes/tickets.js. server/app.js
    mounts neither of them, and the client posts to `/auth/login` and
    `/auth/register`. In that deployment the user object the client keeps is
    the `user` of the answer (client/src/redux/actions/authActions.js stores
    `res.data.user`), and the token it keeps is the answer's `token`. */
module Wiring {
  import opened Common
  import opened Users
  import Middleware
  import AuthRoutes
  import AuthReducer
  import TicketRoutes
  import TicketActions
  import PrivateRoute
  import WithAuth

  /** The user the client keeps from an answer's `user`: it has `id` and no
      `_id`. */
  function ClientUser(reply: AuthRoutes.UserReply): AuthReducer.AuthUser
  {
    AuthReducer.AuthUser(Some(reply.id), None, reply.username, reply.email, reply.role)
  }

  /** The client state after the login answer is stored. */
  function AfterLogin(s: AuthReducer.State, session: AuthRoutes.Session): AuthReducer.State
  {
    AuthReducer.Reduce(s, AuthReducer.LoginSuccess(session.token, Some(ClientUser(session.user))))
  }

  /** After a successful login the client's admin guards open exactly for the
      users the server's `isAdmin` gate admits. */
  lemma AdminGuardsAgree(s: AuthReducer.State, users: seq<User>, email: string, password: string,
                         matches: (string, string) -> bool, sign: Middleware.Claims -> string)
    requires AuthRoutes.Login(users, email, password, matches, sign).Ok?
    ensures var u := FindByEmail(users, email).value;
            var s' := AfterLogin(s, AuthRoutes.Login(users, email, password, matches, sign).value);
            && (PrivateRoute.Decide(s'.isAuthenticated, true, s'.user) == PrivateRoute.Children
                <==> Middleware.IsAdmin(u).Admit?)
            && (WithAuth.Decide(Some(["admin"]), s'.isAuthenticated, s'.user, s'.loading) == WithAuth.Wrapped
                <==> Middleware.IsAdmin(u).Admit?)
  {
    var u := FindByEmail(users, email).value;
    var s' := AfterLogin(s, AuthRoutes.Login(users, email, password, matches, sign).value);
    assert s'.user == Some(ClientUser(AuthRoutes.UserReply(u.id, u.username, email, Some(u.role))));
  }

  /** A signup answer for a request without a role carries no role, although
      the server stored the role "user". The two router files of the client
      then disagree: the `withAuth` guards of client/src/App.jsx (role lists
      ["user", "admin"] and ["admin"]) send the new user away from both
      dashboards, while the `PrivateRoute` guards of client/src/App.js let
      the user onto /dashboard and send them from /admin to /dashboard. */
  lemma RolelessSignupGuards(s: AuthReducer.State, session: AuthRoutes.Session)
    requires session.user.role.None?
    ensures AuthRoutes.StoredRole(session.user.role) == "user"
    ensures var s' := AuthReducer.Reduce(s, AuthReducer.SignupSuccess(session.token, Some(ClientUser(session.user))));
            && WithAuth.Decide(Some(["user", "admin"]), s'.isAuthenticated, s'.user, s'.loading)
               == WithAuth.Redirect("/dashboard")
            && WithAuth.Decide(Some(["admin"]), s'.isAuthenticated, s'.user, s'.loading)
               == WithAuth.Redirect("/dashboard")
            && PrivateRoute.Decide(s'.isAuthenticated, false, s'.user) == PrivateRoute.Children
            && PrivateRoute.Decide(s'.isAuthenticated, true, s'.user) == PrivateRoute.Redirect("/dashboard")
  {
  }

  /** For a logged-in user the client's per-ticket check is stricter than the
      server's: what the client allows the server allows, and an owner who is
      not an admin is allowed by the server but refused by the client. */
  lemma ClientPermissionStricter(s: AuthReducer.State, users: seq<User>, email: string, password: string,
                                 matches: (string, string) -> bool, sign: Middleware.Claims -> string,
                                 t: TicketRoutes.Ticket)
    requires AuthRoutes.Login(users, email, password, matches, sign).Ok?
    ensures var u := FindByEmail(users, email).value;
            var s' := AfterLogin(s, AuthRoutes.Login(users, email, password, matches, sign).value);
            && (TicketActions.CheckPermission(s'.user, t.createdBy) ==> TicketRoutes.CanAccess(u, t))
            && (TicketActions.CheckPermission(s'.user, t.createdBy) <==> u.role == AdminRole)
  {
    var u := FindByEmail(users, email).value;
    var s' := AfterLogin(s, AuthRoutes.Login(users, email, password, matches, sign).value);
    assert s'.user == Some(ClientUser(AuthRoutes.UserReply(u.id, u.username, email, Some(u.role))));
    TicketActions.PermissionWithoutObjectId(s'.user.value, t.createdBy);
  }

  /** The token a successful login hands out is never accepted by `auth`,
      whatever the user table holds, when verifying a signed token gives
      back its claims. */
  lemma LoginTokenNeverAdmitted(users: seq<User>, email: string, password: string,
                                matches: (string, string) -> bool, sign: Middleware.Claims -> string,
                                verify: string -> Option<Middleware.Claims>, current: seq<User>)
    requires forall c :: verify(sign(c)) == Some(c)
    requires AuthRoutes.Login(users, email, password, matches, sign).Ok?
    ensures Middleware.Auth(Some(AuthRoutes.Login(users, email, password, matches, sign).value.token),
                            verify, current) == Middleware.Deny(401, Middleware.TokenNotValid)
  {
    var u := FindByEmail(users, email).value;
    var token := sign(Middleware.Issued(u.id));
    assert AuthRoutes.Login(users, email, password, matches, sign).value.token == token;
    if token != "" {
      Middleware.IssuedTokenRejected(token, verify, current, u.id);
    }
  }
}
