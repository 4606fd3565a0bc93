/** client/src/redux/reducers/authReducer.js: the client's session state.
    The browser storage the initial state is read from is a parameter. */
module AuthReducer {
  import opened Common

  /** The user object the client keeps. The server's signup and login answers
      name the id `id`; `objectId` is the `_id` property, which those answers
      do not carry. `role` may be absent (signup echoes the request's role). */
  datatype AuthUser = AuthUser(id: Option<Id>, objectId: Option<Id>, username: string, email: string,
                               role: Option<string>)

  datatype State = State(token: Option<string>, isAuthenticated: bool, user: Option<AuthUser>,
                         loading: bool, error: Option<string>)

  datatype Action =
    | LoginSuccess(token: string, user: Option<AuthUser>)
    | SignupSuccess(token: string, user: Option<AuthUser>)
    | LoginFail(error: string)
    | SignupFail(error: string)
    | Logout
    | Unrelated

  /** The state at load time from the stored token and stored user:
      authenticated exactly when the stored token is a non-empty string. */
  function InitialState(storedToken: Option<string>, storedUser: Option<AuthUser>): (s: State)
    ensures s.isAuthenticated <==> Truthy(storedToken)
    ensures s.token == storedToken && s.user == storedUser && !s.loading && s.error.None?
  {
    State(storedToken, Truthy(storedToken), storedUser, false, None)
  }

  /** The reducer. Every handled action leaves `loading` false and the
      session authenticated exactly when it holds a token; only the two
      successes authenticate, and they keep the payload's user, which may be
      absent; only the two failures record an error; any other action leaves
      the state as it is. */
  function Reduce(s: State, a: Action): (r: State)
    ensures a.Unrelated? ==> r == s
    ensures !a.Unrelated? ==> !r.loading && (r.isAuthenticated <==> r.token.Some?)
    ensures !a.Unrelated? ==> (r.isAuthenticated <==> a.LoginSuccess? || a.SignupSuccess?)
    ensures a.LoginSuccess? || a.SignupSuccess? ==> r.token == Some(a.token) && r.user == a.user
    ensures !a.Unrelated? && !r.isAuthenticated ==> r.user.None?
    ensures !a.Unrelated? ==> (r.error.Some? <==> a.LoginFail? || a.SignupFail?)
  {
    match a
    case LoginSuccess(token, user) =>
      s.(token := Some(token), user := user, isAuthenticated := true, loading := false, error := None)
    case SignupSuccess(token, user) =>
      s.(token := Some(token), user := user, isAuthenticated := true, loading := false, error := None)
    case LoginFail(e) =>
      s.(token := None, user := None, isAuthenticated := false, loading := false, error := Some(e))
    case SignupFail(e) =>
      s.(token := None, user := None, isAuthenticated := false, loading := false, error := Some(e))
    case Logout =>
      s.(token := None, user := None, isAuthenticated := false, loading := false, error := None)
    case Unrelated => s
  }

  /** A success stores the payload's token and user and marks the session
      authenticated; a failure clears both and records the error; logout
      clears both and the error. */
  lemma Transitions(s: State, token: string, user: Option<AuthUser>, e: string)
    ensures Reduce(s, LoginSuccess(token, user)) == State(Some(token), true, user, false, None)
    ensures Reduce(s, SignupSuccess(token, user)) == Reduce(s, LoginSuccess(token, user))
    ensures Reduce(s, LoginFail(e)) == State(None, false, None, false, Some(e))
    ensures Reduce(s, SignupFail(e)) == Reduce(s, LoginFail(e))
    ensures Reduce(s, Logout) == State(None, false, None, false, None)
    ensures Reduce(s, Unrelated) == s
  {
  }
}
