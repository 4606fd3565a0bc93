/** server/routes/auth.js: signup, which refuses a taken username or email and
    stores a new user with a defaulted role, and login, which answers one and
    the same 401 for an unknown email and for a wrong password.
    The password hash, the password comparison and token signing are
    parameters: `hash(plain)` is what the user schema stores, `matches(stored,
    candidate)` is the schema's `comparePassword`, and `sign(claims)` is the
    token the library issues for the claims. */
module AuthRoutes {
  import opened Common
  import opened Users
  import opened Middleware

  datatype SignupRequest = SignupRequest(username: string, email: string, password: string, role: Option<string>)

  /** The `user` object of a signup or login answer. On signup `role` is the
      request's own `role` field, which may be absent. */
  datatype UserReply = UserReply(id: Id, username: string, email: string, role: Option<string>)

  /** `{ user, token }`. */
  datatype Session = Session(user: UserReply, token: string)

  const Taken: Body := ErrorJson("Username or email already exists")
  const InvalidCredentials: Body := ErrorJson("Invalid credentials")

  /** `User.findOne({ $or: [{ email }, { username }] })` finds someone. */
  predicate Conflicts(users: seq<User>, email: string, username: string)
  {
    exists u :: u in users && (u.email == email || u.username == username)
  }

  /** `role || "user"`. */
  function StoredRole(role: Option<string>): (r: string)
    ensures Truthy(role) ==> r == role.value
    ensures !Truthy(role) ==> r == "user"
  {
    OrElse(role, "user")
  }

  /** POST /signup. `saveError` is the outcome of `user.save()`: `Some(message)`
      when the schema rejects the document, answered as 400 `{ error: message }`. */
  method Signup(store: UserDirectory, req: SignupRequest, hash: string -> string,
                sign: Claims -> string, saveError: Option<string>) returns (r: Response<Session>)
    requires store.Valid()
    modifies store
    ensures store.Valid()
    ensures Conflicts(old(store.users), req.email, req.username) ==>
              r == Err(400, Taken) && store.users == old(store.users)
    ensures !Conflicts(old(store.users), req.email, req.username) && saveError.Some? ==>
              r == Err(400, ErrorJson(saveError.value)) && store.users == old(store.users)
    ensures !Conflicts(old(store.users), req.email, req.username) && saveError.None? ==>
              var u := User(old(store.nextId), req.username, req.email, hash(req.password), StoredRole(req.role));
              && store.users == old(store.users) + [u]
              && (forall v :: v in old(store.users) ==> v.id != u.id)
              && r == Ok(201, Session(UserReply(u.id, req.username, req.email, req.role), sign(Issued(u.id))))
  {
    if Conflicts(store.users, req.email, req.username) {
      return Err(400, Taken);
    }
    if saveError.Some? {
      return Err(400, ErrorJson(saveError.value));
    }
    var u := User(store.nextId, req.username, req.email, hash(req.password), StoredRole(req.role));
    store.users := store.users + [u];
    store.nextId := store.nextId + 1;
    r := Ok(201, Session(UserReply(u.id, req.username, req.email, req.role), sign(Issued(u.id))));
  }

  /** POST /login, a read-only lookup and comparison. Every refusal is the same
      401, so an answer never tells whether the email is registered. */
  function Login(users: seq<User>, email: string, password: string,
                 matches: (string, string) -> bool, sign: Claims -> string): (r: Response<Session>)
    ensures r.Err? ==> r == Err(401, InvalidCredentials)
    ensures (forall u :: u in users ==> u.email != email) ==> r.Err?
    ensures r.Ok? <==> FindByEmail(users, email).Some? && matches(FindByEmail(users, email).value.password, password)
    ensures r.Ok? ==>
              var u := FindByEmail(users, email).value;
              r == Ok(200, Session(UserReply(u.id, u.username, email, Some(u.role)), sign(Issued(u.id))))
  {
    match FindByEmail(users, email)
    case None => Err(401, InvalidCredentials)
    case Some(u) =>
      if !matches(u.password, password) then Err(401, InvalidCredentials)
      else Ok(200, Session(UserReply(u.id, u.username, email, Some(u.role)), sign(Issued(u.id))))
  }

  /** A login with an unregistered email and a login with a registered email
      but a wrong password get identical answers. */
  lemma UniformCredentialError(users: seq<User>, unknown: string, known: string, p1: string, p2: string,
                               matches: (string, string) -> bool, sign: Claims -> string)
    requires forall u :: u in users ==> u.email != unknown
    requires FindByEmail(users, known).Some? && !matches(FindByEmail(users, known).value.password, p2)
    ensures Login(users, unknown, p1, matches, sign) == Login(users, known, p2, matches, sign)
  {
  }
}
