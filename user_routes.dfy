/** server/routes/api/users.js: the admin-only user management routes and
    GET /me. Each handler receives the caller that `auth` admitted; the routes
    guarded by `isAdmin` apply that gate first. `isEmail` is the validator
    library's email predicate. */
module UserRoutes {
  import opened Common
  import opened Users
  import opened Middleware

  /** A user as `select("-password")` returns it: every field but the password. */
  datatype PublicUser = PublicUser(id: Id, username: string, email: string, role: string)

  function WithoutPassword(u: User): (p: PublicUser)
    ensures p.id == u.id && p.username == u.username && p.email == u.email && p.role == u.role
  {
    PublicUser(u.id, u.username, u.email, u.role)
  }

  /** The body of PUT /:id; any field may be missing. */
  datatype UserUpdate = UserUpdate(username: Option<string>, email: Option<string>, role: Option<string>)

  const UsernameRequired := "Username is required"
  const EmailInvalid := "Please include a valid email"
  const RoleInvalid := "Role must be either 'user' or 'admin'"

  const UserNotFound: Body := MsgJson("User not found")

  /** The validator sees a missing field as the empty string. */
  function Value(s: Option<string>): string
  {
    if s.Some? then s.value else ""
  }

  predicate ValidRole(role: Option<string>)
  {
    Value(role) == "user" || Value(role) == "admin"
  }

  /** The messages of the validators that fail, in the order they are declared. */
  function UpdateErrors(req: UserUpdate, isEmail: string -> bool): (errs: seq<string>)
    ensures errs == [] <==> Truthy(req.username) && isEmail(Value(req.email)) && ValidRole(req.role)
    ensures UsernameRequired in errs <==> !Truthy(req.username)
    ensures EmailInvalid in errs <==> !isEmail(Value(req.email))
    ensures RoleInvalid in errs <==> !ValidRole(req.role)
    ensures |errs| <= 3
    ensures IsSubsequence(errs, [UsernameRequired, EmailInvalid, RoleInvalid])
  {
    PickedInOrder(UsernameRequired, EmailInvalid, RoleInvalid,
                  !Truthy(req.username), !isEmail(Value(req.email)), !ValidRole(req.role));
    (if Truthy(req.username) then [] else [UsernameRequired])
    + (if isEmail(Value(req.email)) then [] else [EmailInvalid])
    + (if ValidRole(req.role) then [] else [RoleInvalid])
  }

  /** GET / (admin only): every user, in store order, without the password. */
  function ListUsers(users: seq<User>, caller: User): (r: Response<seq<PublicUser>>)
    ensures caller.role != AdminRole ==> r == Err(403, AccessDenied)
    ensures caller.role == AdminRole ==>
              r.Ok? && r.status == 200 && |r.value| == |users| &&
              forall i :: 0 <= i < |users| ==> r.value[i] == WithoutPassword(users[i])
  {
    match IsAdmin(caller)
    case Deny(status, body) => Err(status, body)
    case Admit(_) => Ok(200, seq(|users|, i requires 0 <= i < |users| => WithoutPassword(users[i])))
  }

  /** GET /me: the caller's own record without the password; `None` (JSON
      null) when the record is gone. */
  function Me(users: seq<User>, caller: User): (r: Response<Option<PublicUser>>)
    ensures r.Ok? && r.status == 200
    ensures r.value.Some? <==> exists u :: u in users && u.id == caller.id
    ensures r.value.Some? ==>
              r.value.value.id == caller.id && exists u :: u in users && r.value.value == WithoutPassword(u)
  {
    match Find(users, UserId, caller.id)
    case None => Ok(200, None)
    case Some(u) => Ok(200, Some(WithoutPassword(u)))
  }

  /** PUT /:id (admin only): validation first, then the lookup, then the
      update of exactly `username`, `email` and `role` in place. The answer is
      the saved record. */
  method UpdateUser(store: UserDirectory, caller: User, id: Id, req: UserUpdate,
                    isEmail: string -> bool) returns (r: Response<User>)
    requires store.Valid()
    modifies store
    ensures store.Valid() && store.nextId == old(store.nextId)
    ensures caller.role != AdminRole ==> r == Err(403, AccessDenied) && store.users == old(store.users)
    ensures caller.role == AdminRole && UpdateErrors(req, isEmail) != [] ==>
              r == Err(400, ErrorsJson(UpdateErrors(req, isEmail))) && store.users == old(store.users)
    ensures caller.role == AdminRole && UpdateErrors(req, isEmail) == [] &&
            (forall u :: u in old(store.users) ==> u.id != id) ==>
              r == Err(404, UserNotFound) && store.users == old(store.users)
    ensures r.Ok? ==>
              && caller.role == AdminRole && UpdateErrors(req, isEmail) == []
              && r.status == 200
              && |store.users| == |old(store.users)|
              && exists i :: 0 <= i < |old(store.users)| && old(store.users)[i].id == id
                   && r.value == old(store.users)[i].(username := req.username.value, email := Value(req.email),
                                                      role := req.role.value)
                   && store.users == old(store.users)[i := r.value]
    ensures (caller.role == AdminRole && UpdateErrors(req, isEmail) == [] &&
             exists u :: u in old(store.users) && u.id == id) ==> r.Ok?
  {
    match IsAdmin(caller)
    case Deny(status, body) => return Err(status, body);
    case Admit(_) =>
    var errs := UpdateErrors(req, isEmail);
    if errs != [] {
      return Err(400, ErrorsJson(errs));
    }
    match IndexOf(store.users, UserId, id)
    case None => return Err(404, UserNotFound);
    case Some(i) =>
    var updated := store.users[i].(username := req.username.value, email := Value(req.email),
                                   role := req.role.value);
    store.users := store.users[i := updated];
    assert forall u :: u in store.users ==> u.id < store.nextId by {
      forall u | u in store.users ensures u.id < store.nextId {
        var k :| 0 <= k < |store.users| && store.users[k] == u;
        assert k != i ==> u == old(store.users)[k];
      }
    }
    r := Ok(200, updated);
  }

  /** DELETE /:id (admin only): removes exactly the user with that id. */
  method DeleteUser(store: UserDirectory, caller: User, id: Id) returns (r: Response<Body>)
    requires store.Valid()
    modifies store
    ensures store.Valid() && store.nextId == old(store.nextId)
    ensures caller.role != AdminRole ==> r == Err(403, AccessDenied) && store.users == old(store.users)
    ensures caller.role == AdminRole && (forall u :: u in old(store.users) ==> u.id != id) ==>
              r == Err(404, UserNotFound) && store.users == old(store.users)
    ensures caller.role == AdminRole && (exists u :: u in old(store.users) && u.id == id) ==>
              && r == Ok(200, MsgJson("User removed"))
              && store.users == Filter(old(store.users), (u: User) => u.id != id)
              && |store.users| == |old(store.users)| - 1
              && (forall u :: u in store.users <==> u in old(store.users) && u.id != id)
              && IsSubsequence(store.users, old(store.users))
  {
    match IsAdmin(caller)
    case Deny(status, body) => return Err(status, body);
    case Admit(_) =>
    if Find(store.users, UserId, id).None? {
      return Err(404, UserNotFound);
    }
    var keep := (u: User) => u.id != id;
    var before := store.users;
    FilterMembership(before, keep);
    FilterIsSubsequence(before, keep);
    FilterUniqueKeys(before, keep, UserId);
    ghost var u :| u in before && u.id == id;
    ghost var k :| 0 <= k < |before| && before[k] == u;
    FilterRemovesKey(before, UserId, id, keep);
    store.users := Filter(before, keep);
    r := Ok(200, MsgJson("User removed"));
  }
}
