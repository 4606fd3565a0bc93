/** The two request gates of server/middleware/auth.js: `auth`, which admits a
    request carrying a token that names an existing user, and `isAdmin`, which
    admits only users whose role is "admin". Token verification is a parameter:
    `verify(token)` is `None` when the library throws (malformed, expired or
    wrongly signed token) and otherwise the decoded claims. */
module Middleware {
  import opened Common
  import opened Users

  /** The `user` object inside a decoded token, as the middleware reads it. */
  datatype UserClaim = UserClaim(userId: Option<Id>)

  /** Decoded token claims: a top-level `userId` and a nested `user` object. */
  datatype Claims = Claims(userId: Option<Id>, user: Option<UserClaim>)

  /** The claims the auth routes sign: `{ userId: user._id }`. */
  function Issued(id: Id): Claims
  {
    Claims(Some(id), None)
  }

  /** A gate either passes the request on with the caller or answers it. */
  datatype Gate = Admit(user: User) | Deny(status: nat, body: Body)

  const TokenNotValid: Body := MsgJson("Token is not valid")
  const AccessDenied: Body := ErrorJson("Access denied")

  /** `decoded.user.userId`, or `None` when reading it fails or finds nothing. */
  function ClaimedUserId(c: Claims): Option<Id>
  {
    match c.user
    case None => None
    case Some(u) => u.userId
  }

  /** `auth`: every failure (no token, a token the library rejects, claims
      without `user.userId`, no such user) is the same 401 answer. */
  function Auth(header: Option<string>, verify: string -> Option<Claims>, users: seq<User>): (g: Gate)
    ensures g.Deny? ==> g == Deny(401, TokenNotValid)
    ensures !Truthy(header) ==> g.Deny?
    ensures g.Admit? <==>
              Truthy(header) && verify(header.value).Some? &&
              ClaimedUserId(verify(header.value).value).Some? &&
              exists u :: u in users && u.id == ClaimedUserId(verify(header.value).value).value
    ensures g.Admit? ==> g.user in users && Some(g.user.id) == ClaimedUserId(verify(header.value).value)
  {
    if !Truthy(header) then Deny(401, TokenNotValid)
    else match verify(header.value)
      case None => Deny(401, TokenNotValid)
      case Some(claims) =>
        match ClaimedUserId(claims)
        case None => Deny(401, TokenNotValid)
        case Some(id) =>
          match Find(users, UserId, id)
          case None => Deny(401, TokenNotValid)
          case Some(user) => Admit(user)
  }

  /** `isAdmin`: passes the caller on exactly when its role is "admin". */
  function IsAdmin(caller: User): (g: Gate)
    ensures g.Admit? <==> caller.role == AdminRole
    ensures g.Admit? ==> g.user == caller
    ensures g.Deny? ==> g == Deny(403, AccessDenied)
  {
    if caller.role != AdminRole then Deny(403, AccessDenied) else Admit(caller)
  }

  /** A token whose claims have the shape the auth routes sign never passes
      `auth`, because `auth` reads `decoded.user.userId` and the signed claims
      carry only a top-level `userId`. */
  lemma IssuedTokenRejected(token: string, verify: string -> Option<Claims>, users: seq<User>, id: Id)
    requires token != ""
    requires verify(token) == Some(Issued(id))
    ensures Auth(Some(token), verify, users) == Deny(401, TokenNotValid)
  {
  }
}
