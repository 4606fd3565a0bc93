/** The user collection: the stored user record and the in-memory store that
    stands in for the database collection the server routes query and update. */
module Users {
  import opened Common

  /** A stored user document. `password` holds what the store keeps for the
      credential (a one-way hash); `role` is free text, since signup stores
      whatever role the request supplies. */
  datatype User = User(id: Id, username: string, email: string, password: string, role: string)

  function UserId(u: User): Id { u.id }

  /** `User.findOne({ email })`: the first user, in store order, with that email. */
  function FindByEmail(users: seq<User>, email: string): (r: Option<User>)
    ensures r.Some? ==> r.value in users && r.value.email == email
    ensures r.None? <==> forall u :: u in users ==> u.email != email
    ensures r.Some? ==> exists i :: 0 <= i < |users| && users[i] == r.value &&
                          forall j :: 0 <= j < i ==> users[j].email != email
  {
    if users == [] then None
    else if users[0].email == email then Some(users[0])
    else
      var r := FindByEmail(users[1..], email);
      assert r.Some? ==> exists i :: 0 <= i < |users| && users[i] == r.value &&
                          forall j :: 0 <= j < i ==> users[j].email != email by {
        if r.Some? {
          var k :| 0 <= k < |users[1..]| && users[1..][k] == r.value &&
                   forall j :: 0 <= j < k ==> users[1..][j].email != email;
          assert users[k + 1] == r.value;
          assert forall j :: 0 <= j < k + 1 ==> users[j].email != email by {
            forall j | 0 < j < k + 1 ensures users[j].email != email {
              assert users[j] == users[1..][j - 1];
            }
          }
        }
      }
      r
  }

  /** The user collection. Ids are unique and below `nextId`, the next id the
      store hands out. */
  class UserDirectory {
    var users: seq<User>
    var nextId: nat

    ghost predicate Valid()
      reads this
    {
      UniqueKeys(users, UserId) && forall u :: u in users ==> u.id < nextId
    }

    constructor ()
      ensures Valid() && users == [] && nextId == 0
    {
      users := [];
      nextId := 0;
    }
  }
}
