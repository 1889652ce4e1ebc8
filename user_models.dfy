/** The custom user model: email is the login key, unique and not editable, and
    there is no username column. */
module UserModels {
  import opened Common

  /** A user row. `credential` stands for the stored password hash; the hashing
      itself is outside the model. */
  datatype User = User(
    id: UserId,
    email: string,
    credential: string,
    isStaff: bool,
    firstName: string,
    lastName: string)

  /** The constructor: a `username` keyword argument is dropped before the
      record is built, names start blank. */
  function Construct(id: UserId, email: string, credential: string, isStaff: bool,
                     username: Option<string>): User
  {
    User(id, email, credential, isStaff, "", "")
  }

  /** Whatever username is passed, the constructed user is the same. */
  lemma UsernameDiscarded(id: UserId, email: string, credential: string, isStaff: bool,
                          a: Option<string>, b: Option<string>)
    ensures Construct(id, email, credential, isStaff, a) == Construct(id, email, credential, isStaff, b)
    ensures Construct(id, email, credential, isStaff, a).email == email
  {
  }

  /** The uniqueness constraint on the email column. */
  ghost predicate EmailsUnique(users: map<UserId, User>) {
    forall a, b :: a in users && b in users && users[a].email == users[b].email ==> a == b
  }

  predicate EmailInUse(users: map<UserId, User>, email: string) {
    exists id :: id in users && users[id].email == email
  }

  /** Lookup by the login key (USERNAME_FIELD is the email). */
  function FindByEmail(users: map<UserId, User>, email: string): (r: Option<UserId>)
    requires EmailsUnique(users)
    ensures r.Some? <==> EmailInUse(users, email)
    ensures r.Some? ==> r.value in users && users[r.value].email == email
    ensures r.Some? ==> forall id :: id in users && users[id].email == email ==> id == r.value
  {
    if EmailInUse(users, email) then
      var id :| id in users && users[id].email == email;
      Some(id)
    else
      None
  }
}
