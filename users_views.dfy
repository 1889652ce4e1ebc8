/** The registration, login, user-management and "me" endpoints. Reads are
    functions of the tables; writes are methods on the store. Each starts from
    the authorization decision for its route and method. */
module UsersViews {
  import opened Common
  import opened UserModels
  import opened ResourceModels
  import opened Policy
  import opened Database
  import opened Signals
  import opened UsersSerializers

  /** CreateModelMixin.create with RegistrationSerializer, shared by the
      registration endpoint and the staff user-creation endpoint. */
  method SaveRegistration(s: Store, v: Validators, input: RegistrationInput) returns (r: Response)
    requires s.Valid()
    modifies s
    ensures s.Valid()
    ensures var t := old(s.Snapshot());
      match ValidateRegistration(t.users, v, input)
      case Failure(e) => r == BadRequest(e) && s.Snapshot() == t
      case Success(data) =>
        && r == Created(RegistrationBody(t.nextUserId, data.0))
        && s.Snapshot() == WithQuota(WithUser(t, data.0, data.1, false), t.nextUserId)
  {
    var data := ValidateRegistration(s.users, v, input);
    if data.Failure? {
      return BadRequest(data.error);
    }
    var id := RegistrationCreate(s, data.value.0, data.value.1);
    r := Created(RegistrationView(s.users[id]));
  }

  /** POST /register: only for a caller without an identity. */
  method Register(s: Store, caller: Caller, v: Validators, input: RegistrationInput) returns (r: Response)
    requires s.Valid() && CallerIn(s.Snapshot(), caller)
    modifies s
    ensures s.Valid()
    ensures var t := old(s.Snapshot());
      if caller.Authenticated? then r == Forbidden && s.Snapshot() == t
      else match ValidateRegistration(t.users, v, input)
        case Failure(e) => r == BadRequest(e) && s.Snapshot() == t
        case Success(data) =>
          && r == Created(RegistrationBody(t.nextUserId, data.0))
          && s.Snapshot() == WithQuota(WithUser(t, data.0, data.1, false), t.nextUserId)
  {
    var d := Decide(KindOf(s.Snapshot(), caller), RegisterRoute, Post);
    if d.Refuse? {
      return d.status;
    }
    r := SaveRegistration(s, v, input);
  }

  /** POST /users: staff create users by the registration rules. */
  method CreateUser(s: Store, caller: Caller, v: Validators, input: RegistrationInput) returns (r: Response)
    requires s.Valid() && CallerIn(s.Snapshot(), caller)
    modifies s
    ensures s.Valid()
    ensures var t := old(s.Snapshot());
      match KindOf(t, caller)
      case Unauthenticated => r == Unauthorized && s.Snapshot() == t
      case Regular => r == Forbidden && s.Snapshot() == t
      case Staff =>
        match ValidateRegistration(t.users, v, input)
        case Failure(e) => r == BadRequest(e) && s.Snapshot() == t
        case Success(data) =>
          && r == Created(RegistrationBody(t.nextUserId, data.0))
          && s.Snapshot() == WithQuota(WithUser(t, data.0, data.1, false), t.nextUserId)
  {
    var d := Decide(KindOf(s.Snapshot(), caller), UsersRoute, Post);
    if d.Refuse? {
      return d.status;
    }
    r := SaveRegistration(s, v, input);
  }

  /** The login fields: both required and not blank. */
  function CredentialErrors(email: Option<string>, password: Option<string>): set<FieldError> {
    (if email.None? then {Required(Email)} else if email.value == "" then {Blank(Email)} else {})
    + (if password.None? then {Required(Password)} else if password.value == "" then {Blank(Password)} else {})
  }

  /** POST /login, open to every caller: a token pair for the user whose email
      and password match, 401 when none does. */
  function Login(t: Tables, caller: Caller, email: Option<string>, password: Option<string>): (r: Response)
    requires Consistent(t) && CallerIn(t, caller)
    ensures r.BadRequest? <==>
      email.None? || password.None? || email.value == "" || password.value == ""
    ensures r.Created? <==>
      && email.Some? && password.Some? && email.value != "" && password.value != ""
      && exists id :: id in t.users && t.users[id].email == email.value && t.users[id].credential == password.value
    ensures r.Created? ==>
      && r.body.TokenPair? && r.body.userId in t.users
      && t.users[r.body.userId].email == email.value && t.users[r.body.userId].credential == password.value
    ensures !r.BadRequest? && !r.Created? ==> r == Unauthorized
  {
    match Decide(KindOf(t, caller), LoginRoute, Post)
    case Refuse(status) => status
    case Allow(_) =>
      var errors := CredentialErrors(email, password);
      if errors != {} then BadRequest(errors)
      else match FindByEmail(t.users, email.value)
        case None => Unauthorized
        case Some(id) => if t.users[id].credential == password.value then Created(TokenPair(id)) else Unauthorized
  }

  /** GET /users: every user in the staff view. */
  function ListUsers(t: Tables, caller: Caller): (r: Response)
    requires Consistent(t) && CallerIn(t, caller)
    ensures KindOf(t, caller) == Unauthenticated ==> r == Unauthorized
    ensures KindOf(t, caller) == Regular ==> r == Forbidden
    ensures KindOf(t, caller) == Staff ==> r.OkList?
    ensures r.OkList? ==> forall b :: b in r.items ==> b.UserBody? && b.id in t.users && b == StaffView(t.users[b.id])
    ensures r.OkList? ==> forall id :: id in t.users ==> StaffView(t.users[id]) in r.items
  {
    match Decide(KindOf(t, caller), UsersRoute, Get)
    case Refuse(status) => status
    case Allow(_) => OkList(set id | id in t.users :: StaffView(t.users[id]))
  }

  /** GET /users/<pk>. */
  function RetrieveUser(t: Tables, caller: Caller, pk: UserId): (r: Response)
    requires Consistent(t) && CallerIn(t, caller)
    ensures KindOf(t, caller) == Unauthenticated ==> r == Unauthorized
    ensures KindOf(t, caller) == Regular ==> r == Forbidden
    ensures r.Ok? <==> KindOf(t, caller) == Staff && pk in t.users
    ensures r.Ok? ==> r.body == UserBody(pk, t.users[pk].email, t.users[pk].firstName, t.users[pk].lastName, t.users[pk].isStaff)
    ensures KindOf(t, caller) == Staff && pk !in t.users ==> r == NotFound
  {
    match Decide(KindOf(t, caller), UserRoute, Get)
    case Refuse(status) => status
    case Allow(_) => if pk in t.users then Ok(StaffView(t.users[pk])) else NotFound
  }

  /** PUT or PATCH /users/<pk>: staff edit the names and the staff flag; the
      email in the body is ignored. The save is a re-save, so no quota is made. */
  method UpdateUser(s: Store, caller: Caller, pk: UserId, partial: bool, input: ProfileInput) returns (r: Response)
    requires s.Valid() && CallerIn(s.Snapshot(), caller)
    modifies s
    ensures s.Valid()
    ensures var t := old(s.Snapshot());
      match KindOf(t, caller)
      case Unauthenticated => r == Unauthorized && s.Snapshot() == t
      case Regular => r == Forbidden && s.Snapshot() == t
      case Staff =>
        if pk !in t.users then r == NotFound && s.Snapshot() == t
        else
          var edit := StaffEdit(t.users[pk], input);
          && s.Snapshot() == WithProfile(t, pk, edit.0, edit.1, edit.2)
          && r == Ok(UserBody(pk, t.users[pk].email, edit.0, edit.1, edit.2))
    ensures r.Ok? ==> s.users[pk].email == old(s.users[pk].email) && s.quotas == old(s.quotas)
  {
    var d := Decide(KindOf(s.Snapshot(), caller), UserRoute, if partial then Patch else Put);
    if d.Refuse? {
      return d.status;
    }
    if pk !in s.users {
      return NotFound;
    }
    var edit := StaffEdit(s.users[pk], input);
    s.UpdateUser(pk, edit.0, edit.1, edit.2);
    UserSaved(s, pk, false);
    r := Ok(StaffView(s.users[pk]));
  }

  /** DELETE /users/<pk>: a user still referenced by a resource is not
      deleted and the refusal is reported as a validation error; otherwise the
      user and the user's quota are removed. */
  method DestroyUser(s: Store, caller: Caller, pk: UserId) returns (r: Response)
    requires s.Valid() && CallerIn(s.Snapshot(), caller)
    modifies s
    ensures s.Valid()
    ensures var t := old(s.Snapshot());
      match KindOf(t, caller)
      case Unauthenticated => r == Unauthorized && s.Snapshot() == t
      case Regular => r == Forbidden && s.Snapshot() == t
      case Staff =>
        if pk !in t.users then r == NotFound && s.Snapshot() == t
        else if exists id :: id in t.resources && t.resources[id].owner == pk then
          r == BadRequest({StillReferenced}) && s.Snapshot() == t
        else
          && r == NoContent
          && s.Snapshot() == WithoutUser(t, pk)
          && pk !in s.users && pk !in s.quotas && s.resources == t.resources
  {
    var t := s.Snapshot();
    var d := Decide(KindOf(t, caller), UserRoute, Delete);
    if d.Refuse? {
      return d.status;
    }
    if pk !in s.users {
      return NotFound;
    }
    OwnsIffNonEmpty(t, pk);
    var deleted := s.DeleteUser(pk);
    if !deleted {
      return BadRequest({StillReferenced});
    }
    r := NoContent;
  }

  /** GET /users/me: always the caller's own record, in the self view. */
  function RetrieveMe(t: Tables, caller: Caller): (r: Response)
    requires Consistent(t) && CallerIn(t, caller)
    ensures caller.Anonymous? ==> r == Unauthorized
    ensures caller.Authenticated? ==> r.Ok? && r.body.MeBody? && r.body.id == caller.id
    ensures r.Ok? ==> r.body == MeBody(caller.id, t.users[caller.id].email,
                                        t.users[caller.id].firstName, t.users[caller.id].lastName)
  {
    match Decide(KindOf(t, caller), MeRoute, Get)
    case Refuse(status) => status
    case Allow(_) => Ok(SelfView(t.users[caller.id]))
  }

  /** PUT or PATCH /users/me: the caller edits their own names; email and the
      staff flag are out of reach, and no other user changes. */
  method UpdateMe(s: Store, caller: Caller, partial: bool, input: ProfileInput) returns (r: Response)
    requires s.Valid() && CallerIn(s.Snapshot(), caller)
    modifies s
    ensures s.Valid()
    ensures var t := old(s.Snapshot());
      match caller
      case Anonymous => r == Unauthorized && s.Snapshot() == t
      case Authenticated(id) =>
        var edit := SelfEdit(t.users[id], input);
        && s.Snapshot() == WithProfile(t, id, edit.0, edit.1, t.users[id].isStaff)
        && r == Ok(MeBody(id, t.users[id].email, edit.0, edit.1))
    ensures caller.Authenticated? ==>
      && s.users[caller.id].email == old(s.users[caller.id].email)
      && s.users[caller.id].isStaff == old(s.users[caller.id].isStaff)
      && (forall u :: u in old(s.users) && u != caller.id ==> u in s.users && s.users[u] == old(s.users[u]))
  {
    var d := Decide(KindOf(s.Snapshot(), caller), MeRoute, if partial then Patch else Put);
    if d.Refuse? {
      return d.status;
    }
    var me := s.users[caller.id];
    var edit := SelfEdit(me, input);
    s.UpdateUser(caller.id, edit.0, edit.1, me.isStaff);
    UserSaved(s, caller.id, false);
    r := Ok(SelfView(s.users[caller.id]));
  }
}
