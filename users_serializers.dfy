/** The user serializers: registration (validation and create), and the field
    sets of the staff view and the self view. */
module UsersSerializers {
  import opened Common
  import opened UserModels
  import opened ResourceModels
  import opened Database
  import opened Signals

  /** The validators the serializers delegate to: the email syntax check of the
      email field and the configured password-strength validators. */
  datatype Validators = Validators(isEmailAddress: string -> bool, passwordAccepted: string -> bool)

  /** A registration request body; None is a key that is absent. */
  datatype RegistrationInput = RegistrationInput(email: Option<string>, password: Option<string>)

  /** The email field: required and not blank; a non-blank value then goes
      through both of the field's validators, the address syntax and the
      uniqueness check, and the errors of both are reported. */
  function EmailErrors(users: map<UserId, User>, v: Validators, email: Option<string>): set<FieldError> {
    match email
    case None => {Required(Email)}
    case Some(e) =>
      if e == "" then {Blank(Email)}
      else
        (if v.isEmailAddress(e) then {} else {InvalidEmail})
        + (if EmailInUse(users, e) then {EmailTaken} else {})
  }

  /** The password field: required, not blank, accepted by the strength validators. */
  function PasswordErrors(v: Validators, password: Option<string>): set<FieldError> {
    match password
    case None => {Required(Password)}
    case Some(p) =>
      if p == "" then {Blank(Password)}
      else if !v.passwordAccepted(p) then {WeakPassword}
      else {}
  }

  /** Both fields are validated and their errors reported together. */
  function ValidateRegistration(users: map<UserId, User>, v: Validators, input: RegistrationInput)
    : (r: Result<(string, string), set<FieldError>>)
    ensures r.Success? <==>
      && input.email.Some? && input.email.value != "" && v.isEmailAddress(input.email.value)
      && !EmailInUse(users, input.email.value)
      && input.password.Some? && input.password.value != "" && v.passwordAccepted(input.password.value)
    ensures r.Success? ==> r.value == (input.email.value, input.password.value)
    ensures r.Failure? ==> r.error != {}
    ensures input.email.None? ==> r.Failure? && Required(Email) in r.error
    ensures input.password.None? ==> r.Failure? && Required(Password) in r.error
    ensures (r.Failure? && EmailTaken in r.error) <==>
      input.email.Some? && input.email.value != "" && EmailInUse(users, input.email.value)
    ensures (r.Failure? && InvalidEmail in r.error) <==>
      input.email.Some? && input.email.value != "" && !v.isEmailAddress(input.email.value)
  {
    var errors := EmailErrors(users, v, input.email) + PasswordErrors(v, input.password);
    if errors == {} then Success((input.email.value, input.password.value)) else Failure(errors)
  }

  /** An email that is both malformed and already in use gets both errors,
      since the two validators of the field run independently. */
  lemma BothEmailValidatorsReport(users: map<UserId, User>, v: Validators, input: RegistrationInput)
    requires input.email.Some? && input.email.value != ""
    requires !v.isEmailAddress(input.email.value) && EmailInUse(users, input.email.value)
    ensures ValidateRegistration(users, v, input).Failure?
    ensures {InvalidEmail, EmailTaken} <= ValidateRegistration(users, v, input).error
  {
  }

  /** create(): a user built from the email alone (not staff, blank names), the
      password set, and one save, whose post_save adds the quota. */
  method RegistrationCreate(s: Store, email: string, password: string) returns (id: UserId)
    requires s.Valid() && !EmailInUse(s.users, email)
    modifies s
    ensures s.Valid()
    ensures id == old(s.nextUserId) && id !in old(s.users)
    ensures s.Snapshot() == WithQuota(WithUser(old(s.Snapshot()), email, password, false), id)
  {
    id := s.InsertUser(email, password, false);
    UserSaved(s, id, true);
  }

  /** What a registration does to the tables: exactly one new user, with the
      given email and no staff flag, exactly one new quota, belonging to that
      user and unlimited, and nothing else. */
  lemma RegistrationOutcome(t: Tables, email: string, password: string)
    requires Consistent(t) && !EmailInUse(t.users, email)
    ensures var n := t.nextUserId;
      var t' := WithQuota(WithUser(t, email, password, false), n);
      && Consistent(t')
      && n !in t.users && n in t'.users
      && t'.users.Keys == t.users.Keys + {n}
      && |t'.users| == |t.users| + 1
      && (forall id :: id in t.users ==> t'.users[id] == t.users[id])
      && t'.users[n].email == email && !t'.users[n].isStaff
      && t'.quotas == t.quotas[n := UserQuota(n, None)]
      && |t'.quotas| == |t.quotas| + 1
      && t'.resources == t.resources
  {
    var n := t.nextUserId;
    WithUserWellFormed(t, email, password, false);
    WithQuotaCompletes(WithUser(t, email, password, false), n);
  }

  /** UserSerializer: (id, email, first_name, last_name, is_staff). */
  function StaffView(u: User): Body {
    UserBody(u.id, u.email, u.firstName, u.lastName, u.isStaff)
  }

  /** MeUserSerializer: (id, email, first_name, last_name), no role flag. */
  function SelfView(u: User): Body {
    MeBody(u.id, u.email, u.firstName, u.lastName)
  }

  /** RegistrationSerializer's output: id and email; the password is write-only. */
  function RegistrationView(u: User): Body {
    RegistrationBody(u.id, u.email)
  }

  /** No rendering shows the stored credential, and the self view does not
      show or depend on the staff flag. */
  lemma ViewsHideCredentialAndRole(u: User, credential: string, isStaff: bool)
    ensures StaffView(u) == StaffView(u.(credential := credential))
    ensures SelfView(u) == SelfView(u.(credential := credential))
    ensures RegistrationView(u) == RegistrationView(u.(credential := credential))
    ensures SelfView(u) == SelfView(u.(isStaff := isStaff))
    ensures StaffView(u).isStaff == u.isStaff
  {
  }

  /** A profile update body. `email` is accepted and ignored: the column is
      not editable, so both serializers treat it as read-only. */
  datatype ProfileInput = ProfileInput(
    email: Option<string>,
    firstName: Option<string>,
    lastName: Option<string>,
    isStaff: Option<bool>)

  /** The columns a UserSerializer update writes: the names and the staff flag,
      each kept when omitted. */
  function StaffEdit(u: User, input: ProfileInput): (string, string, bool) {
    (input.firstName.GetOr(u.firstName), input.lastName.GetOr(u.lastName), input.isStaff.GetOr(u.isStaff))
  }

  /** The columns a MeUserSerializer update writes: the names only. */
  function SelfEdit(u: User, input: ProfileInput): (string, string) {
    (input.firstName.GetOr(u.firstName), input.lastName.GetOr(u.lastName))
  }

  /** The email in an edit body never matters, an omitted field keeps its
      value, and a given one replaces it. */
  lemma EditsIgnoreEmail(u: User, input: ProfileInput, email: Option<string>)
    ensures StaffEdit(u, input) == StaffEdit(u, input.(email := email))
    ensures SelfEdit(u, input) == SelfEdit(u, input.(email := email))
    ensures StaffEdit(u, ProfileInput(email, None, None, None)) == (u.firstName, u.lastName, u.isStaff)
    ensures SelfEdit(u, ProfileInput(email, None, None, None)) == (u.firstName, u.lastName)
    ensures input.firstName.Some? ==> StaffEdit(u, input).0 == input.firstName.value == SelfEdit(u, input).0
    ensures input.lastName.Some? ==> StaffEdit(u, input).1 == input.lastName.value == SelfEdit(u, input).1
    ensures input.isStaff.Some? ==> StaffEdit(u, input).2 == input.isStaff.value
  {
  }
}
