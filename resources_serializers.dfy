/** The quota and resource serializers: what each renders, and how a request
    body is validated before the row is written. */
module ResourcesSerializers {
  import opened Common
  import opened UserModels
  import opened ResourceModels
  import opened Database

  /** UserQuotaSerializer renders (user_id, limit). */
  function QuotaView(q: UserQuota): Body {
    QuotaBody(q.user, q.limit)
  }

  /** ResourceSerializer renders (id, user_id, name). */
  function ResourceView(r: Resource): Body {
    ResourceBody(r.id, r.owner, r.name)
  }

  /** Renderings of distinct rows are distinct, and each carries its row's key. */
  lemma ViewsIdentifyRows(q1: UserQuota, q2: UserQuota, r1: Resource, r2: Resource)
    ensures QuotaView(q1) == QuotaView(q2) <==> q1 == q2
    ensures ResourceView(r1) == ResourceView(r2) <==> r1 == r2
    ensures QuotaView(q1).userId == q1.user && ResourceView(r1).id == r1.id
  {
  }

  /** A resource creation body; None is a key that is absent. */
  datatype ResourceInput = ResourceInput(userId: Option<UserId>, name: Option<string>)

  /** user_id: omitted on create, it defaults to the requesting user; given, it
      must name an existing user. Nothing compares it with the requester. */
  function OwnerOf(users: map<UserId, User>, requester: UserId, userId: Option<UserId>): Result<UserId, set<FieldError>> {
    match userId
    case None => Success(requester)
    case Some(u) => if u in users then Success(u) else Failure({NoSuchUser})
  }

  /** name: required, not blank, at most 200 characters. */
  function NameErrors(name: Option<string>): set<FieldError> {
    match name
    case None => {Required(Name)}
    case Some(n) =>
      if n == "" then {Blank(Name)}
      else if |n| > NameMaxLength then {NameTooLong}
      else {}
  }

  /** Both fields are validated and their errors reported together. The owner
      and name of the row to insert come back on success. No quota is read. */
  function ValidateResource(users: map<UserId, User>, requester: UserId, input: ResourceInput)
    : (r: Result<(UserId, string), set<FieldError>>)
    requires requester in users
    ensures r.Success? <==>
      (input.userId.None? || input.userId.value in users) && input.name.Some? && ValidName(input.name.value)
    ensures r.Success? && input.userId.None? ==> r.value.0 == requester
    ensures r.Success? && input.userId.Some? ==> r.value.0 == input.userId.value
    ensures r.Success? ==> r.value.0 in users && r.value.1 == input.name.value
    ensures r.Failure? ==> r.error != {}
    ensures input.userId.Some? && input.userId.value !in users ==> r.Failure? && NoSuchUser in r.error
  {
    var owner := OwnerOf(users, requester, input.userId);
    var errors := (if owner.Failure? then owner.error else {}) + NameErrors(input.name);
    if errors == {} then Success((owner.value, input.name.value)) else Failure(errors)
  }

  /** The limit in an update body: absent, null, or an integer. */
  datatype LimitInput = Omitted | Null | Value(n: int)

  /** limit: nullable, a non-negative integer within the column's range; an
      absent limit keeps the current one. A limit below the user's current
      resource count is refused, and one equal to it or above is accepted. */
  function ValidateLimit(current: Option<nat>, count: nat, input: LimitInput): (r: Result<Option<nat>, set<FieldError>>)
    ensures r.Failure? <==> input.Value? && (input.n < 0 || input.n > LimitMax || input.n < count)
    ensures r.Failure? ==> |r.error| == 1
    ensures input.Value? && 0 <= input.n <= LimitMax && input.n < count ==> r == Failure({BelowResourceCount(count)})
    ensures input.Value? && r.Success? ==> r.value == Some(input.n) && count <= input.n
    ensures input.Null? ==> r == Success(None)
    ensures input.Omitted? ==> r == Success(current)
  {
    match input
    case Omitted => Success(current)
    case Null => Success(None)
    case Value(n) =>
      if n < 0 then Failure({BelowMinimum})
      else if n > LimitMax then Failure({AboveMaximum})
      else if n < count then Failure({BelowResourceCount(count)})
      else Success(Some(n))
  }

  /** Setting an accepted limit leaves the user within it. */
  lemma AcceptedLimitHolds(t: Tables, u: UserId, n: int)
    requires Consistent(t) && u in t.quotas
    requires ValidateLimit(t.quotas[u].limit, ResourceCount(t, u), Value(n)).Success?
    ensures var l := ValidateLimit(t.quotas[u].limit, ResourceCount(t, u), Value(n)).value;
      ValidLimit(l) && WithinLimit(WithLimit(t, u, l), u)
  {
  }

  /** The three scenarios of the quota tests: one resource and limit 0 is
      refused; limits 1 and 2 are accepted and stored as given. */
  lemma QuotaScenarios(current: Option<nat>)
    ensures ValidateLimit(current, 1, Value(0)) == Failure({BelowResourceCount(1)})
    ensures ValidateLimit(current, 1, Value(1)) == Success(Some(1))
    ensures ValidateLimit(current, 1, Value(2)) == Success(Some(2))
    ensures ValidateLimit(current, 0, Value(2)) == Success(Some(2))
  {
  }
}
