/** The quota and resource endpoints. Reads are functions of the tables;
    writes are methods on the store. Each starts from the authorization
    decision for its route and method; the `?user_id=` filter is validated
    next, and single rows are then looked up in the caller's filtered
    queryset, so a row outside it is 404. */
module ResourcesViews {
  import opened Common
  import opened UserModels
  import opened ResourceModels
  import opened Policy
  import opened Database
  import opened ResourcesSerializers

  /** The `?user_id=` query filter; an absent filter keeps every row. */
  predicate Matches(filter: Option<UserId>, u: UserId) {
    filter.None? || filter.value == u
  }

  /** The filter field resolves to the user relation, so its value must name
      an existing user; the filter backend refuses any other value with 400
      before a row is read. This holds for lists and for single-row lookups. */
  predicate FilterValid(t: Tables, filter: Option<UserId>) {
    filter.None? || filter.value in t.users
  }

  const FilterRefused: Response := BadRequest({UnknownFilterUser})

  // ---- Quotas: staff only, addressed by user id ----------------------------

  /** The quota queryset after the filter. */
  function QuotaIds(t: Tables, filter: Option<UserId>): set<UserId> {
    set u | u in t.quotas && Matches(filter, u)
  }

  function ListQuotas(t: Tables, caller: Caller, filter: Option<UserId>): (r: Response)
    requires Consistent(t) && CallerIn(t, caller)
    ensures KindOf(t, caller) == Unauthenticated ==> r == Unauthorized
    ensures KindOf(t, caller) == Regular ==> r == Forbidden
    ensures KindOf(t, caller) == Staff && !FilterValid(t, filter) ==> r == FilterRefused
    ensures r.OkList? <==> KindOf(t, caller) == Staff && FilterValid(t, filter)
    ensures r.OkList? ==> forall b :: b in r.items ==>
      b.QuotaBody? && b.userId in t.users && Matches(filter, b.userId) && b.limit == t.quotas[b.userId].limit
    ensures r.OkList? ==> forall u :: u in t.users && Matches(filter, u) ==> QuotaBody(u, t.quotas[u].limit) in r.items
  {
    match Decide(KindOf(t, caller), QuotasRoute, Get)
    case Refuse(status) => status
    case Allow(_) =>
      if !FilterValid(t, filter) then FilterRefused
      else OkList(set u | u in QuotaIds(t, filter) :: QuotaView(t.quotas[u]))
  }

  /** Filtering the quota list by a user's id yields exactly that user's one
      quota; an id with no user is refused by the filter. */
  lemma FilteredQuotaList(t: Tables, caller: Caller, u: UserId)
    requires Consistent(t) && CallerIn(t, caller) && KindOf(t, caller) == Staff
    ensures u in t.users ==> ListQuotas(t, caller, Some(u)) == OkList({QuotaBody(u, t.quotas[u].limit)})
    ensures u in t.users ==> |ListQuotas(t, caller, Some(u)).items| == 1
    ensures u !in t.users ==> ListQuotas(t, caller, Some(u)) == FilterRefused
  {
  }

  function RetrieveQuota(t: Tables, caller: Caller, filter: Option<UserId>, pk: UserId): (r: Response)
    requires Consistent(t) && CallerIn(t, caller)
    ensures KindOf(t, caller) == Unauthenticated ==> r == Unauthorized
    ensures KindOf(t, caller) == Regular ==> r == Forbidden
    ensures r.Ok? <==> KindOf(t, caller) == Staff && FilterValid(t, filter) && pk in t.users && Matches(filter, pk)
    ensures r.Ok? ==> r.body == QuotaBody(pk, t.quotas[pk].limit)
    ensures KindOf(t, caller) == Staff && !FilterValid(t, filter) ==> r == FilterRefused
    ensures KindOf(t, caller) == Staff && FilterValid(t, filter) && !(pk in t.users && Matches(filter, pk)) ==>
      r == NotFound
  {
    match Decide(KindOf(t, caller), QuotaRoute, Get)
    case Refuse(status) => status
    case Allow(_) =>
      if !FilterValid(t, filter) then FilterRefused
      else if pk in QuotaIds(t, filter) then Ok(QuotaView(t.quotas[pk]))
      else NotFound
  }

  /** PUT or PATCH of a quota: the limit is validated against the user's
      current resource count and written; the response carries the new limit
      and the same user id. */
  method UpdateQuota(s: Store, caller: Caller, filter: Option<UserId>, pk: UserId, partial: bool, input: LimitInput)
    returns (r: Response)
    requires s.Valid() && CallerIn(s.Snapshot(), caller)
    modifies s
    ensures s.Valid()
    ensures var t := old(s.Snapshot());
      match Decide(KindOf(t, caller), QuotaRoute, if partial then Patch else Put)
      case Refuse(status) => r == status && s.Snapshot() == t
      case Allow(_) =>
        if !FilterValid(t, filter) then r == FilterRefused && s.Snapshot() == t
        else if pk !in t.users || !Matches(filter, pk) then r == NotFound && s.Snapshot() == t
        else match ValidateLimit(t.quotas[pk].limit, ResourceCount(t, pk), input)
          case Failure(e) => r == BadRequest(e) && s.Snapshot() == t
          case Success(l) => r == Ok(QuotaBody(pk, l)) && s.Snapshot() == WithLimit(t, pk, l)
    ensures r.Ok? && input.Value? ==> WithinLimit(s.Snapshot(), pk)
  {
    var t := s.Snapshot();
    var d := Decide(KindOf(t, caller), QuotaRoute, if partial then Patch else Put);
    if d.Refuse? {
      return d.status;
    }
    if !FilterValid(t, filter) {
      return FilterRefused;
    }
    if pk !in QuotaIds(t, filter) {
      return NotFound;
    }
    var v := ValidateLimit(s.quotas[pk].limit, ResourceCount(t, pk), input);
    if v.Failure? {
      return BadRequest(v.error);
    }
    s.SetQuotaLimit(pk, v.value);
    r := Ok(QuotaView(s.quotas[pk]));
    if input.Value? {
      AcceptedLimitHolds(t, pk, input.n);
    }
  }

  // ---- Resources: scoped by caller ---------------------------------------

  /** get_queryset: nothing for an anonymous caller, the caller's own
      resources for a non-staff caller, every resource for staff. */
  function Visible(t: Tables, caller: Caller): set<ResourceId>
    requires CallerIn(t, caller)
  {
    match caller
    case Anonymous => {}
    case Authenticated(id) => if t.users[id].isStaff then t.resources.Keys else OwnedIds(t.resources, id)
  }

  /** The scoped queryset after the `?user_id=` filter. */
  function Scoped(t: Tables, caller: Caller, filter: Option<UserId>): set<ResourceId>
    requires CallerIn(t, caller)
  {
    set id | id in t.resources && id in Visible(t, caller) && Matches(filter, t.resources[id].owner)
  }

  /** The three scopes as set equalities. */
  lemma VisibleByCaller(t: Tables, caller: Caller)
    requires CallerIn(t, caller)
    ensures caller.Anonymous? ==> Visible(t, caller) == {}
    ensures KindOf(t, caller) == Regular ==>
      forall id :: id in Visible(t, caller) <==> id in t.resources && t.resources[id].owner == caller.id
    ensures KindOf(t, caller) == Staff ==> Visible(t, caller) == t.resources.Keys
  {
  }

  /** With a filter, staff see exactly the filtered user's resources, and a
      regular caller sees those only when filtering by their own id. */
  lemma ScopedByFilter(t: Tables, caller: Caller, u: UserId)
    requires CallerIn(t, caller) && caller.Authenticated?
    ensures KindOf(t, caller) == Staff ==> Scoped(t, caller, Some(u)) == OwnedIds(t.resources, u)
    ensures KindOf(t, caller) == Regular && u != caller.id ==> Scoped(t, caller, Some(u)) == {}
    ensures KindOf(t, caller) == Regular ==> Scoped(t, caller, None) == OwnedIds(t.resources, caller.id)
  {
  }

  function ListResources(t: Tables, caller: Caller, filter: Option<UserId>): (r: Response)
    requires Consistent(t) && CallerIn(t, caller)
    ensures caller.Anonymous? ==> r == Unauthorized
    ensures caller.Authenticated? && !FilterValid(t, filter) ==> r == FilterRefused
    ensures r.OkList? <==> caller.Authenticated? && FilterValid(t, filter)
    ensures r.OkList? ==> forall b :: b in r.items ==>
      && b.ResourceBody? && b.id in t.resources
      && t.resources[b.id] == Resource(b.id, b.userId, b.name)
      && Matches(filter, b.userId)
      && (KindOf(t, caller) == Regular ==> b.userId == caller.id)
    ensures r.OkList? ==> forall id ::
      (id in t.resources && Matches(filter, t.resources[id].owner)
       && (KindOf(t, caller) == Staff || t.resources[id].owner == caller.id))
      ==> ResourceView(t.resources[id]) in r.items
  {
    match Decide(KindOf(t, caller), ResourcesRoute, Get)
    case Refuse(status) => status
    case Allow(_) =>
      if !FilterValid(t, filter) then FilterRefused
      else OkList(set id | id in Scoped(t, caller, filter) :: ResourceView(t.resources[id]))
  }

  function RetrieveResource(t: Tables, caller: Caller, filter: Option<UserId>, pk: ResourceId): (r: Response)
    requires Consistent(t) && CallerIn(t, caller)
    ensures caller.Anonymous? ==> r == Unauthorized
    ensures r.Ok? <==> caller.Authenticated? && FilterValid(t, filter) && pk in Scoped(t, caller, filter)
    ensures r.Ok? ==> r.body == ResourceBody(pk, t.resources[pk].owner, t.resources[pk].name)
    ensures caller.Authenticated? && !FilterValid(t, filter) ==> r == FilterRefused
    ensures caller.Authenticated? && FilterValid(t, filter) && pk !in Scoped(t, caller, filter) ==> r == NotFound
  {
    match Decide(KindOf(t, caller), ResourceRoute, Get)
    case Refuse(status) => status
    case Allow(_) =>
      if !FilterValid(t, filter) then FilterRefused
      else if pk in Scoped(t, caller, filter) then Ok(ResourceView(t.resources[pk]))
      else NotFound
  }

  /** A regular caller asking for someone else's resource is told it does not
      exist, exactly as for an id nobody uses; never 403. A filter naming no
      user is refused before the lookup. */
  lemma OthersResourcesAreNotFound(t: Tables, caller: Caller, filter: Option<UserId>, pk: ResourceId)
    requires Consistent(t) && CallerIn(t, caller) && KindOf(t, caller) == Regular
    requires pk !in t.resources || t.resources[pk].owner != caller.id
    ensures RetrieveResource(t, caller, filter, pk) == if FilterValid(t, filter) then NotFound else FilterRefused
  {
  }

  /** POST of a resource: the owner is the explicit user_id when given (any
      existing user, whoever asks), the caller otherwise; no quota is read. */
  method CreateResource(s: Store, caller: Caller, input: ResourceInput) returns (r: Response)
    requires s.Valid() && CallerIn(s.Snapshot(), caller)
    modifies s
    ensures s.Valid()
    ensures var t := old(s.Snapshot());
      match caller
      case Anonymous => r == Unauthorized && s.Snapshot() == t
      case Authenticated(id) =>
        match ValidateResource(t.users, id, input)
        case Failure(e) => r == BadRequest(e) && s.Snapshot() == t
        case Success(v) =>
          && r == Created(ResourceBody(t.nextResourceId, v.0, v.1))
          && s.Snapshot() == WithResource(t, v.0, v.1)
    ensures r.Created? ==> ResourceCount(s.Snapshot(), r.body.userId) == old(ResourceCount(s.Snapshot(), r.body.userId)) + 1
  {
    var t := s.Snapshot();
    var d := Decide(KindOf(t, caller), ResourcesRoute, Post);
    if d.Refuse? {
      return d.status;
    }
    var v := ValidateResource(s.users, caller.id, input);
    if v.Failure? {
      return BadRequest(v.error);
    }
    var id := s.InsertResource(v.value.0, v.value.1);
    WithResourceCount(t, v.value.0, v.value.1, v.value.0);
    r := Created(ResourceView(s.resources[id]));
  }

  /** DELETE of a resource, looked up in the caller's scoped queryset. */
  method DestroyResource(s: Store, caller: Caller, filter: Option<UserId>, pk: ResourceId) returns (r: Response)
    requires s.Valid() && CallerIn(s.Snapshot(), caller)
    modifies s
    ensures s.Valid()
    ensures var t := old(s.Snapshot());
      && (caller.Anonymous? ==> r == Unauthorized && s.Snapshot() == t)
      && (caller.Authenticated? && !FilterValid(t, filter) ==>
            r == FilterRefused && s.Snapshot() == t)
      && (caller.Authenticated? && FilterValid(t, filter) && pk in Scoped(t, caller, filter) ==>
            r == NoContent && s.Snapshot() == WithoutResource(t, pk))
      && (caller.Authenticated? && FilterValid(t, filter) && pk !in Scoped(t, caller, filter) ==>
            r == NotFound && s.Snapshot() == t)
  {
    var t := s.Snapshot();
    var d := Decide(KindOf(t, caller), ResourceRoute, Delete);
    if d.Refuse? {
      return d.status;
    }
    if !FilterValid(t, filter) {
      return FilterRefused;
    }
    if pk !in Scoped(t, caller, filter) {
      return NotFound;
    }
    s.DeleteResource(pk);
    r := NoContent;
  }
}
