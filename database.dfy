/** The three tables (users, quotas, resources) with the integrity the schema
    gives them: primary keys, the unique email, the one-to-one quota key, and
    the protected owner reference of a resource. `Tables` is a snapshot value;
    `Store` is the mutable database the views and the signal receiver change. */
module Database {
  import opened Common
  import opened UserModels
  import opened ResourceModels
  import opened Policy

  datatype Tables = Tables(
    users: map<UserId, User>,
    quotas: map<UserId, UserQuota>,
    resources: map<ResourceId, Resource>,
    nextUserId: UserId,
    nextResourceId: ResourceId)

  /** Users are keyed by their id, ids come from the sequence, emails are unique. */
  ghost predicate UsersWellFormed(t: Tables) {
    && (forall id :: id in t.users ==> t.users[id].id == id && id < t.nextUserId)
    && EmailsUnique(t.users)
  }

  /** A quota is keyed by its user (primary key = user), so it cannot move to
      another user; it refers to an existing user; its limit fits the column. */
  ghost predicate QuotasWellFormed(t: Tables) {
    forall id :: id in t.quotas ==>
      t.quotas[id].user == id && id in t.users && ValidLimit(t.quotas[id].limit)
  }

  /** Every resource has exactly one owner, and that owner exists. */
  ghost predicate ResourcesWellFormed(t: Tables) {
    forall id :: id in t.resources ==>
      && t.resources[id].id == id
      && id < t.nextResourceId
      && t.resources[id].owner in t.users
      && ValidName(t.resources[id].name)
  }

  ghost predicate WellFormed(t: Tables) {
    UsersWellFormed(t) && QuotasWellFormed(t) && ResourcesWellFormed(t)
  }

  /** Every user has a quota row and every quota row has a user. */
  ghost predicate OneQuotaPerUser(t: Tables) {
    t.quotas.Keys == t.users.Keys
  }

  ghost predicate Consistent(t: Tables) {
    WellFormed(t) && OneQuotaPerUser(t)
  }

  /** The ids of the resources a user owns. */
  function OwnedIds(resources: map<ResourceId, Resource>, u: UserId): set<ResourceId> {
    set id | id in resources && resources[id].owner == u
  }

  function ResourceCount(t: Tables, u: UserId): nat {
    |OwnedIds(t.resources, u)|
  }

  /** The user's resource count respects the user's limit, if one is set. */
  ghost predicate WithinLimit(t: Tables, u: UserId) {
    u in t.quotas && t.quotas[u].limit.Some? ==> ResourceCount(t, u) <= t.quotas[u].limit.value
  }

  /** An authenticated caller is an existing user. */
  predicate CallerIn(t: Tables, c: Caller) {
    c.Authenticated? ==> c.id in t.users
  }

  /** The caller as the permission classes see it; the staff flag is read from
      the user's current row. */
  function KindOf(t: Tables, c: Caller): CallerKind
    requires CallerIn(t, c)
  {
    match c
    case Anonymous => Unauthenticated
    case Authenticated(id) => if t.users[id].isStaff then Staff else Regular
  }

  // ---- Row-level transitions -------------------------------------------

  /** INSERT of a user row with the next id. */
  function WithUser(t: Tables, email: string, credential: string, isStaff: bool): Tables {
    var id := t.nextUserId;
    t.(users := t.users[id := Construct(id, email, credential, isStaff, None)], nextUserId := id + 1)
  }

  /** INSERT of a quota row with the default limit. */
  function WithQuota(t: Tables, u: UserId): Tables {
    t.(quotas := t.quotas[u := UserQuota(u, DefaultLimit)])
  }

  /** UPDATE of the editable columns of a user row; id, email and credential stay. */
  function WithProfile(t: Tables, u: UserId, firstName: string, lastName: string, isStaff: bool): Tables
    requires u in t.users
  {
    t.(users := t.users[u := t.users[u].(firstName := firstName, lastName := lastName, isStaff := isStaff)])
  }

  /** DELETE of a user row; the quota row goes with it (on_delete=CASCADE). */
  function WithoutUser(t: Tables, u: UserId): Tables {
    t.(users := t.users - {u}, quotas := t.quotas - {u})
  }

  /** UPDATE of a quota's limit. */
  function WithLimit(t: Tables, u: UserId, limit: Option<nat>): Tables
    requires u in t.quotas
  {
    t.(quotas := t.quotas[u := t.quotas[u].(limit := limit)])
  }

  /** INSERT of a resource row with the next id. */
  function WithResource(t: Tables, owner: UserId, name: string): Tables {
    var id := t.nextResourceId;
    t.(resources := t.resources[id := Resource(id, owner, name)], nextResourceId := id + 1)
  }

  /** DELETE of a resource row. */
  function WithoutResource(t: Tables, id: ResourceId): Tables {
    t.(resources := t.resources - {id})
  }

  // ---- What the transitions keep -----------------------------------------

  /** Inserting a user with an unused email keeps every constraint except that
      the new user has no quota yet. */
  lemma WithUserWellFormed(t: Tables, email: string, credential: string, isStaff: bool)
    requires Consistent(t)
    requires !EmailInUse(t.users, email)
    ensures t.nextUserId !in t.users
    ensures WellFormed(WithUser(t, email, credential, isStaff))
    ensures WithUser(t, email, credential, isStaff).quotas.Keys ==
            WithUser(t, email, credential, isStaff).users.Keys - {t.nextUserId}
  {
  }

  /** Adding the missing quota row restores one quota per user, and the new
      quota is the user's own with no limit. */
  lemma WithQuotaCompletes(t: Tables, u: UserId)
    requires WellFormed(t) && u in t.users
    requires t.quotas.Keys == t.users.Keys - {u}
    ensures Consistent(WithQuota(t, u))
    ensures |WithQuota(t, u).quotas| == |t.quotas| + 1
    ensures WithQuota(t, u).quotas[u] == UserQuota(u, None)
  {
  }

  /** A user who owns no resource can be deleted, and the deletion keeps
      every constraint: no resource is left without an owner, no quota without
      a user. */
  lemma {:induction false} WithoutUserConsistent(t: Tables, u: UserId)
    requires Consistent(t) && u in t.users
    requires OwnedIds(t.resources, u) == {}
    ensures Consistent(WithoutUser(t, u))
    ensures u !in WithoutUser(t, u).quotas
  {
    forall id | id in t.resources
      ensures t.resources[id].owner != u
    {
      assert id !in OwnedIds(t.resources, u);
    }
  }

  /** A user owns a resource exactly when the owned-id set is not empty; this
      is what makes the protected delete fail. */
  lemma {:induction false} OwnsIffNonEmpty(t: Tables, u: UserId)
    ensures OwnedIds(t.resources, u) != {} <==>
            exists id :: id in t.resources && t.resources[id].owner == u
  {
    if OwnedIds(t.resources, u) != {} {
      var id :| id in OwnedIds(t.resources, u);
      assert id in t.resources && t.resources[id].owner == u;
    }
    if exists id :: id in t.resources && t.resources[id].owner == u {
      var id :| id in t.resources && t.resources[id].owner == u;
      assert id in OwnedIds(t.resources, u);
    }
  }

  lemma WithProfileConsistent(t: Tables, u: UserId, firstName: string, lastName: string, isStaff: bool)
    requires Consistent(t) && u in t.users
    ensures Consistent(WithProfile(t, u, firstName, lastName, isStaff))
    ensures WithProfile(t, u, firstName, lastName, isStaff).users[u].email == t.users[u].email
  {
    var t' := WithProfile(t, u, firstName, lastName, isStaff);
    assert forall id :: id in t'.users ==> t'.users[id].email == t.users[id].email;
  }

  lemma WithLimitConsistent(t: Tables, u: UserId, limit: Option<nat>)
    requires Consistent(t) && u in t.quotas && ValidLimit(limit)
    ensures Consistent(WithLimit(t, u, limit))
    ensures WithLimit(t, u, limit).quotas[u] == UserQuota(u, limit)
  {
  }

  lemma WithResourceConsistent(t: Tables, owner: UserId, name: string)
    requires Consistent(t) && owner in t.users && ValidName(name)
    ensures t.nextResourceId !in t.resources
    ensures Consistent(WithResource(t, owner, name))
  {
  }

  lemma WithoutResourceConsistent(t: Tables, id: ResourceId)
    requires Consistent(t)
    ensures Consistent(WithoutResource(t, id))
  {
  }

  // ---- Resource counts ---------------------------------------------------

  /** A new resource adds one to its owner's count and leaves every other
      user's count alone. */
  lemma {:induction false} WithResourceCount(t: Tables, owner: UserId, name: string, u: UserId)
    requires WellFormed(t)
    ensures ResourceCount(WithResource(t, owner, name), u) ==
            ResourceCount(t, u) + (if u == owner then 1 else 0)
  {
    var n := t.nextResourceId;
    var before := OwnedIds(t.resources, u);
    var after := OwnedIds(WithResource(t, owner, name).resources, u);
    assert n !in before;
    if u == owner {
      assert after == before + {n};
    } else {
      assert after == before;
    }
  }

  /** Deleting a resource takes one from its owner's count only. */
  lemma {:induction false} WithoutResourceCount(t: Tables, id: ResourceId, u: UserId)
    requires id in t.resources
    ensures ResourceCount(WithoutResource(t, id), u) ==
            ResourceCount(t, u) - (if t.resources[id].owner == u then 1 else 0)
  {
    var before := OwnedIds(t.resources, u);
    var after := OwnedIds(WithoutResource(t, id).resources, u);
    if t.resources[id].owner == u {
      assert after == before - {id};
    } else {
      assert after == before;
    }
  }

  /** Deleting resources never breaks a limit that held. */
  lemma WithoutResourceKeepsLimit(t: Tables, id: ResourceId, u: UserId)
    requires id in t.resources
    requires WithinLimit(t, u)
    ensures WithinLimit(WithoutResource(t, id), u)
  {
    WithoutResourceCount(t, id, u);
  }

  /** Resource creation does not consult the quota: a user whose count already
      equals the limit ends up above it after one more creation. */
  lemma AddingAtLimitExceedsIt(t: Tables, owner: UserId, name: string)
    requires WellFormed(t)
    requires owner in t.quotas && t.quotas[owner].limit == Some(ResourceCount(t, owner))
    ensures !WithinLimit(WithResource(t, owner, name), owner)
  {
    WithResourceCount(t, owner, name, owner);
  }

  // ---- The mutable database ------------------------------------------------

  class Store {
    var users: map<UserId, User>
    var quotas: map<UserId, UserQuota>
    var resources: map<ResourceId, Resource>
    var nextUserId: UserId
    var nextResourceId: ResourceId

    function Snapshot(): Tables
      reads this
    {
      Tables(users, quotas, resources, nextUserId, nextResourceId)
    }

    ghost predicate Valid()
      reads this
    {
      Consistent(Snapshot())
    }

    /** An empty database; the id sequences start at 1. */
    constructor ()
      ensures Valid()
      ensures users == map[] && quotas == map[] && resources == map[]
    {
      users, quotas, resources := map[], map[], map[];
      nextUserId, nextResourceId := 1, 1;
    }

    /** First save() of a new user: only the user row is inserted here; the
        post_save receiver adds the quota row. */
    method InsertUser(email: string, credential: string, isStaff: bool) returns (id: UserId)
      requires Valid()
      requires !EmailInUse(users, email)
      modifies this
      ensures id == old(nextUserId) && id !in old(users)
      ensures Snapshot() == WithUser(old(Snapshot()), email, credential, isStaff)
      ensures WellFormed(Snapshot()) && id in users && quotas.Keys == users.Keys - {id}
    {
      WithUserWellFormed(Snapshot(), email, credential, isStaff);
      id := nextUserId;
      users := users[id := Construct(id, email, credential, isStaff, None)];
      nextUserId := id + 1;
    }

    /** A later save() of an existing user: UPDATE of the editable columns. */
    method UpdateUser(u: UserId, firstName: string, lastName: string, isStaff: bool)
      requires Valid() && u in users
      modifies this
      ensures Snapshot() == WithProfile(old(Snapshot()), u, firstName, lastName, isStaff)
      ensures Valid() && users[u].email == old(users[u].email)
    {
      WithProfileConsistent(Snapshot(), u, firstName, lastName, isStaff);
      users := users[u := users[u].(firstName := firstName, lastName := lastName, isStaff := isStaff)];
    }

    /** UserQuota.objects.create(user=u): the primary key is the user's id. */
    method InsertQuota(u: UserId)
      requires WellFormed(Snapshot()) && u in users && u !in quotas
      modifies this`quotas
      ensures Snapshot() == WithQuota(old(Snapshot()), u)
      ensures WellFormed(Snapshot())
    {
      quotas := quotas[u := UserQuota(u, DefaultLimit)];
    }

    /** Deleting a user: refused (ProtectedError) while a resource refers to
        the user, in which case nothing changes; otherwise the user row and,
        by cascade, the quota row go. */
    method DeleteUser(u: UserId) returns (deleted: bool)
      requires Valid() && u in users
      modifies this
      ensures deleted <==> OwnedIds(old(resources), u) == {}
      ensures Snapshot() == if deleted then WithoutUser(old(Snapshot()), u) else old(Snapshot())
      ensures Valid()
    {
      if OwnedIds(resources, u) == {} {
        WithoutUserConsistent(Snapshot(), u);
        users := users - {u};
        quotas := quotas - {u};
        deleted := true;
      } else {
        deleted := false;
      }
    }

    /** UPDATE of a quota's limit. */
    method SetQuotaLimit(u: UserId, limit: Option<nat>)
      requires Valid() && u in quotas && ValidLimit(limit)
      modifies this
      ensures Snapshot() == WithLimit(old(Snapshot()), u, limit)
      ensures Valid()
    {
      WithLimitConsistent(Snapshot(), u, limit);
      quotas := quotas[u := quotas[u].(limit := limit)];
    }

    /** INSERT of a resource row. */
    method InsertResource(owner: UserId, name: string) returns (id: ResourceId)
      requires Valid() && owner in users && ValidName(name)
      modifies this
      ensures id == old(nextResourceId) && id !in old(resources)
      ensures Snapshot() == WithResource(old(Snapshot()), owner, name)
      ensures Valid()
    {
      WithResourceConsistent(Snapshot(), owner, name);
      id := nextResourceId;
      resources := resources[id := Resource(id, owner, name)];
      nextResourceId := id + 1;
    }

    /** DELETE of a resource row. */
    method DeleteResource(id: ResourceId)
      requires Valid() && id in resources
      modifies this
      ensures Snapshot() == WithoutResource(old(Snapshot()), id)
      ensures Valid()
    {
      WithoutResourceConsistent(Snapshot(), id);
      resources := resources - {id};
    }
  }
}
