/** The quota and resource rows and the constraints their columns declare. */
module ResourceModels {
  import opened Common

  /** max_length of Resource.name. */
  const NameMaxLength: nat := 200

  /** Largest value a PositiveIntegerField column accepts (its range validator). */
  const LimitMax: nat := 2147483647

  /** One row per user, keyed by the user's id; `limit` None means unlimited. */
  datatype UserQuota = UserQuota(user: UserId, limit: Option<nat>)

  /** A named resource with an owner that is fixed when the row is inserted. */
  datatype Resource = Resource(id: ResourceId, owner: UserId, name: string)

  /** The default limit of a new quota row. */
  const DefaultLimit: Option<nat> := None

  /** blank=False and max_length=200. */
  predicate ValidName(name: string) {
    0 < |name| <= NameMaxLength
  }

  /** A non-negative integer within the column's range, or null. */
  predicate ValidLimit(limit: Option<nat>) {
    limit.Some? ==> limit.value <= LimitMax
  }
}
