/** The post_save receiver for users: the first save of a user creates that
    user's quota row. */
module Signals {
  import opened Common
  import opened ResourceModels
  import opened Database

  /** Called after every save of a user; `created` is true only for the save
      that inserted the row, so only then can the user still lack a quota. It
      writes nothing but that one quota row. */
  method UserSaved(s: Store, id: UserId, created: bool)
    requires WellFormed(s.Snapshot()) && id in s.users
    requires s.quotas.Keys == if created then s.users.Keys - {id} else s.users.Keys
    modifies s`quotas
    ensures s.Valid()
    ensures created ==> s.quotas == old(s.quotas)[id := UserQuota(id, None)]
    ensures !created ==> s.quotas == old(s.quotas)
    ensures s.users == old(s.users) && s.resources == old(s.resources)
  {
    if created {
      WithQuotaCompletes(s.Snapshot(), id);
      s.InsertQuota(id);
    }
  }
}
