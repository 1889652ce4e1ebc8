/** The authorization decision: which view serves a route, which permission class
    guards the view, which HTTP methods the route tables map to an action, and
    the status a refused request gets. 404 never comes from here: it comes from
    the lookups in the views, after the request is allowed. */
module Policy {
  import opened Common

  /** The caller as the permission classes see it. */
  datatype CallerKind = Unauthenticated | Regular | Staff

  datatype Route =
    | RegisterRoute   // /api/v1/register
    | LoginRoute      // /api/v1/login
    | UsersRoute      // /api/v1/users
    | UserRoute       // /api/v1/users/<pk>
    | MeRoute         // /api/v1/users/me
    | QuotasRoute     // /api/v1/quotas
    | QuotaRoute      // /api/v1/quotas/<user_id>
    | ResourcesRoute  // /api/v1/resources
    | ResourceRoute   // /api/v1/resources/<pk>

  datatype HttpMethod = Get | Post | Put | Patch | Delete

  datatype Action = List | Create | Retrieve | Update | PartialUpdate | Destroy | ObtainToken

  datatype View = RegisterView | AuthView | UserView | MeUserView | UserQuotaView | ResourcesView

  datatype Permission = AllowAny | IsAuthenticated | NotAuthenticated | IsAdminUser

  function ViewOf(route: Route): View {
    match route
    case RegisterRoute => RegisterView
    case LoginRoute => AuthView
    case UsersRoute => UserView
    case UserRoute => UserView
    case MeRoute => MeUserView
    case QuotasRoute => UserQuotaView
    case QuotaRoute => UserQuotaView
    case ResourcesRoute => ResourcesView
    case ResourceRoute => ResourcesView
  }

  /** The permission_classes of each view. */
  function PermissionOf(view: View): Permission {
    match view
    case RegisterView => NotAuthenticated
    case AuthView => AllowAny
    case UserView => IsAdminUser
    case MeUserView => IsAuthenticated
    case UserQuotaView => IsAdminUser
    case ResourcesView => IsAuthenticated
  }

  predicate Grants(p: Permission, kind: CallerKind) {
    match p
    case AllowAny => true
    case IsAuthenticated => kind != Unauthenticated
    case NotAuthenticated => kind == Unauthenticated
    case IsAdminUser => kind == Staff
  }

  /** The method-to-action tables of the URL configuration. */
  function ActionOf(route: Route, m: HttpMethod): Option<Action> {
    match (route, m)
    case (RegisterRoute, Post) => Some(Create)
    case (LoginRoute, Post) => Some(ObtainToken)
    case (UsersRoute, Post) => Some(Create)
    case (UsersRoute, Get) => Some(List)
    case (UserRoute, Get) => Some(Retrieve)
    case (UserRoute, Delete) => Some(Destroy)
    case (UserRoute, Put) => Some(Update)
    case (UserRoute, Patch) => Some(PartialUpdate)
    case (MeRoute, Get) => Some(Retrieve)
    case (MeRoute, Put) => Some(Update)
    case (MeRoute, Patch) => Some(PartialUpdate)
    case (QuotasRoute, Get) => Some(List)
    case (QuotaRoute, Get) => Some(Retrieve)
    case (QuotaRoute, Put) => Some(Update)
    case (QuotaRoute, Patch) => Some(PartialUpdate)
    case (ResourcesRoute, Post) => Some(Create)
    case (ResourcesRoute, Get) => Some(List)
    case (ResourceRoute, Get) => Some(Retrieve)
    case (ResourceRoute, Delete) => Some(Destroy)
    case _ => None
  }

  datatype Decision = Allow(action: Action) | Refuse(status: Response)

  /** Permissions are checked before the handler for the method is looked up,
      so a refused caller never learns which methods a route has. A refusal is
      401 when no identity was resolved and 403 otherwise. */
  function Decide(kind: CallerKind, route: Route, m: HttpMethod): (d: Decision)
    ensures d.Allow? <==> Grants(PermissionOf(ViewOf(route)), kind) && ActionOf(route, m).Some?
    ensures d.Allow? ==> ActionOf(route, m) == Some(d.action)
    ensures d.Refuse? ==> d.status in {Unauthorized, Forbidden, MethodNotAllowed}
    ensures d == Refuse(Unauthorized) ==> kind == Unauthenticated
    ensures d == Refuse(Forbidden) ==> kind != Unauthenticated
    ensures d == Refuse(MethodNotAllowed) ==> Grants(PermissionOf(ViewOf(route)), kind)
  {
    if !Grants(PermissionOf(ViewOf(route)), kind) then
      Refuse(if kind == Unauthenticated then Unauthorized else Forbidden)
    else
      match ActionOf(route, m)
      case None => Refuse(MethodNotAllowed)
      case Some(a) => Allow(a)
  }

  /** Every quota operation is staff-only: 401 without an identity, 403 for a
      regular user; staff reach exactly list, retrieve, update and partial update. */
  lemma QuotaEndpointsStaffOnly(kind: CallerKind, route: Route, m: HttpMethod)
    requires route == QuotasRoute || route == QuotaRoute
    ensures kind == Unauthenticated ==> Decide(kind, route, m) == Refuse(Unauthorized)
    ensures kind == Regular ==> Decide(kind, route, m) == Refuse(Forbidden)
    ensures kind == Staff && route == QuotasRoute ==>
      Decide(kind, route, m) == if m == Get then Allow(List) else Refuse(MethodNotAllowed)
    ensures kind == Staff && route == QuotaRoute ==>
      (Decide(kind, route, m).Allow? <==> m in {Get, Put, Patch})
  {
  }

  /** User management is staff-only for every method, creation included. */
  lemma UserEndpointsStaffOnly(kind: CallerKind, route: Route, m: HttpMethod)
    requires route == UsersRoute || route == UserRoute
    ensures kind == Unauthenticated ==> Decide(kind, route, m) == Refuse(Unauthorized)
    ensures kind == Regular ==> Decide(kind, route, m) == Refuse(Forbidden)
    ensures kind == Staff && route == UsersRoute ==> (Decide(kind, route, m).Allow? <==> m in {Get, Post})
    ensures kind == Staff && route == UserRoute ==> (Decide(kind, route, m).Allow? <==> m != Post)
  {
  }

  /** Registration is open only to callers without an identity; a logged-in
      user or admin gets 403. */
  lemma RegistrationOnlyAnonymous(kind: CallerKind)
    ensures Decide(kind, RegisterRoute, Post) ==
      if kind == Unauthenticated then Allow(Create) else Refuse(Forbidden)
  {
  }

  /** Login is open to every caller. */
  lemma LoginOpenToAll(kind: CallerKind)
    ensures Decide(kind, LoginRoute, Post) == Allow(ObtainToken)
  {
  }

  /** Resource endpoints need an identity; they offer create, list, retrieve
      and delete and nothing else, so an update is answered 405. */
  lemma ResourceEndpoints(kind: CallerKind, route: Route, m: HttpMethod)
    requires route == ResourcesRoute || route == ResourceRoute
    ensures kind == Unauthenticated ==> Decide(kind, route, m) == Refuse(Unauthorized)
    ensures kind != Unauthenticated && route == ResourcesRoute ==>
      (Decide(kind, route, m).Allow? <==> m in {Get, Post})
    ensures kind != Unauthenticated && route == ResourceRoute ==>
      (Decide(kind, route, m).Allow? <==> m in {Get, Delete})
    ensures kind != Unauthenticated && m in {Put, Patch} ==> Decide(kind, route, m) == Refuse(MethodNotAllowed)
  {
  }

  /** PUT and PATCH reach the same callers on every route: where one is
      allowed the other is too, and a refusal has the same status. */
  lemma PutPatchAgree(kind: CallerKind, route: Route)
    ensures Decide(kind, route, Put).Allow? <==> Decide(kind, route, Patch).Allow?
    ensures Decide(kind, route, Put).Refuse? ==> Decide(kind, route, Put) == Decide(kind, route, Patch)
  {
  }

  /** The "me" endpoints need an identity and have no delete action. */
  lemma MeEndpoints(kind: CallerKind, m: HttpMethod)
    ensures kind == Unauthenticated ==> Decide(kind, MeRoute, m) == Refuse(Unauthorized)
    ensures kind != Unauthenticated && m == Delete ==> Decide(kind, MeRoute, m) == Refuse(MethodNotAllowed)
    ensures kind != Unauthenticated ==> (Decide(kind, MeRoute, m).Allow? <==> m in {Get, Put, Patch})
  {
  }
}
