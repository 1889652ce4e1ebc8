# simple-resources-api: ownership, quotas and authorization in Dafny

This project models the core of simple-resources-api, a small Django REST
Framework backend. Users register, log in, and manage named *resources*. Each
user has exactly one *quota* row holding an optional limit that staff set.

The model has three parts:

- **The store.** The three tables are finite maps inside a mutable `Store`
  class: users keyed by id, quotas keyed by user id, and resources keyed by id.
  The schema's integrity rules are stated as predicates over a snapshot value
  `Tables`. `WellFormed` covers keys, the unique email, existing owners and
  bounded names. `Consistent` adds one quota per user.
  - Each write is a `Store` method whose postcondition ties the new snapshot to
    a row-level transition function (`WithUser`, `WithQuota`, `WithoutUser`,
    `WithLimit`, `WithResource`, `WithoutResource`, `WithProfile`).
  - Lemmas about those functions prove that each transition keeps
    `Consistent`, and how it changes each user's resource count.
- **The post_save receiver.** `Signals.UserSaved` runs after every save of a
  user.
  - The first save of a user (`Store.InsertUser`) leaves the store well formed
    but one quota short.
  - The receiver's insert of the quota row restores one quota per user.
  - A re-save adds nothing.
- **The authorization decision.** `Policy.Decide` maps a caller kind
  (anonymous, regular, staff), a route and an HTTP method to either an action
  or a refusal.
  - The permission class is checked before the method is looked up, so
    refusals are 401 for an anonymous caller and 403 for an authenticated one.
  - An allowed caller gets 405 for a method the route does not offer.
  - 404 never comes from the decision. It comes from the lookups in the
    handlers, which search the caller's scoped queryset, so another user's
    resource is "not found".
  - The quota and resource endpoints accept a `?user_id=` filter. The filter
    field is the user relation, so a value that names no user is refused with
    400 before any row is read, on lists and on single-row lookups alike.

Each endpoint handler is modelled as follows:

- Read-only endpoints are functions of `Tables`. Writing endpoints are methods
  on the `Store`.
- Every handler first calls `Decide`, then validates the request body the way
  the serializer does, then performs its transition.
- Validation failures are `BadRequest` with a set of field errors.

Three behaviours of the code are worth stating outright:

- **No quota check on creation.** Resource creation never reads the owner's
  limit (`src/resources/serializers.py:14-23`).
  `Database.AddingAtLimitExceedsIt` proves that one more creation takes a
  user at the limit over it.
- **Explicit owner honoured.** An explicit `user_id` naming an existing user
  is honoured for any authenticated caller, staff or not
  (`ResourcesSerializers.ValidateResource`).
- **Limit below the resource count.** A limit below the user's current resource
  count is refused with 400. `src/resources/tests.py:60-76` expects this, but
  `UserQuotaSerializer` (`src/resources/serializers.py:7-11`) shows no
  validator for it, so the rule comes from those tests.
  `ResourcesSerializers.ValidateLimit` states it.

## Model

| member | source | states |
|---|---|---|
| UserModels.UsernameDiscarded | src/users/models.py:22-30 | The `username` argument has no effect on the constructed user, and the user's email is the one given. |
| UserModels.FindByEmail | src/users/models.py:20-23 | Under unique emails, the lookup by the login field finds a user exactly when one has that email, and that user is the only one with it. |
| Database.WithUserWellFormed | src/users/serializers.py:19-22 | Inserting a user with an unused email takes a fresh id and keeps emails unique and every other constraint. The only gap is that the new user has no quota yet. |
| Database.WithQuotaCompletes | src/resources/signals.py:8-11 | Adding the missing quota row restores one quota per user. It adds exactly one quota, owned by that user, with no limit. |
| Database.WithoutUserConsistent | src/resources/models.py:7-14 | Deleting a user who owns no resource keeps every constraint, and the cascade removes the user's quota. |
| Database.OwnsIffNonEmpty | src/resources/models.py:14 | A user is referenced by some resource exactly when the user's owned-id set is non-empty, in both directions. |
| Database.WithProfileConsistent | src/users/models.py:20 | A profile update keeps every constraint and leaves the user's email unchanged. |
| Database.WithLimitConsistent | src/resources/models.py:7-10 | Setting a valid limit keeps every constraint, and the quota stays keyed by the same user. |
| Database.WithResourceConsistent | src/resources/models.py:13-15 | Inserting a resource with an existing owner and a valid name takes a fresh id and keeps every constraint. |
| Database.WithoutResourceConsistent | src/resources/models.py:13-15 | Deleting a resource keeps every constraint. |
| Database.WithResourceCount | src/resources/models.py:14 | A new resource adds one to its owner's count and leaves every other user's count unchanged. |
| Database.WithoutResourceCount | src/resources/models.py:14 | Deleting a resource subtracts one from its owner's count only. |
| Database.WithoutResourceKeepsLimit | src/resources/models.py:10-14 | Deleting a resource never breaks a limit that held. |
| Database.AddingAtLimitExceedsIt | src/resources/serializers.py:14-23 | Creation does not consult the quota. A user whose count equals the limit is over it after one more creation. |
| Database.Store.constructor | src/resources/models.py:6-15 | The empty store satisfies every constraint. |
| Database.Store.InsertUser | src/users/serializers.py:19-22 | The first save inserts only the user row, with a fresh id and blank names, and leaves the store well formed with exactly that user lacking a quota. |
| Database.Store.UpdateUser | src/users/models.py:20 | A re-save updates the names and the staff flag. The email stays and every constraint holds. |
| Database.Store.InsertQuota | src/resources/signals.py:11 | Inserts the user's quota row with the default limit (none), keyed by the user. |
| Database.Store.DeleteUser | src/resources/models.py:7-14 | The user is deleted exactly when no resource refers to them, and the cascade removes the quota. When a resource refers to the user, nothing changes. |
| Database.Store.SetQuotaLimit | src/resources/models.py:10 | Writes the new limit into the user's quota and keeps every constraint. |
| Database.Store.InsertResource | src/resources/models.py:13-15 | Inserts the resource with a fresh id and keeps every constraint. |
| Database.Store.DeleteResource | src/resources/models.py:13-15 | Removes the resource row and keeps every constraint. |
| Signals.UserSaved | src/resources/signals.py:8-11 | On the creating save it adds exactly the new user's unlimited quota, and on a re-save it adds none. It never touches users or resources, and it leaves the store consistent. |
| Policy.Decide | src/users/views.py:25-63 | A request is allowed exactly when the view's permission class grants the caller and the route maps the method to an action. Otherwise the refusal is 401 only for no identity, 403 only for an identity, and 405 only for a granted caller. |
| Policy.QuotaEndpointsStaffOnly | src/resources/views.py:11-17 | Every quota request is 401 for no identity and 403 for a regular user. Staff reach list, retrieve, update and partial update only. |
| Policy.UserEndpointsStaffOnly | src/users/views.py:41-44 | Every user-management request, creation included, is 401 for no identity and 403 for a regular user. Staff reach exactly the routed actions. |
| Policy.RegistrationOnlyAnonymous | src/users/views.py:25-27 | Registration is allowed for a caller without an identity and is 403 for a regular user or staff. |
| Policy.LoginOpenToAll | src/users/views.py:30-38 | Login is allowed for every caller. |
| Policy.ResourceEndpoints | src/resources/urls.py:12-15 | Resource requests need an identity. They offer create and list on the collection and retrieve and delete on an item. PUT and PATCH are 405. |
| Policy.PutPatchAgree | src/users/urls.py:15-21 | On every route, PUT and PATCH are allowed for the same callers and refused with the same status: the user, "me" and quota route tables (src/resources/urls.py:7-9) map both or neither. |
| Policy.MeEndpoints | src/users/urls.py:19-21 | The "me" route needs an identity and offers get, put and patch. DELETE is 405. |
| UsersSerializers.ValidateRegistration | src/users/serializers.py:11-17 | A registration body is accepted exactly when the email is present, non-blank, an address and not in use, and the password is present, non-blank and accepted. A missing field is reported as required. For a non-blank email, "email taken" is reported exactly when the email is in use and "invalid email" exactly when the syntax check refuses it, independently of each other. |
| UsersSerializers.BothEmailValidatorsReport | src/users/serializers.py:13-16 | An email that is both malformed and already in use gets both errors, since the field's two validators both run. |
| UsersSerializers.RegistrationCreate | src/users/serializers.py:19-23 | Creating a user saves a new non-staff user, and the receiver gives that user a quota. The store stays consistent. |
| UsersSerializers.RegistrationOutcome | src/users/serializers.py:19-23 | A registration adds exactly one user, with the given email and not staff. It adds exactly one quota, that user's, with no limit. Every other row is unchanged. |
| UsersSerializers.ViewsHideCredentialAndRole | src/users/serializers.py:41-50 | No rendering depends on the stored credential. The self view does not depend on the staff flag, and the staff view shows it. |
| UsersSerializers.EditsIgnoreEmail | src/users/models.py:20 | The email in an edit body never affects the written columns. An omitted field keeps its value and a given one replaces it. |
| ResourcesSerializers.ViewsIdentifyRows | src/resources/serializers.py:7-23 | A quota renders as (user_id, limit) and a resource as (id, user_id, name). Distinct rows render distinctly. |
| ResourcesSerializers.ValidateResource | src/resources/serializers.py:14-23 | A body is accepted exactly when any given user_id names an existing user and the name is non-blank and at most 200 characters. An omitted owner is the requester, a given one is honoured, and an unknown user_id is an error. |
| ResourcesSerializers.ValidateLimit | src/resources/tests.py:60-76 | A limit is refused exactly when it is negative, beyond the column's range, or below the current count, with one error. Null clears the limit, and an omitted limit keeps it. An accepted value is at least the count. |
| ResourcesSerializers.AcceptedLimitHolds | src/resources/tests.py:66-76 | Writing an accepted limit leaves the user within it. |
| ResourcesSerializers.QuotaScenarios | src/resources/tests.py:53-76 | With one resource, limit 0 is refused and limits 1 and 2 are stored as given. |
| ResourcesViews.ListQuotas | src/resources/views.py:11-17 | 401 or 403 for non-staff. For staff, 400 when the filter names no user, otherwise exactly the quotas of the users matching the filter, each with its user's limit. |
| ResourcesViews.FilteredQuotaList | src/resources/views.py:17 | Filtering by an existing user's id lists exactly that user's one quota, and filtering by an id that names no user is answered 400. |
| ResourcesViews.RetrieveQuota | src/resources/views.py:14-16 | A quota is addressed by its user's id. Staff get 400 when the filter names no user. Otherwise they get the quota exactly when that user exists and matches the filter, with that user_id, and 404 when not. |
| ResourcesViews.UpdateQuota | src/resources/views.py:11-17 | After the decision, the filter check (400 for a filter naming no user) and the lookup, the limit is validated against the user's count and written. The response carries the same user_id and the new limit. A refusal changes nothing, and an accepted value leaves the user within it. |
| ResourcesViews.VisibleByCaller | src/resources/views.py:32-41 | The visible set is empty for an anonymous caller, exactly the caller's own resources for a regular caller, and every resource for staff. |
| ResourcesViews.ScopedByFilter | src/resources/views.py:30-41 | With a user_id filter, staff see exactly that user's resources. A regular caller sees nothing unless filtering by their own id. |
| ResourcesViews.ListResources | src/resources/views.py:20-41 | 401 for no identity and 400 for a filter naming no user. Otherwise exactly the visible resources matching the filter, each rendered from its row. |
| ResourcesViews.RetrieveResource | src/resources/views.py:32-41 | 400 for a filter naming no user. Otherwise a resource is returned exactly when it is in the caller's scoped and filtered queryset, and 404 when not. |
| ResourcesViews.OthersResourcesAreNotFound | src/resources/views.py:38-39 | A regular caller asking for another user's resource gets 404, never 403 (or the filter's 400 when the filter names no user). |
| ResourcesViews.CreateResource | src/resources/serializers.py:14-23 | A valid body inserts one resource with the chosen owner, without consulting the quota, and answers 201 with its rendering. The owner's count grows by one. An invalid body is 400 and changes nothing. |
| ResourcesViews.DestroyResource | src/resources/views.py:20-41 | A resource in the caller's scoped and filtered queryset is deleted with 204. Otherwise the answer is 404, or 400 for a filter naming no user, or 401 without an identity, and nothing changes. |
| UsersViews.SaveRegistration | src/users/serializers.py:11-23 | A valid body creates the user and the quota and answers 201 with (id, email). An invalid body is 400 with its errors and changes nothing. |
| UsersViews.Register | src/users/views.py:25-27 | An authenticated caller gets 403 and nothing changes. Otherwise the registration rules apply. |
| UsersViews.CreateUser | src/users/views.py:46-51 | Staff create users by the registration rules. Others get 401 or 403 and nothing changes. |
| UsersViews.Login | src/users/views.py:30-38 | 400 exactly when a credential field is missing or blank. 201 with a token pair exactly when some user has that email and password, and the pair names that user. 401 otherwise. |
| UsersViews.ListUsers | src/users/views.py:41-44 | 401 or 403 for non-staff. For staff, exactly the staff view of every user. |
| UsersViews.RetrieveUser | src/users/views.py:41-44 | Staff get the staff view of an existing user, and 404 when the user is missing. Others get 401 or 403. |
| UsersViews.UpdateUser | src/users/views.py:41-51 | Staff change the names and the staff flag of an existing user. The email and the quotas stay, and the response is the staff view. Others get 401, 403 or 404 with no change. |
| UsersViews.DestroyUser | src/users/views.py:53-57 | A user still referenced by a resource is not deleted and the answer is 400. Otherwise the user and the user's quota go and the answer is 204. Others get 401, 403 or 404 with no change. |
| UsersViews.RetrieveMe | src/users/views.py:60-66 | An authenticated caller always gets their own record in the self view. No identity gets 401. |
| UsersViews.UpdateMe | src/users/views.py:60-66 | The caller's names change. The caller's email and staff flag and every other user stay unchanged, and no identity gets 401. |

## Left out

- Token issuance (`AuthTokenSerializer`, the JWT library): login answers a `TokenPair` naming the user; the tokens themselves are not modelled.
- Password hashing and the password-strength validators: the stored credential is an abstract string compared for equality, and strength is the `passwordAccepted` parameter of `Validators`.
- Email syntax: the `isEmailAddress` parameter of `Validators`.
- Concurrency, transactions and row locking: every operation is one atomic sequential transition; the code takes no lock.
- The inactive-user check of login: the source's `User` inherits `is_active`, but the model's `User` omits it, so refusing an inactive user's login with 401 is not modelled.
- `UserManager.create_user` and `create_superuser`: they only forward to the framework's user creation and are not reached by any endpoint.
- `RegistrationSerializer.update`: it raises and no route reaches it, since user updates use `UserSerializer`.
- HEAD and OPTIONS requests, the swagger and redoc views and URL regexes.
- A `user_id` filter value that is not an integer: the filter backend refuses it with 400, but the model types the filter as a user id, so only the 400 for an id naming no user is modelled.
- Whitespace trimming of string fields and the 150-character bound on first and last names.
- Form-encoded PUT of a user without `is_staff`, which the framework reads as false: the model treats every omitted field as kept.
- The database's own IntegrityError paths (a race on the unique email): the serializer check is the only email check modelled.
- Test scaffolding (random strings and emails, client setup).
