/** Types shared by every module: identifiers, the resolved caller of a request,
    validation errors and the HTTP responses the API produces. */
module Common {

  /** Primary keys of users and resources (auto-incremented by the database). */
  type UserId = nat
  type ResourceId = nat

  datatype Option<+T> = None | Some(value: T) {
    function GetOr(default: T): T {
      match this
      case Some(v) => v
      case None => default
    }
  }

  datatype Result<+T, +E> = Success(value: T) | Failure(error: E)

  /** The identity the authentication layer resolved for a request (bearer token
      or none). The token machinery itself is outside the model. */
  datatype Caller = Anonymous | Authenticated(id: UserId)

  /** Input fields that can carry a validation error. */
  datatype Field = Email | Password | Name

  /** Field-level validation failures; every one is answered with HTTP 400. */
  datatype FieldError =
    | Required(field: Field)          // the key is absent from the request body
    | Blank(field: Field)             // the key is present with an empty string
    | InvalidEmail                    // refused by the email syntax validator
    | EmailTaken                      // "User with this email already exists."
    | WeakPassword                    // refused by the password-strength validators
    | NameTooLong                     // more than 200 characters
    | NoSuchUser                      // an explicit user_id that names no user
    | BelowMinimum                    // a negative limit
    | AboveMaximum                    // a limit outside the column's integer range
    | BelowResourceCount(count: nat)  // a limit under the user's current resource count
    | StillReferenced                 // "Cannot delete the user because other objects is referenced to it."
    | UnknownFilterUser               // a ?user_id= filter value that names no user

  /** Rendered representations. Each constructor has exactly the fields its
      serializer lists, so a field that is not there cannot leak. */
  datatype Body =
    | QuotaBody(userId: UserId, limit: Option<nat>)
    | ResourceBody(id: ResourceId, userId: UserId, name: string)
    | UserBody(id: UserId, email: string, firstName: string, lastName: string, isStaff: bool)
    | MeBody(id: UserId, email: string, firstName: string, lastName: string)
    | RegistrationBody(id: UserId, email: string)
    | TokenPair(userId: UserId)       // access and refresh tokens issued for this user

  datatype Response =
    | Ok(body: Body)
    | OkList(items: set<Body>)
    | Created(body: Body)
    | NoContent
    | BadRequest(errors: set<FieldError>)
    | Unauthorized
    | Forbidden
    | NotFound
    | MethodNotAllowed
}
