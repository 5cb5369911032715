/**
 * Values shared by every route of the school-management application:
 * optional JSON fields, document ids, user roles and the identity a
 * request carries once its session token has been decoded.
 */
module Common {

  datatype Option<+T> = None | Some(value: T)

  /** A document id (an ObjectId in its string form); ids are opaque here. */
  type Id = string

  /** The four roles of `models/User.ts`. */
  datatype Role = ADMIN | TEACHER | STUDENT | PARENT

  /** A decoded session token: the user id (`sub`) and the role. */
  datatype Token = Token(sub: Id, role: Role)

  /** JavaScript truthiness of an optional string field of a JSON body. */
  predicate Present(field: Option<string>)
  {
    field.Some? && field.value != ""
  }

  /** The role names as stored in the database. */
  function RoleName(role: Role): string
  {
    match role
    case ADMIN => "ADMIN"
    case TEACHER => "TEACHER"
    case STUDENT => "STUDENT"
    case PARENT => "PARENT"
  }

  /** Reads a role name; anything outside the enum is refused. */
  function ParseRole(name: string): (r: Option<Role>)
    ensures r.Some? ==> RoleName(r.value) == name
    ensures forall role :: RoleName(role) == name ==> r == Some(role)
  {
    if name == "ADMIN" then Some(ADMIN)
    else if name == "TEACHER" then Some(TEACHER)
    else if name == "STUDENT" then Some(STUDENT)
    else if name == "PARENT" then Some(PARENT)
    else None
  }

  /** True when the caller holds a token with the given role (`verifyAdmin` and friends in `lib/rbac.ts`). */
  predicate HasRole(caller: Option<Token>, role: Role)
  {
    caller.Some? && caller.value.role == role
  }
}
