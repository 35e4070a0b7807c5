/**
 * The JavaScript values the resolvers look at, JavaScript truthiness,
 * and plain objects ("records") as maps from property names to values.
 */
module JsValues {
  /**
   * A property value.  `ObjectId(n)` is a MongoDB ObjectID; the model
   * identifies each generated ObjectID by a natural number.
   * Numbers are integers only (NaN and fractions are not modelled).
   */
  datatype JsValue =
    | Undefined
    | Null
    | Bool(b: bool)
    | Num(n: int)
    | Str(s: string)
    | ObjectId(oid: nat)

  /** A plain JavaScript object: its own enumerable properties. */
  type Record = map<string, JsValue>

  /** JavaScript truthiness: `undefined`, `null`, `false`, `0` and `""` are falsy; objects are truthy. */
  predicate Truthy(v: JsValue) {
    match v
    case Undefined => false
    case Null => false
    case Bool(b) => b
    case Num(n) => n != 0
    case Str(s) => |s| > 0
    case ObjectId(_) => true
  }

  /** Property access `o.key`: a missing property reads as `undefined`. */
  function Get(o: Record, key: string): (v: JsValue)
    ensures key !in o ==> v == Undefined
    ensures key in o ==> v == o[key]
  {
    if key in o then o[key] else Undefined
  }

  /**
   * The `user` of the request context: absent (`undefined`), `null` when
   * the token named no known user, or the user's document.
   */
  datatype ContextUser = UndefinedUser | NullUser | User(fields: Record)

  /**
   * The user's `_id` guarded by `&&`: a falsy context user is itself the
   * result, so an absent user gives `undefined` and a `null` one `null`.
   */
  function UserId(user: ContextUser): (v: JsValue)
    ensures user.UndefinedUser? ==> v == Undefined
    ensures user.NullUser? ==> v == Null
    ensures user.User? ==> v == Get(user.fields, "_id")
  {
    match user
    case UndefinedUser => Undefined
    case NullUser => Null
    case User(u) => Get(u, "_id")
  }
}
