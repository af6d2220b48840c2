/**
 * Request values as the route handlers see them: path parameters are strings,
 * body fields are parsed JSON values, and a missing key reads as `undefined`.
 */
module Values {

  /** A JSON value after parsing, plus JavaScript's `undefined` for an absent field.
      Arrays and objects are not looked into by any handler, so they are one case. */
  datatype JsonValue =
    | Undefined
    | Null
    | Bool(b: bool)
    | Number(n: real)
    | Text(s: string)
    | Composite

  /** JavaScript's truthiness test (`if (v)`), for the values a JSON body can carry.
      JSON has no NaN, so zero (of either sign) is the only falsy number. */
  predicate Truthy(v: JsonValue)
  {
    match v
    case Undefined => false
    case Null => false
    case Bool(b) => b
    case Number(n) => n != 0.0
    case Text(s) => |s| > 0
    case Composite => true
  }

  /** `const { name = "" } = request.params`: a path parameter, or "" when the route
      matched without it. */
  function PathParam(params: map<string, string>, name: string): string
  {
    if name in params then params[name] else ""
  }

  /** `const { name } = request.body`: a body field, or `undefined` when it is absent. */
  function BodyField(body: map<string, JsonValue>, name: string): JsonValue
  {
    if name in body then body[name] else Undefined
  }

  /** A row returned by the store: column name to value. */
  type Row = map<string, JsonValue>
}
