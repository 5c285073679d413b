/**
 * The JSON values a request body can hold once parsed, and the JavaScript
 * operations the validator applies to them: truthiness, `typeof` and
 * property access.
 */
module JsValues {

  /** A parsed JSON value; numbers are finite, as JSON allows no others. */
  datatype JsValue =
    | Undefined
    | Null
    | Bool(b: bool)
    | Number(n: real)
    | Str(s: string)
    | Array(items: seq<JsValue>)
    | Object(fields: map<string, JsValue>)

  /** `!!v`. */
  predicate Truthy(v: JsValue)
  {
    match v
    case Undefined => false
    case Null => false
    case Bool(b) => b
    case Number(n) => n != 0.0
    case Str(s) => s != ""
    case Array(_) => true
    case Object(_) => true
  }

  /** `typeof v`. */
  function TypeOf(v: JsValue): (t: string)
    ensures t == "object" <==> v.Null? || v.Array? || v.Object?
    ensures t == "number" <==> v.Number?
    ensures t == "string" <==> v.Str?
  {
    match v
    case Undefined => "undefined"
    case Null => "object"
    case Bool(_) => "boolean"
    case Number(_) => "number"
    case Str(_) => "string"
    case Array(_) => "object"
    case Object(_) => "object"
  }

  /** Property access and destructuring succeed on every value except `null` and `undefined`. */
  predicate HasProperties(v: JsValue)
  {
    !v.Undefined? && !v.Null?
  }

  /**
   * `v[key]` for a key naming neither an array index nor a built-in
   * property: an object's own field, and `undefined` on anything else.
   */
  function Field(v: JsValue, key: string): (r: JsValue)
    requires HasProperties(v)
    ensures !v.Object? ==> r == Undefined
    ensures v.Object? && key !in v.fields ==> r == Undefined
  {
    if v.Object? && key in v.fields then v.fields[key] else Undefined
  }
}
