/**
 * The JavaScript values that flow through the front-end untyped: HTTP response bodies,
 * bridge answers and the record fields copied out of them.
 */
module JsValue {

  /**
   * A JavaScript value as a JSON body or a bridge answer can carry it. Numbers are reals
   * (NaN and the infinities are not modelled); an array is an object keyed by its indices.
   */
  datatype Value =
    | Undefined
    | Null
    | Bool(b: bool)
    | Number(n: real)
    | Str(s: string)
    | Object(props: map<string, Value>)

  /** ToBoolean: what `if (v)`, `v && ...` and `v || ...` test. */
  predicate Truthy(v: Value)
  {
    match v
    case Undefined => false
    case Null => false
    case Bool(b) => b
    case Number(n) => n != 0.0
    case Str(s) => s != ""
    case Object(_) => true
  }

  /** The `typeof` operator (note that `typeof null` is "object"). */
  function TypeOf(v: Value): string
  {
    match v
    case Undefined => "undefined"
    case Null => "object"
    case Bool(_) => "boolean"
    case Number(_) => "number"
    case Str(_) => "string"
    case Object(_) => "object"
  }

  /** `null` or `undefined`: the two values whose properties cannot be read. */
  predicate Nullish(v: Value)
  {
    v.Undefined? || v.Null?
  }

  /** The `key in v` operator on an object (on a primitive it would throw). */
  predicate HasProperty(v: Value, key: string)
    requires v.Object?
  {
    key in v.props
  }

  /** Reading `v.key` where `v` is not nullish: a missing own property reads as `undefined`. */
  function Read(v: Value, key: string): Value
    requires !Nullish(v)
  {
    if v.Object? && key in v.props then v.props[key] else Undefined
  }
}
