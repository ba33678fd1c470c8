/**
 * The JavaScript values the router inspects: the top-level entries of the
 * document, the options bag and the result a handler attaches to a response.
 */
module JsValues {

  /** A JavaScript value, as far as the router can tell values apart. */
  datatype JsValue =
    | Undefined
    | Null
    | Bool(b: bool)
    | Number(n: real)          // finite numbers; -0 is the same as 0
    | NaN
    | BigInt(i: int)
    | Str(s: string)
    | Symbol
    | Function
    | Array(items: seq<JsValue>)
    | PlainObject(fields: map<string, JsValue>)
    | OtherObject              // an object with another prototype (a Date, a class instance)

  /** `{}`: the result the fallback stage attaches. */
  const EmptyObject: JsValue := PlainObject(map[])

  /** lodash `_.isPlainObject`. */
  predicate IsPlainObject(v: JsValue) {
    v.PlainObject?
  }

  /** lodash `_.isArray`. */
  predicate IsArray(v: JsValue) {
    v.Array?
  }

  /**
   * JavaScript truthiness: what `if (v)` and `!v` test. The falsy values are
   * exactly `undefined`, `null`, `false`, `0`, `NaN`, `0n` and `""`; every
   * object and array is truthy, `{}` and `[]` included.
   */
  predicate Truthy(v: JsValue)
    ensures !Truthy(v) <==> v in {Undefined, Null, Bool(false), Number(0.0), NaN, BigInt(0), Str("")}
    ensures v.Array? || v.PlainObject? || v.OtherObject? || v.Function? ==> Truthy(v)
  {
    match v
    case Undefined => false
    case Null => false
    case Bool(b) => b
    case Number(n) => n != 0.0
    case NaN => false
    case BigInt(i) => i != 0
    case Str(s) => s != ""
    case _ => true
  }

  /** The `typeof` operator. */
  function TypeOf(v: JsValue): (t: string)
    ensures t == "object" <==> v.Null? || v.Array? || v.PlainObject? || v.OtherObject?
    ensures t == "number" <==> v.Number? || v.NaN?
  {
    match v
    case Undefined => "undefined"
    case Null => "object"
    case Bool(_) => "boolean"
    case Number(_) => "number"
    case NaN => "number"
    case BigInt(_) => "bigint"
    case Str(_) => "string"
    case Symbol => "symbol"
    case Function => "function"
    case Array(_) => "object"
    case PlainObject(_) => "object"
    case OtherObject => "object"
  }

  /** Reading an own property of a plain object; a missing one reads as `undefined`. */
  function Property(fields: map<string, JsValue>, key: string): JsValue
  {
    if key in fields then fields[key] else Undefined
  }
}
