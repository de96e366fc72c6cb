/**
 * JavaScript values as they arrive in request bodies, query strings and API
 * responses (decoded JSON, plus `undefined` for an absent property), with the
 * language's truthiness and property access.
 */
module JsValues {
  import opened Wrappers

  /** Numbers are modelled as integers; fractional JSON numbers are not represented. */
  datatype Value =
    | Undefined
    | Null
    | Bool(b: bool)
    | Num(n: int)
    | Str(s: string)
    | Arr(items: seq<Value>)
    | Obj(props: map<string, Value>)

  /** `!!v`: false exactly for undefined, null, false, 0 and the empty string. */
  predicate Truthy(v: Value) {
    match v
    case Undefined => false
    case Null => false
    case Bool(b) => b
    case Num(n) => n != 0
    case Str(s) => s != []
    case Arr(_) => true
    case Obj(_) => true
  }

  /**
   * `v.key`: a missing property reads as `undefined`; reading a property of
   * `null` or `undefined` throws a TypeError, modelled as `None`.
   * Properties inherited from built-in prototypes are not modelled.
   */
  function Get(v: Value, key: string): (r: Option<Value>)
    ensures r.None? <==> v.Undefined? || v.Null?
    ensures v.Obj? ==> r == Some(if key in v.props then v.props[key] else Undefined)
    ensures !v.Obj? && r.Some? ==> r.value == Undefined
  {
    match v
    case Undefined => None
    case Null => None
    case Obj(props) => Some(if key in props then props[key] else Undefined)
    case _ => Some(Undefined)
  }

  /** `Array.isArray(v) && v.length > 0`. */
  predicate IsNonEmptyArray(v: Value) {
    v.Arr? && |v.items| > 0
  }
}
