/** The JavaScript values the adapter produces or inspects.

    Numbers are modelled as reals: NaN, the infinities, -0 and the
    rounding of IEEE doubles are not represented. */
module Js {

  datatype JsValue =
    | Undefined
    | Null
    | Bool(b: bool)
    | Number(n: real)
    | Str(s: string)
    | Bytes(bytes: seq<bv8>)              // an ArrayBuffer
    | Array(elems: seq<JsValue>)
    | Object(fields: map<string, JsValue>)

  /** ToBoolean, section 7.1.2 of ECMA-262: what `if (!v)` tests. */
  predicate Truthy(v: JsValue) {
    match v
    case Undefined => false
    case Null => false
    case Bool(b) => b
    case Number(n) => n != 0.0
    case Str(s) => s != ""
    case Bytes(_) => true
    case Array(_) => true
    case Object(_) => true
  }
}
