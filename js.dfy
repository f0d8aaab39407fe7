/** JavaScript values as they reach the handlers: parsed JSON request bodies and stored documents. */
module Js {

  datatype Option<+T> = None | Some(value: T)

  /** A JavaScript value. `Undefined` is what reading an absent key gives. */
  datatype Value =
    | Undefined
    | Null
    | Bool(b: bool)
    | Num(n: real)
    | NaN
    | Str(s: string)
    | Structured   // an object or an array: always truthy

  /** JavaScript truthiness, the meaning of `!x` in a condition. */
  predicate Truthy(v: Value)
  {
    match v
    case Undefined => false
    case Null => false
    case Bool(b) => b
    case Num(n) => n != 0.0
    case NaN => false
    case Str(s) => s != ""
    case Structured => true
  }
}
