/**
 * The handful of JavaScript value semantics the source depends on: truthiness
 * (`if (x)`, `x || d`, `!!x`), strict equality (`===`, `!==`) and `toString`.
 * Numbers are modelled as integers: the source only compares or prints them.
 */
module Js {
  import opened Strings

  datatype JsValue = Undefined | Null | Bool(b: bool) | Num(n: int) | Str(s: string) | Object

  /** What `if (v)` tests. Every object is truthy. */
  predicate Truthy(v: JsValue) {
    match v
    case Undefined => false
    case Null => false
    case Bool(b) => b
    case Num(n) => n != 0
    case Str(s) => s != ""
    case Object => true
  }

  /** `a === b`: values of different types are never strictly equal. */
  predicate StrictEquals(a: JsValue, b: JsValue) {
    match (a, b)
    case (Undefined, Undefined) => true
    case (Null, Null) => true
    case (Bool(x), Bool(y)) => x == y
    case (Num(x), Num(y)) => x == y
    case (Str(x), Str(y)) => x == y
    case _ => false
  }

  /** `String(v)`; an object prints as "[object Object]". */
  function ToJsString(v: JsValue): string {
    match v
    case Undefined => "undefined"
    case Null => "null"
    case Bool(b) => if b then "true" else "false"
    case Num(n) => IntToString(n)
    case Str(s) => s
    case Object => "[object Object]"
  }

  /** A number is never strictly equal to a string, whatever the two hold. */
  lemma NumberNeverEqualsString(n: int, s: string)
    ensures !StrictEquals(Num(n), Str(s))
  {
  }

  /** Only `undefined` is strictly equal to `undefined`. */
  lemma StrictEqualsUndefined(v: JsValue)
    ensures StrictEquals(v, Undefined) <==> v == Undefined
  {
  }
}
