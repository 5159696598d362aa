/**
 * The JavaScript values that flow through plugin settings: what the options page submits,
 * what the store hands back, and what the schema defaults are.
 */
module Values {

  /** A JavaScript number, seen only as far as the settings validator distinguishes numbers. */
  datatype JsNumber =
    | Integral(i: int)   // a finite number with no fractional part
    | Fractional         // a finite number with a fractional part
    | Infinite           // +Infinity or -Infinity
    | NaN

  datatype Value =
    | Undefined
    | Null
    | Bool(b: bool)
    | Num(n: JsNumber)
    | Str(s: string)
    | Obj                // any object or array

  /** A settings record; a key that is absent reads as `undefined`. */
  type Record = map<string, Value>

  function Get(r: Record, key: string): (v: Value)
    ensures key !in r ==> v == Undefined
  {
    if key in r then r[key] else Undefined
  }

  /** JavaScript truthiness, as used by `if (x)` and `!x`. */
  predicate Truthy(v: Value) {
    match v
    case Undefined => false
    case Null => false
    case Bool(b) => b
    case Num(n) => !(n == Integral(0) || n == NaN)
    case Str(s) => s != ""
    case Obj => true
  }

  /** `Number.MAX_SAFE_INTEGER`, 2^53 - 1. */
  const MaxSafeInteger: int := 0x1F_FFFF_FFFF_FFFF

  /** `Number.isSafeInteger`. */
  predicate IsSafeInteger(n: JsNumber) {
    n.Integral? && -MaxSafeInteger <= n.i <= MaxSafeInteger
  }
}
