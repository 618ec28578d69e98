/** The small part of JavaScript's value model that the flow engine relies on:
    primitive values, their truthiness (`if (x)`, `!x`) and their string form
    (`String(x)`, which is also how a value becomes an object key). */
module Js {

  datatype Option<+T> = None | Some(value: T)

  /** A value, or the message of the `Error` the source throws instead. */
  datatype Result<+T> = Ok(value: T) | Err(message: string)

  /** The values that appear as block ids, results and errors. Objects other
      than errors never reach the code that inspects these values, and numbers
      are integers (no NaN, no fractions). */
  datatype JsValue =
    | Undefined
    | Null
    | Bool(b: bool)
    | Num(n: int)
    | Str(s: string)
    | Error(message: string)

  /** JavaScript truthiness: `false`, `0`, `""`, `null` and `undefined` are falsy. */
  predicate Truthy(v: JsValue) {
    match v
    case Undefined => false
    case Null => false
    case Bool(b) => b
    case Num(n) => n != 0
    case Str(s) => s != ""
    case Error(_) => true
  }

  /** An optional string property is truthy when it is present and not empty. */
  predicate Named(s: Option<string>) {
    s.Some? && s.value != ""
  }

  function DigitChar(d: nat): char
    requires d < 10
  {
    "0123456789"[d]
  }

  /** The decimal digits of `n`. */
  function Decimal(n: nat): string
    decreases n
  {
    if n < 10 then [DigitChar(n)] else Decimal(n / 10) + [DigitChar(n % 10)]
  }

  /** `String(v)`. */
  function ToString(v: JsValue): string {
    match v
    case Undefined => "undefined"
    case Null => "null"
    case Bool(b) => if b then "true" else "false"
    case Num(n) => if n < 0 then "-" + Decimal(-n) else Decimal(n)
    case Str(s) => s
    case Error(m) => if m == "" then "Error" else "Error: " + m
  }
}
