/**
 * The few JavaScript value semantics the front end relies on: the values that
 * reach the session core, truthiness (`!!v`, `v || w`, `if (!v)`), the string
 * conversion `String(v)` that template literals, `localStorage.setItem`,
 * `URLSearchParams.append` and `FormData.append` apply, and default parameters.
 */
module Js {

  /** A JavaScript value as it reaches the modelled code. Numbers are integers here. */
  datatype JsValue = Undefined | Null | Bool(b: bool) | Num(n: int) | Str(s: string)

  /** JavaScript truthiness: `undefined`, `null`, `false`, `0` and `""` are falsy. */
  predicate Truthy(v: JsValue)
  {
    match v
    case Undefined => false
    case Null => false
    case Bool(b) => b
    case Num(n) => n != 0
    case Str(s) => s != ""
  }

  /** Neither `undefined` nor `null` (the `!== undefined && !== null` test). */
  predicate Defined(v: JsValue)
  {
    !v.Undefined? && !v.Null?
  }

  /** The decimal numeral of a natural number, without leading zeros. */
  function Decimal(n: nat): (r: string)
    ensures |r| > 0
    ensures forall i :: 0 <= i < |r| ==> '0' <= r[i] <= '9'
  {
    var d := ['0' + (n % 10) as char];
    if n < 10 then d else Decimal(n / 10) + d
  }

  /** `String(v)`, as applied by template literals and by the browser's string-valued APIs. */
  function ToStr(v: JsValue): string
  {
    match v
    case Undefined => "undefined"
    case Null => "null"
    case Bool(b) => if b then "true" else "false"
    case Num(n) => if n < 0 then "-" + Decimal(-n) else Decimal(n)
    case Str(s) => s
  }

  /** A default parameter `p = d`: the default applies only when the argument is `undefined`. */
  function Default(v: JsValue, d: JsValue): JsValue
  {
    if v.Undefined? then d else v
  }
}
