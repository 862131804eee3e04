/**
 * JavaScript values as the plugin host and the store handle them: what
 * `response.json()` yields, what a UI message carries, what an object spread
 * copies. Numbers are modelled as integers (no fractions, no NaN).
 */
module Js {
  import Text

  datatype Value =
    | Undefined
    | Null
    | Bool(b: bool)
    | Num(n: int)
    | Str(s: string)
    | Arr(items: seq<Value>)
    | Obj(fields: map<string, Value>)

  /** `!!v` */
  predicate Truthy(v: Value) {
    match v
    case Undefined => false
    case Null => false
    case Bool(b) => b
    case Num(n) => n != 0
    case Str(s) => s != ""
    case Arr(_) => true
    case Obj(_) => true
  }

  /** Reading a property of `v` throws. */
  predicate IsNullish(v: Value) {
    v.Undefined? || v.Null?
  }

  /** `a || b` */
  function Or(a: Value, b: Value): Value {
    if Truthy(a) then a else b
  }

  /**
   * `v.name` for a named property of an object. Arrays and primitives carry
   * none of the names the core reads (`id`, `full_name`, `screen`, ...), so
   * they give `undefined`; callers rule out `IsNullish(v)` first.
   */
  function Field(v: Value, name: string): Value {
    if v.Obj? && name in v.fields then v.fields[name] else Undefined
  }

  /** `v.length` */
  function Length(v: Value): Value {
    match v
    case Arr(items) => Num(|items|)
    case Str(s) => Num(Text.Utf16Length(s))
    case Obj(_) => Field(v, "length")
    case _ => Undefined
  }

  /** `v[0]` (for strings, the first character). */
  function First(v: Value): Value {
    match v
    case Arr(items) => if items != [] then items[0] else Undefined
    case Str(s) => if s != [] then Str(s[..1]) else Undefined
    case Obj(_) => Field(v, "0")
    case _ => Undefined
  }

  /** `Array.isArray(v) ? v[0] : v` */
  function Unwrap(v: Value): Value {
    if v.Arr? then First(v) else v
  }

  /** The number a string of decimal digits denotes, most significant first. */
  function DigitsValue(s: string): nat {
    if s == [] then 0
    else DigitsValue(s[..|s| - 1]) * 10 + (if '0' <= s[|s| - 1] <= '9' then s[|s| - 1] as int - '0' as int else 0)
  }

  /** The decimal digits of `n`, most significant first, without leading zeros. */
  function Digits(n: nat): (r: string)
    ensures r != [] && forall i :: 0 <= i < |r| ==> '0' <= r[i] <= '9'
    ensures DigitsValue(r) == n
    ensures r[0] == '0' <==> n == 0
    ensures |r| > 1 ==> r[0] != '0'
    decreases n
  {
    if n < 10 then [('0' as int + n) as char]
    else Digits(n / 10) + [('0' as int + n % 10) as char]
  }

  /** `String(n)` for an integer. */
  function DecimalText(n: int): string {
    if n < 0 then "-" + Digits(-n) else Digits(n)
  }

  /** `String(v)`: the text a value becomes in a string concatenation. */
  function ToText(v: Value): string
    decreases v
  {
    match v
    case Undefined => "undefined"
    case Null => "null"
    case Bool(b) => if b then "true" else "false"
    case Num(n) => DecimalText(n)
    case Str(s) => s
    case Arr(items) =>
      Text.Join(seq(|items|, i requires 0 <= i < |items| =>
        if IsNullish(items[i]) then "" else ToText(items[i])), ',')
    case Obj(_) => "[object Object]"
  }
}
