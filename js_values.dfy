/**
 * The dynamic values that flow through the modelled code (`any` in its types:
 * ticket `user_data`, form values, template configuration blobs), JavaScript
 * truthiness, and the `Number(...)` conversion.
 * JavaScript numbers are modelled as integers, with `NaN` as a separate value.
 */
module JsValues {
  import opened Wrappers
  import opened JsStrings

  datatype Value =
    | Undefined
    | Null
    | Bool(b: bool)
    | Num(n: int)
    | NaN
    | Str(s: string)
    | Arr(items: seq<Value>)
    | Obj(fields: map<string, Value>)

  /** JavaScript truthiness: what `if (v)`, `v || w` and `!v` test. */
  predicate Truthy(v: Value) {
    match v
    case Undefined => false
    case Null => false
    case Bool(b) => b
    case Num(n) => n != 0
    case NaN => false
    case Str(s) => s != ""
    case Arr(_) => true
    case Obj(_) => true
  }

  /** A nullable string is truthy when present and non-empty: what `!s` rejects. */
  predicate Present(s: Option<string>) {
    s.Some? && s.value != ""
  }

  /** `m[k]` on a plain object: a missing key reads as `undefined`. */
  function Get(m: map<string, Value>, k: string): (v: Value)
    ensures k !in m ==> v == Undefined
    ensures k in m ==> v == m[k]
  {
    if k in m then m[k] else Undefined
  }

  /**
   * `Number(s)` for a string: surrounding whitespace is ignored and an empty
   * string is 0; a string of decimal digits, optionally signed, gives its
   * value; `None` is `NaN`.
   */
  function StringToNumber(s: string): (r: Option<int>)
    ensures Trim(s) == "" ==> r == Some(0)
    ensures AllDigits(Trim(s)) ==> r == Some(DigitsValue(Trim(s)))
    ensures r.Some? && r.value < 0 ==> Trim(s)[0] == '-'
    ensures var t := Trim(s); |t| >= 2 && t[0] == '-' && AllDigits(t[1..]) ==> r == Some(-(DigitsValue(t[1..]) as int))
    ensures var t := Trim(s); |t| >= 2 && t[0] == '+' && AllDigits(t[1..]) ==> r == Some(DigitsValue(t[1..]))
    ensures var t := Trim(s);
      r.None? <==> !AllDigits(t) && !(|t| >= 2 && (t[0] == '-' || t[0] == '+') && AllDigits(t[1..]))
  {
    var t := Trim(s);
    if AllDigits(t) then Some(DigitsValue(t))
    else if |t| >= 2 && (t[0] == '-' || t[0] == '+') && AllDigits(t[1..]) then
      Some(if t[0] == '-' then -(DigitsValue(t[1..]) as int) else DigitsValue(t[1..]))
    else None
  }

  /** A plain digit string converts to the number it denotes. */
  lemma DigitsToNumber(s: string)
    requires AllDigits(s)
    ensures StringToNumber(s) == Some(DigitsValue(s))
  {
    if s != [] {
      assert !IsWhitespace(s[0]) && !IsWhitespace(s[|s| - 1]);
    }
  }

  /** `Number(v)`; `None` is `NaN`. */
  function ToNumber(v: Value): (r: Option<int>)
    ensures v.Num? ==> r == Some(v.n)
    ensures v.Undefined? || v.NaN? || v.Obj? ==> r == None
    ensures v.Null? ==> r == Some(0)
  {
    match v
    case Undefined => None
    case Null => Some(0)
    case Bool(b) => Some(if b then 1 else 0)
    case Num(n) => Some(n)
    case NaN => None
    case Str(s) => StringToNumber(s)
    case Arr(_) => None
    case Obj(_) => None
  }

  /** `v.k`: a property of a plain object; anything else has no such property. */
  function Prop(v: Value, k: string): (r: Value)
    ensures !v.Obj? ==> r == Undefined
    ensures v.Obj? ==> r == Get(v.fields, k)
  {
    if v.Obj? then Get(v.fields, k) else Undefined
  }

  /** JavaScript's `a % b` for a positive divisor: the sign follows the dividend. */
  function Rem(a: int, b: int): (r: int)
    requires b > 0
    ensures a >= 0 ==> r == a % b
    ensures a < 0 ==> -b < r <= 0 && r == -((-a) % b)
  {
    if a >= 0 then a % b else -((-a) % b)
  }

  /** `Number(v) || 0`: `NaN` and 0 both become 0. */
  function NumberOrZero(v: Value): (n: int)
    ensures ToNumber(v).None? ==> n == 0
    ensures ToNumber(v).Some? ==> n == ToNumber(v).value
  {
    match ToNumber(v)
    case None => 0
    case Some(n) => n
  }
}
