/**
 * The few JavaScript value rules the client relies on: truthiness and `||`,
 * form data as a map from field names to values, `Number.parseInt` and
 * `Number.parseFloat` on the text a number input produces, and `substring`.
 */
module JsValues {
  import opened Wrappers

  /** A JavaScript value as it appears in form data and request bodies. */
  datatype JsValue =
    | Undefined
    | Null
    | Bool(b: bool)
    | Num(n: real)
    | NaN
    | Str(s: string)
    | Files(count: nat)   // the FileList a file input yields

  /** JavaScript truthiness: `false`, `0`, `NaN`, `""`, `null` and `undefined` are falsy. */
  predicate Truthy(v: JsValue) {
    match v
    case Undefined => false
    case Null => false
    case Bool(b) => b
    case Num(n) => n != 0.0
    case NaN => false
    case Str(s) => s != ""
    case Files(_) => true
  }

  /** `a || b`: the first operand when it is truthy, the second otherwise. */
  function Or(a: JsValue, b: JsValue): JsValue {
    if Truthy(a) then a else b
  }

  /** `s || fallback` where `s` is an optional string (a record field, a URL parameter). */
  function TextOr(s: Option<string>, fallback: string): string {
    match s
    case Some(t) => if t != "" then t else fallback
    case None => fallback
  }

  /** The values submitted by a form, by field name. */
  type FormData = map<string, JsValue>

  /** `data.name`: `undefined` for a field that is not there. */
  function Field(data: FormData, name: string): JsValue {
    if name in data then data[name] else Undefined
  }

  /** `s.substring(0, n)`. */
  function Prefix(s: string, n: nat): (r: string)
    ensures |r| <= n && |r| <= |s|
    ensures r == s[..|r|]
    ensures |s| <= n ==> r == s
    ensures |s| > n ==> |r| == n
  {
    if |s| <= n then s else s[..n]
  }

  predicate IsDigit(c: char) {
    '0' <= c <= '9'
  }

  /** The length of the run of decimal digits at the start of `s`. */
  function DigitRun(s: string): (n: nat)
    ensures n <= |s|
    ensures forall k :: 0 <= k < n ==> IsDigit(s[k])
    ensures n < |s| ==> !IsDigit(s[n])
  {
    if |s| == 0 || !IsDigit(s[0]) then 0 else 1 + DigitRun(s[1..])
  }

  predicate AllDigits(s: string) {
    forall k :: 0 <= k < |s| ==> IsDigit(s[k])
  }

  /** The value of a string of decimal digits, most significant first. */
  function DigitsValue(s: string): nat
    requires AllDigits(s)
  {
    if |s| == 0 then 0
    else 10 * DigitsValue(s[..|s| - 1]) + (s[|s| - 1] as int - '0' as int)
  }

  function Pow10(n: nat): (p: nat)
    ensures p >= 1
  {
    if n == 0 then 1 else 10 * Pow10(n - 1)
  }

  /** The decimal numeral of `n`, without leading zeros (JavaScript `String(n)`). */
  function DecimalText(n: nat): (s: string)
    ensures |s| > 0 && AllDigits(s)
  {
    (if n < 10 then "" else DecimalText(n / 10)) + [('0' as int + n % 10) as char]
  }

  lemma {:induction false} DecimalTextValue(n: nat)
    ensures DigitsValue(DecimalText(n)) == n
  {
    var s := DecimalText(n);
    assert s[..|s| - 1] == (if n < 10 then "" else DecimalText(n / 10));
    if n >= 10 {
      DecimalTextValue(n / 10);
    }
  }

  /** The text after an optional leading sign, and whether that sign was `-`. */
  function Unsigned(s: string): (string, bool) {
    if |s| > 0 && (s[0] == '-' || s[0] == '+') then (s[1..], s[0] == '-') else (s, false)
  }

  /**
   * `Number.parseInt(s)`: an optional sign, then the leading run of digits;
   * `None` stands for `NaN` (no digit at all).
   */
  function ParseIntText(s: string): Option<int> {
    var (body, negative) := Unsigned(s);
    var n := DigitRun(body);
    if n == 0 then None
    else if negative then Some(-(DigitsValue(body[..n]) as int))
    else Some(DigitsValue(body[..n]))
  }

  /** The decimal numeral of a natural number parses back to that number. */
  lemma ParseIntDecimal(n: nat)
    ensures ParseIntText(DecimalText(n)) == Some(n)
  {
    var s := DecimalText(n);
    assert Unsigned(s) == (s, false);
    assert DigitRun(s) == |s|;
    assert s[..|s|] == s;
    DecimalTextValue(n);
  }

  /** The exponent `[eE][+-]?digits` at the start of `s`, or 0 when there is none. */
  function ExponentOf(s: string): int {
    if |s| > 0 && (s[0] == 'e' || s[0] == 'E') then
      var (body, negative) := Unsigned(s[1..]);
      var n := DigitRun(body);
      if n == 0 then 0
      else if negative then -(DigitsValue(body[..n]) as int)
      else DigitsValue(body[..n])
    else 0
  }

  function Scale(m: real, e: int): real {
    if e >= 0 then m * Pow10(e) as real else m / Pow10(-e) as real
  }

  /**
   * `Number.parseFloat(s)`: an optional sign, digits with an optional fraction
   * (at least one digit in all), then an optional exponent; `None` stands for `NaN`.
   */
  function ParseFloatText(s: string): Option<real> {
    var (body, negative) := Unsigned(s);
    var i := DigitRun(body);
    var afterInt := body[i..];
    var hasPoint := |afterInt| > 0 && afterInt[0] == '.';
    var f := if hasPoint then DigitRun(afterInt[1..]) else 0;
    if i == 0 && f == 0 then None
    else
      var fraction := if hasPoint then DigitsValue(afterInt[1..][..f]) as real / Pow10(f) as real else 0.0;
      var rest := if hasPoint then afterInt[1 + f..] else afterInt;
      var magnitude := Scale(DigitsValue(body[..i]) as real + fraction, ExponentOf(rest));
      Some(if negative then -magnitude else magnitude)
  }

  /** `Math.trunc`: the integer part, rounded toward zero. */
  function Trunc(r: real): int {
    if r >= 0.0 then r.Floor else -((-r).Floor)
  }

  /** `Number.parseFloat(v)` for any value: it parses `String(v)`. */
  function ParseFloatValue(v: JsValue): Option<real> {
    match v
    case Num(n) => Some(n)
    case Str(s) => ParseFloatText(s)
    case _ => None
  }

  /** `Number.parseInt(v)` for any value: it parses `String(v)`. */
  function ParseIntValue(v: JsValue): Option<int> {
    match v
    case Num(n) => Some(Trunc(n))
    case Str(s) => ParseIntText(s)
    case _ => None
  }

  /** `Number.parseFloat(v) || 0`: `NaN` (and zero) become 0. */
  function FloatOrZero(v: JsValue): real {
    match ParseFloatValue(v)
    case Some(x) => x
    case None => 0.0
  }
}
