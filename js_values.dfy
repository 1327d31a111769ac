/** JavaScript values as the session store, the form builders and `classNames`
    see them: truthiness (`Boolean(v)`) and the text `String(v)` writes. */
module JsValues {

  datatype Option<+T> = None | Some(value: T)

  /** The kinds of value a caller hands to `classNames` or puts in a form body.
      NaN, fractional numbers and plain objects other than files are not modelled. */
  datatype JsValue =
    | Undefined
    | Null
    | Bool(b: bool)
    | Num(n: int)
    | Str(s: string)
    | File(name: string)

  /** `Boolean(v)`: the test `filter(Boolean)` and `if (v)` apply. */
  predicate Truthy(v: JsValue) {
    match v
    case Undefined => false
    case Null => false
    case Bool(b) => b
    case Num(n) => n != 0
    case Str(s) => s != ""
    case File(_) => true
  }

  /** Truthiness of an optional string property such as `tokens?.access`. */
  predicate Present(o: Option<string>) {
    o.Some? && o.value != ""
  }

  function DigitChar(d: nat): (c: char)
    requires d < 10
    ensures '0' <= c <= '9'
    ensures c as int - '0' as int == d
  {
    "0123456789"[d]
  }

  predicate IsDigits(s: string) {
    forall i :: 0 <= i < |s| ==> '0' <= s[i] <= '9'
  }

  /** The number a string of decimal digits denotes, most significant digit first:
      the independent reading `NatToDecimal` is checked against. */
  function DecimalValue(s: string): (v: nat)
    requires IsDigits(s)
    decreases |s|
  {
    if s == [] then 0
    else DecimalValue(s[..|s| - 1]) * 10 + (s[|s| - 1] as int - '0' as int)
  }

  /** The decimal digits of `n`, without leading zeros; reading them back gives `n`. */
  function NatToDecimal(n: nat): (r: string)
    ensures |r| > 0 && IsDigits(r)
    ensures r[0] == '0' ==> r == "0"
    ensures DecimalValue(r) == n
    decreases n
  {
    if n < 10 then [DigitChar(n)]
    else
      var high := NatToDecimal(n / 10);
      var r := high + [DigitChar(n % 10)];
      assert r[..|r| - 1] == high;
      r
  }

  /** `String(n)` for an integer below 10^21 in magnitude: a `-` for a negative
      value, then the decimal digits of its magnitude. */
  function IntToDecimal(n: int): (r: string)
    ensures |r| > 0 && ' ' !in r
    ensures r[0] == '-' <==> n < 0
    ensures var digits := if n < 0 then r[1..] else r;
      IsDigits(digits) && DecimalValue(digits) == if n < 0 then -n else n
    ensures var digits := if n < 0 then r[1..] else r;
      |digits| > 0 && (digits[0] == '0' ==> digits == "0")
  {
    if n < 0 then
      var d := NatToDecimal(-n);
      assert ("-" + d)[1..] == d;
      "-" + d
    else NatToDecimal(n)
  }

  /** `String(v)`: the text `join` and `FormData.append` write for a value. */
  function ToText(v: JsValue): (t: string)
    ensures Truthy(v) ==> t != ""
    ensures !v.Str? ==> t != "" && (!v.File? ==> ' ' !in t)
  {
    match v
    case Undefined => "undefined"
    case Null => "null"
    case Bool(b) => if b then "true" else "false"
    case Num(n) => IntToDecimal(n)
    case Str(s) => s
    case File(_) => "[object File]"
  }
}
