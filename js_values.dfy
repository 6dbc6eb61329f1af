/**
 * The JavaScript primitive values that flow through the playlist code: track ids,
 * titles and the fields of parsed tool arguments. Numbers are restricted to
 * integers (no fractions, NaN or -0); objects and arrays never appear as field
 * values in the modelled code paths.
 *
 * For these values JavaScript's strict equality `===` is exactly structural
 * equality, so the model writes `==` where the source writes `===`: in
 * particular `Num(0) != Str("0")`.
 */
module JsValues {

  datatype JsValue = Undefined | Null | Bool(b: bool) | Num(n: int) | Str(s: string)

  /** A plain object as produced by `JSON.parse`: a missing key reads as `undefined`. */
  type Object = map<string, JsValue>

  function Get(o: Object, key: string): (v: JsValue)
    ensures key !in o ==> v == Undefined
    ensures key in o ==> v == o[key]
  {
    if key in o then o[key] else Undefined
  }

  /** JavaScript truthiness, as used by `if (x)`: exactly the five falsy values fail. */
  predicate Truthy(v: JsValue)
    ensures !Truthy(v) <==> v in {Undefined, Null, Bool(false), Num(0), Str("")}
  {
    match v
    case Undefined => false
    case Null => false
    case Bool(b) => b
    case Num(n) => n != 0
    case Str(s) => s != ""
  }

  function DigitChar(d: nat): (c: char)
    requires d < 10
    ensures '0' <= c <= '9'
  {
    ('0' as int + d) as char
  }

  predicate IsDigit(c: char) {
    '0' <= c <= '9'
  }

  /** The decimal numeral of `n`, most significant digit first, without leading zeros. */
  function DecimalString(n: nat): (r: string)
    ensures |r| >= 1
    ensures forall i :: 0 <= i < |r| ==> IsDigit(r[i])
    ensures |r| > 1 ==> r[0] != '0'
  {
    if n < 10 then [DigitChar(n)] else DecimalString(n / 10) + [DigitChar(n % 10)]
  }

  /** Reads a string of decimal digits back as a number (the reference for DecimalString). */
  function ParseDecimal(s: string): int {
    if s == [] then 0 else ParseDecimal(s[..|s| - 1]) * 10 + (s[|s| - 1] as int - '0' as int)
  }

  lemma {:induction false} ParseDecimalString(n: nat)
    ensures ParseDecimal(DecimalString(n)) == n
  {
    var r := DecimalString(n);
    if n >= 10 {
      assert r[..|r| - 1] == DecimalString(n / 10);
      ParseDecimalString(n / 10);
    } else {
      assert r[..|r| - 1] == [];
    }
  }

  /**
   * `String(v)` for the primitive values of the model: a string is itself, a
   * number is an optional minus sign followed by decimal digits.
   */
  function ToJsString(v: JsValue): (r: string)
    ensures v.Str? ==> r == v.s
    ensures v.Num? ==> |r| >= 1 && (r[0] == '-' <==> v.n < 0)
    ensures v.Num? ==> forall i :: (if v.n < 0 then 1 else 0) <= i < |r| ==> IsDigit(r[i])
  {
    match v
    case Undefined => "undefined"
    case Null => "null"
    case Bool(b) => if b then "true" else "false"
    case Num(n) => if n < 0 then "-" + DecimalString(-n) else DecimalString(n)
    case Str(s) => s
  }

  /**
   * The digits of `String(n)` (after the minus sign, if any) read back as the
   * magnitude of `n`.
   */
  lemma NumberStringValue(n: int)
    ensures ParseDecimal(ToJsString(Num(n))[(if n < 0 then 1 else 0)..]) == (if n < 0 then -n else n)
  {
    if n < 0 {
      var d := DecimalString(-n);
      assert ("-" + d)[1..] == d;
      ParseDecimalString(-n);
    } else {
      ParseDecimalString(n);
    }
  }

  /** Distinct numbers have distinct string forms, so `String(n)` names one track id. */
  lemma NumberStringInjective(a: int, b: int)
    requires ToJsString(Num(a)) == ToJsString(Num(b))
    ensures a == b
  {
    NumberStringValue(a);
    NumberStringValue(b);
  }
}
