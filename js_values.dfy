/** JavaScript value semantics that the relay endpoint and the page both rely on:
    optional values, the truthiness of strings, values caught by `catch`, and the
    decimal text that a template literal produces for an integer Number. */
module JsValues {

  /** A field that may be `undefined`. */
  datatype Option<+T> = None | Some(value: T)

  /** A string used as a condition (`!x`, `x || d`, `x && y`): `undefined` and "" are falsy. */
  predicate Truthy(v: Option<string>) {
    v.Some? && v.value != ""
  }

  /** `v || fallback` for an optional string. */
  function OrElse(v: Option<string>, fallback: string): (r: string)
    ensures Truthy(v) ==> r == v.value
    ensures !Truthy(v) ==> r == fallback
  {
    if Truthy(v) then v.value else fallback
  }

  /** A value caught by a `catch` clause: an `Error` instance carries its message,
      anything else that was thrown does not. */
  datatype Thrown = ErrorInstance(message: string) | OtherValue

  /** `error instanceof Error ? error.message : fallback` */
  function MessageOr(t: Thrown, fallback: string): string {
    match t
    case ErrorInstance(m) => m
    case OtherValue => fallback
  }

  // ---------------------------------------------------------------------------
  // Integer Numbers as text

  predicate IsDigit(c: char) {
    '0' <= c <= '9'
  }

  predicate IsDigits(s: string) {
    forall i :: 0 <= i < |s| ==> IsDigit(s[i])
  }

  function DigitChar(d: nat): (c: char)
    requires d < 10
    ensures IsDigit(c) && c as int - '0' as int == d
  {
    ('0' as int + d) as char
  }

  /** The shortest decimal numeral of `n`: digits only, and no leading zero
      unless `n` is zero itself. */
  function NatToDecimal(n: nat): (s: string)
    ensures |s| > 0 && IsDigits(s)
    ensures s[0] == '0' ==> n == 0
    decreases n
  {
    if n < 10 then [DigitChar(n)] else NatToDecimal(n / 10) + [DigitChar(n % 10)]
  }

  /** The text `${n}` gives for an integer-valued Number: a minus sign for negative
      values, then the decimal numeral of the magnitude. */
  function NumberToString(n: int): (s: string)
    ensures |s| > 0
    ensures n >= 0 ==> IsDigits(s)
    ensures n < 0 ==> s[0] == '-' && |s| > 1 && IsDigits(s[1..])
  {
    if n < 0 then
      var magnitude := NatToDecimal(-n);
      assert ("-" + magnitude)[1..] == magnitude;
      "-" + magnitude
    else
      NatToDecimal(n)
  }

  /** The value of a string of decimal digits, read left to right. */
  function DigitsValue(s: string): nat
    requires IsDigits(s)
  {
    if s == [] then 0 else DigitsValue(s[..|s| - 1]) * 10 + (s[|s| - 1] as int - '0' as int)
  }

  /** Reads back an optionally signed decimal numeral; anything else is `None`. */
  function ParseInteger(s: string): Option<int> {
    if |s| > 1 && s[0] == '-' && IsDigits(s[1..]) then Some(0 - DigitsValue(s[1..]) as int)
    else if |s| > 0 && IsDigits(s) then Some(DigitsValue(s))
    else None
  }

  lemma {:induction false} NatToDecimalValue(n: nat)
    ensures DigitsValue(NatToDecimal(n)) == n
    decreases n
  {
    if n >= 10 {
      var prefix := NatToDecimal(n / 10);
      var s := NatToDecimal(n);
      assert s == prefix + [DigitChar(n % 10)];
      assert s[..|s| - 1] == prefix;
      NatToDecimalValue(n / 10);
    }
  }

  /** Reading back the text of an integer gives the integer: the text determines it. */
  lemma NumberToStringRoundTrip(n: int)
    ensures ParseInteger(NumberToString(n)) == Some(n)
  {
    var s := NumberToString(n);
    if n < 0 {
      assert s[1..] == NatToDecimal(-n);
      NatToDecimalValue(-n);
    } else {
      NatToDecimalValue(n);
      assert !(s[0] == '-');
    }
  }

  lemma NumberToStringInjective(m: int, n: int)
    requires NumberToString(m) == NumberToString(n)
    ensures m == n
  {
    NumberToStringRoundTrip(m);
    NumberToStringRoundTrip(n);
  }
}
