/** The text a JavaScript string concatenation produces for an integral
    number (`"Ionic Charge: " + ionicCharge`): an optional minus sign followed
    by decimal digits without leading zeros. A reference reader for that text
    is given beside it, and the two are proved to be inverse. */
module Decimal {

  datatype Option<T> = None | Some(value: T)

  predicate IsDigit(c: char) {
    '0' <= c <= '9'
  }

  predicate AllDigits(s: string) {
    forall i :: 0 <= i < |s| ==> IsDigit(s[i])
  }

  function DigitChar(d: nat): (c: char)
    requires d < 10
    ensures IsDigit(c)
  {
    ('0' as int + d) as char
  }

  function DigitValue(c: char): (d: nat)
    requires IsDigit(c)
    ensures d < 10 && DigitChar(d) == c
  {
    (c as int - '0' as int)
  }

  /** Decimal digits of a natural number, most significant first. */
  function NatToDecimal(n: nat): (s: string)
    ensures |s| >= 1 && AllDigits(s)
    ensures |s| > 1 ==> s[0] != '0'
    ensures n < 10 <==> |s| == 1
    decreases n
  {
    if n < 10 then [DigitChar(n)]
    else NatToDecimal(n / 10) + [DigitChar(n % 10)]
  }

  /** How an integral number is rendered when concatenated to a string. */
  function IntToDecimal(z: int): (s: string)
    ensures |s| >= 1
    ensures z < 0 <==> s[0] == '-'
    ensures z >= 0 ==> AllDigits(s)
    ensures z < 0 ==> |s| >= 2 && AllDigits(s[1..])
    ensures z < 0 ==> s[1] != '0'
    ensures z >= 0 && |s| > 1 ==> s[0] != '0'
  {
    if z < 0 then "-" + NatToDecimal(-z) else NatToDecimal(z)
  }

  /** Value of a string of decimal digits, most significant first. */
  function DecimalValue(s: string): (v: nat)
    requires AllDigits(s)
    decreases |s|
  {
    if s == [] then 0
    else DecimalValue(s[..|s| - 1]) * 10 + DigitValue(s[|s| - 1])
  }

  /** Reference reader: an optional minus sign then at least one digit. */
  function ParseInt(s: string): (r: Option<int>)
    ensures r.Some? ==> |s| >= 1
  {
    if |s| >= 2 && s[0] == '-' && AllDigits(s[1..]) then Some(0 - DecimalValue(s[1..]))
    else if |s| >= 1 && AllDigits(s) then Some(DecimalValue(s))
    else None
  }

  lemma {:induction false} NatToDecimalRoundTrip(n: nat)
    ensures DecimalValue(NatToDecimal(n)) == n
    decreases n
  {
    var s := NatToDecimal(n);
    if n >= 10 {
      NatToDecimalRoundTrip(n / 10);
      assert s[..|s| - 1] == NatToDecimal(n / 10);
      assert DigitValue(s[|s| - 1]) == n % 10;
    }
  }

  /** Reading back the rendered text gives the number that was rendered. */
  lemma IntToDecimalRoundTrip(z: int)
    ensures ParseInt(IntToDecimal(z)) == Some(z)
  {
    var s := IntToDecimal(z);
    if z < 0 {
      NatToDecimalRoundTrip(-z);
      assert s[1..] == NatToDecimal(-z);
    } else {
      NatToDecimalRoundTrip(z);
      assert !IsDigit('-');
    }
  }

  /** Distinct numbers are rendered as distinct text. */
  lemma IntToDecimalInjective(a: int, b: int)
    ensures IntToDecimal(a) == IntToDecimal(b) ==> a == b
  {
    IntToDecimalRoundTrip(a);
    IntToDecimalRoundTrip(b);
  }
}
