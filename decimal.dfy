/**
 * Decimal text of an `int`, as the `%i` conversion of `sprintf` writes the
 * `duration`, `billsec` and `amaflags` columns of the INSERT statement, and
 * the reading it is meant for.
 */
module Decimal {
  import opened Wrappers

  predicate IsDigit(c: char) {
    '0' <= c <= '9'
  }

  function DigitChar(d: int): (c: char)
    requires 0 <= d < 10
    ensures IsDigit(c) && c as int - '0' as int == d
  {
    ('0' as int + d) as char
  }

  /** Digits of a natural number, most significant first, no leading zeros. */
  function NatDigits(n: nat): (s: string)
    ensures 1 <= |s|
    ensures forall i :: 0 <= i < |s| ==> IsDigit(s[i])
    ensures |s| > 1 ==> s[0] != '0'
    decreases n
  {
    if n < 10 then [DigitChar(n)] else NatDigits(n / 10) + [DigitChar(n % 10)]
  }

  /** `%i`: an optional minus sign and the digits of the magnitude. */
  function IntToDecimal(n: int): (s: string)
    ensures 1 <= |s|
    ensures forall i :: 0 <= i < |s| ==> IsDigit(s[i]) || (i == 0 && s[i] == '-')
    ensures (s[0] == '-') <==> n < 0
    ensures var d := if n < 0 then s[1..] else s; 1 <= |d| && (|d| > 1 ==> d[0] != '0')
  {
    if n < 0 then "-" + NatDigits(-n) else NatDigits(n)
  }

  /** Value of a string of digits. */
  function DigitsValue(s: string): nat
    requires forall i :: 0 <= i < |s| ==> IsDigit(s[i])
    decreases |s|
  {
    if |s| == 0 then 0
    else
      assert IsDigit(s[|s| - 1]);
      DigitsValue(s[..|s| - 1]) * 10 + (s[|s| - 1] as int - '0' as int)
  }

  /** Reads an optional minus sign followed by one or more digits, and nothing else. */
  function ParseDecimal(s: string): Option<int> {
    if |s| >= 2 && s[0] == '-' && forall i :: 1 <= i < |s| ==> IsDigit(s[i]) then
      var magnitude: int := DigitsValue(s[1..]);
      Some(-magnitude)
    else if |s| >= 1 && forall i :: 0 <= i < |s| ==> IsDigit(s[i]) then
      Some(DigitsValue(s))
    else
      None
  }

  lemma {:induction false} NatDigitsValue(n: nat)
    ensures DigitsValue(NatDigits(n)) == n
    decreases n
  {
    if n >= 10 {
      NatDigitsValue(n / 10);
      var s := NatDigits(n);
      assert s[..|s| - 1] == NatDigits(n / 10);
    }
  }

  /** A minus sign followed by digits reads as the negated value of the digits. */
  lemma ParseNegative(digits: string)
    requires 1 <= |digits| && forall i :: 0 <= i < |digits| ==> IsDigit(digits[i])
    ensures ParseDecimal("-" + digits) == Some(-(DigitsValue(digits) as int))
  {
    var s := "-" + digits;
    assert s[1..] == digits;
    forall i | 1 <= i < |s|
      ensures IsDigit(s[i])
    {
      assert s[i] == digits[i - 1];
    }
  }

  /** Digits alone read as their value. */
  lemma ParseDigits(digits: string)
    requires 1 <= |digits| && forall i :: 0 <= i < |digits| ==> IsDigit(digits[i])
    ensures ParseDecimal(digits) == Some(DigitsValue(digits))
  {
    assert IsDigit(digits[0]);
  }

  /** Reading back the text of any integer yields that integer. */
  lemma DecimalRoundTrip(n: int)
    ensures ParseDecimal(IntToDecimal(n)) == Some(n)
  {
    var magnitude: nat := if n < 0 then -n else n;
    var digits := NatDigits(magnitude);
    NatDigitsValue(magnitude);
    if n < 0 {
      assert IntToDecimal(n) == "-" + digits;
      ParseNegative(digits);
    } else {
      assert IntToDecimal(n) == digits;
      ParseDigits(digits);
    }
  }
}
