/** Decimal digit strings: `parseInt(s, 10)` on the numerals the screens
    handle, and `Number.prototype.toString()` on integers. */
module Numerals {

  predicate IsDigit(c: char)
  {
    '0' <= c <= '9'
  }

  predicate IsDigits(s: string)
  {
    forall i :: 0 <= i < |s| ==> IsDigit(s[i])
  }

  /** What `parseInt(s, 10)` reads from a digit string: leading zeros allowed. */
  function DigitsValue(s: string): (n: nat)
    requires IsDigits(s)
  {
    if s == [] then 0
    else DigitsValue(s[..|s| - 1]) * 10 + (s[|s| - 1] - '0') as int
  }

  function DigitChar(d: int): (c: char)
    requires 0 <= d <= 9
    ensures IsDigit(c) && (c - '0') as int == d
  {
    ('0' as int + d) as char
  }

  /** `n.toString()` for a natural number: no leading zeros. */
  function NatToString(n: nat): (s: string)
    ensures IsDigits(s) && s != []
    ensures |s| > 1 ==> s[0] != '0'
  {
    if n < 10 then [DigitChar(n)]
    else NatToString(n / 10) + [DigitChar(n % 10)]
  }

  /** Decimal text of an integer as `toString()` writes it: a minus sign, then digits. */
  predicate IsIntegerText(s: string)
  {
    (s != [] && IsDigits(s)) || (|s| >= 2 && s[0] == '-' && IsDigits(s[1..]))
  }

  function IntToString(n: int): (s: string)
  {
    if n < 0 then "-" + NatToString(-n) else NatToString(n)
  }

  /** `parseInt(s, 10)` on integer text. */
  function ParseInt(s: string): int
    requires IsIntegerText(s)
  {
    if s[0] == '-' then -(DigitsValue(s[1..]) as int) else DigitsValue(s)
  }

  /** Reading back the digits of a natural number gives the number. */
  lemma {:induction false} NatRoundTrip(n: nat)
    ensures DigitsValue(NatToString(n)) == n
  {
    if n >= 10 {
      var s := NatToString(n / 10);
      assert (s + [DigitChar(n % 10)])[..|s|] == s;
      NatRoundTrip(n / 10);
    }
  }

  /** `parseInt(n.toString(), 10) == n` for every integer. */
  lemma IntRoundTrip(n: int)
    ensures IsIntegerText(IntToString(n))
    ensures ParseInt(IntToString(n)) == n
  {
    if n < 0 {
      var s := NatToString(-n);
      assert ("-" + s)[1..] == s;
      NatRoundTrip(-n);
    } else {
      NatRoundTrip(n);
    }
  }

  /** Appending a digit to a digit string multiplies its value by ten and adds the digit. */
  lemma AppendDigitValue(s: string, c: char)
    requires IsDigits(s) && IsDigit(c)
    ensures IsDigits(s + [c])
    ensures DigitsValue(s + [c]) == DigitsValue(s) * 10 + (c - '0') as int
  {
    assert (s + [c])[..|s|] == s;
  }
}
