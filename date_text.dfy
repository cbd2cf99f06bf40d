/** The `yyyy-MM-dd` and `yyyy-MM` texts that `format` from date-fns writes,
    and the reading of a `yyyy-MM-dd` text back into a calendar day. */
module DateText {
  import opened Util
  import opened Calendar
  import opened Numerals

  /** Years that `yyyy` writes with exactly four digits. */
  predicate FourDigitYear(d: Date)
  {
    0 <= d.year <= 9999
  }

  /** Two more digits after a digit string: the value shifts by two places. */
  lemma AppendTwoDigits(a: string, b: string)
    requires IsDigits(a) && IsDigits(b) && |b| == 2
    ensures IsDigits(a + b)
    ensures DigitsValue(a + b) == DigitsValue(a) * 100 + DigitsValue(b)
  {
    assert a + b == (a + [b[0]]) + [b[1]];
    assert b == ([] + [b[0]]) + [b[1]];
    AppendDigitValue(a, b[0]);
    AppendDigitValue(a + [b[0]], b[1]);
    AppendDigitValue([], b[0]);
    AppendDigitValue([] + [b[0]], b[1]);
  }

  /** Two-digit zero-padded text, as `MM` and `dd` write. */
  function Pad2(n: int): (s: string)
    requires 0 <= n <= 99
    ensures |s| == 2 && IsDigits(s) && DigitsValue(s) == n
  {
    var s := [DigitChar(n / 10), DigitChar(n % 10)];
    AppendTwoDigits([], s);
    assert [] + s == s;
    s
  }

  /** Four-digit zero-padded text, as `yyyy` writes. */
  function Pad4(n: int): (s: string)
    requires 0 <= n <= 9999
    ensures |s| == 4 && IsDigits(s) && DigitsValue(s) == n
  {
    AppendTwoDigits(Pad2(n / 100), Pad2(n % 100));
    Pad2(n / 100) + Pad2(n % 100)
  }

  /** `format(d, 'yyyy-MM')`. */
  function FormatMonth(d: ValidDate): (s: string)
    requires FourDigitYear(d)
    ensures |s| == 7
  {
    Pad4(d.year) + "-" + Pad2(d.month)
  }

  /** `format(d, 'yyyy-MM-dd')`. */
  function FormatDate(d: ValidDate): (s: string)
    requires FourDigitYear(d)
    ensures |s| == 10
  {
    FormatMonth(d) + "-" + Pad2(d.day)
  }

  /** `new Date(s)` at day granularity: the day a `yyyy-MM-dd` text names, or
      `None` for any other text. */
  function ParseDate(s: string): Option<Date>
  {
    if |s| == 10 && s[4] == '-' && s[7] == '-' && IsDigits(s[..4]) && IsDigits(s[5..7]) && IsDigits(s[8..]) then
      Some(Date(DigitsValue(s[..4]), DigitsValue(s[5..7]), DigitsValue(s[8..])))
    else
      None
  }

  /** Reading back a formatted day gives the day. */
  lemma ParseFormat(d: ValidDate)
    requires FourDigitYear(d)
    ensures ParseDate(FormatDate(d)) == Some(Date(d.year, d.month, d.day))
  {
    var s := FormatDate(d);
    assert s[..4] == Pad4(d.year);
    assert s[5..7] == Pad2(d.month);
    assert s[8..] == Pad2(d.day);
  }

  /** A day's month text is a prefix of its date text, and of no other month's
      date text: `date.startsWith(month)` holds exactly for days of that month. */
  lemma MonthPrefix(m: ValidDate, d: ValidDate)
    requires FourDigitYear(m) && FourDigitYear(d)
    ensures FormatMonth(m) <= FormatDate(d) <==> m.year == d.year && m.month == d.month
  {
    var p, s := FormatMonth(m), FormatDate(d);
    assert s[..7] == FormatMonth(d);
    if p <= s {
      assert p == s[..7];
      assert Pad4(m.year) == p[..4] == s[..4] == Pad4(d.year);
      assert Pad2(m.month) == p[5..] == s[5..7] == Pad2(d.month);
    }
  }
}
