/** Proleptic Gregorian calendar dates at day granularity, and the three
    billing-cycle advancements the ledger performs with date-fns
    (`addWeeks(d, 1)`, `addMonths(d, 1)`, `addYears(d, 1)`). */
module Calendar {

  datatype Date = Date(year: int, month: int, day: int)

  predicate IsLeapYear(y: int)
  {
    y % 4 == 0 && (y % 100 != 0 || y % 400 == 0)
  }

  function DaysInMonth(y: int, m: int): int
    requires 1 <= m <= 12
  {
    if m == 2 then (if IsLeapYear(y) then 29 else 28)
    else if m == 4 || m == 6 || m == 9 || m == 11 then 30
    else 31
  }

  function DaysInYear(y: int): int
  {
    if IsLeapYear(y) then 366 else 365
  }

  /** A day that exists on the calendar, as every `yyyy-MM-dd` string the
      application formats does. */
  predicate IsValid(d: Date)
  {
    1 <= d.month <= 12 && 1 <= d.day <= DaysInMonth(d.year, d.month)
  }

  type ValidDate = d: Date | IsValid(d) witness Date(2000, 1, 1)

  /** Days of year `y` before the first of month `m` (13 meaning the next year). */
  function DaysBeforeMonth(y: int, m: int): int
    requires 1 <= m <= 13
  {
    var leap := if IsLeapYear(y) && m > 2 then 1 else 0;
    leap +
    (if m == 1 then 0 else if m == 2 then 31 else if m == 3 then 59
     else if m == 4 then 90 else if m == 5 then 120 else if m == 6 then 151
     else if m == 7 then 181 else if m == 8 then 212 else if m == 9 then 243
     else if m == 10 then 273 else if m == 11 then 304 else if m == 12 then 334
     else 365)
  }

  /** Days from 0001-01-01 to the first of January of year `y`. */
  function DaysBeforeYear(y: int): int
  {
    365 * (y - 1) + (y - 1) / 4 - (y - 1) / 100 + (y - 1) / 400
  }

  /** Day count of a date, the day-granularity counterpart of `Date.getTime()`:
      consecutive days have consecutive numbers. */
  function DayNumber(d: ValidDate): int
  {
    DaysBeforeYear(d.year) + DaysBeforeMonth(d.year, d.month) + d.day - 1
  }

  /** Calendar order: by year, then month, then day. */
  predicate Before(a: Date, b: Date)
  {
    a.year < b.year ||
    (a.year == b.year && (a.month < b.month || (a.month == b.month && a.day < b.day)))
  }

  lemma MonthStep(y: int, m: int)
    requires 1 <= m <= 12
    ensures DaysBeforeMonth(y, m + 1) == DaysBeforeMonth(y, m) + DaysInMonth(y, m)
  {
  }

  lemma MonthsFillYear(y: int)
    ensures DaysBeforeMonth(y, 13) == DaysInYear(y)
  {
  }

  /** The number of leap years counted by `DaysBeforeYear` grows by one exactly
      at leap years. */
  lemma {:induction false} YearStep(y: int)
    ensures DaysBeforeYear(y + 1) == DaysBeforeYear(y) + DaysInYear(y)
  {
    DivStep(y, 4);
    DivStep(y, 100);
    DivStep(y, 400);
  }

  lemma DivStep(y: int, k: int)
    requires k == 4 || k == 100 || k == 400
    ensures y / k - (y - 1) / k == if y % k == 0 then 1 else 0
  {
    var q, r := (y - 1) / k, (y - 1) % k;
    assert y - 1 == k * q + r && 0 <= r < k;
    if r == k - 1 {
      assert y == k * (q + 1) + 0;
    } else {
      assert y == k * q + (r + 1);
    }
  }

  lemma {:induction false} YearsMonotone(y1: int, y2: int)
    requires y1 < y2
    ensures DaysBeforeYear(y1) + DaysInYear(y1) <= DaysBeforeYear(y2)
    decreases y2 - y1
  {
    YearStep(y1);
    if y1 + 1 < y2 {
      YearsMonotone(y1 + 1, y2);
    }
  }

  /** Day numbers order dates exactly as the calendar does, so sorting or
      comparing by `getTime()` is sorting or comparing by date. */
  lemma DayNumberOrder(a: ValidDate, b: ValidDate)
    ensures Before(a, b) <==> DayNumber(a) < DayNumber(b)
    ensures a == b <==> DayNumber(a) == DayNumber(b)
  {
    MonthsFillYear(a.year);
    MonthsFillYear(b.year);
    MonthStep(a.year, a.month);
    MonthStep(b.year, b.month);
    if a.year < b.year {
      YearsMonotone(a.year, b.year);
    } else if b.year < a.year {
      YearsMonotone(b.year, a.year);
    }
  }

  /** `addWeeks(d, 1)`. */
  function AddWeek(d: ValidDate): (r: ValidDate)
    ensures DayNumber(r) == DayNumber(d) + 7
  {
    var dim := DaysInMonth(d.year, d.month);
    if d.day + 7 <= dim then
      Date(d.year, d.month, d.day + 7)
    else if d.month < 12 then
      MonthStep(d.year, d.month);
      Date(d.year, d.month + 1, d.day + 7 - dim)
    else
      YearStep(d.year);
      MonthsFillYear(d.year);
      Date(d.year + 1, 1, d.day + 7 - dim)
  }

  /** The month after (`y`, `m`). */
  function NextMonth(y: int, m: int): (r: (int, int))
    requires 1 <= m <= 12
    ensures 1 <= r.1 <= 12
  {
    if m == 12 then (y + 1, 1) else (y, m + 1)
  }

  function Min(a: int, b: int): int
  {
    if a <= b then a else b
  }

  /** `addMonths(d, 1)`: the same day of the following month, or that
      month's last day when it is shorter. */
  function AddMonth(d: ValidDate): (r: ValidDate)
    ensures (r.year, r.month) == NextMonth(d.year, d.month)
    ensures r.day == d.day || (r.day < d.day && r.day == DaysInMonth(r.year, r.month))
    ensures DayNumber(d) < DayNumber(r) <= DayNumber(d) + 31
  {
    var (y, m) := NextMonth(d.year, d.month);
    var r := Date(y, m, Min(d.day, DaysInMonth(y, m)));
    MonthStep(d.year, d.month);
    if d.month == 12 then
      YearStep(d.year);
      MonthsFillYear(d.year);
      r
    else
      r
  }

  /** `addYears(d, 1)` (date-fns adds twelve months): the same month and day a
      year later, except that 29 February becomes 28 February. */
  function AddYear(d: ValidDate): (r: ValidDate)
    ensures r.year == d.year + 1 && r.month == d.month
    ensures r.day == if d.month == 2 && d.day == 29 then 28 else d.day
    ensures DayNumber(r) - DayNumber(d) == 365 || DayNumber(r) - DayNumber(d) == 366
  {
    LeapYearsApart(d.year);
    var r := Date(d.year + 1, d.month, Min(d.day, DaysInMonth(d.year + 1, d.month)));
    YearSpan(d, r);
    r
  }

  /** No two consecutive years are both leap years. */
  lemma LeapYearsApart(y: int)
    ensures IsLeapYear(y) ==> !IsLeapYear(y + 1)
  {
    if IsLeapYear(y) {
      assert y % 4 == 0;
      assert (y + 1) % 4 == 1;
    }
  }

  /** The same month and day (clamped) a year on is 365 or 366 days later. */
  lemma YearSpan(d: ValidDate, r: ValidDate)
    requires r.year == d.year + 1 && r.month == d.month
    requires r.day == Min(d.day, DaysInMonth(r.year, r.month))
    ensures DayNumber(r) - DayNumber(d) == 365 || DayNumber(r) - DayNumber(d) == 366
  {
    YearStep(d.year);
    var shift := DaysBeforeMonth(r.year, r.month) - DaysBeforeMonth(d.year, d.month);
    assert DayNumber(r) - DayNumber(d) == DaysInYear(d.year) + shift + (r.day - d.day);
    if d.month <= 2 {
      assert shift == 0;
      if d.month == 2 && d.day == 29 {
        assert IsLeapYear(d.year);
      }
    } else {
      assert r.day == d.day;
      assert shift == (if IsLeapYear(r.year) then 1 else 0) - (if IsLeapYear(d.year) then 1 else 0);
    }
  }

  /** Examples of the month-end clamping. */
  lemma MonthEndExamples()
    ensures AddMonth(Date(2024, 1, 31)) == Date(2024, 2, 29)
    ensures AddMonth(Date(2023, 1, 31)) == Date(2023, 2, 28)
    ensures AddMonth(Date(2024, 12, 31)) == Date(2025, 1, 31)
    ensures AddYear(Date(2024, 2, 29)) == Date(2025, 2, 28)
    ensures AddWeek(Date(2024, 2, 26)) == Date(2024, 3, 4)
  {
  }
}
