/**
 * Proleptic Gregorian calendar arithmetic, as Python's `datetime` does it, and
 * the two fields `strftime` derives from a date for the week bucket: the
 * 0-based day of the year (`tm_yday`) and the Sunday-based day of the week
 * (`tm_wday`), from which `%U` (the Sunday-based week of the year, section
 * 7.23.3.5 of the C99 standard) is computed.
 */
module Calendar {

  datatype Date = Date(year: int, month: int, day: int)

  predicate IsLeapYear(y: int) {
    y % 4 == 0 && (y % 100 != 0 || y % 400 == 0)
  }

  function DaysInYear(y: int): nat {
    if IsLeapYear(y) then 366 else 365
  }

  function DaysInMonth(y: int, m: int): (n: nat)
    requires 1 <= m <= 12
    ensures 28 <= n <= 31
    ensures n == 29 <==> m == 2 && IsLeapYear(y)
  {
    if m == 2 then (if IsLeapYear(y) then 29 else 28)
    else if m == 4 || m == 6 || m == 9 || m == 11 then 30
    else 31
  }

  /** A date `datetime` accepts: years 1 to 9999, an existing day of the month. */
  predicate ValidDate(d: Date) {
    1 <= d.year <= 9999 && 1 <= d.month <= 12 && 1 <= d.day <= DaysInMonth(d.year, d.month)
  }

  /** Days in the years before year `y`, in closed form (as `datetime` computes it). */
  function DaysBeforeYear(y: int): nat
    requires y >= 1
  {
    var p := y - 1;
    p * 365 + p / 4 - p / 100 + p / 400
  }

  /** Reference definition: the lengths of years 1 .. y-1 added one by one. */
  ghost function YearLengthsBefore(y: int): nat
    requires y >= 1
    decreases y
  {
    if y == 1 then 0 else YearLengthsBefore(y - 1) + DaysInYear(y - 1)
  }

  lemma DaysBeforeYearStep(y: int)
    requires y >= 1
    ensures DaysBeforeYear(y + 1) == DaysBeforeYear(y) + DaysInYear(y)
  {
    var p := y - 1;
    MultiplesStep(p);
    assert DaysBeforeYear(y + 1) == (p + 1) * 365 + (p + 1) / 4 - (p + 1) / 100 + (p + 1) / 400;
    assert (p + 1) * 365 == p * 365 + 365;
    var leaps, leaps' := p / 4 - p / 100 + p / 400, (p + 1) / 4 - (p + 1) / 100 + (p + 1) / 400;
    assert DaysBeforeYear(y) == p * 365 + leaps;
    MultipleChain(y);
    assert leaps' == leaps + (if IsLeapYear(y) then 1 else 0);
  }

  /** Multiples of 400 are multiples of 100, and those are multiples of 4. */
  lemma MultipleChain(n: int)
    ensures n % 400 == 0 ==> n % 100 == 0
    ensures n % 100 == 0 ==> n % 4 == 0
  {
    if n % 400 == 0 {
      var q := n / 400;
      assert n == 100 * (4 * q);
    }
    if n % 100 == 0 {
      var q := n / 100;
      assert n == 4 * (25 * q);
    }
  }

  /** Counting one more year passes one more multiple of 4, 100 or 400
      exactly when the new year is one. */
  lemma MultiplesStep(p: nat)
    ensures (p + 1) / 4 == p / 4 + (if (p + 1) % 4 == 0 then 1 else 0)
    ensures (p + 1) / 100 == p / 100 + (if (p + 1) % 100 == 0 then 1 else 0)
    ensures (p + 1) / 400 == p / 400 + (if (p + 1) % 400 == 0 then 1 else 0)
  {
  }

  /** The closed form counts exactly the days of the preceding years. */
  lemma {:induction false} DaysBeforeYearIsSum(y: int)
    requires y >= 1
    ensures DaysBeforeYear(y) == YearLengthsBefore(y)
    decreases y
  {
    if y > 1 {
      DaysBeforeYearIsSum(y - 1);
      DaysBeforeYearStep(y - 1);
    }
  }

  /** Days in the months before month `m` of year `y` (a table plus the leap day). */
  function DaysBeforeMonth(y: int, m: int): nat
    requires 1 <= m <= 12
  {
    [0, 31, 59, 90, 120, 151, 181, 212, 243, 273, 304, 334][m - 1]
      + (if m > 2 && IsLeapYear(y) then 1 else 0)
  }

  /** Reference definition: the lengths of months 1 .. m-1 added one by one. */
  ghost function MonthLengthsBefore(y: int, m: int): nat
    requires 1 <= m <= 12
    decreases m
  {
    if m == 1 then 0 else MonthLengthsBefore(y, m - 1) + DaysInMonth(y, m - 1)
  }

  lemma {:induction false} DaysBeforeMonthIsSum(y: int, m: int)
    requires 1 <= m <= 12
    ensures DaysBeforeMonth(y, m) == MonthLengthsBefore(y, m)
    decreases m
  {
    if m > 1 {
      DaysBeforeMonthIsSum(y, m - 1);
      DaysBeforeMonthStep(y, m);
    }
  }

  lemma DaysBeforeMonthStep(y: int, m: int)
    requires 2 <= m <= 12
    ensures DaysBeforeMonth(y, m) == DaysBeforeMonth(y, m - 1) + DaysInMonth(y, m - 1)
  {
  }

  /** The 0-based day of the year (`tm_yday`). */
  function YearDay(d: Date): (n: nat)
    requires ValidDate(d)
    ensures n < DaysInYear(d.year)
  {
    DaysBeforeMonth(d.year, d.month) + d.day - 1
  }

  /** Days since 0001-01-01 counting that day as 1 (`date.toordinal()`). */
  function Ordinal(d: Date): int
    requires d.year >= 1 && 1 <= d.month <= 12
  {
    DaysBeforeYear(d.year) + DaysBeforeMonth(d.year, d.month) + d.day
  }

  /** The day of the week of January 1st of year `y`, Sunday being 0. */
  function NewYearWeekday(y: int): (w: nat)
    requires y >= 1
    ensures w < 7
  {
    (DaysBeforeYear(y) + 1) % 7
  }

  /** The Sunday-based day of the week (`tm_wday`): 0 is Sunday, 1 Monday, .. 6
      Saturday, counted on from the weekday of January 1st. */
  function Weekday(d: Date): (w: nat)
    requires d.year >= 1 && 1 <= d.month <= 12
    ensures w < 7
  {
    (NewYearWeekday(d.year) + DaysBeforeMonth(d.year, d.month) + d.day - 1) % 7
  }

  /** The weekday is the ordinal modulo 7, as `strftime` derives `tm_wday`
      from `date.toordinal()`. */
  lemma WeekdayIsOrdinal(d: Date)
    requires d.year >= 1 && 1 <= d.month <= 12
    ensures Weekday(d) == Ordinal(d) % 7
  {
    var start, rest := DaysBeforeYear(d.year) + 1, DaysBeforeMonth(d.year, d.month) + d.day - 1;
    assert Ordinal(d) == start + rest;
    ModSevenShift(start, rest);
  }

  /** `%U`: the week of the year, weeks starting on Sunday, week 00 holding the
      days before the year's first Sunday. */
  function SundayWeek(d: Date): (w: nat)
    requires ValidDate(d)
    ensures w <= 53
  {
    (YearDay(d) + 7 - Weekday(d)) / 7
  }

  /** The calendar day after `d`. */
  function NextDay(d: Date): (n: Date)
    requires ValidDate(d)
    ensures n.year >= 1 && 1 <= n.month <= 12 && 1 <= n.day <= DaysInMonth(n.year, n.month)
  {
    if d.day < DaysInMonth(d.year, d.month) then Date(d.year, d.month, d.day + 1)
    else if d.month < 12 then Date(d.year, d.month + 1, 1)
    else Date(d.year + 1, 1, 1)
  }

  predicate IsLastDayOfYear(d: Date) {
    d.month == 12 && d.day == 31
  }

  /** Consecutive calendar days have consecutive ordinals, so the day of the
      week advances by one every day, across month and year ends too. */
  lemma OrdinalNextDay(d: Date)
    requires ValidDate(d)
    ensures Ordinal(NextDay(d)) == Ordinal(d) + 1
    ensures Weekday(NextDay(d)) == (Weekday(d) + 1) % 7
  {
    var n := NextDay(d);
    if d.day < DaysInMonth(d.year, d.month) {
      assert n == Date(d.year, d.month, d.day + 1);
    } else if d.month < 12 {
      assert n == Date(d.year, d.month + 1, 1);
      assert DaysBeforeMonth(d.year, d.month + 1) == DaysBeforeMonth(d.year, d.month) + DaysInMonth(d.year, d.month);
    } else {
      assert n == Date(d.year + 1, 1, 1);
      DaysBeforeYearStep(d.year);
    }
    WeekdayIsOrdinal(d);
    WeekdayIsOrdinal(n);
    ModSevenShift(Ordinal(d), 1);
  }

  lemma ModSevenShift(a: int, k: int)
    ensures (a + k) % 7 == (a % 7 + k) % 7
  {
  }

  /** 0001-01-01 was a Monday in the proleptic Gregorian calendar. */
  lemma FirstDayIsMonday()
    ensures Weekday(Date(1, 1, 1)) == 1
  {
  }

  /** Within one year the day of the week is fixed by January 1st and the day of the year. */
  lemma WeekdayFromNewYear(d: Date)
    requires ValidDate(d)
    ensures Weekday(d) == (Weekday(Date(d.year, 1, 1)) + YearDay(d)) % 7
    ensures Weekday(Date(d.year, 1, 1)) == NewYearWeekday(d.year)
  {
    assert Weekday(Date(d.year, 1, 1)) == NewYearWeekday(d.year);
  }

  /** The day of the year on which the year's first Sunday falls. */
  function FirstSunday(y: int): (f: nat)
    requires 1 <= y <= 9999
    ensures f < 7 && Weekday(Date(y, 1, f + 1)) == 0
  {
    var w := NewYearWeekday(y);
    var f := (7 - w) % 7;
    WeekdayFromNewYear(Date(y, 1, f + 1));
    UntilSunday(w);
    f
  }

  lemma UntilSunday(w: nat)
    requires w < 7
    ensures (w + (7 - w) % 7) % 7 == 0
  {
  }

  /** Week 00 is exactly the days before the year's first Sunday. */
  lemma WeekZeroBeforeFirstSunday(d: Date)
    requires ValidDate(d)
    ensures SundayWeek(d) == 0 <==> YearDay(d) < FirstSunday(d.year)
  {
    var w0, yd, wd := Weekday(Date(d.year, 1, 1)), YearDay(d), Weekday(d);
    WeekdayFromNewYear(d);
    assert wd == (w0 + yd) % 7;
    assert SundayWeek(d) == (yd + 7 - wd) / 7;
    assert FirstSunday(d.year) == (7 - w0) % 7;
    WeekZeroArith(w0, yd);
  }

  lemma WeekZeroArith(w0: nat, yd: nat)
    requires w0 < 7
    ensures (yd + 7 - (w0 + yd) % 7) / 7 == 0 <==> yd < (7 - w0) % 7
  {
  }

  /** A new week starts on, and only on, a Sunday: from one day to the next
      within a year the week number grows by one exactly when the next day is
      a Sunday. */
  lemma SundayStartsWeek(d: Date)
    requires ValidDate(d) && !IsLastDayOfYear(d)
    ensures ValidDate(NextDay(d)) && NextDay(d).year == d.year
    ensures YearDay(NextDay(d)) == YearDay(d) + 1
    ensures SundayWeek(NextDay(d)) == SundayWeek(d) + (if Weekday(NextDay(d)) == 0 then 1 else 0)
  {
    var n := NextDay(d);
    OrdinalNextDay(d);
    assert n.year == d.year;
    assert YearDay(n) == YearDay(d) + 1;
    SundayWeekArith(YearDay(d), Weekday(d));
  }

  lemma SundayWeekArith(a: nat, w: nat)
    requires w < 7
    ensures (a + 1 + 7 - (w + 1) % 7) / 7 == (a + 7 - w) / 7 + (if (w + 1) % 7 == 0 then 1 else 0)
  {
    if w == 6 {
      assert (a + 1 + 7 - 0) / 7 == (a + 7 - 6) / 7 + 1;
    }
  }

  /** January 1st is in week 01 if it is a Sunday, in week 00 otherwise. */
  lemma NewYearWeek(y: int)
    requires 1 <= y <= 9999
    ensures SundayWeek(Date(y, 1, 1)) == if Weekday(Date(y, 1, 1)) == 0 then 1 else 0
  {
  }
}
