/**
 * The lead's `createdon` timestamp: parsing it with the format
 * `%Y-%m-%dT%H:%M:%SZ` and formatting the three bucket keys
 * `%Y-%m-%d` (day), `%Y-W%U` (week) and `%Y-%m` (month).
 */
module Timestamps {
  import opened Wrappers
  import opened JsonValues
  import opened Calendar

  datatype DateTime = DateTime(date: Date, hour: int, minute: int, second: int)

  /** A value `datetime` accepts. */
  predicate ValidDateTime(t: DateTime) {
    ValidDate(t.date) && 0 <= t.hour <= 23 && 0 <= t.minute <= 59 && 0 <= t.second <= 59
  }

  /** Why a timestamp was refused: the text does not fit the format, or it fits
      but names a value `datetime` refuses (year 0, a day past the month's end,
      a leap second). Both are a `ValueError` in the service. */
  datatype ParseError = FormatMismatch | ValueOutOfRange

  /** Two digits, zero-padded (`%m`, `%d`, `%U`, ...). */
  function Pad2(n: nat): (r: string)
    requires n < 100
    ensures |r| == 2 && IsDigit(r[0]) && IsDigit(r[1])
  {
    [DigitChar(n / 10), DigitChar(n % 10)]
  }

  /** Four digits, zero-padded (`%Y`). */
  function Pad4(n: nat): (r: string)
    requires n < 10000
    ensures |r| == 4 && forall k :: 0 <= k < 4 ==> IsDigit(r[k])
  {
    Pad2(n / 100) + Pad2(n % 100)
  }

  lemma Pad2Value(n: nat)
    requires n < 100
    ensures DigitsValue(Pad2(n)) == n
  {
    var r := Pad2(n);
    TwoDigits(r);
  }

  lemma Pad4Value(n: nat)
    requires n < 10000
    ensures DigitsValue(Pad4(n)) == n
  {
    var r := Pad4(n);
    FourDigits(r);
    assert r[..2] == Pad2(n / 100) && r[2..] == Pad2(n % 100);
    Pad2Value(n / 100);
    Pad2Value(n % 100);
    assert 100 * (n / 100) + n % 100 == n;
  }

  /** The value of two digits, unfolded. */
  lemma TwoDigits(r: string)
    requires |r| == 2 && IsDigit(r[0]) && IsDigit(r[1])
    ensures DigitsValue(r) == 10 * DigitValue(r[0]) + DigitValue(r[1])
  {
    var first := r[..1];
    assert first[..0] == [];
    assert DigitsValue(first) == 10 * DigitsValue(first[..0]) + DigitValue(first[0]);
    assert DigitsValue(first) == DigitValue(r[0]);
    assert r[..|r| - 1] == first;
  }

  /** The value of four digits: the first pair counts in hundreds. */
  lemma FourDigits(r: string)
    requires |r| == 4 && forall k :: 0 <= k < 4 ==> IsDigit(r[k])
    ensures DigitsValue(r) == 100 * DigitsValue(r[..2]) + DigitsValue(r[2..])
  {
    assert r[..3][..2] == r[..2];
    assert r[..|r| - 1] == r[..3];
    TwoDigits(r[..2]);
    TwoDigits(r[2..]);
    TwoDigits(r[1..3]);
    assert r[..3][..|r[..3]| - 1] == r[..2];
  }

  predicate DigitsAt(s: string, start: nat, len: nat)
    requires start + len <= |s|
  {
    forall k :: start <= k < start + len ==> IsDigit(s[k])
  }

  /** The value of the two digits at `s[at]` and `s[at + 1]`. */
  function Field2(s: string, at: nat): (n: nat)
    requires at + 2 <= |s| && IsDigit(s[at]) && IsDigit(s[at + 1])
    ensures n < 100
  {
    10 * DigitValue(s[at]) + DigitValue(s[at + 1])
  }

  /** The value of the four digits starting at `s[at]`. */
  function Field4(s: string, at: nat): (n: nat)
    requires at + 4 <= |s| && DigitsAt(s, at, 4)
    ensures n < 10000
  {
    100 * Field2(s, at) + Field2(s, at + 2)
  }

  /** The text has the shape `YYYY-MM-DDTHH:MM:SSZ` with each field in the
      range the format's directive admits (month 01-12, day 01-31, hour 00-23,
      minute 00-59, second 00-61); the literals `T` and `Z` match in either case. */
  predicate MatchesFormat(s: string) {
    && |s| == 20
    && DigitsAt(s, 0, 4) && s[4] == '-' && DigitsAt(s, 5, 2) && s[7] == '-' && DigitsAt(s, 8, 2)
    && (s[10] == 'T' || s[10] == 't')
    && DigitsAt(s, 11, 2) && s[13] == ':' && DigitsAt(s, 14, 2) && s[16] == ':' && DigitsAt(s, 17, 2)
    && (s[19] == 'Z' || s[19] == 'z')
    && 1 <= Field2(s, 5) <= 12
    && 1 <= Field2(s, 8) <= 31
    && Field2(s, 11) <= 23
    && Field2(s, 14) <= 59
    && Field2(s, 17) <= 61
  }

  /** `datetime.strptime(s, "%Y-%m-%dT%H:%M:%SZ")`. */
  function ParseCreatedOn(s: string): (r: Result<DateTime, ParseError>)
    ensures r.Ok? ==> ValidDateTime(r.value)
  {
    if !MatchesFormat(s) then Err(FormatMismatch)
    else
      var t := DateTime(Date(Field4(s, 0), Field2(s, 5), Field2(s, 8)),
                        Field2(s, 11), Field2(s, 14), Field2(s, 17));
      if ValidDateTime(t) then Ok(t) else Err(ValueOutOfRange)
  }

  /** The canonical text of a timestamp in the service's format. */
  function Render(t: DateTime): (r: string)
    requires ValidDateTime(t)
    ensures |r| == 20
  {
    DayKey(t.date) + "T" + Pad2(t.hour) + ":" + Pad2(t.minute) + ":" + Pad2(t.second) + "Z"
  }

  /** `strftime("%Y-%m-%d")`. */
  function DayKey(d: Date): (r: string)
    requires ValidDate(d)
    ensures |r| == 10
  {
    Pad4(d.year) + "-" + Pad2(d.month) + "-" + Pad2(d.day)
  }

  /** `strftime("%Y-%m")`. */
  function MonthKey(d: Date): (r: string)
    requires ValidDate(d)
    ensures |r| == 7
  {
    Pad4(d.year) + "-" + Pad2(d.month)
  }

  /** `strftime("%Y-W%U")`. */
  function WeekKey(d: Date): (r: string)
    requires ValidDate(d)
    ensures |r| == 8
  {
    Pad4(d.year) + "-W" + Pad2(SundayWeek(d))
  }

  /** Every valid timestamp, written in the format, parses back to itself. */
  lemma ParseRender(t: DateTime)
    requires ValidDateTime(t)
    ensures ParseCreatedOn(Render(t)) == Ok(t)
  {
    var s := Render(t);
    var d := t.date;
    RenderLayout(t);
    PaddedField(s, 0, d.year / 100);
    PaddedField(s, 2, d.year % 100);
    PaddedField(s, 5, d.month);
    PaddedField(s, 8, d.day);
    PaddedField(s, 11, t.hour);
    PaddedField(s, 14, t.minute);
    PaddedField(s, 17, t.second);
    assert 100 * (d.year / 100) + d.year % 100 == d.year;
    assert MatchesFormat(s);
    ParseFields(s, t);
  }

  /** A text in the format whose fields hold a valid timestamp parses to it. */
  lemma ParseFields(s: string, t: DateTime)
    requires MatchesFormat(s) && ValidDateTime(t)
    requires Field4(s, 0) == t.date.year && Field2(s, 5) == t.date.month && Field2(s, 8) == t.date.day
    requires Field2(s, 11) == t.hour && Field2(s, 14) == t.minute && Field2(s, 17) == t.second
    ensures ParseCreatedOn(s) == Ok(t)
  {
  }

  /** Where each field and separator sits in the rendered text. */
  lemma RenderLayout(t: DateTime)
    requires ValidDateTime(t)
    ensures var s, d := Render(t), t.date;
      && s[0..2] == Pad2(d.year / 100) && s[2..4] == Pad2(d.year % 100)
      && s[5..7] == Pad2(d.month) && s[8..10] == Pad2(d.day)
      && s[11..13] == Pad2(t.hour) && s[14..16] == Pad2(t.minute) && s[17..19] == Pad2(t.second)
      && s[4] == '-' && s[7] == '-' && s[10] == 'T' && s[13] == ':' && s[16] == ':' && s[19] == 'Z'
  {
    var s, d := Render(t), t.date;
    var day := DayKey(d);
    assert s[..10] == day;
    assert day[0..2] == Pad2(d.year / 100) && day[2..4] == Pad2(d.year % 100);
    assert day[5..7] == Pad2(d.month) && day[8..10] == Pad2(d.day);
  }

  /** Two digits written by `Pad2` read back as the number. */
  lemma PaddedField(s: string, at: nat, n: nat)
    requires n < 100 && at + 2 <= |s| && s[at..at + 2] == Pad2(n)
    ensures IsDigit(s[at]) && IsDigit(s[at + 1]) && Field2(s, at) == n
  {
    assert s[at] == s[at..at + 2][0] && s[at + 1] == s[at..at + 2][1];
  }

  /** Two digits read as a number are written back by `Pad2`. */
  lemma FieldPadded(s: string, at: nat)
    requires at + 2 <= |s| && IsDigit(s[at]) && IsDigit(s[at + 1])
    ensures Pad2(Field2(s, at)) == s[at..at + 2]
  {
    var a, b := DigitValue(s[at]), DigitValue(s[at + 1]);
    assert (10 * a + b) / 10 == a && (10 * a + b) % 10 == b;
  }

  /** A text that parses is the rendering of the parsed value, except that its
      `T` and `Z` may be lower case; in particular its first ten characters are
      the day key and its first seven the month key. */
  lemma ParseSound(s: string)
    requires ParseCreatedOn(s).Ok?
    ensures ValidDateTime(ParseCreatedOn(s).value)
    ensures s[..10] + "T" + s[11..19] + "Z" == Render(ParseCreatedOn(s).value)
  {
    var t := ParseCreatedOn(s).value;
    YearPadded(s);
    FieldPadded(s, 5);
    FieldPadded(s, 8);
    FieldPadded(s, 11);
    FieldPadded(s, 14);
    FieldPadded(s, 17);
    FormatLayout(s);
  }

  /** Four digits read as a year are written back by `Pad4`. */
  lemma YearPadded(s: string)
    requires 4 <= |s| && DigitsAt(s, 0, 4)
    ensures Pad4(Field4(s, 0)) == s[0..4]
  {
    FieldPadded(s, 0);
    FieldPadded(s, 2);
    var hi, lo := Field2(s, 0), Field2(s, 2);
    assert (100 * hi + lo) / 100 == hi && (100 * hi + lo) % 100 == lo;
  }

  /** A text in the format is its fields joined by its separators. */
  lemma FormatLayout(s: string)
    requires MatchesFormat(s)
    ensures s[..10] == s[0..4] + "-" + s[5..7] + "-" + s[8..10]
    ensures s[11..19] == s[11..13] + ":" + s[14..16] + ":" + s[17..19]
  {
  }


  /** The month key is the day key without its day: a day and its month share a prefix. */
  lemma MonthKeyPrefixOfDayKey(d: Date)
    requires ValidDate(d)
    ensures MonthKey(d) == DayKey(d)[..7]
    ensures WeekKey(d)[..5] == DayKey(d)[..5]
  {
  }

  /** Distinct valid days get distinct day buckets. */
  lemma DayKeyInjective(a: Date, b: Date)
    requires ValidDate(a) && ValidDate(b)
    requires DayKey(a) == DayKey(b)
    ensures a == b
  {
    var ka, kb := DayKey(a), DayKey(b);
    assert ka[0..4] == Pad4(a.year) && kb[0..4] == Pad4(b.year);
    assert ka[5..7] == Pad2(a.month) && kb[5..7] == Pad2(b.month);
    assert ka[8..10] == Pad2(a.day) && kb[8..10] == Pad2(b.day);
    Pad4Value(a.year);
    Pad4Value(b.year);
    Pad2Value(a.month);
    Pad2Value(b.month);
    Pad2Value(a.day);
    Pad2Value(b.day);
  }

  /** Two dates share a month bucket exactly when they share year and month. */
  lemma MonthKeyEquality(a: Date, b: Date)
    requires ValidDate(a) && ValidDate(b)
    ensures MonthKey(a) == MonthKey(b) <==> a.year == b.year && a.month == b.month
  {
    if MonthKey(a) == MonthKey(b) {
      var ka, kb := MonthKey(a), MonthKey(b);
      assert ka[0..4] == Pad4(a.year) && kb[0..4] == Pad4(b.year);
      assert ka[5..7] == Pad2(a.month) && kb[5..7] == Pad2(b.month);
      Pad4Value(a.year);
      Pad4Value(b.year);
      Pad2Value(a.month);
      Pad2Value(b.month);
    }
  }

  /** The week key is the year, `-W`, and the two-digit `%U` week number, which
      is between 00 and 53; two dates share a week bucket exactly when they
      share the year and the Sunday-based week. */
  lemma WeekKeyShape(a: Date, b: Date)
    requires ValidDate(a) && ValidDate(b)
    ensures WeekKey(a)[4..6] == "-W"
    ensures forall k :: 6 <= k < 8 ==> IsDigit(WeekKey(a)[k])
    ensures DigitsValue(WeekKey(a)[6..]) == SundayWeek(a) <= 53
    ensures WeekKey(a) == WeekKey(b) <==> a.year == b.year && SundayWeek(a) == SundayWeek(b)
  {
    var ka, kb := WeekKey(a), WeekKey(b);
    assert ka[0..4] == Pad4(a.year) && kb[0..4] == Pad4(b.year);
    assert ka[6..] == Pad2(SundayWeek(a)) && kb[6..] == Pad2(SundayWeek(b));
    Pad4Value(a.year);
    Pad4Value(b.year);
    Pad2Value(SundayWeek(a));
    Pad2Value(SundayWeek(b));
  }

  /** February 29th exists in leap years. */
  lemma LeapDayAccepted()
    ensures ParseCreatedOn("2024-02-29T12:00:00Z") == Ok(DateTime(Date(2024, 2, 29), 12, 0, 0))
  {
    var t := DateTime(Date(2024, 2, 29), 12, 0, 0);
    assert DaysInMonth(2024, 2) == 29;
    ParseRender(t);
    assert Pad4(2024) == "2024" && Pad2(2) == "02" && Pad2(29) == "29";
    assert Pad2(12) == "12" && Pad2(0) == "00";
    var day := DayKey(t.date);
    assert day == "2024-02-29";
    assert Render(t) == day + "T" + "12" + ":" + "00" + ":" + "00" + "Z";
    assert day + "T" + "12" + ":" + "00" + ":" + "00" + "Z" == "2024-02-29T12:00:00Z";
  }

  /** A text in the format that names a day past the end of its month is
      refused by `datetime`, not by the format. */
  lemma DayOutOfRange(s: string)
    requires MatchesFormat(s) && Field2(s, 8) > DaysInMonth(Field4(s, 0), Field2(s, 5))
    ensures ParseCreatedOn(s) == Err(ValueOutOfRange)
  {
  }

  /** February 29th of a common year aborts the parse. */
  lemma CommonYearLeapDayRejected()
    ensures ParseCreatedOn("2023-02-29T12:00:00Z") == Err(ValueOutOfRange)
  {
    var s := "2023-02-29T12:00:00Z";
    assert MatchesFormat(s);
    assert Field4(s, 0) == 2023 && Field2(s, 5) == 2 && Field2(s, 8) == 29;
    DayOutOfRange(s);
  }

  /** So does February 30th. */
  lemma FebruaryThirtiethRejected()
    ensures ParseCreatedOn("2024-02-30T12:00:00Z") == Err(ValueOutOfRange)
  {
    var s := "2024-02-30T12:00:00Z";
    assert MatchesFormat(s);
    assert Field4(s, 0) == 2024 && Field2(s, 5) == 2 && Field2(s, 8) == 30;
    DayOutOfRange(s);
  }
}
