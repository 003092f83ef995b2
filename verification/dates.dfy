/**
 * Calendar dates on the proleptic Gregorian calendar, as the views read them from a
 * JavaScript `Date` in local time: a year, a month 1..12 (`getMonth() + 1`) and a day
 * of the month (`getDate()`). `DayOfWeek` is `getDay()`: 0 is Sunday, 6 is Saturday.
 */
module Dates {
  import opened JsStrings

  datatype Date = Date(year: int, month: int, day: int)

  predicate IsLeapYear(y: int) {
    y % 4 == 0 && (y % 100 != 0 || y % 400 == 0)
  }

  function DaysInMonth(y: int, m: int): (n: int)
    requires 1 <= m <= 12
    ensures 28 <= n <= 31
    ensures n == 29 <==> m == 2 && IsLeapYear(y)
  {
    if m == 2 then (if IsLeapYear(y) then 29 else 28)
    else if m == 4 || m == 6 || m == 9 || m == 11 then 30
    else 31
  }

  predicate ValidDate(d: Date) {
    1 <= d.month <= 12 && 1 <= d.day <= DaysInMonth(d.year, d.month)
  }

  function YearLength(y: int): int {
    if IsLeapYear(y) then 366 else 365
  }

  /** Days of year `y` before the first of month `m`. */
  function DaysBeforeMonth(y: int, m: int): int
    requires 1 <= m <= 12
  {
    var leap := if IsLeapYear(y) then 1 else 0;
    if m == 1 then 0
    else if m == 2 then 31
    else if m == 3 then 59 + leap
    else if m == 4 then 90 + leap
    else if m == 5 then 120 + leap
    else if m == 6 then 151 + leap
    else if m == 7 then 181 + leap
    else if m == 8 then 212 + leap
    else if m == 9 then 243 + leap
    else if m == 10 then 273 + leap
    else if m == 11 then 304 + leap
    else 334 + leap
  }

  /** Days from 1 January of year 1 to 1 January of year `y`. */
  function DaysBeforeYear(y: int): int {
    365 * (y - 1) + (y - 1) / 4 - (y - 1) / 100 + (y - 1) / 400
  }

  /** The day's serial number: 1 January of year 1 is day 0. */
  function DayNumber(d: Date): int
    requires 1 <= d.month <= 12
  {
    DaysBeforeYear(d.year) + DaysBeforeMonth(d.year, d.month) + d.day - 1
  }

  /** `getDay()`: 1 January of year 1 was a Monday. */
  function DayOfWeek(d: Date): (w: int)
    requires 1 <= d.month <= 12
    ensures 0 <= w < 7
  {
    (DayNumber(d) + 1) % 7
  }

  /** An anchor for the weekday numbering: 21 July 2025 was a Monday. */
  lemma KnownMonday()
    ensures DayOfWeek(Date(2025, 7, 21)) == 1
  {
  }

  /** The month before and the month after. */
  function PrevMonth(y: int, m: int): (r: (int, int))
    requires 1 <= m <= 12
    ensures 1 <= r.1 <= 12 && r.1 != m
  {
    if m == 1 then (y - 1, 12) else (y, m - 1)
  }

  function NextMonth(y: int, m: int): (r: (int, int))
    requires 1 <= m <= 12
    ensures 1 <= r.1 <= 12 && r.1 != m
  {
    if m == 12 then (y + 1, 1) else (y, m + 1)
  }

  /** `setDate(getDate() + 1)`: the following calendar day. */
  function NextDay(d: Date): (r: Date)
    requires ValidDate(d)
    ensures ValidDate(r)
  {
    if d.day < DaysInMonth(d.year, d.month) then Date(d.year, d.month, d.day + 1)
    else
      var nm := NextMonth(d.year, d.month);
      Date(nm.0, nm.1, 1)
  }

  lemma StepBy(y: int, k: int)
    requires k == 4 || k == 100 || k == 400
    ensures y / k - (y - 1) / k == if y % k == 0 then 1 else 0
  {
  }

  lemma DivisibilityChain(y: int)
    ensures y % 400 == 0 ==> y % 100 == 0
    ensures y % 100 == 0 ==> y % 4 == 0
  {
    if y % 400 == 0 {
      var q := y / 400;
      assert y == 400 * q;
      assert y / 100 == 4 * q;
    }
    if y % 100 == 0 {
      var q := y / 100;
      assert y == 100 * q;
      assert y / 4 == 25 * q;
    }
  }

  /** A year adds its own length to the day count. */
  lemma YearStep(y: int)
    ensures DaysBeforeYear(y + 1) == DaysBeforeYear(y) + YearLength(y)
  {
    var s4 := if y % 4 == 0 then 1 else 0;
    var s100 := if y % 100 == 0 then 1 else 0;
    var s400 := if y % 400 == 0 then 1 else 0;
    StepBy(y, 4);
    StepBy(y, 100);
    StepBy(y, 400);
    assert DaysBeforeYear(y + 1) - DaysBeforeYear(y)
        == 365 + (y / 4 - (y - 1) / 4) - (y / 100 - (y - 1) / 100) + (y / 400 - (y - 1) / 400);
    DivisibilityChain(y);
    assert YearLength(y) == 365 + s4 - s100 + s400;
  }

  /** The next day is the next serial number. */
  lemma NextDayNumber(d: Date)
    requires ValidDate(d)
    ensures DayNumber(NextDay(d)) == DayNumber(d) + 1
  {
    if d.day == DaysInMonth(d.year, d.month) && d.month == 12 {
      YearStep(d.year);
    }
  }

  /** `${year}` for an integer year: its decimal digits, with a minus sign when negative. */
  function YearText(y: int): string {
    if y < 0 then "-" + Digits(-y) else Digits(y)
  }

  /** `formatDateKey`: the year, then the month and the day zero-padded to two digits, joined by "-". */
  function FormatDateKey(d: Date): (r: string)
    requires d.month >= 1 && d.day >= 1
  {
    YearText(d.year) + "-" + Pad2(d.month) + "-" + Pad2(d.day)
  }

  lemma FourDigits(y: int)
    requires 1000 <= y <= 9999
    ensures |Digits(y)| == 4
  {
    assert Digits(y) == Digits(y / 10) + [DigitChar(y % 10)];
    assert Digits(y / 10) == Digits(y / 100) + [DigitChar(y / 10 % 10)];
  }

  /**
   * For a valid date with a four-digit year the key is a full-date of section 5.6 of
   * RFC 3339 ("YYYY-MM-DD"), and its three fields read back as the year, month and day.
   */
  lemma DateKeyIsFullDate(d: Date)
    requires ValidDate(d) && 1000 <= d.year <= 9999
    ensures var r := FormatDateKey(d);
      |r| == 10 && r[4] == '-' && r[7] == '-' &&
      AllDigits(r[..4]) && AllDigits(r[5..7]) && AllDigits(r[8..]) &&
      ValueOf(r[..4]) == d.year && ValueOf(r[5..7]) == d.month && ValueOf(r[8..]) == d.day
  {
    FourDigits(d.year);
    var r := FormatDateKey(d);
    assert r[..4] == Digits(d.year);
    assert r[5..7] == Pad2(d.month);
    assert r[8..] == Pad2(d.day);
  }

  /** Distinct dates of four-digit years get distinct keys. */
  lemma DateKeyInjective(a: Date, b: Date)
    requires ValidDate(a) && 1000 <= a.year <= 9999
    requires ValidDate(b) && 1000 <= b.year <= 9999
    requires FormatDateKey(a) == FormatDateKey(b)
    ensures a == b
  {
    DateKeyIsFullDate(a);
    DateKeyIsFullDate(b);
  }
}
