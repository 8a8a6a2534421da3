/**
 * Gregorian calendar arithmetic and the date/time formats the plugins print:
 * PHP's `cal_days_in_month(CAL_GREGORIAN, …)`, `date('Y-m-d')` (also
 * `sprintf('%04d-%02d-%02d')`), `date('d/m/Y')` and `date('H:i')`.
 */
module Calendar {
  import opened PhpText

  /** The Gregorian leap-year rule. */
  predicate IsLeapYear(y: nat) {
    (y % 4 == 0 && y % 100 != 0) || y % 400 == 0
  }

  /** cal_days_in_month(CAL_GREGORIAN, m, y). */
  function DaysInMonth(y: nat, m: nat): (n: nat)
    requires 1 <= m <= 12
    ensures 28 <= n <= 31
    ensures n == 29 <==> m == 2 && IsLeapYear(y)
    ensures n == 28 <==> m == 2 && !IsLeapYear(y)
  {
    if m == 2 then (if IsLeapYear(y) then 29 else 28)
    else if m == 4 || m == 6 || m == 9 || m == 11 then 30
    else 31
  }

  /** Days from January 1 to the first of month m, by the usual cumulative table. */
  function DaysBeforeMonth(y: nat, m: nat): nat
    requires 1 <= m <= 13
  {
    var table := [0, 31, 59, 90, 120, 151, 181, 212, 243, 273, 304, 334, 365];
    table[m - 1] + (if m > 2 && IsLeapYear(y) then 1 else 0)
  }

  /** The month lengths agree with the cumulative day-of-year table, and so
      add up to 365 days, or 366 in a leap year. */
  lemma MonthLengthsMatchDayOfYear(y: nat, m: nat)
    requires 1 <= m <= 12
    ensures DaysInMonth(y, m) == DaysBeforeMonth(y, m + 1) - DaysBeforeMonth(y, m)
    ensures DaysBeforeMonth(y, 13) == if IsLeapYear(y) then 366 else 365
  {
  }

  datatype Date = Date(year: nat, month: nat, day: nat)

  predicate ValidDate(d: Date) {
    d.year >= 1 && 1 <= d.month <= 12 && 1 <= d.day <= DaysInMonth(d.year, d.month)
  }

  /** Strict chronological order. On valid dates this is what comparing the
      `strtotime` values of two `Y-m-d` strings decides. */
  predicate Before(a: Date, b: Date) {
    a.year < b.year
    || (a.year == b.year && a.month < b.month)
    || (a.year == b.year && a.month == b.month && a.day < b.day)
  }

  /** date('Y-m-01') on the given day. */
  function FirstOfMonth(d: Date): (r: Date)
    requires ValidDate(d)
    ensures ValidDate(r) && r.year == d.year && r.month == d.month && r.day == 1
    ensures !Before(d, r)
  {
    Date(d.year, d.month, 1)
  }

  /** date('Y-m-t') on the given day. */
  function LastOfMonth(d: Date): (r: Date)
    requires ValidDate(d)
    ensures ValidDate(r) && r.year == d.year && r.month == d.month
    ensures !Before(r, d)
    ensures forall e :: ValidDate(e) && e.year == d.year && e.month == d.month ==> !Before(r, e)
  {
    Date(d.year, d.month, DaysInMonth(d.year, d.month))
  }

  // ---------------------------------------------------------------------------
  // Formats

  /** sprintf('%04d-%02d-%02d', y, m, d), which is also date('Y-m-d'). */
  function IsoDate(y: nat, m: nat, d: nat): (r: string)
    ensures y < 10000 && m < 100 && d < 100 ==> |r| == 10 && r[4] == '-' && r[7] == '-'
  {
    ZeroPadWidth2or4(y, 4);
    ZeroPadWidth2or4(m, 2);
    ZeroPadWidth2or4(d, 2);
    ZeroPad(y, 4) + "-" + ZeroPad(m, 2) + "-" + ZeroPad(d, 2)
  }

  /** date('d/m/Y') */
  function DayMonthYear(y: nat, m: nat, d: nat): (r: string)
    ensures y < 10000 && m < 100 && d < 100 ==> |r| == 10 && r[2] == '/' && r[5] == '/'
  {
    ZeroPadWidth2or4(y, 4);
    ZeroPadWidth2or4(m, 2);
    ZeroPadWidth2or4(d, 2);
    ZeroPad(d, 2) + "/" + ZeroPad(m, 2) + "/" + ZeroPad(y, 4)
  }

  /** date('H:i') */
  function HourMinute(h: nat, min: nat): (r: string)
    ensures h < 100 && min < 100 ==> |r| == 5 && r[2] == ':'
  {
    ZeroPadWidth2or4(h, 2);
    ZeroPadWidth2or4(min, 2);
    ZeroPad(h, 2) + ":" + ZeroPad(min, 2)
  }

  lemma ZeroPadWidth2or4(n: nat, w: nat)
    requires w == 2 || w == 4
    ensures w == 2 && n < 100 ==> |ZeroPad(n, 2)| == 2
    ensures w == 4 && n < 10000 ==> |ZeroPad(n, 4)| == 4
  {
    assert Pow10(2) == 100;
    assert Pow10(4) == 10000;
    if w == 2 && n < 100 { ZeroPadWidth(n, 2); }
    if w == 4 && n < 10000 { ZeroPadWidth(n, 4); }
  }

  /** The `Y-m-d` text decodes back to its year, month and day. */
  lemma IsoDateDecodes(y: nat, m: nat, d: nat)
    requires y < 10000 && m < 100 && d < 100
    ensures var r := IsoDate(y, m, d);
      AllDigits(r[..4]) && AllDigits(r[5..7]) && AllDigits(r[8..])
      && DigitsValue(r[..4]) == y && DigitsValue(r[5..7]) == m && DigitsValue(r[8..]) == d
  {
    var r := IsoDate(y, m, d);
    ZeroPadWidth2or4(y, 4);
    ZeroPadWidth2or4(m, 2);
    ZeroPadWidth2or4(d, 2);
    assert r[..4] == ZeroPad(y, 4);
    assert r[5..7] == ZeroPad(m, 2);
    assert r[8..] == ZeroPad(d, 2);
    ZeroPadRoundTrip(y, 4);
    ZeroPadRoundTrip(m, 2);
    ZeroPadRoundTrip(d, 2);
  }

  /** Different dates (with at most four-digit years) have different `Y-m-d` texts. */
  lemma IsoDateInjective(a: Date, b: Date)
    requires a.year < 10000 && a.month < 100 && a.day < 100
    requires b.year < 10000 && b.month < 100 && b.day < 100
    requires IsoDate(a.year, a.month, a.day) == IsoDate(b.year, b.month, b.day)
    ensures a == b
  {
    IsoDateDecodes(a.year, a.month, a.day);
    IsoDateDecodes(b.year, b.month, b.day);
  }

  /** Within one month, different days give different `Y-m-d` texts, whatever the year. */
  lemma IsoDateDayInjective(y: nat, m: nat, d1: nat, d2: nat)
    requires d1 < 100 && d2 < 100
    requires IsoDate(y, m, d1) == IsoDate(y, m, d2)
    ensures d1 == d2
  {
    var p := ZeroPad(y, 4) + "-" + ZeroPad(m, 2) + "-";
    ZeroPadWidth2or4(d1, 2);
    ZeroPadWidth2or4(d2, 2);
    assert IsoDate(y, m, d1) == p + ZeroPad(d1, 2);
    assert IsoDate(y, m, d2) == p + ZeroPad(d2, 2);
    assert ZeroPad(d1, 2) == IsoDate(y, m, d1)[|p|..];
    ZeroPadInjective(d1, d2, 2);
  }

  /** The `d/m/Y` text decodes back to its day, month and year. */
  lemma DayMonthYearDecodes(y: nat, m: nat, d: nat)
    requires y < 10000 && m < 100 && d < 100
    ensures var r := DayMonthYear(y, m, d);
      AllDigits(r[..2]) && AllDigits(r[3..5]) && AllDigits(r[6..])
      && DigitsValue(r[..2]) == d && DigitsValue(r[3..5]) == m && DigitsValue(r[6..]) == y
  {
    var r := DayMonthYear(y, m, d);
    ZeroPadWidth2or4(y, 4);
    ZeroPadWidth2or4(m, 2);
    ZeroPadWidth2or4(d, 2);
    assert r[..2] == ZeroPad(d, 2);
    assert r[3..5] == ZeroPad(m, 2);
    assert r[6..] == ZeroPad(y, 4);
    ZeroPadRoundTrip(y, 4);
    ZeroPadRoundTrip(m, 2);
    ZeroPadRoundTrip(d, 2);
  }

  /** The `H:i` text decodes back to its hour and minute. */
  lemma HourMinuteDecodes(h: nat, min: nat)
    requires h < 100 && min < 100
    ensures var r := HourMinute(h, min);
      AllDigits(r[..2]) && AllDigits(r[3..])
      && DigitsValue(r[..2]) == h && DigitsValue(r[3..]) == min
  {
    var r := HourMinute(h, min);
    ZeroPadWidth2or4(h, 2);
    ZeroPadWidth2or4(min, 2);
    assert r[..2] == ZeroPad(h, 2);
    assert r[3..] == ZeroPad(min, 2);
    ZeroPadRoundTrip(h, 2);
    ZeroPadRoundTrip(min, 2);
  }
}
