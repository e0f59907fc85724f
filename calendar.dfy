/** Calendar dates as (year, month, day) triples, the year-month period key
    derived from a date, and its "YYYY-MM" text form. */
module Calendar {
  import opened Wrappers

  datatype Date = Date(year: int, month: int, day: int)

  /** Gregorian leap-year rule. */
  predicate IsLeapYear(y: int) {
    (y % 4 == 0 && y % 100 != 0) || y % 400 == 0
  }

  function DaysInMonth(y: int, m: int): (n: int)
    requires 1 <= m <= 12
    ensures 28 <= n <= 31
    ensures n == 29 <==> m == 2 && IsLeapYear(y)
  {
    if m == 2 then (if IsLeapYear(y) then 29 else 28)
    else if m == 4 || m == 6 || m == 9 || m == 11 then 30
    else 31
  }

  /** A triple that names a real day of the calendar. */
  predicate ValidDate(d: Date) {
    1 <= d.month <= 12 && 1 <= d.day <= DaysInMonth(d.year, d.month)
  }

  /** Chronological order on dates (lexicographic on the triple). */
  predicate DateLe(a: Date, b: Date) {
    a.year < b.year
    || (a.year == b.year && a.month < b.month)
    || (a.year == b.year && a.month == b.month && a.day <= b.day)
  }

  lemma DateLeTotalOrder(a: Date, b: Date, c: Date)
    ensures DateLe(a, a)
    ensures DateLe(a, b) || DateLe(b, a)
    ensures DateLe(a, b) && DateLe(b, a) ==> a == b
    ensures DateLe(a, b) && DateLe(b, c) ==> DateLe(a, c)
  {
  }

  /** The monthly period of a date (pandas `to_period('M')`). */
  datatype YearMonth = YearMonth(year: int, month: int)

  function MonthOf(d: Date): (p: YearMonth)
    ensures p.year == d.year && p.month == d.month
  {
    YearMonth(d.year, d.month)
  }

  /** The period key depends on the year and month of a date only, and
      distinguishes any two dates that differ in either. */
  lemma MonthOfDependsOnYearMonth(a: Date, b: Date)
    ensures MonthOf(a) == MonthOf(b) <==> a.year == b.year && a.month == b.month
  {
  }

  predicate ValidPeriod(p: YearMonth) {
    0 <= p.year <= 9999 && 1 <= p.month <= 12
  }

  function DigitChar(n: int): (c: char)
    requires 0 <= n <= 9
    ensures '0' <= c <= '9'
  {
    ('0' as int + n) as char
  }

  predicate IsDigitChar(c: char) {
    '0' <= c <= '9'
  }

  function DigitValue(c: char): (n: int)
    requires IsDigitChar(c)
    ensures 0 <= n <= 9
  {
    c as int - '0' as int
  }

  function Pad2(n: int): (s: string)
    requires 0 <= n <= 99
    ensures |s| == 2 && IsDigitChar(s[0]) && IsDigitChar(s[1])
    ensures DigitValue(s[0]) * 10 + DigitValue(s[1]) == n
  {
    [DigitChar(n / 10), DigitChar(n % 10)]
  }

  function Pad4(n: int): (s: string)
    requires 0 <= n <= 9999
    ensures |s| == 4 && forall i :: 0 <= i < 4 ==> IsDigitChar(s[i])
  {
    Pad2(n / 100) + Pad2(n % 100)
  }

  /** The "YYYY-MM" text pandas gives a monthly period (`astype(str)`). */
  function PeriodText(p: YearMonth): (s: string)
    requires ValidPeriod(p)
    ensures |s| == 7 && s[4] == '-'
  {
    Pad4(p.year) + "-" + Pad2(p.month)
  }

  /** Reads a "YYYY-MM" text back into a period; None for any other text. */
  function ParsePeriodText(s: string): (r: Option<YearMonth>)
    ensures r.Some? ==> ValidPeriod(r.value)
  {
    if |s| == 7 && s[4] == '-'
       && IsDigitChar(s[0]) && IsDigitChar(s[1]) && IsDigitChar(s[2]) && IsDigitChar(s[3])
       && IsDigitChar(s[5]) && IsDigitChar(s[6])
    then
      var y := ((DigitValue(s[0]) * 10 + DigitValue(s[1])) * 10 + DigitValue(s[2])) * 10 + DigitValue(s[3]);
      var m := DigitValue(s[5]) * 10 + DigitValue(s[6]);
      if 1 <= m <= 12 then Some(YearMonth(y, m)) else None
    else None
  }

  /** The period text determines its period: reading it back gives the
      period it was written from, so two periods share a text only if equal. */
  lemma PeriodTextRoundTrip(p: YearMonth)
    requires ValidPeriod(p)
    ensures ParsePeriodText(PeriodText(p)) == Some(p)
  {
    var s := PeriodText(p);
    var hi, lo := Pad2(p.year / 100), Pad2(p.year % 100);
    assert s[0] == hi[0] && s[1] == hi[1] && s[2] == lo[0] && s[3] == lo[1];
    var mm := Pad2(p.month);
    assert s[5] == mm[0] && s[6] == mm[1];
  }

  lemma PeriodTextInjective(p: YearMonth, q: YearMonth)
    requires ValidPeriod(p) && ValidPeriod(q)
    ensures PeriodText(p) == PeriodText(q) <==> p == q
  {
    PeriodTextRoundTrip(p);
    PeriodTextRoundTrip(q);
  }
}
