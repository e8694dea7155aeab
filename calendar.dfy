/**
 * The slice of JavaScript's `Date` the handlers rely on: parsing a date-only ISO string
 * ("YYYY-MM-DD", read as midnight UTC), `toISOString().split("T")[0]`, `getMonth` and
 * `getFullYear`, and the overflowing `setMonth`/`setFullYear`. Time zones other than UTC
 * are not modelled; the month is zero-based as `getMonth()` returns it.
 */
module Calendar {
  import opened Wrappers

  datatype Day = Day(year: int, month: int, day: int)

  /** A moment: a calendar day in UTC and the milliseconds elapsed since its midnight. */
  datatype Instant = Instant(date: Day, ms: int)

  predicate IsLeapYear(y: int)
  {
    y % 4 == 0 && (y % 100 != 0 || y % 400 == 0)
  }

  function DaysInMonth(y: int, m: int): (n: int)
    requires 0 <= m < 12
    ensures 28 <= n <= 31
  {
    if m == 1 then (if IsLeapYear(y) then 29 else 28)
    else if m == 3 || m == 5 || m == 8 || m == 10 then 30
    else 31
  }

  predicate ValidDay(d: Day)
  {
    0 <= d.month < 12 && 1 <= d.day <= DaysInMonth(d.year, d.month)
  }

  predicate ValidInstant(t: Instant)
  {
    ValidDay(t.date) && 0 <= t.ms < 86400000
  }

  /** Chronological order of days. */
  predicate DayLe(a: Day, b: Day)
  {
    a.year < b.year || (a.year == b.year && (a.month < b.month || (a.month == b.month && a.day <= b.day)))
  }

  predicate InstantLe(a: Instant, b: Instant)
  {
    (DayLe(a.date, b.date) && a.date != b.date) || (a.date == b.date && a.ms <= b.ms)
  }

  /** Midnight UTC of a day: what `new Date("YYYY-MM-DD")` denotes. */
  function Midnight(d: Day): Instant
  {
    Instant(d, 0)
  }

  // ---------------------------------------------------------------- ISO text

  predicate IsDigit(c: char)
  {
    '0' <= c <= '9'
  }

  function DigitValue(c: char): int
  {
    c as int - '0' as int
  }

  function DigitChar(n: int): char
    requires 0 <= n < 10
  {
    (n + '0' as int) as char
  }

  function Pad2(n: int): string
    requires 0 <= n < 100
  {
    [DigitChar(n / 10), DigitChar(n % 10)]
  }

  function Pad4(n: int): string
    requires 0 <= n < 10000
  {
    [DigitChar(n / 1000), DigitChar(n / 100 % 10), DigitChar(n / 10 % 10), DigitChar(n % 10)]
  }

  /** "YYYY-MM-DD" with a month 01..12 and a day 01..31: the texts V8 reads as a date. */
  predicate DateShaped(s: string)
  {
    && |s| == 10 && s[4] == '-' && s[7] == '-'
    && IsDigit(s[0]) && IsDigit(s[1]) && IsDigit(s[2]) && IsDigit(s[3])
    && IsDigit(s[5]) && IsDigit(s[6]) && IsDigit(s[8]) && IsDigit(s[9])
    && 1 <= DigitValue(s[5]) * 10 + DigitValue(s[6]) <= 12
    && 1 <= DigitValue(s[8]) * 10 + DigitValue(s[9]) <= 31
  }

  /**
   * `new Date(s)` for a date-only string; `None` stands for an Invalid Date. As V8 reads
   * it, the month must be 01..12 and the day 01..31 whatever the month, and a day the
   * month does not have rolls over into the next month ("2024-02-30" is 1 March 2024).
   */
  function ParseIsoDate(s: string): (r: Option<Day>)
    ensures r.Some? <==> DateShaped(s)
    ensures r.Some? ==> ValidDay(r.value) && 0 <= r.value.year < 10000
    ensures r.Some? ==> var y := DigitValue(s[0]) * 1000 + DigitValue(s[1]) * 100 + DigitValue(s[2]) * 10 + DigitValue(s[3]);
                        var m := DigitValue(s[5]) * 10 + DigitValue(s[6]);
                        var d := DigitValue(s[8]) * 10 + DigitValue(s[9]);
                        1 <= m <= 12 && 1 <= d <= 31
                        && r.value == (if d <= DaysInMonth(y, m - 1) then Day(y, m - 1, d)
                                       else Day(y, m, d - DaysInMonth(y, m - 1)))
  {
    if |s| != 10 || s[4] != '-' || s[7] != '-' then None
    else if !(IsDigit(s[0]) && IsDigit(s[1]) && IsDigit(s[2]) && IsDigit(s[3])
              && IsDigit(s[5]) && IsDigit(s[6]) && IsDigit(s[8]) && IsDigit(s[9])) then None
    else
      var y := DigitValue(s[0]) * 1000 + DigitValue(s[1]) * 100 + DigitValue(s[2]) * 10 + DigitValue(s[3]);
      var m := DigitValue(s[5]) * 10 + DigitValue(s[6]);
      var d := DigitValue(s[8]) * 10 + DigitValue(s[9]);
      if !(1 <= m <= 12 && 1 <= d <= 31) then None
      else if d <= DaysInMonth(y, m - 1) then Some(Day(y, m - 1, d))
      else Some(Day(y, m, d - DaysInMonth(y, m - 1)))
  }

  /** A day the month does not have rolls over: 30 February 2024 is read as 1 March 2024. */
  lemma ParseRollsOver()
    ensures ParseIsoDate("2024-02-30") == Some(Day(2024, 2, 1))
    ensures ParseIsoDate("2023-02-29") == Some(Day(2023, 2, 1))
    ensures ParseIsoDate("2024-04-31") == Some(Day(2024, 4, 1))
    ensures ParseIsoDate("2024-02-32") == None && ParseIsoDate("2024-13-01") == None
  {
  }

  /** `date.toISOString().split("T")[0]` for a day with a four-digit year. */
  function FormatIsoDate(d: Day): (s: string)
    requires ValidDay(d) && 0 <= d.year < 10000
    ensures |s| == 10
  {
    Pad4(d.year) + "-" + Pad2(d.month + 1) + "-" + Pad2(d.day)
  }

  /**
   * The date part of `toISOString()` for any day up to year 999999: four-digit years as
   * above, later years in the expanded six-digit form with a leading `+`.
   */
  function DateText(d: Day): (s: string)
    requires ValidDay(d) && 0 <= d.year < 1000000
    ensures d.year < 10000 ==> s == FormatIsoDate(d)
    ensures d.year >= 10000 ==> |s| == 13 && s[0] == '+'
  {
    if d.year < 10000 then FormatIsoDate(d)
    else "+" + Pad2(d.year / 10000) + Pad4(d.year % 10000) + "-" + Pad2(d.month + 1) + "-" + Pad2(d.day)
  }

  lemma Pad2Value(n: int)
    requires 0 <= n < 100
    ensures IsDigit(Pad2(n)[0]) && IsDigit(Pad2(n)[1])
    ensures DigitValue(Pad2(n)[0]) * 10 + DigitValue(Pad2(n)[1]) == n
  {
  }

  lemma Pad4Value(n: int)
    requires 0 <= n < 10000
    ensures forall i :: 0 <= i < 4 ==> IsDigit(Pad4(n)[i])
    ensures DigitValue(Pad4(n)[0]) * 1000 + DigitValue(Pad4(n)[1]) * 100
            + DigitValue(Pad4(n)[2]) * 10 + DigitValue(Pad4(n)[3]) == n
  {
    var a, b, c, e := n / 1000, n / 100 % 10, n / 10 % 10, n % 10;
    assert n / 100 == a * 10 + b;
    assert n / 10 == (n / 100) * 10 + c;
    assert n == (n / 10) * 10 + e;
  }

  /** Formatting a day and reading it back gives the same day. */
  lemma ParseFormatIsoDate(d: Day)
    requires ValidDay(d) && 0 <= d.year < 10000
    ensures ParseIsoDate(FormatIsoDate(d)) == Some(d)
  {
    var s := FormatIsoDate(d);
    var y, m, dd := Pad4(d.year), Pad2(d.month + 1), Pad2(d.day);
    assert s == y + "-" + m + "-" + dd;
    Pad4Value(d.year);
    Pad2Value(d.month + 1);
    Pad2Value(d.day);
    assert s[0] == y[0] && s[1] == y[1] && s[2] == y[2] && s[3] == y[3] && s[4] == '-';
    assert s[5] == m[0] && s[6] == m[1] && s[7] == '-' && s[8] == dd[0] && s[9] == dd[1];
  }

  // ---------------------------------------------------------------- Date arithmetic

  /**
   * `date.setMonth(m)`: the year absorbs whole years of `m` (which may be negative or
   * above 11), the day of the month is kept, and a day the target month does not have
   * spills over into the following month (31 April becomes 1 May).
   */
  function SetMonth(d: Day, m: int): (r: Day)
    requires ValidDay(d)
    ensures ValidDay(r)
  {
    var y := d.year + m / 12;
    var mm := m % 12;
    if d.day <= DaysInMonth(y, mm) then Day(y, mm, d.day)
    else if mm == 11 then Day(y + 1, 0, d.day - DaysInMonth(y, mm))
    else Day(y, mm + 1, d.day - DaysInMonth(y, mm))
  }

  /** `date.setFullYear(y)`: 29 February of a year that is not leap becomes 1 March. */
  function SetFullYear(d: Day, y: int): (r: Day)
    requires ValidDay(d)
    ensures ValidDay(r)
  {
    if d.day <= DaysInMonth(y, d.month) then Day(y, d.month, d.day)
    else Day(y, d.month + 1, d.day - DaysInMonth(y, d.month))
  }

  /** Index of a month counted from year 0, so that consecutive months differ by one. */
  function MonthIndex(year: int, month: int): int
  {
    year * 12 + month
  }

  /** Different months have different indexes. */
  lemma MonthIndexInjective(y1: int, m1: int, y2: int, m2: int)
    requires 0 <= m1 < 12 && 0 <= m2 < 12
    requires MonthIndex(y1, m1) == MonthIndex(y2, m2)
    ensures y1 == y2 && m1 == m2
  {
  }

  /** The (year, month) that lies `k` months before (year, month), ignoring the day. */
  function MonthsBefore(year: int, month: int, k: int): (r: (int, int))
    requires 0 <= month < 12
    ensures 0 <= r.1 < 12
    ensures MonthIndex(r.0, r.1) == MonthIndex(year, month) - k
  {
    var idx := MonthIndex(year, month) - k;
    (idx / 12, idx % 12)
  }
}
