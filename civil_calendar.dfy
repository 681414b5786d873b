/**
 * The proleptic Gregorian calendar the application computes in. A day is an integer
 * day number, day 0 being 1970-01-01, so that "n days later" is `+ n`; `Date` is the
 * year/month/day triple that the JavaScript `Date` object exposes, with months 1..12.
 */
module Civil {

  predicate IsLeap(y: int) {
    (y % 4 == 0 && y % 100 != 0) || y % 400 == 0
  }

  function DaysInYear(y: int): (n: int)
    ensures n == 365 || n == 366
  {
    if IsLeap(y) then 366 else 365
  }

  function DaysInMonth(y: int, m: int): (n: int)
    requires 1 <= m <= 12
    ensures 28 <= n <= 31
  {
    if m == 2 then (if IsLeap(y) then 29 else 28)
    else if m == 4 || m == 6 || m == 9 || m == 11 then 30
    else 31
  }

  /** The number of days of year `y` before the first of month `m` (13 stands for the next year). */
  function DaysBeforeMonth(y: int, m: int): int
    requires 1 <= m <= 13
  {
    var common :=
      if m == 1 then 0 else if m == 2 then 31 else if m == 3 then 59
      else if m == 4 then 90 else if m == 5 then 120 else if m == 6 then 151
      else if m == 7 then 181 else if m == 8 then 212 else if m == 9 then 243
      else if m == 10 then 273 else if m == 11 then 304 else if m == 12 then 334
      else 365;
    if m > 2 && IsLeap(y) then common + 1 else common
  }

  lemma DaysBeforeMonthStep(y: int, m: int)
    requires 1 <= m <= 12
    ensures DaysBeforeMonth(y, m + 1) == DaysBeforeMonth(y, m) + DaysInMonth(y, m)
    ensures DaysBeforeMonth(y, 13) == DaysInYear(y)
  {
  }

  lemma {:induction false} DaysBeforeMonthMonotone(y: int, a: int, b: int)
    requires 1 <= a <= b <= 13
    ensures DaysBeforeMonth(y, a) <= DaysBeforeMonth(y, b)
    decreases b - a
  {
    if a < b {
      DaysBeforeMonthStep(y, a);
      DaysBeforeMonthMonotone(y, a + 1, b);
    }
  }

  /** The day number of January 1st of year `y`. */
  function YearStart(y: int): int
    decreases if y >= 1970 then y - 1970 else 1970 - y
  {
    if y == 1970 then 0
    else if y > 1970 then YearStart(y - 1) + DaysInYear(y - 1)
    else YearStart(y + 1) - DaysInYear(y)
  }

  lemma YearStartStep(y: int)
    ensures YearStart(y + 1) == YearStart(y) + DaysInYear(y)
  {
  }

  lemma {:induction false} YearStartIncreasing(a: int, b: int)
    requires a < b
    ensures YearStart(a) + DaysInYear(a) <= YearStart(b)
    decreases b - a
  {
    YearStartStep(a);
    if a + 1 < b {
      YearStartIncreasing(a + 1, b);
    }
  }

  datatype Date = Date(year: int, month: int, day: int)

  /** A real calendar date: month 1..12 and a day that month has. */
  predicate Valid(d: Date) {
    1 <= d.month <= 12 && 1 <= d.day <= DaysInMonth(d.year, d.month)
  }

  /** The day number of a date. */
  function ToDay(d: Date): int
    requires Valid(d)
  {
    YearStart(d.year) + DaysBeforeMonth(d.year, d.month) + d.day - 1
  }

  /** The year containing day `YearStart(y) + rem`, and that day's offset in its year. */
  function FindYear(rem: int, y: int): (r: (int, int))
    ensures 0 <= r.1 < DaysInYear(r.0)
    ensures YearStart(r.0) + r.1 == YearStart(y) + rem
    decreases (if rem < 0 then 1 else 0), (if rem < 0 then -rem else rem)
  {
    YearStartStep(y - 1);
    YearStartStep(y);
    if rem < 0 then FindYear(rem + DaysInYear(y - 1), y - 1)
    else if rem < DaysInYear(y) then (y, rem)
    else FindYear(rem - DaysInYear(y), y + 1)
  }

  /** The month and day of the `doy`-th day (counting from month `m`) of year `y`. */
  function FindMonth(doy: int, y: int, m: int): (r: (int, int))
    requires 1 <= m <= 12 && 0 <= doy
    requires DaysBeforeMonth(y, m) + doy < DaysInYear(y)
    ensures Valid(Date(y, r.0, r.1))
    ensures DaysBeforeMonth(y, r.0) + r.1 - 1 == DaysBeforeMonth(y, m) + doy
    decreases 12 - m
  {
    DaysBeforeMonthStep(y, m);
    if doy < DaysInMonth(y, m) then (m, doy + 1)
    else FindMonth(doy - DaysInMonth(y, m), y, m + 1)
  }

  /** The date of a day number. */
  function FromDay(n: int): (d: Date)
    ensures Valid(d) && ToDay(d) == n
  {
    var (y, doy) := FindYear(n, 1970);
    DaysBeforeMonthStep(y, 12);
    var (m, day) := FindMonth(doy, y, 1);
    Date(y, m, day)
  }

  /** Date order: by year, then month, then day. */
  predicate Before(a: Date, b: Date) {
    a.year < b.year
    || (a.year == b.year && a.month < b.month)
    || (a.year == b.year && a.month == b.month && a.day < b.day)
  }

  lemma DayOfYearBound(d: Date)
    requires Valid(d)
    ensures 0 <= DaysBeforeMonth(d.year, d.month) + d.day - 1 < DaysInYear(d.year)
  {
    DaysBeforeMonthStep(d.year, d.month);
    DaysBeforeMonthMonotone(d.year, d.month + 1, 13);
  }

  /** Day numbers follow date order. */
  lemma ToDayOrder(a: Date, b: Date)
    requires Valid(a) && Valid(b) && Before(a, b)
    ensures ToDay(a) < ToDay(b)
  {
    DayOfYearBound(a);
    DayOfYearBound(b);
    if a.year < b.year {
      YearStartIncreasing(a.year, b.year);
    } else if a.month < b.month {
      DaysBeforeMonthStep(a.year, a.month);
      DaysBeforeMonthMonotone(a.year, a.month + 1, b.month);
    }
  }

  lemma ToDayInjective(a: Date, b: Date)
    requires Valid(a) && Valid(b) && ToDay(a) == ToDay(b)
    ensures a == b
  {
    if Before(a, b) {
      ToDayOrder(a, b);
    } else if Before(b, a) {
      ToDayOrder(b, a);
    }
  }

  /** Round trip: the date of a date's day number is that date. */
  lemma FromToDay(d: Date)
    requires Valid(d)
    ensures FromDay(ToDay(d)) == d
  {
    ToDayInjective(FromDay(ToDay(d)), d);
  }

  /** Day of the week, 0 for Sunday as JavaScript `getDay()` numbers it (1970-01-01 was a Thursday). */
  function Weekday(n: int): (w: int)
    ensures 0 <= w < 7
  {
    (n + 4) % 7
  }

  /** The day `Weekday(n)` days before `n` is a Sunday. */
  lemma SundayOnOrBefore(n: int)
    ensures Weekday(n - Weekday(n)) == 0
  {
  }

  // ---------------------------------------------------------------------------------------
  // Months

  /** A displayed month, modelled as a (year, month) pair with months 1..12. */
  datatype YearMonth = YearMonth(year: int, month: int)

  predicate ValidMonth(ym: YearMonth) {
    1 <= ym.month <= 12
  }

  /** Months counted from January of year 0. */
  function MonthIndex(ym: YearMonth): int {
    ym.year * 12 + ym.month - 1
  }

  function MonthOfIndex(k: int): (ym: YearMonth)
    ensures ValidMonth(ym) && MonthIndex(ym) == k
  {
    YearMonth(k / 12, k % 12 + 1)
  }

  /** The month `k` months after `ym` (before it when `k` is negative). */
  function ShiftMonth(ym: YearMonth, k: int): (r: YearMonth)
    ensures ValidMonth(r) && MonthIndex(r) == MonthIndex(ym) + k
  {
    MonthOfIndex(MonthIndex(ym) + k)
  }

  lemma MonthIndexInjective(a: YearMonth, b: YearMonth)
    requires ValidMonth(a) && ValidMonth(b) && MonthIndex(a) == MonthIndex(b)
    ensures a == b
  {
  }

  /** Going forward a month and back again returns to the same month. */
  lemma ShiftMonthRoundTrip(ym: YearMonth, k: int)
    requires ValidMonth(ym)
    ensures ShiftMonth(ShiftMonth(ym, k), -k) == ym
  {
    MonthIndexInjective(ShiftMonth(ShiftMonth(ym, k), -k), ym);
  }

  /** The day number of the first day of a month. */
  function FirstDay(ym: YearMonth): int
    requires ValidMonth(ym)
  {
    ToDay(Date(ym.year, ym.month, 1))
  }

  /** The day number of the last day of a month. */
  function LastDay(ym: YearMonth): (n: int)
    requires ValidMonth(ym)
    ensures FirstDay(ym) + 27 <= n <= FirstDay(ym) + 30
  {
    ToDay(Date(ym.year, ym.month, DaysInMonth(ym.year, ym.month)))
  }

  /** The day numbers from `FirstDay` to `LastDay` are exactly the dates of that month. */
  lemma DaysOfMonth(ym: YearMonth, n: int)
    requires ValidMonth(ym)
    ensures FirstDay(ym) <= n <= LastDay(ym) <==> FromDay(n).year == ym.year && FromDay(n).month == ym.month
  {
    var d := FromDay(n);
    if FirstDay(ym) <= n <= LastDay(ym) {
      var e := Date(ym.year, ym.month, n - FirstDay(ym) + 1);
      assert ToDay(e) == n;
      ToDayInjective(d, e);
    }
  }
}
