/**
 * The proleptic Gregorian calendar as Python's `datetime.date` implements it:
 * ordinals (day 1 is 0001-01-01), day arithmetic, weekdays (Monday = 0),
 * month stepping that clamps the day (dateutil's `relativedelta`), the
 * ISO 8601 week date of `date.isocalendar()` (ISO 8601:2004 section 4.1.4)
 * and the calendar-date text form YYYY-MM-DD (ISO 8601:2004 section 4.1.2.2).
 *
 * Years are unbounded integers; Python's own range 1..9999 is a bound this
 * model does not impose (see README).
 */
module Calendar {

  datatype Date = Date(year: int, month: int, day: int)

  predicate IsLeap(y: int) {
    y % 4 == 0 && (y % 100 != 0 || y % 400 == 0)
  }

  function DaysInYear(y: int): int {
    if IsLeap(y) then 366 else 365
  }

  function DaysInMonth(y: int, m: int): (n: int)
    requires 1 <= m <= 12
    ensures 28 <= n <= 31
    ensures n == 29 <==> m == 2 && IsLeap(y)
  {
    if m == 2 then (if IsLeap(y) then 29 else 28)
    else if m == 4 || m == 6 || m == 9 || m == 11 then 30
    else 31
  }

  /** A date that exists in the calendar. */
  predicate Valid(d: Date) {
    1 <= d.month <= 12 && 1 <= d.day <= DaysInMonth(d.year, d.month)
  }

  /** Days in the years before `y` (CPython's `_days_before_year`, floor division). */
  function DaysBeforeYear(y: int): int {
    var p := y - 1;
    365 * p + p / 4 - p / 100 + p / 400
  }

  /** Days in the months of year `y` before month `m` (CPython's table plus the leap day). */
  function DaysBeforeMonth(y: int, m: int): int
    requires 1 <= m <= 12
  {
    var table := [0, 31, 59, 90, 120, 151, 181, 212, 243, 273, 304, 334];
    table[m - 1] + (if m > 2 && IsLeap(y) then 1 else 0)
  }

  /** `date.toordinal()`. */
  function Ordinal(d: Date): int
    requires Valid(d)
  {
    DaysBeforeYear(d.year) + DaysBeforeMonth(d.year, d.month) + d.day
  }

  /** `(p + 1) / k` exceeds `p / k` by one exactly when `k` divides `p + 1`. */
  lemma FloorDivStep(p: int, k: int)
    requires k == 4 || k == 100 || k == 400
    ensures (p + 1) / k - p / k == if (p + 1) % k == 0 then 1 else 0
  {
    var q, m := p / k, p % k;
    assert p == k * q + m && 0 <= m < k;
    if m + 1 == k {
      assert p + 1 == k * (q + 1) + 0;
    } else {
      assert p + 1 == k * q + (m + 1);
    }
  }

  lemma DaysBeforeYearStep(y: int)
    ensures DaysBeforeYear(y + 1) == DaysBeforeYear(y) + DaysInYear(y)
  {
    var p := y - 1;
    FloorDivStep(p, 4);
    FloorDivStep(p, 100);
    FloorDivStep(p, 400);
  }

  lemma DaysBeforeMonthStep(y: int, m: int)
    requires 1 <= m < 12
    ensures DaysBeforeMonth(y, m + 1) == DaysBeforeMonth(y, m) + DaysInMonth(y, m)
  {
  }

  /** The following day. */
  function Next(d: Date): (r: Date)
    requires Valid(d)
    ensures Valid(r) && Ordinal(r) == Ordinal(d) + 1
  {
    if d.day < DaysInMonth(d.year, d.month) then Date(d.year, d.month, d.day + 1)
    else if d.month < 12 then
      DaysBeforeMonthStep(d.year, d.month);
      Date(d.year, d.month + 1, 1)
    else
      DaysBeforeYearStep(d.year);
      Date(d.year + 1, 1, 1)
  }

  /** The previous day. */
  function Prev(d: Date): (r: Date)
    requires Valid(d)
    ensures Valid(r) && Ordinal(r) + 1 == Ordinal(d)
  {
    if d.day > 1 then Date(d.year, d.month, d.day - 1)
    else if d.month > 1 then
      DaysBeforeMonthStep(d.year, d.month - 1);
      Date(d.year, d.month - 1, DaysInMonth(d.year, d.month - 1))
    else
      DaysBeforeYearStep(d.year - 1);
      Date(d.year - 1, 12, 31)
  }

  /** `d + timedelta(days=n)`. */
  function AddDays(d: Date, n: int): (r: Date)
    requires Valid(d)
    ensures Valid(r) && Ordinal(r) == Ordinal(d) + n
    decreases if n < 0 then -n else n
  {
    if n == 0 then d
    else if n > 0 then AddDays(Next(d), n - 1)
    else AddDays(Prev(d), n + 1)
  }

  /** `(a - b).days`. */
  function DiffDays(a: Date, b: Date): int
    requires Valid(a) && Valid(b)
  {
    Ordinal(a) - Ordinal(b)
  }

  /** Python's `date` ordering. */
  predicate Before(a: Date, b: Date)
    requires Valid(a) && Valid(b)
  {
    Ordinal(a) < Ordinal(b)
  }

  /** Two valid dates with the same ordinal are the same date. */
  lemma OrdinalInjective(a: Date, b: Date)
    requires Valid(a) && Valid(b) && Ordinal(a) == Ordinal(b)
    ensures a == b
  {
    if a.year < b.year || (a.year == b.year && a.month < b.month) {
      MonthOrder(a, b);
    } else if b.year < a.year || (a.year == b.year && b.month < a.month) {
      MonthOrder(b, a);
    }
  }

  /** Python's `a < b` on dates, field by field. */
  predicate LexLess(a: Date, b: Date) {
    a.year < b.year || (a.year == b.year && (a.month < b.month || (a.month == b.month && a.day < b.day)))
  }

  /** Comparing field by field is comparing ordinals. */
  lemma LexLessOrdinal(a: Date, b: Date)
    requires Valid(a) && Valid(b)
    ensures LexLess(a, b) <==> Ordinal(a) < Ordinal(b)
  {
    if a.year < b.year || (a.year == b.year && a.month < b.month) {
      MonthOrder(a, b);
    } else if b.year < a.year || (a.year == b.year && b.month < a.month) {
      MonthOrder(b, a);
    }
  }

  lemma YearOrdinalBounds(d: Date)
    requires Valid(d)
    ensures DaysBeforeYear(d.year) < Ordinal(d) <= DaysBeforeYear(d.year + 1)
  {
    DaysBeforeYearStep(d.year);
    MonthEnd(d.year, d.month);
  }

  lemma {:induction false} YearStartMonotone(a: int, b: int)
    requires a <= b
    ensures DaysBeforeYear(a) <= DaysBeforeYear(b)
    decreases b - a
  {
    if a < b {
      DaysBeforeYearStep(a);
      YearStartMonotone(a + 1, b);
    }
  }

  lemma MonthEnd(y: int, m: int)
    requires 1 <= m <= 12
    ensures DaysBeforeMonth(y, m) + DaysInMonth(y, m) <= DaysInYear(y)
  {
  }

  lemma MonthsOrdered(y: int, a: int, b: int)
    requires 1 <= a < b <= 12
    ensures DaysBeforeMonth(y, a) + DaysInMonth(y, a) <= DaysBeforeMonth(y, b)
  {
  }

  /** Weekday of an ordinal: ordinal 1 (0001-01-01) is a Monday. */
  function WeekdayOf(ordinal: int): (w: int)
    ensures 0 <= w < 7
  {
    (ordinal + 6) % 7
  }

  /** Monday = 0 … Sunday = 6, as `date.weekday()`. */
  function Weekday(d: Date): (w: int)
    requires Valid(d)
    ensures 0 <= w < 7
  {
    WeekdayOf(Ordinal(d))
  }

  lemma WeekdayNext(d: Date)
    requires Valid(d)
    ensures Weekday(Next(d)) == (Weekday(d) + 1) % 7
  {
    WeekdayOfStep(Ordinal(d));
  }

  lemma WeekdayOfStep(o: int)
    ensures WeekdayOf(o + 1) == (WeekdayOf(o) + 1) % 7
  {
  }

  // ---------------------------------------------------------------------
  // Month and year stepping (dateutil's relativedelta)

  /** `d + relativedelta(months=k)`: the day is clamped to the target month's length. */
  function AddMonths(d: Date, k: int): (r: Date)
    requires Valid(d)
    ensures Valid(r)
    ensures r.day == if d.day <= DaysInMonth(r.year, r.month) then d.day else DaysInMonth(r.year, r.month)
    ensures r.year * 12 + r.month == d.year * 12 + d.month + k
  {
    var total := d.year * 12 + (d.month - 1) + k;
    var y := total / 12;
    var m := total % 12 + 1;
    var dim := DaysInMonth(y, m);
    Date(y, m, if d.day <= dim then d.day else dim)
  }

  /** `d + relativedelta(years=k)`: 29 February becomes 28 February outside leap years. */
  function AddYears(d: Date, k: int): (r: Date)
    requires Valid(d)
    ensures Valid(r)
    ensures r.year == d.year + k && r.month == d.month
    ensures r.day == if d.day <= DaysInMonth(r.year, r.month) then d.day else DaysInMonth(r.year, r.month)
  {
    var dim := DaysInMonth(d.year + k, d.month);
    Date(d.year + k, d.month, if d.day <= dim then d.day else dim)
  }

  /** A later month starts after every day of an earlier month. */
  lemma MonthOrder(a: Date, b: Date)
    requires Valid(a) && Valid(b)
    requires a.year < b.year || (a.year == b.year && a.month < b.month)
    ensures Ordinal(a) < Ordinal(b)
  {
    if a.year < b.year {
      YearOrdinalBounds(a);
      YearOrdinalBounds(b);
      YearStartMonotone(a.year + 1, b.year);
    } else {
      MonthsOrdered(a.year, a.month, b.month);
    }
  }

  // ---------------------------------------------------------------------
  // ISO 8601 week date

  /** The Monday starting ISO week 1 of a year whose 1 January has ordinal `firstday`. */
  function Week1MondayFrom(firstday: int): (r: int)
    ensures (r + 6) % 7 == 0
    ensures firstday - 3 <= r <= firstday + 3
  {
    var firstweekday := WeekdayOf(firstday);
    var week1monday := firstday - firstweekday;
    if firstweekday > 3 then week1monday + 7 else week1monday
  }

  /** Ordinal of the Monday that starts ISO week 1 of year `y` (CPython's `_isoweek1monday`). */
  function IsoWeek1Monday(y: int): (r: int)
    ensures (r + 6) % 7 == 0
    ensures DaysBeforeYear(y) + 1 - 3 <= r <= DaysBeforeYear(y) + 1 + 3
  {
    Week1MondayFrom(DaysBeforeYear(y) + 1)
  }

  lemma MondayGap(f: int, len: int)
    requires len == 365 || len == 366
    ensures Week1MondayFrom(f + len) - Week1MondayFrom(f) == 364
         || Week1MondayFrom(f + len) - Week1MondayFrom(f) == 371
  {
    var a := Week1MondayFrom(f);
    var b := Week1MondayFrom(f + len);
    assert (a + 6) % 7 == 0 && (b + 6) % 7 == 0;
    var qa := (a + 6) / 7;
    var qb := (b + 6) / 7;
    assert b - a == 7 * (qb - qa);
  }

  /** Consecutive ISO years are 52 or 53 weeks long. */
  lemma IsoYearLength(y: int)
    ensures IsoWeek1Monday(y + 1) - IsoWeek1Monday(y) == 364
         || IsoWeek1Monday(y + 1) - IsoWeek1Monday(y) == 371
  {
    DaysBeforeYearStep(y);
    MondayGap(DaysBeforeYear(y) + 1, DaysInYear(y));
  }

  datatype IsoDate = IsoDate(isoYear: int, week: int, weekday: int)

  /** The ISO week date of ordinal `today`, given the week-1 Mondays of years y - 1, y and y + 1. */
  function IsoFrom(today: int, y: int, w0: int, w1: int, w2: int): (r: IsoDate)
    requires (w1 + 6) % 7 == 0
    requires w1 - w0 == 364 || w1 - w0 == 371
    requires w2 - w1 == 364 || w2 - w1 == 371
    requires w1 - 3 <= today < w2 + 3
    ensures 1 <= r.week <= 53 && 1 <= r.weekday <= 7
    ensures y - 1 <= r.isoYear <= y + 1
    ensures r.weekday == WeekdayOf(today) + 1
    ensures today == (if r.isoYear == y - 1 then w0 else if r.isoYear == y then w1 else w2)
                     + 7 * (r.week - 1) + (r.weekday - 1)
    ensures today < (if r.isoYear == y - 1 then w1 else if r.isoYear == y then w2 else w2 + 364)
    ensures r.isoYear == y + 1 ==> r.week == 1
  {
    var week := (today - w1) / 7;
    var day := (today - w1) % 7;
    assert day == WeekdayOf(today) by {
      var q := (w1 + 6) / 7;
      assert today - w1 == today + 6 - 7 * q;
    }
    if week < 0 then
      assert (today - w0) % 7 == day by {
        assert today - w0 == (today - w1) + (w1 - w0);
      }
      IsoDate(y - 1, (today - w0) / 7 + 1, (today - w0) % 7 + 1)
    else if week >= 52 && today >= w2 then
      assert today - w2 == day;
      IsoDate(y + 1, 1, day + 1)
    else
      IsoDate(y, week + 1, day + 1)
  }

  /**
   * `r` is the ISO week date of ordinal `o`: week 1..53 and weekday 1..7 (the
   * weekday of `o`), `o` lies that many weeks and days past the first Monday of
   * ISO year `r.isoYear`, and before the first Monday of the ISO year after it.
   */
  predicate IsIsoDateOf(r: IsoDate, o: int) {
    && 1 <= r.week <= 53 && 1 <= r.weekday <= 7
    && r.weekday == WeekdayOf(o) + 1
    && o == IsoWeek1Monday(r.isoYear) + 7 * (r.week - 1) + (r.weekday - 1)
    && o < IsoWeek1Monday(r.isoYear + 1)
  }

  /** `date.isocalendar()`: ISO year, week 1..53 and weekday 1..7. */
  function IsoCalendar(d: Date): (r: IsoDate)
    requires Valid(d)
    ensures IsIsoDateOf(r, Ordinal(d))
    ensures d.year - 1 <= r.isoYear <= d.year + 1
  {
    var o := Ordinal(d);
    IsoBracket(d);
    IsoOf(o, d.year)
  }

  /** The ISO week date of ordinal `o`, which lies within three days of year `y`'s ISO weeks. */
  function IsoOf(o: int, y: int): (r: IsoDate)
    requires IsoWeek1Monday(y) - 3 <= o < IsoWeek1Monday(y + 1) + 3
    ensures IsIsoDateOf(r, o)
    ensures y - 1 <= r.isoYear <= y + 1
  {
    IsoNearIsIsoDate(o, y);
    IsoNear(o, y)
  }

  /**
   * CPython's `isocalendar` case split for ordinal `o` near year `y`: the week
   * before year `y`'s first one belongs to year `y - 1`, a date from year
   * `y + 1`'s first Monday on to week 1 of year `y + 1`, the rest to year `y`.
   */
  function IsoNear(o: int, y: int): (r: IsoDate)
    requires IsoWeek1Monday(y) - 3 <= o < IsoWeek1Monday(y + 1) + 3
    ensures 1 <= r.week <= 53 && 1 <= r.weekday <= 7
    ensures y - 1 <= r.isoYear <= y + 1
    ensures r.weekday == WeekdayOf(o) + 1
    ensures o == IsoWeek1Monday(r.isoYear) + 7 * (r.week - 1) + (r.weekday - 1)
    ensures r.isoYear == y - 1 ==> o < IsoWeek1Monday(y)
    ensures r.isoYear == y ==> o < IsoWeek1Monday(y + 1)
    ensures r.isoYear == y + 1 ==> r.week == 1
  {
    var w0, w1, w2 := IsoWeek1Monday(y - 1), IsoWeek1Monday(y), IsoWeek1Monday(y + 1);
    IsoYearLength(y - 1);
    IsoYearLength(y);
    assert w1 - w0 == 364 || w1 - w0 == 371;
    var r := IsoFrom(o, y, w0, w1, w2);
    assert IsoWeek1Monday(r.isoYear) == (if r.isoYear == y - 1 then w0 else if r.isoYear == y then w1 else w2);
    r
  }

  /** `IsoNear` gives the ISO week date of its ordinal. */
  lemma IsoNearIsIsoDate(o: int, y: int)
    requires IsoWeek1Monday(y) - 3 <= o < IsoWeek1Monday(y + 1) + 3
    ensures IsIsoDateOf(IsoNear(o, y), o)
  {
    var r := IsoNear(o, y);
    if r.isoYear == y + 1 {
      IsoYearLength(y + 1);
    }
  }

  /** A date's ordinal lies within three days of its year's ISO weeks. */
  lemma IsoBracket(d: Date)
    requires Valid(d)
    ensures IsoWeek1Monday(d.year) - 3 <= Ordinal(d) < IsoWeek1Monday(d.year + 1) + 3
  {
    YearOrdinalBounds(d);
    DaysBeforeYearStep(d.year);
  }
}
