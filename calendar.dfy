/** UTC calendar arithmetic on instants in milliseconds since the Unix epoch,
    as `Date.UTC` and the `getUTC...` accessors perform it, and the
    reporting windows of `windowFor` in `server/src/routes/summary.js`.
    Days are counted from 1970-01-01; months are numbered 0 to 11 as in
    JavaScript. */
module Calendar {
  import opened Common

  const MsPerDay: int := 86400000

  predicate IsLeap(y: int) {
    y % 4 == 0 && (y % 100 != 0 || y % 400 == 0)
  }

  function YearLength(y: int): int {
    if IsLeap(y) then 366 else 365
  }

  function MonthLength(y: int, m: int): (r: int)
    requires 0 <= m < 12
    ensures 28 <= r <= 31
  {
    if m == 1 then (if IsLeap(y) then 29 else 28)
    else if m == 3 || m == 5 || m == 8 || m == 10 then 30
    else 31
  }

  /** Days of year `y` before the first of month `m`; month 12 stands for
      the first of January of the next year. */
  function DaysBeforeMonth(y: int, m: int): (r: int)
    requires 0 <= m <= 12
    ensures 0 <= r
  {
    if m == 0 then 0 else DaysBeforeMonth(y, m - 1) + MonthLength(y, m - 1)
  }

  /** The cumulative month table: days before each month in a common year,
      one more from March on in a leap year. */
  lemma {:induction false} DaysBeforeMonthTable(y: int, m: int)
    requires 0 <= m <= 12
    ensures DaysBeforeMonth(y, m) ==
      [0, 31, 59, 90, 120, 151, 181, 212, 243, 273, 304, 334, 365][m] + (if m >= 2 && IsLeap(y) then 1 else 0)
  {
    if m > 0 {
      DaysBeforeMonthTable(y, m - 1);
    }
  }

  /** The twelve months fill the year exactly. */
  lemma MonthsFillYear(y: int)
    ensures DaysBeforeMonth(y, 12) == YearLength(y)
  {
    DaysBeforeMonthTable(y, 12);
  }

  lemma {:induction false} DaysBeforeMonthMonotone(y: int, m: int, n: int)
    requires 0 <= m <= n <= 12
    ensures DaysBeforeMonth(y, m) + (if m < n then MonthLength(y, m) else 0) <= DaysBeforeMonth(y, n)
  {
    if m < n {
      DaysBeforeMonthMonotone(y, m, n - 1);
    }
  }

  /** Days from 1970-01-01 to the first of January of year `y`. */
  function YearStart(y: int): int
    decreases if y >= 1970 then y - 1970 else 1970 - y
  {
    if y == 1970 then 0
    else if y > 1970 then YearStart(y - 1) + YearLength(y - 1)
    else YearStart(y + 1) - YearLength(y)
  }

  lemma YearStartStep(y: int)
    ensures YearStart(y + 1) == YearStart(y) + YearLength(y)
  {
  }

  lemma {:induction false} YearStartMonotone(y: int, x: int)
    requires y < x
    ensures YearStart(y + 1) <= YearStart(x)
    decreases x - y
  {
    YearStartStep(y);
    if y + 1 < x {
      YearStartMonotone(y + 1, x);
      YearStartStep(y + 1);
    }
  }

  function YearUp(y: int, z: int): (r: int)
    requires YearStart(y) <= z
    ensures YearStart(r) <= z < YearStart(r + 1)
    decreases z - YearStart(y)
  {
    YearStartStep(y);
    if z < YearStart(y + 1) then y else YearUp(y + 1, z)
  }

  function YearDown(y: int, z: int): (r: int)
    requires z < YearStart(y + 1)
    ensures YearStart(r) <= z < YearStart(r + 1)
    decreases YearStart(y + 1) - z
  {
    YearStartStep(y);
    YearStartStep(y - 1);
    if YearStart(y) <= z then y else YearDown(y - 1, z)
  }

  /** The year containing day `z`. */
  function YearOfDay(z: int): (y: int)
    ensures YearStart(y) <= z < YearStart(y + 1)
  {
    if z >= 0 then YearUp(1970, z) else YearDown(1969, z)
  }

  /** Only one year contains a given day. */
  lemma YearOfDayUnique(z: int, y: int)
    requires YearStart(y) <= z < YearStart(y + 1)
    ensures YearOfDay(z) == y
  {
    var x := YearOfDay(z);
    if x < y {
      YearStartMonotone(x, y);
    } else if y < x {
      YearStartMonotone(y, x);
    }
  }

  function MonthFrom(y: int, m: int, doy: int): (r: int)
    requires 0 <= m < 12 && DaysBeforeMonth(y, m) <= doy < DaysBeforeMonth(y, 12)
    ensures m <= r < 12 && DaysBeforeMonth(y, r) <= doy < DaysBeforeMonth(y, r + 1)
    decreases 12 - m
  {
    if m == 11 || doy < DaysBeforeMonth(y, m + 1) then m else MonthFrom(y, m + 1, doy)
  }

  /** The month containing day `doy` (counted from 0) of year `y`. */
  function MonthOfDay(y: int, doy: int): (m: int)
    requires 0 <= doy < YearLength(y)
    ensures 0 <= m < 12 && DaysBeforeMonth(y, m) <= doy < DaysBeforeMonth(y, m + 1)
  {
    MonthsFillYear(y);
    MonthFrom(y, 0, doy)
  }

  datatype Civil = Civil(year: int, month: int, day: int)

  predicate ValidCivil(c: Civil) {
    0 <= c.month < 12 && 1 <= c.day <= MonthLength(c.year, c.month)
  }

  /** `Date.UTC(y, m, d)` in days, for an in-range month and day. */
  function DaysFromCivil(c: Civil): int
    requires ValidCivil(c)
  {
    YearStart(c.year) + DaysBeforeMonth(c.year, c.month) + c.day - 1
  }

  /** `getUTCFullYear`, `getUTCMonth` and `getUTCDate` of day `z`. */
  function CivilOfDay(z: int): (c: Civil)
    ensures ValidCivil(c)
  {
    var y := YearOfDay(z);
    YearStartStep(y);
    var m := MonthOfDay(y, z - YearStart(y));
    Civil(y, m, z - YearStart(y) - DaysBeforeMonth(y, m) + 1)
  }

  /** Splitting a day into year, month and day and putting it back together
      gives the same day. */
  lemma CivilRoundTrip(z: int)
    ensures DaysFromCivil(CivilOfDay(z)) == z
  {
  }

  /** `getUTCDay()`: 0 is Sunday; 1970-01-01 was a Thursday. */
  function WeekDay(z: int): (r: int)
    ensures 0 <= r < 7
  {
    (z + 4) % 7
  }

  /** The UTC day of an instant (division rounds towards minus infinity, as
      the `Date` accessors do). */
  function DayOf(ms: int): int {
    ms / MsPerDay
  }

  lemma DayOfBounds(ms: int)
    ensures DayOf(ms) * MsPerDay <= ms < (DayOf(ms) + 1) * MsPerDay
  {
  }

  // ---------------------------------------------------------------------------
  // Reporting windows

  /** A half-open reporting interval `[start, end)` in milliseconds. */
  datatype Window = Window(start: int, end: int)

  function MonthWindow(now: int): (w: Window)
  {
    var c := CivilOfDay(DayOf(now));
    Window((YearStart(c.year) + DaysBeforeMonth(c.year, c.month)) * MsPerDay,
           (YearStart(c.year) + DaysBeforeMonth(c.year, c.month + 1)) * MsPerDay)
  }

  function WeekWindow(now: int): (w: Window)
  {
    var d := DayOf(now);
    var monday := d - (WeekDay(d) + 6) % 7;
    Window(monday * MsPerDay, (monday + 7) * MsPerDay)
  }

  function YearWindow(now: int): (w: Window)
  {
    var y := CivilOfDay(DayOf(now)).year;
    Window(YearStart(y) * MsPerDay, YearStart(y + 1) * MsPerDay)
  }

  const ThirtyDays: int := 30 * MsPerDay

  /** `windowFor(period, from, to)` with the clock reading `now`: an
      explicit pair of bounds wins; otherwise the calendar month, the
      Monday-based week or the calendar year containing `now` (all in UTC),
      and for any other period the thirty days up to `now`. */
  function WindowFor(period: string, from: Option<int>, to: Option<int>, now: int): (w: Window)
    ensures from.Some? && to.Some? ==> w == Window(from.value, to.value)
    ensures !(from.Some? && to.Some?) && period != "monthly" && period != "weekly" && period != "yearly" ==>
      w == Window(now - ThirtyDays, now)
  {
    if from.Some? && to.Some? then Window(from.value, to.value)
    else if period == "monthly" then MonthWindow(now)
    else if period == "weekly" then WeekWindow(now)
    else if period == "yearly" then YearWindow(now)
    else Window(now - ThirtyDays, now)
  }

  /** The monthly window runs from midnight of the first of the current UTC
      month to midnight of the first of the next month (January of the next
      year after December) and contains `now`. */
  lemma MonthWindowProperties(now: int)
    ensures var w := MonthWindow(now); var c := CivilOfDay(DayOf(now));
      && w.start <= now < w.end
      && w.start == DaysFromCivil(Civil(c.year, c.month, 1)) * MsPerDay
      && w.end - w.start == MonthLength(c.year, c.month) * MsPerDay
      && (c.month < 11 ==> w.end == DaysFromCivil(Civil(c.year, c.month + 1, 1)) * MsPerDay)
      && (c.month == 11 ==> w.end == DaysFromCivil(Civil(c.year + 1, 0, 1)) * MsPerDay)
  {
    var d := DayOf(now);
    var c := CivilOfDay(d);
    var lo := YearStart(c.year) + DaysBeforeMonth(c.year, c.month);
    var hi := YearStart(c.year) + DaysBeforeMonth(c.year, c.month + 1);
    assert lo <= d < hi by {
      CivilRoundTrip(d);
    }
    DayOfBounds(now);
    ScaleDays(lo, d, hi, now);
    NextMonthStart(c);
    var w := MonthWindow(now);
    assert w.end == hi * MsPerDay;
    if c.month == 11 {
      var n := DaysFromCivil(Civil(c.year + 1, 0, 1));
      assert n == hi;
      assert w.end == n * MsPerDay;
    }
  }

  /** The day after the last of a month is the first of the next month, or
      January 1 of the next year after December. */
  lemma NextMonthStart(c: Civil)
    requires ValidCivil(c)
    ensures var hi := YearStart(c.year) + DaysBeforeMonth(c.year, c.month + 1);
      && (c.month < 11 ==> hi == DaysFromCivil(Civil(c.year, c.month + 1, 1)))
      && (c.month == 11 ==> hi == DaysFromCivil(Civil(c.year + 1, 0, 1)))
  {
    if c.month == 11 {
      YearStartStep(c.year);
      MonthsFillYear(c.year);
    }
  }

  /** An instant within day `d`, with `lo <= d < hi`, lies in the
      milliseconds of days `[lo, hi)`. */
  lemma ScaleDays(lo: int, d: int, hi: int, ms: int)
    requires lo <= d < hi
    requires d * MsPerDay <= ms < (d + 1) * MsPerDay
    ensures lo * MsPerDay <= ms < hi * MsPerDay
  {
  }

  /** The weekly window starts at Monday 00:00 UTC, lasts seven days and
      contains `now`. */
  lemma WeekWindowProperties(now: int)
    ensures var w := WeekWindow(now);
      && w.start <= now < w.end
      && w.end - w.start == 7 * MsPerDay
      && w.start % MsPerDay == 0
      && WeekDay(w.start / MsPerDay) == 1
  {
    var d := DayOf(now);
    var monday := d - (WeekDay(d) + 6) % 7;
    DayOfBounds(now);
    assert monday * MsPerDay <= d * MsPerDay;
    assert (d + 1) * MsPerDay <= (monday + 7) * MsPerDay;
    assert (monday * MsPerDay) / MsPerDay == monday;
  }

  /** The yearly window runs from January 1 of the current UTC year to
      January 1 of the next and contains `now`. */
  lemma YearWindowProperties(now: int)
    ensures var w := YearWindow(now); var y := CivilOfDay(DayOf(now)).year;
      && w.start <= now < w.end
      && w.start == DaysFromCivil(Civil(y, 0, 1)) * MsPerDay
      && w.end == DaysFromCivil(Civil(y + 1, 0, 1)) * MsPerDay
      && w.end - w.start == YearLength(y) * MsPerDay
  {
    var d := DayOf(now);
    var y := CivilOfDay(d).year;
    assert y == YearOfDay(d);
    assert YearStart(y) <= d < YearStart(y + 1);
    DayOfBounds(now);
    ScaleDays(YearStart(y), d, YearStart(y + 1), now);
    YearBounds(y);
  }

  /** January 1 of `y` and of the year after, as days. */
  lemma YearBounds(y: int)
    ensures YearStart(y) == DaysFromCivil(Civil(y, 0, 1))
    ensures YearStart(y + 1) == DaysFromCivil(Civil(y + 1, 0, 1))
    ensures YearStart(y + 1) - YearStart(y) == YearLength(y)
  {
    YearStartStep(y);
  }
}
