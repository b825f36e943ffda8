/** A deterministic calendar over epoch milliseconds: UTC, proleptic Gregorian, weeks start on
    Sunday. It supplies the floors and the calendar steps that the aggregated query uses in place of
    `java.util.Calendar` (`clear`, `set` and `add` of hours, days, weeks, months and years). */
module Calendar {

  const SECOND_MS: int := 1000
  const MINUTE_MS: int := 60 * SECOND_MS
  const HOUR_MS: int := 60 * MINUTE_MS
  const DAY_MS: int := 24 * HOUR_MS
  const WEEK_MS: int := 7 * DAY_MS

  /** Day numbers count days from 1970-01-01, which was a Thursday; with Sunday as day 0 of the
      week, day number n is weekday (n + 4) % 7. */
  const EPOCH_YEAR: int := 1970
  const EPOCH_WEEKDAY: int := 4

  predicate IsLeapYear(y: int) {
    (y % 4 == 0 && y % 100 != 0) || y % 400 == 0
  }

  function DaysInYear(y: int): (n: int)
    ensures n == 365 || n == 366
  {
    if IsLeapYear(y) then 366 else 365
  }

  function DaysInMonth(y: int, m: int): (n: int)
    requires 1 <= m <= 12
    ensures 28 <= n <= 31
  {
    if m == 2 then (if IsLeapYear(y) then 29 else 28)
    else if m == 4 || m == 6 || m == 9 || m == 11 then 30
    else 31
  }

  /** Days of year y that lie before the first of month m (m == 13 gives the whole year). */
  function DaysBeforeMonth(y: int, m: int): int
    requires 1 <= m <= 13
    decreases m
  {
    if m == 1 then 0 else DaysBeforeMonth(y, m - 1) + DaysInMonth(y, m - 1)
  }

  lemma DaysBeforeMonthBounds(y: int, m: int)
    requires 1 <= m <= 12
    ensures 0 <= DaysBeforeMonth(y, m)
    ensures DaysBeforeMonth(y, m) + DaysInMonth(y, m) <= DaysInYear(y)
    ensures m == 12 ==> DaysBeforeMonth(y, m) + DaysInMonth(y, m) == DaysInYear(y)
  {
  }

  /** Day number of January 1st of year y. */
  function DaysBeforeYear(y: int): int
    decreases if y < EPOCH_YEAR then EPOCH_YEAR - y else y - EPOCH_YEAR
  {
    if y == EPOCH_YEAR then 0
    else if y > EPOCH_YEAR then DaysBeforeYear(y - 1) + DaysInYear(y - 1)
    else DaysBeforeYear(y + 1) - DaysInYear(y)
  }

  lemma NextYear(y: int)
    ensures DaysBeforeYear(y + 1) == DaysBeforeYear(y) + DaysInYear(y)
  {
  }

  /** Later years start later. */
  lemma {:induction false} YearStartsIncrease(y1: int, y2: int)
    requires y1 < y2
    ensures DaysBeforeYear(y1) + DaysInYear(y1) <= DaysBeforeYear(y2)
    decreases y2 - y1
  {
    NextYear(y1);
    if y1 + 1 < y2 {
      YearStartsIncrease(y1 + 1, y2);
    }
  }

  /** Later months of one year start later. */
  lemma {:induction false} MonthStartsIncrease(y: int, m1: int, m2: int)
    requires 1 <= m1 < m2 <= 13
    ensures DaysBeforeMonth(y, m1) + DaysInMonth(y, m1) <= DaysBeforeMonth(y, m2)
    decreases m2 - m1
  {
    if m1 + 1 < m2 {
      MonthStartsIncrease(y, m1 + 1, m2);
    }
  }

  /** A civil date: year, month 1..12, day of month 1.. */
  datatype Date = Date(year: int, month: int, day: int)

  predicate ValidDate(d: Date) {
    1 <= d.month <= 12 && 1 <= d.day <= DaysInMonth(d.year, d.month)
  }

  /** Days since 1970-01-01 of a civil date. */
  function DayNumber(d: Date): int
    requires ValidDate(d)
  {
    DaysBeforeYear(d.year) + DaysBeforeMonth(d.year, d.month) + d.day - 1
  }

  /** The year that day number n falls in, searched from year y (n is y's start + offset). */
  function YearOf(offset: int, y: int): (r: (int, int))
    ensures 0 <= r.1 < DaysInYear(r.0)
    ensures DaysBeforeYear(r.0) + r.1 == DaysBeforeYear(y) + offset
    decreases (if offset < 0 then 1 else 0), (if offset < 0 then -offset else offset)
  {
    if offset < 0 then
      NextYear(y - 1);
      YearOf(offset + DaysInYear(y - 1), y - 1)
    else if offset >= DaysInYear(y) then
      NextYear(y);
      YearOf(offset - DaysInYear(y), y + 1)
    else
      (y, offset)
  }

  /** The month that day `dayOfYear` (0-based) of year y falls in, searched from month m. */
  function MonthOf(y: int, dayOfYear: int, m: int): (r: int)
    requires 1 <= m <= 12
    requires DaysBeforeMonth(y, m) <= dayOfYear < DaysInYear(y)
    ensures m <= r <= 12
    ensures DaysBeforeMonth(y, r) <= dayOfYear < DaysBeforeMonth(y, r) + DaysInMonth(y, r)
    decreases 12 - m
  {
    DaysBeforeMonthBounds(y, m);
    if m == 12 || dayOfYear < DaysBeforeMonth(y, m + 1) then m
    else MonthOf(y, dayOfYear, m + 1)
  }

  /** The civil date of day number n; inverse of DayNumber. */
  function DateOf(n: int): (d: Date)
    ensures ValidDate(d) && DayNumber(d) == n
  {
    var (y, doy) := YearOf(n, EPOCH_YEAR);
    var m := MonthOf(y, doy, 1);
    Date(y, m, doy - DaysBeforeMonth(y, m) + 1)
  }

  /** DayNumber is one-to-one on valid dates, so DateOf(DayNumber(d)) gives d back. */
  lemma DayNumberInjective(d1: Date, d2: Date)
    requires ValidDate(d1) && ValidDate(d2)
    requires DayNumber(d1) == DayNumber(d2)
    ensures d1 == d2
  {
    DaysBeforeMonthBounds(d1.year, d1.month);
    DaysBeforeMonthBounds(d2.year, d2.month);
    if d1.year < d2.year {
      YearStartsIncrease(d1.year, d2.year);
    } else if d2.year < d1.year {
      YearStartsIncrease(d2.year, d1.year);
    }
    assert d1.year == d2.year;
    if d1.month < d2.month {
      MonthStartsIncrease(d1.year, d1.month, d2.month);
    } else if d2.month < d1.month {
      MonthStartsIncrease(d1.year, d2.month, d1.month);
    }
  }

  lemma DateOfDayNumber(d: Date)
    requires ValidDate(d)
    ensures DateOf(DayNumber(d)) == d
  {
    DayNumberInjective(DateOf(DayNumber(d)), d);
  }

  /** An instant is its day number times DAY_MS plus its time of day, uniquely. */
  lemma SplitInstant(n: int, ms: int)
    requires 0 <= ms < DAY_MS
    ensures (n * DAY_MS + ms) / DAY_MS == n
    ensures (n * DAY_MS + ms) % DAY_MS == ms
  {
    var x := n * DAY_MS + ms;
    assert (x / DAY_MS - n) * DAY_MS == ms - x % DAY_MS;
  }

  /** Two distinct midnights are at least a day apart. */
  lemma MidnightsApart(x: int, y: int)
    requires x % DAY_MS == 0 && y % DAY_MS == 0 && x < y
    ensures x + DAY_MS <= y
  {
    var p, q := x / DAY_MS, y / DAY_MS;
    assert x == p * DAY_MS && y == q * DAY_MS;
    assert (q - p) * DAY_MS == y - x;
  }

  /** Day number and time of day of an instant (Euclidean division: floors for negative instants). */
  function DayOf(t: int): int { t / DAY_MS }

  function DateAt(t: int): (d: Date)
    ensures ValidDate(d)
  {
    DateOf(DayOf(t))
  }

  /** `clear(MINUTE); clear(SECOND); clear(MILLISECOND)`: the top of t's hour. */
  function FloorHour(t: int): (r: int)
    ensures r <= t < r + HOUR_MS
    ensures r % HOUR_MS == 0
  {
    t - t % HOUR_MS
  }

  /** The same, then `set(HOUR_OF_DAY, 0)`: midnight of t's day. */
  function Midnight(t: int): (r: int)
    ensures r <= t < r + DAY_MS
    ensures r % DAY_MS == 0
    ensures r == DayOf(t) * DAY_MS
    ensures DayOf(r) == DayOf(t)
  {
    SplitInstant(DayOf(t), 0);
    t - t % DAY_MS
  }

  lemma MidnightDate(t: int)
    ensures DateAt(Midnight(t)) == DateAt(t)
  {
  }

  /** Weekday of day number n, Sunday = 0 .. Saturday = 6. */
  function Weekday(n: int): (w: int)
    ensures 0 <= w < 7
  {
    (n + EPOCH_WEEKDAY) % 7
  }

  /** `set(DAY_OF_WEEK, getFirstDayOfWeek())` at midnight: the Sunday that starts t's week. */
  function WeekStart(t: int): (r: int)
    ensures r <= t < r + WEEK_MS
    ensures r % DAY_MS == 0
    ensures Weekday(DayOf(r)) == 0
  {
    var n := DayOf(t);
    var s := n - Weekday(n);
    assert s * DAY_MS / DAY_MS == s;
    s * DAY_MS
  }

  /** `set(DAY_OF_MONTH, 1)` at midnight: the first day of t's month. */
  function MonthStart(t: int): (r: int)
    ensures r <= t
    ensures r % DAY_MS == 0
  {
    var d := DateAt(t);
    var first := Date(d.year, d.month, 1);
    SplitInstant(DayNumber(first), 0);
    DayNumber(first) * DAY_MS
  }

  lemma MonthStartDate(t: int)
    ensures DateAt(MonthStart(t)) == Date(DateAt(t).year, DateAt(t).month, 1)
  {
    var first := Date(DateAt(t).year, DateAt(t).month, 1);
    SplitInstant(DayNumber(first), 0);
    DateOfDayNumber(first);
  }

  /** `set(DAY_OF_YEAR, 1)` at midnight: January 1st of t's year. */
  function YearStart(t: int): (r: int)
    ensures r <= t
    ensures r % DAY_MS == 0
  {
    var d := DateAt(t);
    var first := Date(d.year, 1, 1);
    DaysBeforeMonthBounds(d.year, d.month);
    SplitInstant(DayNumber(first), 0);
    DayNumber(first) * DAY_MS
  }

  lemma YearStartDate(t: int)
    ensures DateAt(YearStart(t)) == Date(DateAt(t).year, 1, 1)
  {
    var first := Date(DateAt(t).year, 1, 1);
    SplitInstant(DayNumber(first), 0);
    DateOfDayNumber(first);
  }

  /** The date one month after d, on the same day of the month or the month's last day when it is
      shorter (what `Calendar.add(MONTH, 1)` does). */
  function NextMonthDate(d: Date): (r: Date)
    requires ValidDate(d)
    ensures ValidDate(r)
  {
    var (y, m) := if d.month == 12 then (d.year + 1, 1) else (d.year, d.month + 1);
    Date(y, m, if d.day <= DaysInMonth(y, m) then d.day else DaysInMonth(y, m))
  }

  /** The same date one year later, Feb 29 becoming Feb 28 (`Calendar.add(YEAR, 1)`). */
  function NextYearDate(d: Date): (r: Date)
    requires ValidDate(d)
    ensures ValidDate(r)
  {
    var y := d.year + 1;
    Date(y, d.month, if d.day <= DaysInMonth(y, d.month) then d.day else DaysInMonth(y, d.month))
  }

  /** `Calendar.add(MONTH, 1)`: same time of day, one month later. */
  function AddMonth(t: int): (r: int)
    ensures r >= t + DAY_MS
    ensures r % DAY_MS == t % DAY_MS
  {
    var e := NextMonthDate(DateAt(t));
    MoveToDate(t, e);
    DayNumber(e) * DAY_MS + t % DAY_MS
  }

  lemma AddMonthDate(t: int)
    ensures DateAt(AddMonth(t)) == NextMonthDate(DateAt(t))
  {
    MoveToDate(t, NextMonthDate(DateAt(t)));
  }

  /** `Calendar.add(YEAR, 1)`: same time of day, one year later. */
  function AddYear(t: int): (r: int)
    ensures r >= t + DAY_MS
    ensures r % DAY_MS == t % DAY_MS
  {
    var e := NextYearDate(DateAt(t));
    MoveToDate(t, e);
    DayNumber(e) * DAY_MS + t % DAY_MS
  }

  lemma AddYearDate(t: int)
    ensures DateAt(AddYear(t)) == NextYearDate(DateAt(t))
  {
    MoveToDate(t, NextYearDate(DateAt(t)));
  }

  /** Moving instant t to the later date e, keeping its time of day. */
  lemma MoveToDate(t: int, e: Date)
    requires ValidDate(e)
    requires DateAt(t).year < e.year || (DateAt(t).year == e.year && DateAt(t).month < e.month)
    ensures DayNumber(e) * DAY_MS + t % DAY_MS >= t + DAY_MS
    ensures (DayNumber(e) * DAY_MS + t % DAY_MS) % DAY_MS == t % DAY_MS
    ensures DateAt(DayNumber(e) * DAY_MS + t % DAY_MS) == e
  {
    var d := DateAt(t);
    LaterDate(d, e);
    assert (DayNumber(e) - DayOf(t)) * DAY_MS >= DAY_MS;
    DateOfDayNumber(e);
    SplitInstant(DayNumber(e), t % DAY_MS);
    SplitInstant(DayOf(t), t % DAY_MS);
  }

  /** A date in a later month, or in a later year, has a larger day number. */
  lemma LaterDate(d: Date, e: Date)
    requires ValidDate(d) && ValidDate(e)
    requires d.year < e.year || (d.year == e.year && d.month < e.month)
    ensures DayNumber(d) < DayNumber(e)
  {
    DaysBeforeMonthBounds(d.year, d.month);
    DaysBeforeMonthBounds(e.year, e.month);
    if d.year < e.year {
      YearStartsIncrease(d.year, e.year);
    } else {
      MonthStartsIncrease(d.year, d.month, e.month);
    }
  }
}
