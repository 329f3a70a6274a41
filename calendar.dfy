/** The proleptic Gregorian calendar as JavaScript's `Date` computes it in
    local time, with instants as integer milliseconds and local time taken
    to be the time value itself (no offset, no daylight saving).  Day numbers
    count days since 1 January 1970; `DayFromYear` and `MakeDay` are the
    abstract operations of the ECMAScript specification's Date chapter, so
    `setDate(n)` on a date of year y and month m lands on day
    `MakeDay(y, m, n)` whatever n is (it rolls over into neighbouring months),
    and `setMonth(k)` keeps the date and lands on `MakeDay(y, k, date)`. */
module Calendar {

  const MS_PER_SECOND: int := 1000
  const MS_PER_MINUTE: int := 60000
  const MS_PER_HOUR: int := 3600000
  const MS_PER_DAY: int := 86400000

  predicate IsLeapYear(y: int) {
    y % 4 == 0 && (y % 100 != 0 || y % 400 == 0)
  }

  /** Days in month m (0 = January) of year y. */
  function DaysInMonth(y: int, m: int): (n: int)
    requires 0 <= m < 12
    ensures 28 <= n <= 31
    ensures n == 31 <==> m in {0, 2, 4, 6, 7, 9, 11}
  {
    if m == 1 then (if IsLeapYear(y) then 29 else 28)
    else if m == 3 || m == 5 || m == 8 || m == 10 then 30
    else 31
  }

  function DaysInYear(y: int): int {
    if IsLeapYear(y) then 366 else 365
  }

  /** Days of year y before the first of month m; m == 12 gives the whole year. */
  function DaysBeforeMonth(y: int, m: int): int
    requires 0 <= m <= 12
  {
    if m == 0 then 0 else DaysBeforeMonth(y, m - 1) + DaysInMonth(y, m - 1)
  }

  /** ECMAScript DayFromYear: the day number of 1 January of year y. */
  function DayFromYear(y: int): int {
    365 * (y - 1970) + (y - 1969) / 4 - (y - 1901) / 100 + (y - 1601) / 400
  }

  /** ECMAScript MakeDay: the day number of the given year, month and date,
      where an out-of-range month carries into the year and an out-of-range
      date counts on from the first of the month. */
  function MakeDay(year: int, month: int, date: int): int {
    var ym := year + month / 12;
    var mn := month % 12;
    DayFromYear(ym) + DaysBeforeMonth(ym, mn) + date - 1
  }

  /** A calendar date whose fields are in range, as the getters of a `Date` report them. */
  predicate ValidDate(y: int, m: int, d: int) {
    0 <= m < 12 && 1 <= d <= DaysInMonth(y, m)
  }

  /** The local fields of a `Date`: full year, month 0..11, date 1..31 and
      the milliseconds elapsed since local midnight. */
  datatype DateTime = DateTime(year: int, month: int, date: int, msInDay: int)

  predicate ValidDateTime(t: DateTime) {
    ValidDate(t.year, t.month, t.date) && 0 <= t.msInDay < MS_PER_DAY
  }

  /** The clock reading `new Date()` as its fields; it is an input of the model. */
  type Now = t: DateTime | ValidDateTime(t) witness DateTime(1970, 0, 1, 0)

  /** The day number of today. */
  function Today(now: Now): int {
    MakeDay(now.year, now.month, now.date)
  }

  /** The time value of now. */
  function TimeValue(now: Now): int {
    Today(now) * MS_PER_DAY + now.msInDay
  }

  /** Midnight (00:00:00.000) of day number n. */
  function DayStart(n: int): int {
    n * MS_PER_DAY
  }

  /** The time value of a `Date` on day number n after `setHours(h, mi, s, ms)`. */
  function SetHours(n: int, h: int, mi: int, s: int, ms: int): int {
    DayStart(n) + h * MS_PER_HOUR + mi * MS_PER_MINUTE + s * MS_PER_SECOND + ms
  }

  /** 23:59:59.999 of day number n. */
  function DayEnd(n: int): int {
    DayStart(n) + 23 * MS_PER_HOUR + 59 * MS_PER_MINUTE + 59 * MS_PER_SECOND + 999
  }

  /** Midnight and 23:59:59.999 through `setHours`. */
  lemma SetHoursDayBounds(n: int)
    ensures SetHours(n, 0, 0, 0, 0) == DayStart(n)
    ensures SetHours(n, 23, 59, 59, 999) == DayEnd(n)
  {
  }

  lemma DayEndIsBeforeNextDay(n: int)
    ensures DayEnd(n) + 1 == DayStart(n + 1)
  {
  }

  /** Floor division advances by one exactly at multiples of k. */
  lemma DivStep(a: int, k: int)
    requires k in {4, 100, 400}
    ensures (a + 1) / k - a / k == if (a + 1) % k == 0 then 1 else 0
  {
  }

  /** Consecutive years are DaysInYear apart. */
  lemma YearLength(y: int)
    ensures DayFromYear(y + 1) == DayFromYear(y) + DaysInYear(y)
  {
    DivStep(y - 1969, 4);
    DivStep(y - 1901, 100);
    DivStep(y - 1601, 400);
    assert (y - 1968) % 4 == y % 4;
    assert (y - 1900) % 100 == y % 100;
    assert (y - 1600) % 400 == y % 400;
  }

  lemma MonthsMakeAYear(y: int)
    ensures DaysBeforeMonth(y, 12) == DaysInYear(y)
  {
    assert DaysBeforeMonth(y, 1) == 31;
    assert DaysBeforeMonth(y, 2) == 31 + DaysInMonth(y, 1);
    assert DaysBeforeMonth(y, 3) == 62 + DaysInMonth(y, 1);
    assert DaysBeforeMonth(y, 4) == 92 + DaysInMonth(y, 1);
    assert DaysBeforeMonth(y, 5) == 123 + DaysInMonth(y, 1);
    assert DaysBeforeMonth(y, 6) == 153 + DaysInMonth(y, 1);
    assert DaysBeforeMonth(y, 7) == 184 + DaysInMonth(y, 1);
    assert DaysBeforeMonth(y, 8) == 215 + DaysInMonth(y, 1);
    assert DaysBeforeMonth(y, 9) == 245 + DaysInMonth(y, 1);
    assert DaysBeforeMonth(y, 10) == 276 + DaysInMonth(y, 1);
    assert DaysBeforeMonth(y, 11) == 306 + DaysInMonth(y, 1);
  }

  /** For a month in range MakeDay is the year's first day plus the offset in the year. */
  lemma MakeDayInRange(y: int, m: int, d: int)
    requires 0 <= m < 12
    ensures MakeDay(y, m, d) == DayFromYear(y) + DaysBeforeMonth(y, m) + d - 1
  {
    assert m / 12 == 0 && m % 12 == m;
  }

  lemma {:induction false} DaysBeforeMonthMonotone(y: int, a: int, b: int)
    requires 0 <= a <= b <= 12
    ensures DaysBeforeMonth(y, a) + (b - a) * 28 <= DaysBeforeMonth(y, b)
    decreases b - a
  {
    if a < b {
      DaysBeforeMonthMonotone(y, a, b - 1);
    }
  }

  lemma {:induction false} DayFromYearMonotone(a: int, b: int)
    requires a <= b
    ensures DayFromYear(a) + 365 * (b - a) <= DayFromYear(b)
    decreases b - a
  {
    if a < b {
      DayFromYearMonotone(a, b - 1);
      YearLength(b - 1);
    }
  }

  /** The first of the month after m is DaysInMonth days after the first of m,
      also across the end of the year. */
  lemma NextMonthStart(y: int, m: int)
    requires 0 <= m < 12
    ensures MakeDay(y, m + 1, 1) == MakeDay(y, m, 1) + DaysInMonth(y, m)
  {
    MakeDayInRange(y, m, 1);
    if m == 11 {
      assert 12 / 12 == 1 && 12 % 12 == 0;
      YearLength(y);
      MonthsMakeAYear(y);
    } else {
      MakeDayInRange(y, m + 1, 1);
    }
  }

  /** Within a valid date, the day lies inside its year. */
  lemma DayWithinYear(y: int, m: int, d: int)
    requires ValidDate(y, m, d)
    ensures DayFromYear(y) <= MakeDay(y, m, d) < DayFromYear(y) + DaysInYear(y)
  {
    MakeDayInRange(y, m, d);
    DaysBeforeMonthMonotone(y, 0, m);
    DaysBeforeMonthMonotone(y, m + 1, 12);
    MonthsMakeAYear(y);
  }

  /** Distinct valid dates are distinct days: a day number determines the
      year, month and date that the getters of a `Date` report. */
  lemma MakeDayInjective(y1: int, m1: int, d1: int, y2: int, m2: int, d2: int)
    requires ValidDate(y1, m1, d1) && ValidDate(y2, m2, d2)
    requires MakeDay(y1, m1, d1) == MakeDay(y2, m2, d2)
    ensures y1 == y2 && m1 == m2 && d1 == d2
  {
    SameDaySameYear(y1, m1, d1, y2, m2, d2);
    MakeDayInRange(y1, m1, d1);
    MakeDayInRange(y1, m2, d2);
    if m1 < m2 {
      EarlierMonthEarlierDay(y1, m1, d1, m2, d2);
    } else if m2 < m1 {
      EarlierMonthEarlierDay(y1, m2, d2, m1, d1);
    }
  }

  /** A valid date of an earlier month of the same year comes earlier. */
  lemma EarlierMonthEarlierDay(y: int, m1: int, d1: int, m2: int, d2: int)
    requires 0 <= m1 < m2 < 12 && 1 <= d1 <= DaysInMonth(y, m1) && 1 <= d2
    ensures DaysBeforeMonth(y, m1) + d1 < DaysBeforeMonth(y, m2) + d2
  {
    DaysBeforeMonthMonotone(y, m1 + 1, m2);
  }

  lemma SameDaySameYear(y1: int, m1: int, d1: int, y2: int, m2: int, d2: int)
    requires ValidDate(y1, m1, d1) && ValidDate(y2, m2, d2)
    requires MakeDay(y1, m1, d1) == MakeDay(y2, m2, d2)
    ensures y1 == y2
  {
    DayWithinYear(y1, m1, d1);
    DayWithinYear(y2, m2, d2);
    if y1 != y2 {
      var lo, hi := if y1 < y2 then y1 else y2, if y1 < y2 then y2 else y1;
      YearLength(lo);
      DayFromYearMonotone(lo + 1, hi);
      assert false;
    }
  }

  /** The fields a `Date` reports after `setMonth(k)` on a date of year y
      with date d: the date is kept, and when month k is too short for it the
      excess rolls into month k + 1 (never past December, which has 31 days). */
  function FieldsAfterSetMonth(y: int, k: int, d: int): (r: (int, int, int))
    requires 0 <= k < 12 && 1 <= d <= 31
    ensures ValidDate(r.0, r.1, r.2)
    ensures MakeDay(r.0, r.1, r.2) == MakeDay(y, k, d)
    ensures r.0 == y && (r.1 == k || r.1 == k + 1)
  {
    if d <= DaysInMonth(y, k) then (y, k, d)
    else
      NextMonthStart(y, k);
      MakeDayInRange(y, k + 1, d - DaysInMonth(y, k));
      MakeDayInRange(y, k, d);
      (y, k + 1, d - DaysInMonth(y, k))
  }

  /** The fields FieldsAfterSetMonth gives are the only valid reading of that day. */
  lemma FieldsAfterSetMonthUnique(y: int, k: int, d: int, y2: int, m2: int, d2: int)
    requires 0 <= k < 12 && 1 <= d <= 31
    requires ValidDate(y2, m2, d2) && MakeDay(y2, m2, d2) == MakeDay(y, k, d)
    ensures (y2, m2, d2) == FieldsAfterSetMonth(y, k, d)
  {
    var r := FieldsAfterSetMonth(y, k, d);
    MakeDayInjective(y2, m2, d2, r.0, r.1, r.2);
  }
}
