/** The analytics endpoint (app/api/analytics/route.ts): `GET` and the
    per-period bucketing `processAnalyticsForChart`.  Instants are integer
    milliseconds, the clock reading `now` is an input, and the `Date`
    setters the bucketing calls are written out with the calendar
    arithmetic of module Calendar. */
module AnalyticsRoute {
  import opened Common
  import opened Calendar
  import opened SupabaseTypes
  import opened Utils
  import SupabaseHelpers

  /** An element of the response's `data`: `{ period: label, clicks }`. */
  datatype Point = Point(period: string, clicks: nat)

  /** The inclusive bounds `[start, end]` of a bucket. */
  datatype Slot = Slot(start: int, end: int)

  const WEEKDAY_LABELS: seq<string> := ["Mon", "Tue", "Wed", "Thu", "Fri", "Sat", "Sun"]
  const MONTH_LABELS: seq<string> :=
    ["Jan", "Feb", "Mar", "Apr", "May", "Jun", "Jul", "Aug", "Sep", "Oct", "Nov", "Dec"]

  predicate IsKnownPeriod(period: string) {
    period == "1d" || period == "1w" || period == "1m" || period == "6m" || period == "1y"
  }

  /** The property names every object literal inherits from `Object.prototype`. */
  predicate IsPrototypeKey(period: string) {
    period in {"constructor", "hasOwnProperty", "isPrototypeOf", "propertyIsEnumerable",
               "toLocaleString", "toString", "valueOf", "__proto__",
               "__defineGetter__", "__defineSetter__", "__lookupGetter__", "__lookupSetter__"}
  }

  /** `dataPoints[period] || 30`.  An inherited property name looks up a
      function (or, for `__proto__`, an object), which is truthy; `i < points`
      then compares with NaN and the loop runs no iteration. */
  function Points(period: string): (n: nat)
    ensures n <= 30
  {
    if period == "1d" then 24
    else if period == "1w" then 7
    else if period == "1m" then 30
    else if period == "6m" then 26
    else if period == "1y" then 12
    else if IsPrototypeKey(period) then 0
    else 30
  }

  /** The label of bucket i. */
  function Label(period: string, i: nat): string
    requires i < Points(period)
  {
    if period == "1d" then NatToString(i) + ":00"
    else if period == "1w" then WEEKDAY_LABELS[i]
    else if period == "6m" then "W" + NatToString(i + 1)
    else if period == "1y" then MONTH_LABELS[i]
    else NatToString(i + 1)
  }

  /** `records.filter(r => start <= r.clicked_at && r.clicked_at <= end).length`. */
  function Count(records: seq<ClickRecord>, lo: int, hi: int): (n: nat)
    ensures n <= |records|
    ensures n == 0 <==> forall k :: 0 <= k < |records| ==> !(lo <= records[k].clickedAt <= hi)
  {
    if records == [] then 0
    else (if lo <= records[0].clickedAt <= hi then 1 else 0) + Count(records[1..], lo, hi)
  }

  /** The month bucket i of `1y` lands in: `setMonth(i)` keeps today's date,
      which can carry into the next month. */
  function YearSlotMonth(now: Now, i: nat): (m: nat)
    requires i < 12
    ensures m == i || m == i + 1
    ensures m < 12
  {
    FieldsAfterSetMonth(now.year, i, now.date).1
  }

  /** What bucket i covers, in calendar terms. */
  function SlotBounds(period: string, now: Now, i: nat): Slot
    requires IsKnownPeriod(period) && i < Points(period)
  {
    var today := Today(now);
    if period == "1d" then
      // hour i of today
      Slot(DayStart(today) + i * MS_PER_HOUR, DayStart(today) + (i + 1) * MS_PER_HOUR - 1)
    else if period == "1w" then
      // the whole day 6 - i days before today
      Slot(DayStart(today - (6 - i)), DayEnd(today - (6 - i)))
    else if period == "1m" then
      // the whole day i days after the first of this month
      var first := MakeDay(now.year, now.month, 1);
      Slot(DayStart(first + i), DayEnd(first + i))
    else if period == "6m" then
      // seven whole days, starting (25 - i) weeks before today
      var weekStart := today - (25 - i) * 7;
      Slot(DayStart(weekStart), DayEnd(weekStart + 6))
    else
      // the whole of month YearSlotMonth(now, i) of this year
      var m := YearSlotMonth(now, i);
      var first := MakeDay(now.year, m, 1);
      Slot(DayStart(first), DayEnd(first + DaysInMonth(now.year, m) - 1))
  }

  /** Bucket i of the series. */
  function PointAt(period: string, now: Now, records: seq<ClickRecord>, i: nat): Point
    requires i < Points(period)
  {
    if IsKnownPeriod(period) then
      var s := SlotBounds(period, now, i);
      Point(Label(period, i), Count(records, s.start, s.end))
    else Point(NatToString(i + 1), 0)
  }

  /** The series `processAnalyticsForChart(period)` returns. */
  function ChartSeries(period: string, now: Now, records: seq<ClickRecord>): (data: seq<Point>)
    ensures |data| == Points(period)
    ensures forall i :: 0 <= i < |data| ==> data[i] == PointAt(period, now, records, i)
  {
    seq(Points(period), i requires 0 <= i < Points(period) => PointAt(period, now, records, i))
  }

  /** `processAnalyticsForChart`: one bucket per iteration, pushed in order. */
  method ProcessAnalyticsForChart(period: string, now: Now, records: seq<ClickRecord>)
    returns (data: seq<Point>)
    ensures data == ChartSeries(period, now, records)
  {
    var points := Points(period);
    ghost var series := ChartSeries(period, now, records);
    data := [];
    var i := 0;
    while i < points
      invariant 0 <= i <= points == |series|
      invariant data == series[..i]
    {
      var point := Bucket(period, now, records, i);
      PrefixStep(series, i);
      data := data + [point];
      i := i + 1;
    }
    WholePrefix(series, points);
  }

  lemma PrefixStep<T>(s: seq<T>, i: nat)
    requires i < |s|
    ensures s[..i + 1] == s[..i] + [s[i]]
  {
  }

  /** The body of the loop for bucket i: the `switch` on the period, with
      the `Date` setters it calls.  `d.setDate(k)` on a date of year y and
      month m lands on `MakeDay(y, m, k)`; `d.setMonth(k)` lands on
      `MakeDay(y, k, date)`; `d.setHours(h, mi, s, ms)` keeps the day. */
  method Bucket(period: string, now: Now, records: seq<ClickRecord>, i: nat) returns (point: Point)
    requires i < Points(period)
    ensures point == PointAt(period, now, records, i)
  {
    var text := "";
    var clicks := 0;
    if period == "1d" {
      text := NatToString(i) + ":00";
      var hourStart := SetHours(Today(now), i, 0, 0, 0);
      var hourEnd := SetHours(Today(now), i, 59, 59, 999);
      clicks := Count(records, hourStart, hourEnd);
      HourSetters(now, i);
    } else if period == "1w" {
      text := WEEKDAY_LABELS[i];
      // dayStart.setDate(now.getDate() - (6 - i)), then the hours
      var day := MakeDay(now.year, now.month, now.date - (6 - i));
      var dayStart := SetHours(day, 0, 0, 0, 0);
      var dayEnd := SetHours(day, 23, 59, 59, 999);
      clicks := Count(records, dayStart, dayEnd);
      WeekSetters(now, i);
    } else if period == "1m" {
      text := NatToString(i + 1);
      // monthDayStart.setDate(i + 1), then the hours
      var day := MakeDay(now.year, now.month, i + 1);
      var monthDayStart := SetHours(day, 0, 0, 0, 0);
      var monthDayEnd := SetHours(day, 23, 59, 59, 999);
      clicks := Count(records, monthDayStart, monthDayEnd);
      MonthSetters(now, i);
    } else if period == "6m" {
      text := "W" + NatToString(i + 1);
      // weekStart.setDate(now.getDate() - (25 - i) * 7), then the hours
      var startDay := MakeDay(now.year, now.month, now.date - (25 - i) * 7);
      var weekStart := SetHours(startDay, 0, 0, 0, 0);
      // weekEnd.setDate(weekStart.getDate() + 6): six days on from weekStart
      var weekEnd := SetHours(startDay + 6, 23, 59, 59, 999);
      clicks := Count(records, weekStart, weekEnd);
      SixMonthSetters(now, i);
    } else if period == "1y" {
      text := MONTH_LABELS[i];
      // monthStart.setMonth(i): the fields it then reports
      var afterSetMonth := FieldsAfterSetMonth(now.year, i, now.date);
      // monthStart.setDate(1)
      var monthStartDay := MakeDay(afterSetMonth.0, afterSetMonth.1, 1);
      // monthEnd.setMonth(monthStart.getMonth() + 1), then monthEnd.setDate(0)
      var monthEndDay := MakeDay(afterSetMonth.0, afterSetMonth.1 + 1, 0);
      var monthStart := SetHours(monthStartDay, 0, 0, 0, 0);
      var monthEnd := SetHours(monthEndDay, 23, 59, 59, 999);
      clicks := Count(records, monthStart, monthEnd);
      YearSetters(now, i);
    } else {
      text := NatToString(i + 1);
      clicks := 0;
    }
    point := Point(text, clicks);
  }

  lemma HourSetters(now: Now, i: nat)
    requires i < 24
    ensures SlotBounds("1d", now, i)
         == Slot(SetHours(Today(now), i, 0, 0, 0), SetHours(Today(now), i, 59, 59, 999))
  {
  }

  lemma WeekSetters(now: Now, i: nat)
    requires i < 7
    ensures var day := MakeDay(now.year, now.month, now.date - (6 - i));
      SlotBounds("1w", now, i) == Slot(SetHours(day, 0, 0, 0, 0), SetHours(day, 23, 59, 59, 999))
  {
  }

  lemma MonthSetters(now: Now, i: nat)
    requires i < 30
    ensures var day := MakeDay(now.year, now.month, i + 1);
      SlotBounds("1m", now, i) == Slot(SetHours(day, 0, 0, 0, 0), SetHours(day, 23, 59, 59, 999))
  {
  }

  lemma SixMonthSetters(now: Now, i: nat)
    requires i < 26
    ensures var day := MakeDay(now.year, now.month, now.date - (25 - i) * 7);
      SlotBounds("6m", now, i) == Slot(SetHours(day, 0, 0, 0, 0), SetHours(day + 6, 23, 59, 59, 999))
  {
  }

  lemma YearSetters(now: Now, i: nat)
    requires i < 12
    ensures var f := FieldsAfterSetMonth(now.year, i, now.date);
      SlotBounds("1y", now, i)
      == Slot(SetHours(MakeDay(f.0, f.1, 1), 0, 0, 0, 0), SetHours(MakeDay(f.0, f.1 + 1, 0), 23, 59, 59, 999))
  {
    var m := YearSlotMonth(now, i);
    NextMonthStart(now.year, m);
    DayZeroIsDayBefore(now.year, m + 1);
  }

  /** `setDate(0)` lands on the day before the first of the month. */
  lemma DayZeroIsDayBefore(y: int, m: int)
    ensures MakeDay(y, m, 0) == MakeDay(y, m, 1) - 1
  {
  }

  // ---------------------------------------------------------------- GET

  /** How `supabase.auth.getUser()` answers. */
  datatype AuthOutcome = SignedIn(userId: string) | NotSignedIn

  datatype Response =
    | Unauthorized                                       // 401 { error: 'Unauthorized' }
    | InternalError(details: string)                     // 500 { error: 'Internal server error', details }
    | Chart(data: seq<Point>, totalClicks: nat, period: string)

  /** The click records of rows of the raw mode. */
  function RecordsOf(rows: seq<SupabaseHelpers.AnalyticsRow>): (records: seq<ClickRecord>)
    requires forall i :: 0 <= i < |rows| ==> rows[i].Click?
    ensures |records| == |rows|
    ensures forall i :: 0 <= i < |rows| ==> rows[i] == SupabaseHelpers.Click(records[i])
  {
    seq(|rows|, i requires 0 <= i < |rows| => rows[i].record)
  }

  function UserOptions(userId: string): SupabaseHelpers.AnalyticsOptions {
    SupabaseHelpers.AnalyticsOptions(Some(userId), None, None, false, false)
  }

  /** `getAnalytics({ userId })`, as the records it resolves to or what it throws. */
  function UserAnalytics(db: SupabaseHelpers.Db, userId: string): (r: Result<seq<ClickRecord>, Thrown>)
    ensures r.Failure? <==> db.clientError.Some?
    ensures r.Success? ==> forall i, j :: 0 <= i < j < |r.value| ==> r.value[i].clickedAt >= r.value[j].clickedAt
  {
    match SupabaseHelpers.AnalyticsQuery(db, UserOptions(userId))
    case Failure(e) => Failure(e)
    case Success(rows) =>
      SupabaseHelpers.RawRowsNewestFirst(db, UserOptions(userId));
      Success(RecordsOf(rows))
  }

  /** The response of `GET`.  `serverClient` is what creating the server-side
      client throws, if anything; `periodParam` is the `period` query
      parameter. */
  function Respond(serverClient: Option<Thrown>, auth: AuthOutcome, periodParam: Option<string>,
                   db: SupabaseHelpers.Db, now: Now): Response
  {
    if serverClient.Some? then InternalError(ErrorMessageOr(serverClient.value, "Unknown error"))
    else if auth.NotSignedIn? then Unauthorized
    else
      var period := OrElse(periodParam, "1m");
      match UserAnalytics(db, auth.userId)
      case Failure(e) => InternalError(ErrorMessageOr(e, "Unknown error"))
      case Success(records) => Chart(ChartSeries(period, now, records), |records|, period)
  }

  /** `GET`.  The `!userAnalytics` check cannot fire (the helper resolves to
      an array or throws), so it has no branch here. */
  method Get(serverClient: Option<Thrown>, auth: AuthOutcome, periodParam: Option<string>,
             db: SupabaseHelpers.Db, now: Now) returns (response: Response)
    ensures response == Respond(serverClient, auth, periodParam, db, now)
  {
    if serverClient.Some? {
      return InternalError(ErrorMessageOr(serverClient.value, "Unknown error"));
    }
    if auth.NotSignedIn? {
      return Unauthorized;
    }
    var period := if Truthy(periodParam) then periodParam.value else "1m";
    var userAnalytics := UserAnalytics(db, auth.userId);
    if userAnalytics.Failure? {
      return InternalError(ErrorMessageOr(userAnalytics.error, "Unknown error"));
    }
    var totalClicks := |userAnalytics.value|;
    var chartData := ProcessAnalyticsForChart(period, now, userAnalytics.value);
    response := Chart(chartData, totalClicks, period);
  }

  // ------------------------------------------------------------ properties

  /** A chart response carries the requested period, or '1m' when it is
      missing or empty, a series of the period's length, and every record
      fetched in `totalClicks`, which bounds every bucket. */
  lemma ChartResponse(serverClient: Option<Thrown>, auth: AuthOutcome, periodParam: Option<string>,
                      db: SupabaseHelpers.Db, now: Now)
    requires Respond(serverClient, auth, periodParam, db, now).Chart?
    ensures var r := Respond(serverClient, auth, periodParam, db, now);
      && auth.SignedIn? && serverClient.None? && db.clientError.None?
      && r.period == (if Truthy(periodParam) then periodParam.value else "1m")
      && |r.data| == Points(r.period)
      && r.totalClicks == |UserAnalytics(db, auth.userId).value|
      && forall i :: 0 <= i < |r.data| ==> r.data[i].clicks <= r.totalClicks
  {
  }

  /** The series has 24, 7, 30, 26 or 12 buckets for the five periods, and
      30 for any other period that is not an inherited property name. */
  lemma SeriesLength(period: string, now: Now, records: seq<ClickRecord>)
    ensures var n := |ChartSeries(period, now, records)|;
      && (period == "1d" ==> n == 24)
      && (period == "1w" ==> n == 7)
      && (period == "1m" ==> n == 30)
      && (period == "6m" ==> n == 26)
      && (period == "1y" ==> n == 12)
      && (!IsKnownPeriod(period) && !IsPrototypeKey(period) ==> n == 30)
      && (IsPrototypeKey(period) ==> n == 0)
  {
  }

  /** An unrecognised period gives thirty zero buckets labelled "1".."30";
      each label reads back as its position plus one. */
  lemma UnknownPeriodIsZeros(period: string, now: Now, records: seq<ClickRecord>)
    requires !IsKnownPeriod(period) && !IsPrototypeKey(period)
    ensures var data := ChartSeries(period, now, records);
      && |data| == 30
      && forall i :: 0 <= i < 30 ==>
           data[i].clicks == 0
           && data[i].period == NatToString(i + 1)
           && DecimalValue(data[i].period) == i + 1
  {
    forall n: nat | 1 <= n <= 30
      ensures DecimalValue(NatToString(n)) == n
    {
      DecimalRoundTrip(n);
    }
  }

  /** Splitting a range at any point splits its count. */
  lemma {:induction false} CountSplit(records: seq<ClickRecord>, lo: int, mid: int, hi: int)
    requires lo <= mid + 1 && mid <= hi
    ensures Count(records, lo, hi) == Count(records, lo, mid) + Count(records, mid + 1, hi)
  {
    if records != [] {
      CountSplit(records[1..], lo, mid, hi);
    }
  }

  /** Slots that follow one another without gap or overlap. */
  predicate Consecutive(slots: seq<Slot>) {
    && (forall k :: 0 <= k < |slots| ==> slots[k].start <= slots[k].end + 1)
    && (forall k :: 0 <= k < |slots| - 1 ==> slots[k + 1].start == slots[k].end + 1)
  }

  function SumCounts(records: seq<ClickRecord>, slots: seq<Slot>): nat {
    if slots == [] then 0
    else SumCounts(records, slots[..|slots| - 1]) + Count(records, slots[|slots| - 1].start, slots[|slots| - 1].end)
  }

  function TotalClicksOf(data: seq<Point>): nat {
    if data == [] then 0 else TotalClicksOf(data[..|data| - 1]) + data[|data| - 1].clicks
  }

  /** Over consecutive slots the counts add up to the count of their union. */
  lemma {:induction false} ConsecutiveCount(records: seq<ClickRecord>, slots: seq<Slot>)
    requires |slots| >= 1 && Consecutive(slots)
    ensures slots[0].start <= slots[|slots| - 1].end + 1
    ensures SumCounts(records, slots) == Count(records, slots[0].start, slots[|slots| - 1].end)
  {
    var n := |slots|;
    if n > 1 {
      var init := slots[..n - 1];
      assert Consecutive(init);
      ConsecutiveCount(records, init);
      CountSplit(records, slots[0].start, slots[n - 2].end, slots[n - 1].end);
    }
  }

  function Slots(period: string, now: Now): (slots: seq<Slot>)
    requires IsKnownPeriod(period)
    ensures |slots| == Points(period)
    ensures forall i :: 0 <= i < |slots| ==> slots[i] == SlotBounds(period, now, i)
  {
    seq(Points(period), i requires 0 <= i < Points(period) => SlotBounds(period, now, i))
  }

  lemma {:induction false} SeriesTotalIsSlotSum(period: string, now: Now, records: seq<ClickRecord>, n: nat)
    requires IsKnownPeriod(period) && n <= Points(period)
    ensures TotalClicksOf(ChartSeries(period, now, records)[..n]) == SumCounts(records, Slots(period, now)[..n])
  {
    if n > 0 {
      SeriesTotalIsSlotSum(period, now, records, n - 1);
      assert ChartSeries(period, now, records)[..n][..n - 1] == ChartSeries(period, now, records)[..n - 1];
      assert Slots(period, now)[..n][..n - 1] == Slots(period, now)[..n - 1];
    }
  }

  /** The span the buckets of a period cover together.  For `1y` it is the
      whole year, which the buckets cover when today's date is at most 28. */
  function Window(period: string, now: Now): Slot
    requires IsKnownPeriod(period)
  {
    var today := Today(now);
    if period == "1d" then Slot(DayStart(today), DayEnd(today))
    else if period == "1w" then Slot(DayStart(today - 6), DayEnd(today))
    else if period == "1m" then
      var first := MakeDay(now.year, now.month, 1);
      Slot(DayStart(first), DayEnd(first + 29))
    else if period == "6m" then Slot(DayStart(today - 175), DayEnd(today + 6))
    else Slot(DayStart(DayFromYear(now.year)), DayStart(DayFromYear(now.year + 1)) - 1)
  }

  lemma SlotsConsecutive(period: string, now: Now)
    requires IsKnownPeriod(period) && (period == "1y" ==> now.date <= 28)
    ensures Consecutive(Slots(period, now))
    ensures Slots(period, now)[0].start == Window(period, now).start
    ensures Slots(period, now)[Points(period) - 1].end == Window(period, now).end
  {
    if period == "1d" {
      HourSlotsConsecutive(now);
    } else if period == "1w" {
      DaySlotsConsecutive(Slots(period, now), Today(now) - 6);
    } else if period == "1m" {
      DaySlotsConsecutive(Slots(period, now), MakeDay(now.year, now.month, 1));
    } else if period == "6m" {
      WeekSlotsConsecutive(now);
    } else {
      MonthSlotsConsecutive(now);
    }
  }

  lemma HourSlotsConsecutive(now: Now)
    ensures Consecutive(Slots("1d", now))
    ensures Slots("1d", now)[0].start == Window("1d", now).start
    ensures Slots("1d", now)[23].end == Window("1d", now).end
  {
  }

  /** Slots that are the whole days first, first + 1, ... */
  lemma DaySlotsConsecutive(slots: seq<Slot>, first: int)
    requires |slots| >= 1
    requires forall k :: 0 <= k < |slots| ==> slots[k] == Slot(DayStart(first + k), DayEnd(first + k))
    ensures Consecutive(slots)
    ensures slots[0].start == DayStart(first)
    ensures slots[|slots| - 1].end == DayEnd(first + |slots| - 1)
  {
    forall k | 0 <= k < |slots| - 1
      ensures slots[k + 1].start == slots[k].end + 1
    {
      DayEndIsBeforeNextDay(first + k);
    }
  }

  lemma WeekSlotsConsecutive(now: Now)
    ensures Consecutive(Slots("6m", now))
    ensures Slots("6m", now)[0].start == Window("6m", now).start
    ensures Slots("6m", now)[25].end == Window("6m", now).end
  {
    var slots := Slots("6m", now);
    var first := Today(now) - 175;
    forall k | 0 <= k < 26
      ensures slots[k] == Slot(DayStart(first + 7 * k), DayEnd(first + 7 * k + 6))
    {
    }
    forall k | 0 <= k < 25
      ensures slots[k + 1].start == slots[k].end + 1
    {
      DayEndIsBeforeNextDay(first + 7 * k + 6);
    }
  }

  lemma MonthSlotsConsecutive(now: Now)
    requires now.date <= 28
    ensures Consecutive(Slots("1y", now))
    ensures Slots("1y", now)[0].start == Window("1y", now).start
    ensures Slots("1y", now)[11].end == Window("1y", now).end
  {
    var slots := Slots("1y", now);
    var firsts := MonthFirsts(now.year);
    YearSlotsByFirsts(now, slots, firsts);
    BoundarySlotsConsecutive(slots, firsts);
    YearWindow(now);
  }

  /** The first day of each month of year y, and the first of January of y + 1. */
  function MonthFirsts(y: int): (firsts: seq<int>)
    ensures |firsts| == 13
    ensures forall k :: 0 <= k < 13 ==> firsts[k] == MakeDay(y, k, 1)
  {
    seq(13, k requires 0 <= k < 13 => MakeDay(y, k, 1))
  }

  lemma YearSlotsByFirsts(now: Now, slots: seq<Slot>, firsts: seq<int>)
    requires now.date <= 28 && slots == Slots("1y", now) && firsts == MonthFirsts(now.year)
    ensures forall k :: 0 <= k < 12 ==> slots[k] == Slot(DayStart(firsts[k]), DayStart(firsts[k + 1]) - 1)
    ensures forall k :: 0 <= k < 12 ==> firsts[k] <= firsts[k + 1]
  {
    forall k | 0 <= k < 12
      ensures slots[k] == Slot(DayStart(firsts[k]), DayStart(firsts[k + 1]) - 1)
      ensures firsts[k] <= firsts[k + 1]
    {
      YearSlotIsWholeMonth(now, k);
      NextMonthStart(now.year, k);
    }
  }

  lemma YearWindow(now: Now)
    ensures Window("1y", now) == Slot(DayStart(MonthFirsts(now.year)[0]), DayStart(MonthFirsts(now.year)[12]) - 1)
  {
    YearBounds(now.year);
  }

  /** Slots that run from one day boundary to just before the next. */
  lemma BoundarySlotsConsecutive(slots: seq<Slot>, firsts: seq<int>)
    requires |firsts| == |slots| + 1
    requires forall k :: 0 <= k < |slots| ==> slots[k] == Slot(DayStart(firsts[k]), DayStart(firsts[k + 1]) - 1)
    requires forall k :: 0 <= k < |slots| ==> firsts[k] <= firsts[k + 1]
    ensures Consecutive(slots)
  {
    forall k | 0 <= k < |slots|
      ensures slots[k].start <= slots[k].end + 1
    {
      DayStartMonotone(firsts[k], firsts[k + 1]);
    }
    forall k | 0 <= k < |slots| - 1
      ensures slots[k + 1].start == slots[k].end + 1
    {
      var j := k + 1;
      assert slots[j] == Slot(DayStart(firsts[j]), DayStart(firsts[j + 1]) - 1);
    }
  }

  lemma DayStartMonotone(a: int, b: int)
    requires a <= b
    ensures DayStart(a) <= DayStart(b)
  {
  }

  /** The first of January of y and of y + 1, through MakeDay. */
  lemma YearBounds(y: int)
    ensures MakeDay(y, 0, 1) == DayFromYear(y)
    ensures MakeDay(y, 12, 1) == DayFromYear(y + 1)
  {
    MakeDayInRange(y, 0, 1);
    assert 12 / 12 == 1 && 12 % 12 == 0;
  }

  /** With today's date at most 28, `1y` slot k runs from the first of
      month k to just before the first of the next month. */
  lemma YearSlotIsWholeMonth(now: Now, k: nat)
    requires now.date <= 28 && k < 12
    ensures SlotBounds("1y", now, k)
         == Slot(DayStart(MakeDay(now.year, k, 1)), DayStart(MakeDay(now.year, k + 1, 1)) - 1)
  {
    assert YearSlotMonth(now, k) == k;
    NextMonthStart(now.year, k);
    DayEndIsBeforeNextDay(MakeDay(now.year, k, 1) + DaysInMonth(now.year, k) - 1);
  }

  /** Every bucket of the five periods counts the records of its slot, and
      the buckets add up to the records of the whole window (for `1y`, when
      today's date is at most 28): no click is counted twice, so the sum is
      at most `totalClicks`. */
  lemma SeriesSumsToWindow(period: string, now: Now, records: seq<ClickRecord>)
    requires IsKnownPeriod(period) && (period == "1y" ==> now.date <= 28)
    ensures var w := Window(period, now);
      && TotalClicksOf(ChartSeries(period, now, records)) == Count(records, w.start, w.end)
      && TotalClicksOf(ChartSeries(period, now, records)) <= |records|
  {
    var n := Points(period);
    var data := ChartSeries(period, now, records);
    var slots := Slots(period, now);
    SeriesTotalIsSlotSum(period, now, records, n);
    WholePrefix(data, n);
    WholePrefix(slots, n);
    SlotsCountWindow(period, now, records);
  }

  lemma WholePrefix<T>(s: seq<T>, n: nat)
    requires n == |s|
    ensures s[..n] == s
  {
  }

  /** The slot counts of a known period add up to the count of its window. */
  lemma SlotsCountWindow(period: string, now: Now, records: seq<ClickRecord>)
    requires IsKnownPeriod(period) && (period == "1y" ==> now.date <= 28)
    ensures SumCounts(records, Slots(period, now)) == Count(records, Window(period, now).start, Window(period, now).end)
  {
    var slots := Slots(period, now);
    SlotsConsecutive(period, now);
    ConsecutiveCount(records, slots);
  }

  /** `1d` bucket i is hour i of today, labelled "i:00". */
  lemma HourBucket(now: Now, records: seq<ClickRecord>, i: nat)
    requires i < 24
    ensures var p := ChartSeries("1d", now, records)[i];
      && p.period == NatToString(i) + ":00"
      && p.clicks == Count(records, TimeValue(now) - now.msInDay + i * MS_PER_HOUR,
                                    TimeValue(now) - now.msInDay + i * MS_PER_HOUR + 3599999)
  {
    var p := ChartSeries("1d", now, records)[i];
    var slot := SlotBounds("1d", now, i);
    assert p == Point(Label("1d", i), Count(records, slot.start, slot.end));
    HourSlot(now, i);
  }

  lemma HourSlot(now: Now, i: nat)
    requires i < 24
    ensures SlotBounds("1d", now, i).start == TimeValue(now) - now.msInDay + i * MS_PER_HOUR
    ensures SlotBounds("1d", now, i).end == TimeValue(now) - now.msInDay + i * MS_PER_HOUR + 3599999
  {
    assert (i + 1) * MS_PER_HOUR == i * MS_PER_HOUR + 3600000;
  }

  /** `1w` bucket 6 is today, and the labels go by position, whatever
      weekday today is. */
  lemma LastWeekBucketIsToday(now: Now, records: seq<ClickRecord>)
    ensures var data := ChartSeries("1w", now, records);
      && data[6].clicks == Count(records, DayStart(Today(now)), DayEnd(Today(now)))
      && forall i :: 0 <= i < 7 ==> data[i].period == WEEKDAY_LABELS[i]
  {
  }

  /** `1m` in a month of 31 days never counts the 31st. */
  lemma ThirtyFirstNeverCounted(now: Now, records: seq<ClickRecord>, t: int)
    requires DaysInMonth(now.year, now.month) == 31
    requires DayStart(MakeDay(now.year, now.month, 31)) <= t <= DayEnd(MakeDay(now.year, now.month, 31))
    ensures forall i :: 0 <= i < 30 ==>
      !(SlotBounds("1m", now, i).start <= t <= SlotBounds("1m", now, i).end)
  {
    forall i | 0 <= i < 30
      ensures SlotBounds("1m", now, i).end < t
    {
      DayEndIsBeforeNextDay(MakeDay(now.year, now.month, 1) + i);
    }
  }

  /** `1m` in a month shorter than 30 days: the late buckets are the first
      days of the next month (bucket "29" of a 28-day February is 1 March). */
  lemma MonthBucketsRollOver(now: Now, i: nat)
    requires DaysInMonth(now.year, now.month) <= i < 30
    ensures SlotBounds("1m", now, i).start
         == DayStart(MakeDay(now.year, now.month + 1, i + 1 - DaysInMonth(now.year, now.month)))
  {
    NextMonthStart(now.year, now.month);
  }

  /** `1y` when today is the 31st: the bucket of a 30-day month covers the
      month after it, which is then covered twice, and the short month itself
      not at all. */
  lemma ShortMonthBucketRepeats(now: Now, i: nat)
    requires i < 11 && now.date == 31 && DaysInMonth(now.year, i) == 30
    ensures SlotBounds("1y", now, i) == SlotBounds("1y", now, i + 1)
    ensures YearSlotMonth(now, i) == i + 1
  {
  }

  /** `1y` when today's date is at most 28: bucket i is month i, from its
      first day at 00:00 to its last day at 23:59:59.999. */
  lemma YearBucketIsMonth(now: Now, i: nat)
    requires i < 12 && now.date <= 28
    ensures SlotBounds("1y", now, i)
         == Slot(DayStart(MakeDay(now.year, i, 1)), DayEnd(MakeDay(now.year, i, DaysInMonth(now.year, i))))
  {
  }

  /** `6m`: the last week starts today and ends six days ahead. */
  lemma LastWeekStartsToday(now: Now)
    ensures SlotBounds("6m", now, 25) == Slot(DayStart(Today(now)), DayEnd(Today(now) + 6))
  {
  }
}
