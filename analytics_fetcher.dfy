/** The analytics panel (components/analytics-fetcher.tsx): the outcome of
    its one fetch, the `totalClicks` memo and the 30-day `chartData` memo. */
module AnalyticsFetcher {
  import opened Common
  import opened Calendar
  import opened SupabaseTypes
  import opened Utils
  import AnalyticsRoute

  /** How `supabase.from("analytics").select("*")` answers: rows (or a
      null `data`), an `error` object, or a thrown value. */
  datatype FetchAnswer =
    | Rows(data: Option<seq<ClickRecord>>)
    | QueryError(error: Thrown)
    | Threw(thrown: Thrown)

  /** The state the panel renders from. */
  datatype PanelState = PanelState(
    analytics: seq<ClickRecord>,
    loading: bool,
    error: Option<string>,
    showErrorToast: bool)

  const INITIAL_STATE: PanelState := PanelState([], true, None, false)

  /** The state after `fetchAnalytics` settles, from the initial state. */
  function AfterFetch(answer: FetchAnswer): (s: PanelState)
    ensures !s.loading
    ensures answer.Rows? ==> s.error.None? && !s.showErrorToast
    ensures answer.Rows? && answer.data.Some? ==> s.analytics == answer.data.value
    ensures !answer.Rows? || answer.data.None? ==> s.analytics == []
    ensures answer.QueryError? ==>
      s.showErrorToast && s.error == Some(ShowErrorToast(answer.error, "Failed to fetch analytics data"))
    ensures answer.Threw? ==>
      s.showErrorToast && s.error == Some(ShowErrorToast(answer.thrown, "An unexpected error occurred while fetching analytics"))
  {
    match answer
    case Rows(data) =>
      PanelState(if data.Some? then data.value else [], false, None, false)
    case QueryError(e) =>
      PanelState([], false, Some(ShowErrorToast(e, "Failed to fetch analytics data")), true)
    case Threw(e) =>
      PanelState([], false, Some(ShowErrorToast(e, "An unexpected error occurred while fetching analytics")), true)
  }

  /** `handleCloseErrorToast`. */
  function CloseErrorToast(s: PanelState): (r: PanelState)
    ensures !r.showErrorToast && r.error.None?
    ensures r.analytics == s.analytics && r.loading == s.loading
  {
    s.(showErrorToast := false, error := None)
  }

  /** `totalClicks`: every fetched record, inside the chart's window or not. */
  function TotalClicks(s: PanelState): (n: nat)
    ensures n == |s.analytics|
  {
    |s.analytics|
  }

  /** Day i of `chartData`, with the setters the memo calls:
      `setDate(now.getDate() - (29 - i))`, then `setHours(0, 0, 0, 0)` and
      `setHours(23, 59, 59, 999)`. */
  function DayBucket(now: Now, records: seq<ClickRecord>, i: nat): AnalyticsRoute.Point {
    var day := MakeDay(now.year, now.month, now.date - (29 - i));
    var dayStart := SetHours(day, 0, 0, 0, 0);
    var dayEnd := SetHours(day, 23, 59, 59, 999);
    AnalyticsRoute.Point(NatToString(i + 1), AnalyticsRoute.Count(records, dayStart, dayEnd))
  }

  /** `chartData`: thirty buckets. */
  function ChartData(now: Now, records: seq<ClickRecord>): (data: seq<AnalyticsRoute.Point>)
    ensures |data| == 30
  {
    seq(30, i requires 0 <= i < 30 => DayBucket(now, records, i))
  }

  // ------------------------------------------------------------ properties

  /** Bucket i is the whole day 29 - i days before today, from 00:00:00.000
      to 23:59:59.999, and is labelled i + 1; bucket 29 is today. */
  lemma BucketIsTrailingDay(now: Now, records: seq<ClickRecord>, i: nat)
    requires i < 30
    ensures var p := ChartData(now, records)[i];
      && p.period == NatToString(i + 1)
      && DecimalValue(p.period) == i + 1
      && p.clicks == AnalyticsRoute.Count(records, DayStart(Today(now) - (29 - i)), DayEnd(Today(now) - (29 - i)))
  {
    DecimalRoundTrip(i + 1);
    DayBucketBounds(now, records, i);
  }

  lemma DayBucketBounds(now: Now, records: seq<ClickRecord>, i: nat)
    requires i < 30
    ensures DayBucket(now, records, i).clicks
         == AnalyticsRoute.Count(records, DayStart(Today(now) - 29 + i), DayEnd(Today(now) - 29 + i))
  {
    SetHoursDayBounds(Today(now) - 29 + i);
  }

  /** The thirty whole days ending today. */
  function TrailingDays(now: Now): (slots: seq<AnalyticsRoute.Slot>)
    ensures |slots| == 30
    ensures forall i :: 0 <= i < 30 ==>
      slots[i] == AnalyticsRoute.Slot(DayStart(Today(now) - 29 + i), DayEnd(Today(now) - 29 + i))
  {
    seq(30, i requires 0 <= i < 30 =>
      AnalyticsRoute.Slot(DayStart(Today(now) - 29 + i), DayEnd(Today(now) - 29 + i)))
  }

  lemma BucketsAreTrailingDays(now: Now, records: seq<ClickRecord>)
    ensures forall i :: 0 <= i < 30 ==>
      ChartData(now, records)[i].clicks
      == AnalyticsRoute.Count(records, TrailingDays(now)[i].start, TrailingDays(now)[i].end)
  {
    forall i | 0 <= i < 30
      ensures ChartData(now, records)[i].clicks
           == AnalyticsRoute.Count(records, TrailingDays(now)[i].start, TrailingDays(now)[i].end)
    {
      DayBucketBounds(now, records, i);
    }
  }

  /** The buckets cover the thirty days ending today without overlap: they
      add up to the records of that window, so to at most `totalClicks`. */
  lemma BucketsSumToWindow(now: Now, records: seq<ClickRecord>)
    ensures AnalyticsRoute.TotalClicksOf(ChartData(now, records))
         == AnalyticsRoute.Count(records, DayStart(Today(now) - 29), DayEnd(Today(now)))
    ensures AnalyticsRoute.TotalClicksOf(ChartData(now, records)) <= |records|
  {
    var data := ChartData(now, records);
    var slots := TrailingDays(now);
    BucketsAreTrailingDays(now, records);
    SumMatchesSlots(records, data, slots, 30);
    assert data[..30] == data;
    assert slots[..30] == slots;
    AnalyticsRoute.DaySlotsConsecutive(slots, Today(now) - 29);
    AnalyticsRoute.ConsecutiveCount(records, slots);
  }

  lemma {:induction false} SumMatchesSlots(records: seq<ClickRecord>, data: seq<AnalyticsRoute.Point>,
                                           slots: seq<AnalyticsRoute.Slot>, n: nat)
    requires n <= |data| == |slots|
    requires forall i :: 0 <= i < |data| ==> data[i].clicks == AnalyticsRoute.Count(records, slots[i].start, slots[i].end)
    ensures AnalyticsRoute.TotalClicksOf(data[..n]) == AnalyticsRoute.SumCounts(records, slots[..n])
  {
    if n > 0 {
      SumMatchesSlots(records, data, slots, n - 1);
      assert data[..n][..n - 1] == data[..n - 1];
      assert slots[..n][..n - 1] == slots[..n - 1];
    }
  }

  /** After a failed fetch there is nothing to count: every bucket and the total are 0. */
  lemma FailureShowsZeros(answer: FetchAnswer, now: Now)
    requires !answer.Rows?
    ensures TotalClicks(AfterFetch(answer)) == 0
    ensures forall i :: 0 <= i < 30 ==> ChartData(now, AfterFetch(answer).analytics)[i].clicks == 0
  {
  }
}
