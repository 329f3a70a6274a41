# Link shortener dashboard — a Dafny model of its logic

The system is a link-shortener dashboard. Its pieces are:
- a Next.js/React front end over a hosted Supabase (PostgreSQL) database;
- a signed-in user creates short links, edits them, and watches their click counts;
- an API route turns the user's click records into a chart series for one of five periods (`1d`, `1w`, `1m`, `6m`, `1y`);
- a client-side cache (`LinksProvider`) holds the list of links;
- a realtime channel adds or removes one click whenever a click record of a tracked link is inserted or deleted;
- a query helper (`getAnalytics`) answers both "links with their click counts" and "raw click records, filtered".

This project models that logic in Dafny, one module per source file:

| module | source file | form |
|---|---|---|
| `Common` | JavaScript built-ins the sources call: `trim`, `split`, `join`, `\|\|` on strings, template-literal numbers | functions and lemmas |
| `Calendar` | the `Date` arithmetic the bucketing relies on (ECMAScript `DayFromYear`/`MakeDay`, `setDate`, `setMonth`, `setHours`) | functions and lemmas |
| `SupabaseTypes` | lib/supabase/types.ts | datatypes |
| `Utils` | lib/utils.ts | functions |
| `SupabaseHelpers` | lib/supabase/helpers.ts | the procedure `GetAnalytics`, proved against the function `AnalyticsQuery` |
| `AnalyticsRoute` | app/api/analytics/route.ts | the `for` loop and the `switch` as methods, proved against `ChartSeries` |
| `AnalyticsFetcher` | components/analytics-fetcher.tsx | functions |
| `UseRealtime` | hooks/use-realtime.tsx | class `Realtime` holding the channel handle and the tracked ids |
| `UseLinks` | hooks/use-links.tsx | class `LinksProvider` holding the list and its flags |
| `LinkDashboard` | components/link-dashboard.tsx | class `Dashboard` |
| `LinkDetail` | components/link-detail.tsx | class `LinkDetail` |
| `LinkModal` | components/link-modal.tsx | class `LinkModal` |
| `Sidebar` | components/sidebar.tsx | functions |
| `AuthPage` | app/auth/page.tsx | class `AuthPage` |

Modelling choices:
- Instants are integer milliseconds.
- The clock reading `new Date()` is an input `now`, given as its local fields (year, month, date, milliseconds since midnight).
- Local time is the time value itself: no offset and no daylight saving.
- The database is an in-memory value `SupabaseHelpers.Db`. It holds the `links` and `analytics` tables and says which query comes back with an `error`.
- `createClient()` throwing, `Math.random()`, and `crypto.randomUUID()` are inputs.
- What a caught value is (an `Error`, a string, an object with `message`, anything else) is the datatype `Utils.Thrown`.

Quirks of the code are modelled as written and stated as lemmas:
- The `1w` labels go by position, not by weekday.
- `1m` counts day i + 1 of the month through `setDate(i + 1)`:
  - in a short month the late buckets fall in the next month;
  - the 31st is never counted.
- `1y` calls `setMonth(i)` while keeping today's date. On the 29th–31st a short month's bucket rolls into the next month, so that month is counted twice.
- The last `6m` week starts today and runs six days ahead.
- A period string that names an `Object.prototype` property gives an empty series, not 30 buckets. `dataPoints[period]` is then a function, and `i < points` is false.
- The cache shows a freshly loaded link's tags as JSON text. Saving the edit form unchanged turns `["a","b"]` into the two tags `["a"` and `"b"]`.
- The realtime clamp at 0 loses information: a DELETE then an INSERT on a link at 0 shows 1.

## Model

| member | source | states |
|---|---|---|
| Common.Trim | components/link-modal.tsx:58 | the trimmed string has no whitespace at either end, is no longer than the input, and a string already trimmed is returned unchanged |
| Common.TrimStart | components/link-modal.tsx:58 | the dropped prefix is all whitespace and what is left does not start with whitespace |
| Common.TrimEnd | components/link-modal.tsx:58 | the dropped suffix is all whitespace and what is left does not end with whitespace |
| Common.TrimLeadingSpace | components/sidebar.tsx:102 | trimming whitespace followed by a trimmed string gives that string back |
| Common.Split | components/link-dashboard.tsx:172 | `split` on one character gives at least one piece, no piece holds the separator, and joining the pieces with it gives the input back |
| Common.SplitJoin | components/link-dashboard.tsx:172 | splitting a join of separator-free pieces gives the pieces back |
| Common.LastPiece | components/link-dashboard.tsx:163 | `split(sep).pop()` never holds the separator |
| Common.LastPieceIsSuffix | components/link-dashboard.tsx:163 | the last piece is the text after the last separator: a separator-free suffix, preceded by a separator when the string holds one, and the whole string when it holds none |
| Common.LastPieceAfter | components/link-dashboard.tsx:163 | the last piece of `prefix + sep + tail` is `tail` when `tail` holds no separator |
| Common.NatToString | app/api/analytics/route.ts:52 | a number prints as decimal digits, without a leading zero |
| Common.DecimalRoundTrip | app/api/analytics/route.ts:78 | reading the printed label back gives the number, so the labels `${i + 1}` are distinct |
| Calendar.DaysInMonth | app/api/analytics/route.ts:113-114 | a month has 28 to 31 days, and 31 exactly for Jan, Mar, May, Jul, Aug, Oct, Dec |
| Calendar.SetHoursDayBounds | components/analytics-fetcher.tsx:65-67 | `setHours(0,0,0,0)` is midnight of the day and `setHours(23,59,59,999)` is its last millisecond |
| Calendar.DayEndIsBeforeNextDay | components/analytics-fetcher.tsx:63-72 | the last millisecond of a day is just before the next day's midnight |
| Calendar.YearLength | app/api/analytics/route.ts:113 | the first days of consecutive years are 365 or 366 days apart, by the leap-year rule |
| Calendar.MonthsMakeAYear | app/api/analytics/route.ts:113-114 | the twelve month lengths add up to the length of the year |
| Calendar.NextMonthStart | app/api/analytics/route.ts:113-114 | the first of month m + 1 is DaysInMonth(m) days after the first of month m, also from December into January |
| Calendar.DayWithinYear | app/api/analytics/route.ts:108-110 | a valid date falls inside its own year |
| Calendar.MakeDayInjective | app/api/analytics/route.ts:108-110 | distinct valid dates are distinct days |
| Calendar.FieldsAfterSetMonth | app/api/analytics/route.ts:109 | after `setMonth(k)` the date reads as a valid date of month k, or of month k + 1 when k is too short, and it is the same day |
| Calendar.FieldsAfterSetMonthUnique | app/api/analytics/route.ts:109 | those fields are the only valid reading of that day |
| Utils.ShowErrorToast | lib/utils.ts:9-22 | an `Error` gives its message, a string gives itself, an object with `message` gives that text, anything else gives the default |
| Utils.ShowErrorToastWithDefault | lib/utils.ts:9 | with the default left out, a value without a message gives "An error occurred" |
| Utils.DefaultOnlyWithoutMessage | lib/utils.ts:10-21 | the result depends on the default exactly when the value carries no message |
| Utils.ErrorMessageOr | app/api/analytics/route.ts:147 | `error instanceof Error ? error.message : 'Unknown error'`: an `Error` gives its message, any other value the fallback (also hooks/use-realtime.tsx:82) |
| Utils.ErrorMessageOrVersusToast | lib/utils.ts:9-22 | this normaliser agrees with `showErrorToast` except on a thrown string or an object with a message whose text differs from the fallback |
| SupabaseHelpers.LinksOfUser | lib/supabase/helpers.ts:178-181 | `.eq('user_id', userId)` keeps exactly the rows of that user |
| SupabaseHelpers.RecordsOfLink | lib/supabase/helpers.ts:212-213 | `.eq('link_id', linkId)` keeps exactly the records of that link |
| SupabaseHelpers.RecordsOfLinks | lib/supabase/helpers.ts:224-225 | `.in('link_id', ids)` keeps exactly the records whose link id is listed |
| SupabaseHelpers.RecordsFrom | lib/supabase/helpers.ts:233 | `.gte('clicked_at', start)` keeps exactly the records at or after start |
| SupabaseHelpers.RecordsUntil | lib/supabase/helpers.ts:234 | `.lte('clicked_at', end)` keeps exactly the records at or before end |
| SupabaseHelpers.RecordsInRange | lib/supabase/helpers.ts:231-235 | the kept records are those with start ≤ clicked_at ≤ end |
| SupabaseHelpers.BoundsMakeRange | lib/supabase/helpers.ts:231-235 | `gte` then `lte` keep the records of the inclusive range, in order |
| SupabaseHelpers.InsertDesc | lib/supabase/helpers.ts:237-239 | inserting adds exactly one occurrence of the element |
| SupabaseHelpers.InsertDescSorted | lib/supabase/helpers.ts:237-239 | inserting into a list sorted newest-first keeps it sorted |
| SupabaseHelpers.SortDesc | lib/supabase/helpers.ts:237-239 | `.order(column, { ascending: false })` is a permutation of its input, sorted largest key first |
| SupabaseHelpers.SortKeepsElements | lib/supabase/helpers.ts:237-239 | sorting neither adds nor drops an element |
| SupabaseHelpers.IdsOf | lib/supabase/helpers.ts:187 | the ids are the links' ids, position by position |
| SupabaseHelpers.LookupCount | lib/supabase/helpers.ts:198-204 | `clickCountsMap.get(id) \|\| 0` is the count of the last RPC row for the id, and 0 when there is none |
| SupabaseHelpers.AttachCounts | lib/supabase/helpers.ts:202-205 | one entry per link, in the links' order, each with its looked-up count |
| SupabaseHelpers.GetAnalytics | lib/supabase/helpers.ts:156-247 | the procedure, with its early returns and the query it narrows step by step, resolves to the specification `AnalyticsQuery` |
| SupabaseHelpers.GetLinksWithClickCounts | lib/supabase/helpers.ts:254-262 | rejects exactly when the client cannot be created; an empty user id gives [] |
| SupabaseHelpers.LinksWithClickCountsIsQuery | lib/supabase/helpers.ts:254-262 | the entries are exactly `getAnalytics` in links-with-counts mode, every row a link row, with the same rejection |
| SupabaseHelpers.GetLinkAnalytics | lib/supabase/helpers.ts:250-252 | every row is a click record of that link, taken from the `analytics` table |
| SupabaseHelpers.LinksWithCountsEntries | lib/supabase/helpers.ts:176-205 | links-with-counts mode gives one entry per link of the user (a permutation of them), newest first, each with the RPC count or 0 |
| SupabaseHelpers.NoLinksNoRows | lib/supabase/helpers.ts:185-222 | a user with no links gets [] in both modes |
| SupabaseHelpers.LinkIdTakesPrecedence | lib/supabase/helpers.ts:212-214 | in raw mode with a link id, the user id does not change the answer |
| SupabaseHelpers.UserQueryIsSortedSelection | lib/supabase/helpers.ts:214-239 | with a user id alone, the answer is the records of the user's link ids, newest first |
| SupabaseHelpers.SelectedAreUserClicks | lib/supabase/helpers.ts:215-225 | a record is selected exactly when some link of the user has its link id |
| SupabaseHelpers.UserRowsAreTheirClicks | lib/supabase/helpers.ts:215-239 | with a user id alone, the rows are exactly the user's click records, with multiplicities, newest first |
| SupabaseHelpers.NeitherIdNoRows | lib/supabase/helpers.ts:226-229 | with neither a user id nor a link id the answer is [] |
| SupabaseHelpers.RawRowsNewestFirst | lib/supabase/helpers.ts:237-239 | raw rows are click records ordered by `clicked_at` descending |
| SupabaseHelpers.RawRowsAreTheRange | lib/supabase/helpers.ts:231-235 | with a date range, a record is a row exactly when it is selected and start ≤ clicked_at ≤ end |
| SupabaseHelpers.RawRowsAreTheSelection | lib/supabase/helpers.ts:209-242 | without a date range, the rows are exactly the selected records |
| SupabaseHelpers.ErrorsGiveNoRows | lib/supabase/helpers.ts:243-246 | every query, RPC or lookup error after the client exists resolves to [] and is not thrown |
| AnalyticsRoute.Points | app/api/analytics/route.ts:43 | no period gives more than 30 buckets |
| AnalyticsRoute.Count | app/api/analytics/route.ts:58-61 | a bucket's count is at most the number of records, and 0 exactly when no record lies in the slot, both ends included |
| AnalyticsRoute.YearSlotMonth | app/api/analytics/route.ts:108-110 | `setMonth(i)` with today's date lands in month i or i + 1, never past December |
| AnalyticsRoute.ChartSeries | app/api/analytics/route.ts:43-130 | the series has one point per bucket, and point i is bucket i |
| AnalyticsRoute.ProcessAnalyticsForChart | app/api/analytics/route.ts:33-133 | the loop pushes exactly the series `ChartSeries`, in order |
| AnalyticsRoute.Bucket | app/api/analytics/route.ts:47-129 | each branch's label and setter calls count the records of bucket i's calendar slot |
| AnalyticsRoute.HourSetters | app/api/analytics/route.ts:54-57 | `setHours(i,0,0,0)` to `setHours(i,59,59,999)` is hour i of today |
| AnalyticsRoute.WeekSetters | app/api/analytics/route.ts:67-71 | `setDate(getDate() - (6 - i))` and the two `setHours` are the whole day 6 − i days before today |
| AnalyticsRoute.MonthSetters | app/api/analytics/route.ts:80-84 | `setDate(i + 1)` and the two `setHours` are the whole day i after the first of the month |
| AnalyticsRoute.SixMonthSetters | app/api/analytics/route.ts:93-98 | the `6m` setters are 00:00 of today − (25 − i)·7 days to 23:59:59.999 six days later |
| AnalyticsRoute.YearSetters | app/api/analytics/route.ts:108-115 | the `1y` setters run from the first to the last day of the month `setMonth(i)` lands in |
| AnalyticsRoute.DayZeroIsDayBefore | app/api/analytics/route.ts:114 | `setDate(0)` is the day before the first of the month |
| AnalyticsRoute.RecordsOf | app/api/analytics/route.ts:22 | the cast to `Analytics[]` keeps every row's record, in order |
| AnalyticsRoute.UserAnalytics | app/api/analytics/route.ts:22 | `getAnalytics({ userId })` rejects only when its client cannot be created, and its records come newest first |
| AnalyticsRoute.Get | app/api/analytics/route.ts:6-150 | the handler answers 500 with details for a throw, 401 without a user, and otherwise the chart of `Respond` |
| AnalyticsRoute.ChartResponse | app/api/analytics/route.ts:19-141 | a chart answer carries the period (or '1m' when missing or empty), a series of its length, and `totalClicks` equal to all fetched records, which bounds every bucket |
| AnalyticsRoute.SeriesLength | app/api/analytics/route.ts:35-43 | 24, 7, 30, 26, 12 buckets for the five periods; 30 for other strings; 0 for inherited property names |
| AnalyticsRoute.UnknownPeriodIsZeros | app/api/analytics/route.ts:121-123 | an unknown period gives 30 zero buckets labelled "1".."30" |
| AnalyticsRoute.CountSplit | app/api/analytics/route.ts:58-61 | splitting a slot at any instant splits its count |
| AnalyticsRoute.ConsecutiveCount | app/api/analytics/route.ts:58-119 | the counts of gap-free, non-overlapping slots add up to the count of their union |
| AnalyticsRoute.SeriesTotalIsSlotSum | app/api/analytics/route.ts:126-129 | the pushed clicks add up to the slot counts |
| AnalyticsRoute.SlotsConsecutive | app/api/analytics/route.ts:46-120 | each period's slots follow one another without gap or overlap and span its window (`1y` when today's date is at most 28) |
| AnalyticsRoute.HourSlotsConsecutive | app/api/analytics/route.ts:51-62 | the 24 hours are consecutive and span today |
| AnalyticsRoute.DaySlotsConsecutive | app/api/analytics/route.ts:63-89 | whole successive days are consecutive slots |
| AnalyticsRoute.WeekSlotsConsecutive | app/api/analytics/route.ts:90-103 | the 26 weeks are consecutive and span today − 175 days to today + 6 |
| AnalyticsRoute.MonthSlotsConsecutive | app/api/analytics/route.ts:104-120 | with today's date at most 28, the 12 months are consecutive and span the year |
| AnalyticsRoute.YearSlotsByFirsts | app/api/analytics/route.ts:108-115 | `1y` slot k runs from the first of month k to just before the first of month k + 1 |
| AnalyticsRoute.BoundarySlotsConsecutive | app/api/analytics/route.ts:104-120 | slots from one day boundary to just before the next are consecutive |
| AnalyticsRoute.YearBounds | app/api/analytics/route.ts:109-110 | the first of January of the year and of the next year, through `setMonth` and `setDate` |
| AnalyticsRoute.YearWindow | app/api/analytics/route.ts:104-120 | the `1y` window runs from 1 January 00:00 of this year to just before 1 January of the next |
| AnalyticsRoute.YearSlotIsWholeMonth | app/api/analytics/route.ts:108-115 | with today's date at most 28, `1y` slot k is the whole month k |
| AnalyticsRoute.SeriesSumsToWindow | app/api/analytics/route.ts:30-141 | the buckets add up to the records of the window, so to at most `totalClicks` |
| AnalyticsRoute.SlotsCountWindow | app/api/analytics/route.ts:46-120 | the slot counts of a known period add up to the count of its window |
| AnalyticsRoute.HourBucket | app/api/analytics/route.ts:51-62 | `1d` bucket i is labelled "i:00" and counts i:00:00.000 to i:59:59.999 of today |
| AnalyticsRoute.HourSlot | app/api/analytics/route.ts:54-57 | hour i of today starts at midnight + i hours and lasts 3 600 000 ms |
| AnalyticsRoute.LastWeekBucketIsToday | app/api/analytics/route.ts:63-76 | `1w` bucket 6 is today, and the labels go Mon..Sun by position |
| AnalyticsRoute.ThirtyFirstNeverCounted | app/api/analytics/route.ts:80-82 | in a 31-day month no `1m` bucket holds an instant of the 31st |
| AnalyticsRoute.MonthBucketsRollOver | app/api/analytics/route.ts:80-82 | in a month shorter than 30 days, the late `1m` buckets are days of the next month |
| AnalyticsRoute.ShortMonthBucketRepeats | app/api/analytics/route.ts:108-110 | on the 31st, a 30-day month's `1y` bucket is the next month's bucket |
| AnalyticsRoute.YearBucketIsMonth | app/api/analytics/route.ts:104-120 | with today's date at most 28, `1y` bucket i is month i from its first day 00:00 to its last day 23:59:59.999 |
| AnalyticsRoute.LastWeekStartsToday | app/api/analytics/route.ts:93-98 | the last `6m` week starts today and ends six days ahead |
| AnalyticsFetcher.AfterFetch | components/analytics-fetcher.tsx:22-49 | after the fetch the panel stops loading; rows (or null as []) on success; [] with the normalised message and the error toast on an error or a throw |
| AnalyticsFetcher.CloseErrorToast | components/analytics-fetcher.tsx:51-54 | closing hides the toast and clears the error, keeping the records |
| AnalyticsFetcher.TotalClicks | components/analytics-fetcher.tsx:57 | the total is the number of fetched records, inside the window or not |
| AnalyticsFetcher.ChartData | components/analytics-fetcher.tsx:59-76 | the series has exactly 30 buckets |
| AnalyticsFetcher.BucketIsTrailingDay | components/analytics-fetcher.tsx:63-74 | bucket i is labelled i + 1 and counts the whole day 29 − i days before today; bucket 29 is today |
| AnalyticsFetcher.DayBucketBounds | components/analytics-fetcher.tsx:63-67 | the setters of bucket i are 00:00:00.000 and 23:59:59.999 of today − 29 + i |
| AnalyticsFetcher.BucketsAreTrailingDays | components/analytics-fetcher.tsx:63-72 | every bucket counts its trailing day |
| AnalyticsFetcher.BucketsSumToWindow | components/analytics-fetcher.tsx:57-76 | the buckets add up to the records of the 30 days ending today, so to at most `totalClicks` |
| AnalyticsFetcher.FailureShowsZeros | components/analytics-fetcher.tsx:27-43 | after an error or a throw every bucket and the total are 0 |
| UseRealtime.Notification | hooks/use-realtime.tsx:33-70 | an INSERT gives +1 and a DELETE −1 for a tracked link id, when the payload row and the callback exist; otherwise no callback |
| UseRealtime.ChannelName | hooks/use-realtime.tsx:25 | the channel is "analytics-" followed by the user id |
| UseRealtime.StatusError | hooks/use-realtime.tsx:72-79 | only `CHANNEL_ERROR` is reported, and only when `onError` was given |
| UseRealtime.Without | hooks/use-realtime.tsx:89 | `removeChannel` leaves exactly the other open channels |
| UseRealtime.Realtime.constructor | hooks/use-realtime.tsx:13-14 | no handle, no tracked ids, no open channel |
| UseRealtime.Realtime.IsSubscribed | hooks/use-realtime.tsx:112 | `isSubscribed` is true exactly when a handle is held |
| UseRealtime.Realtime.Subscribe | hooks/use-realtime.tsx:17-84 | nothing happens for an empty user id; a setup throw is reported and nothing is opened; otherwise a new channel "analytics-<id>" is opened and held at once |
| UseRealtime.Realtime.Unsubscribe | hooks/use-realtime.tsx:86-92 | the held channel is removed from the client and the handle dropped; without a handle nothing changes |
| UseRealtime.Realtime.UpdateLinkIds | hooks/use-realtime.tsx:94-98 | the tracked ids become exactly the given ids, and the channel is untouched |
| UseRealtime.Realtime.OnChange | hooks/use-realtime.tsx:33-70 | the handlers call back with the delta of `Notification` for the current tracked ids |
| UseRealtime.Realtime.OnStatus | hooks/use-realtime.tsx:72-79 | a `CHANNEL_ERROR` is reported and the handle is kept |
| UseRealtime.Realtime.RunEffect | hooks/use-realtime.tsx:100-108 | a re-run first releases the previous channel, then holds a channel exactly when the user id is non-empty and setup succeeds; no channel leaks |
| UseRealtime.Realtime.Dispose | hooks/use-realtime.tsx:105-107 | unmounting leaves no channel open |
| UseRealtime.ReplacedIdsNoLongerTracked | hooks/use-realtime.tsx:94-98 | an id dropped by `updateLinkIds` gets no more callbacks: the set is replaced, not extended |
| UseRealtime.InsertThenDeleteCancel | hooks/use-realtime.tsx:36-63 | an INSERT and a DELETE of the same tracked record cancel out |
| UseRealtime.UnsubscribeTwice | hooks/use-realtime.tsx:86-92 | unsubscribing a second time changes nothing |
| UseLinks.JsonEscape | hooks/use-links.tsx:35 | a character is written as itself exactly when it is not a quote, a backslash or a control character |
| UseLinks.JsonEscaped | hooks/use-links.tsx:35 | a string without characters that need escaping is written unchanged |
| UseLinks.EscapeStep | hooks/use-links.tsx:35 | each escaped character reads back as itself, whatever text follows it |
| UseLinks.JsonEscapedRoundTrip | hooks/use-links.tsx:35 | reading the escaped text back gives the original string, for every string |
| UseLinks.JsonString | hooks/use-links.tsx:35 | a string is written between double quotes, and the text between them reads back as the string; a string with no quote, backslash or control character is written as itself |
| UseLinks.JsonStringArray | hooks/use-links.tsx:35 | an array is written between brackets, holding the elements' string literals separated by commas |
| UseLinks.PlainTagsJson | hooks/use-links.tsx:35 | for tags that need no escaping and hold no comma, the text between the brackets splits at its commas into the quoted tags |
| UseLinks.ConvertDatabaseLinkToUI | hooks/use-links.tsx:25-39 | short URL "localhost:3000/" + the slug, or + "unknown" when it is missing or empty; the destination or ""; the description or "Untitled Link"; the folder or "links"; always active; tags as `JSON.stringify` of the array, or "" exactly when there are none; conversion tracking true only when stored true; the id, creation time and given clicks |
| UseLinks.ShortUrlEndsInSlug | hooks/use-links.tsx:29 | the text after the short URL's last '/' is the slug |
| UseLinks.ToUI | hooks/use-links.tsx:86-88 | one converted entry per fetched link, in order, with its count |
| UseLinks.PatchIdempotent | hooks/use-links.tsx:108 | spreading a patch twice is spreading it once, and an empty patch changes nothing |
| UseLinks.UpdateLinks | hooks/use-links.tsx:105-111 | links with the id are patched and every other link is kept, in place |
| UseLinks.ClampedClicks | hooks/use-links.tsx:187 | `Math.max(0, clicks + change)` is never negative and is the sum when that is not negative |
| UseLinks.ApplyClickChange | hooks/use-links.tsx:183-191 | only the links with the id get the clamped count; length and order are kept |
| UseLinks.ClickChangeKeepsCounts | hooks/use-links.tsx:183-191 | click updates keep every count non-negative and change nothing but the counts of the links with the id |
| UseLinks.ClampIsNotReversible | hooks/use-links.tsx:187 | a DELETE then an INSERT on a link at 0 clicks leaves it at 1 |
| UseLinks.MergeUpdatedRow | hooks/use-links.tsx:118-133 | a falsy returned value keeps the old one, the short URL is always rebuilt, and conversion tracking cannot go from true to false |
| UseLinks.MergeInto | hooks/use-links.tsx:118-133 | only the links with the id are merged with the returned row |
| UseLinks.IndexOfId | hooks/use-links.tsx:159 | the first position holding the id, or −1 when none does |
| UseLinks.GetLinkById | hooks/use-links.tsx:158-160 | `find` gives the first link with the id, and nothing exactly when no link has it |
| UseLinks.IdsOf | hooks/use-links.tsx:207 | the ids of the links, position by position |
| UseLinks.LinksProvider.constructor | hooks/use-links.tsx:60-65 | an empty list, all flags false, no error, no user |
| UseLinks.LinksProvider.FetchUserLinks | hooks/use-links.tsx:67-103 | a no-op once initialised with links; otherwise the list becomes the converted fetch result, or [] with the error message, and the cache is initialised with loading and connecting false |
| UseLinks.LinksProvider.ForceRefreshLinks | hooks/use-links.tsx:162-180 | no guard: the list is replaced by the converted fetch result, or emptied with the normalised error, and loading ends false |
| UseLinks.LinksProvider.UpdateLink | hooks/use-links.tsx:105-111 | the list becomes `UpdateLinks` of the old list, and nothing else changes |
| UseLinks.LinksProvider.UpdateLinkInDatabase | hooks/use-links.tsx:113-143 | true exactly when a row comes back, which is merged; on null or a throw the list is unchanged, and a throw sets the error |
| UseLinks.LinksProvider.AddLink | hooks/use-links.tsx:145-151 | the entry with a fresh id goes in front, growing the list by one |
| UseLinks.LinksProvider.AddDatabaseLink | hooks/use-links.tsx:153-156 | the converted row (0 clicks by default) goes in front |
| UseLinks.LinksProvider.HandleAnalyticsUpdate | hooks/use-links.tsx:183-191 | the list becomes `ApplyClickChange` of the old list |
| UseLinks.LinksProvider.OnRealtimeChange | hooks/use-links.tsx:194-196 | a notification changes the clicks exactly as the hook's handler decides |
| UseLinks.LinksProvider.SyncRealtime | hooks/use-links.tsx:194-202 | a channel is held exactly when there is a current user and setup succeeds; a setup failure lands in `error` |
| UseLinks.LinksProvider.LinksEffect | hooks/use-links.tsx:205-210 | the tracked ids become the list's ids only while the list is non-empty; an empty list keeps the old ids |
| UseLinks.EntriesMirrorLinks | hooks/use-links.tsx:162-170 | the refreshed entries are the user's links, one per row |
| UseLinks.RefreshMirrorsDatabase | hooks/use-links.tsx:162-170 | after a refresh the list has one entry per link of the user, each converted from one of them |
| UseLinks.ListMirrorsLinks | hooks/use-links.tsx:167-170 | entries whose links are exactly the user's links convert into one entry per link, with its id |
| UseLinks.AddedLinkIsFound | hooks/use-links.tsx:153-160 | a link added in front is the one `getLinkById` finds for its id |
| LinkDashboard.ShortCode | components/link-dashboard.tsx:163 | the slug is the text after the last '/', or the whole short URL when that text is empty |
| LinkDashboard.ShortCodeOfModalUrl | components/link-dashboard.tsx:163 | the modal's `domain/slug` gives the slug back |
| LinkDashboard.TrailingSlashKeepsUrl | components/link-dashboard.tsx:163 | a URL ending in '/' is stored whole as the slug |
| LinkDashboard.TrimAll | components/link-dashboard.tsx:172 | each piece is trimmed in place |
| LinkDashboard.ParseCreateTags | components/link-dashboard.tsx:172 | missing or empty tag text gives []; otherwise one trimmed, comma-free tag per piece, empty pieces kept |
| LinkDashboard.CreateTagsRoundTrip | components/link-dashboard.tsx:172 | joining trimmed comma-free tags with ',' and parsing gives them back |
| LinkDashboard.CreateKeepsEmptyTags | components/link-dashboard.tsx:172 | "a,,b" gives the three tags a, "", b |
| LinkDashboard.BuildLinkData | components/link-dashboard.tsx:166-174 | the record carries the user id, the destination and the derived slug and tags; description defaults to "Untitled Link", conversion tracking is true, the folder is "links" |
| LinkDashboard.CreateLink | lib/supabase/helpers.ts:134-154 | the insert appends the row with the assigned id, or gives null and leaves the table unchanged on any failure |
| LinkDashboard.RenderBranch | components/link-dashboard.tsx:331-390 | auth loading first, then no user, then not initialised, then the error, then loading, then the empty list; the cards exactly when none applies |
| LinkDashboard.CreatedToast | components/link-dashboard.tsx:188-193 | the success toast names the short URL |
| LinkDashboard.Dashboard.constructor | components/link-dashboard.tsx:129-140 | the modal is closed and the toast hidden |
| LinkDashboard.Dashboard.HandleCreateLink | components/link-dashboard.tsx:151-205 | without a user an error toast and no insert; a failed insert gives an error toast, no refresh and the modal left as it was; otherwise refresh, close the modal, show the success toast, in that order |
| LinkDashboard.Dashboard.AfterCreate | components/link-dashboard.tsx:184-193 | the list is refreshed from the database, then the modal closes, then the toast shows |
| LinkDashboard.Dashboard.HandleRetryClick | components/link-dashboard.tsx:224-228 | without a signed-in user, or once the cache holds links, the provider is unchanged; otherwise it ends as `fetchUserLinks` leaves it: the user's converted links, or [] with the error message, initialised and not loading |
| LinkDashboard.Dashboard.HandleModalError | components/link-dashboard.tsx:207-214 | a validation message becomes an error toast |
| LinkDashboard.Dashboard.HandleCloseToast | components/link-dashboard.tsx:216-218 | the toast is hidden and keeps its text |
| LinkDashboard.EntriesHoldNewRowOnce | components/link-dashboard.tsx:177-184 | after the insert, the refreshed entries hold the new row once, and no other entry has its id |
| LinkDashboard.CreatedLinkAppearsOnce | components/link-dashboard.tsx:177-184 | after a create and the refresh, the list shows the new link at exactly one position |
| LinkDashboard.ErrorShownBeforeLoading | components/link-dashboard.tsx:359-378 | once auth has settled and the cache is initialised, an error is shown before loading and the empty state |
| LinkDetail.WithField | components/link-detail.tsx:203-316 | each input's handler changes only its own field |
| LinkDetail.FormFromLink | components/link-detail.tsx:76-87 | the short-URL field is the text after the last '/' of the short URL; the destination and description are copied; tags are the cached text or ""; conversion tracking only when true; the folder or "links" |
| LinkDetail.FormShowsSlug | components/link-detail.tsx:80 | a converted row opens with its slug in the short-URL field |
| LinkDetail.NonEmpty | components/link-detail.tsx:96 | the filter keeps exactly the non-empty tags |
| LinkDetail.ParseSaveTags | components/link-detail.tsx:93-97 | empty text gives []; the tags are the create parser's tags without the empty ones, all trimmed and comma-free |
| LinkDetail.CommaSpaceJoin | hooks/use-links.tsx:125 | `join(', ')` is the comma join of the first tag and the others each preceded by a space |
| LinkDetail.SaveTagsRoundTrip | components/link-detail.tsx:93-97 | parsing `ts.join(', ')` gives ts back when every tag is non-empty, trimmed and comma-free |
| LinkDetail.UneditedJsonTagsAreMangled | components/link-detail.tsx:81-97 | the tags ["a", "b"] of a freshly loaded link are saved unedited as `["a"` and `"b"]` |
| LinkDetail.SaveParseOfJsonAB | components/link-detail.tsx:93-97 | the save parser splits `["a","b"]` at its comma |
| LinkDetail.DatabaseUpdates | components/link-detail.tsx:100-107 | each form field goes onto its own column, tags through the save parser |
| LinkDetail.ApplyUpdate | lib/supabase/helpers.ts:97 | `.update` keeps the id, owner and creation time and sets the given columns |
| LinkDetail.UpdateRows | lib/supabase/helpers.ts:96-98 | only the rows with the id are updated |
| LinkDetail.FindRow | lib/supabase/helpers.ts:98-100 | `.single()` finds a row with the id, and none exactly when no row has it |
| LinkDetail.UpdateDatabaseLink | lib/supabase/helpers.ts:92-112 | null and no change on a client, update or missing-row failure; otherwise the updated row, and the table updated |
| LinkDetail.SaveThenReloadIsStable | components/link-detail.tsx:76-110 | after a save and the merge, the form reloads the same tags, slug and destination |
| LinkDetail.SavedTagsReload | hooks/use-links.tsx:125 | the tags shown after a save parse to the tags saved |
| LinkDetail.SavedSlugReloads | hooks/use-links.tsx:124 | the slug shown after a save is the slug saved |
| LinkDetail.SavedToast | components/link-detail.tsx:115-120 | the success toast names the short URL |
| LinkDetail.LinkDetail.constructor | components/link-detail.tsx:53-73 | the initial form, a hidden toast, no navigation |
| LinkDetail.LinkDetail.InitForm | components/link-detail.tsx:76-87 | the form is filled only when the link is in the cache |
| LinkDetail.LinkDetail.ChangeField | components/link-detail.tsx:203-316 | an input changes only its own field |
| LinkDetail.LinkDetail.HandleSave | components/link-detail.tsx:89-139 | nothing happens when the link is not cached; a returned row is merged, toasted and navigation is scheduled after 1800 ms; otherwise an error toast, no merge and no navigation |
| LinkDetail.LinkDetail.ShowSaveOutcome | components/link-detail.tsx:112-136 | success gives the success toast and navigation; failure gives "Failed to update link in database" |
| LinkDetail.LinkDetail.HandleCloseToast | components/link-detail.tsx:141-143 | the toast is hidden and keeps its text |
| LinkModal.WithInput | components/link-modal.tsx:39-44 | `handleInputChange` changes only the named field |
| LinkModal.InputChangesCommute | components/link-modal.tsx:39-44 | the last value set wins, and changes to two different fields commute |
| LinkModal.Alphabet | components/link-modal.tsx:47 | the alphabet has 62 characters: lower-case, upper-case, digits |
| LinkModal.SlugOf | components/link-modal.tsx:49-51 | seven characters, each the alphabet character drawn for its position |
| LinkModal.AlphabetIsAlphanumeric | components/link-modal.tsx:47 | every alphabet character is a letter or a digit |
| LinkModal.GenerateRandomShortUrl | components/link-modal.tsx:46-53 | the loop appends exactly the drawn characters |
| LinkModal.GeneratedSlugIsUsable | components/link-modal.tsx:46-53 | a generated slug has 7 alphanumeric characters, is not blank, has no '/', and is stored as the slug |
| LinkModal.EverySlugCanBeDrawn | components/link-modal.tsx:46-53 | every 7-character alphanumeric string can be generated |
| LinkModal.BlankIffTrimEmpty | components/link-modal.tsx:58 | a string is blank exactly when trimming leaves nothing |
| LinkModal.Validate | components/link-modal.tsx:58-66 | a blank destination fails first, then a blank short URL; the check passes exactly when neither is blank |
| LinkModal.Request | components/link-modal.tsx:69-76 | `onCreateLink` gets domain + "/" + short URL and the untrimmed destination, description and tags |
| LinkModal.ModalSlugReachesDatabase | components/link-modal.tsx:69 | the stored slug is the short-URL field; the domain never reaches the table |
| LinkModal.ResetForm | components/link-modal.tsx:79-86 | the reset form is the initial form with a new short URL |
| LinkModal.LinkModal.constructor | components/link-modal.tsx:28-37 | the initial form, not loading |
| LinkModal.LinkModal.HandleInputChange | components/link-modal.tsx:39-44 | the form becomes `WithInput` of the old form |
| LinkModal.LinkModal.HandleRefreshClick | components/link-modal.tsx:94-96 | only the short URL changes, to the generated slug |
| LinkModal.LinkModal.HandleCreateLink | components/link-modal.tsx:55-92 | a failed check reports its message without a create call; a throw reports its message and keeps the form; success resets the form; loading is false on every path |
| LinkModal.ResetFormNeedsDestination | components/link-modal.tsx:79-86 | the reset form fails the destination check until a URL is entered, then passes |
| Sidebar.FallbackName | components/sidebar.tsx:71 | display_name, else name, else full_name: the first truthy one |
| Sidebar.FallbackUser | components/sidebar.tsx:68-73 | the auth user's id and e-mail, the metadata name, and `created_at` or the current time |
| Sidebar.LoadUserData | components/sidebar.tsx:53-97 | the row on success, the fallback record on an error or a throw, nothing new without a user id |
| Sidebar.UpperAscii | components/sidebar.tsx:104 | a lower-case ASCII letter goes to upper case; any other character is kept |
| Sidebar.ToUpper | components/sidebar.tsx:104 | every character is upper-cased in place |
| Sidebar.FirstTwo | components/sidebar.tsx:106 | `substring(0, 2)` is the prefix of length two, or the whole shorter string |
| Sidebar.NameParts | components/sidebar.tsx:102 | the trimmed name split on ' ' has at least one part |
| Sidebar.OuterParts | components/sidebar.tsx:102-104 | the name splits into two parts or more exactly when the trimmed name holds a space, and then the first part starts it and the last part is the text after its last space |
| Sidebar.SpacedParts | components/sidebar.tsx:102-104 | a string without whitespace at either end splits at spaces into two parts or more exactly when it holds a space, and then its first part is non-empty and starts it and the text after its last space is non-empty |
| Sidebar.NameInitials | components/sidebar.tsx:101-106 | when the trimmed name holds a space, the upper-cased first character of the trimmed name and the first character after its last space; otherwise the upper-cased first two characters of the name as stored |
| Sidebar.GetInitials | components/sidebar.tsx:100-112 | the avatar text has one or two characters, none lower-case |
| Sidebar.TwoWordInitials | components/sidebar.tsx:102-104 | a first and a last word separated by one space give their upper-cased first letters |
| Sidebar.ManyWordInitials | components/sidebar.tsx:102-104 | a trimmed name of two parts or more gives the upper-cased first letters of its first and last parts, whatever lies between |
| Sidebar.OneTrimmedWordInitials | components/sidebar.tsx:106 | a trimmed one-word name gives its first two characters, upper-cased |
| Sidebar.OneWordInitials | components/sidebar.tsx:106 | a one-word name stored after a leading space takes the first two characters of the untrimmed name, the space included |
| Sidebar.InitialsWithoutName | components/sidebar.tsx:108-111 | without a name the e-mail's first two characters are used, and "U" without either |
| Sidebar.DisplayName | components/sidebar.tsx:148 | the name, or 'User' |
| Sidebar.DisplayEmail | components/sidebar.tsx:151 | the e-mail, or 'No email' |
| Sidebar.FallbackCardShowsMetadata | components/sidebar.tsx:68-73 | the fallback card shows the metadata display name and the auth e-mail |
| AuthPage.CheckGivesPattern | app/auth/page.tsx:23 | an address the check accepts matches the pattern |
| AuthPage.PatternGivesCheck | app/auth/page.tsx:23 | an address matching the pattern is accepted |
| AuthPage.EmailCheckMatchesPattern | app/auth/page.tsx:23 | the check accepts exactly the addresses `^[^\s@]+@[^\s@]+\.[^\s@]+$` matches |
| AuthPage.AcceptedEmailShape | app/auth/page.tsx:23 | an accepted address has no whitespace, exactly one '@' (not first), and a '.' after it that is neither right after it nor last |
| AuthPage.RefusedShapes | app/auth/page.tsx:23 | an address with no '.' after its '@', or starting with '@', is refused |
| AuthPage.AcceptsEveryPatternAddress | app/auth/page.tsx:23 | every local@domain.tld made of pattern characters is accepted, dots in the domain included |
| AuthPage.SignInMetadata | app/auth/page.tsx:34 | `display_name` is sent exactly when the name is non-empty |
| AuthPage.SignInError | app/auth/page.tsx:25-44 | the returned error is passed on, and a throw becomes an error with the normalised message |
| AuthPage.ThrowIsNeverSuccess | app/auth/page.tsx:39-43 | a throw in the call always counts as a failure |
| AuthPage.FailureToast | app/auth/page.tsx:62-65 | the failure toast shows the error message, or "Please try again later." when it is empty |
| AuthPage.AuthPage.constructor | app/auth/page.tsx:17-20 | empty fields, not loading, not submitted |
| AuthPage.AuthPage.HandleSubmit | app/auth/page.tsx:46-79 | an invalid address gets an error toast and no request, with loading untouched; otherwise one request, then the failure or success toast; submitted only on success; loading false at the end |
| AuthPage.SubmittedOnlyAfterCleanAnswer | app/auth/page.tsx:57-71 | success means exactly a returned answer without an error |

## Left out

- Rendering is not modelled: JSX, styling, the chart components, the toast component with its timers, and the layouts. Only the state the views read is modelled.
- The real calendar is not modelled: `Date` local time, time zones, daylight saving, and the locale text of `toLocaleDateString` (hooks/use-links.tsx:33). `UILink.createdAt` keeps the row's instant.
- `NaN` or unparsable `clicked_at` values are not modelled: every record has an integer instant.
- React scheduling, effect timing and async interleaving are not modelled; each handler runs to completion. Late fetch results have no identity check and notifications are not de-duplicated, and the model promises neither.
- `Math.random` (components/link-modal.tsx:50) is an oracle: the drawn indices are a parameter.
- `crypto.randomUUID` / `Date.now` (hooks/use-links.tsx:148) are an oracle: the fresh id is a parameter.
- `new Date().toISOString()` (components/sidebar.tsx:70) is an oracle: it is a parameter.
- The Supabase client and server factories, the auth session hook and Google sign-in (app/auth/page.tsx:81-113) are foreign calls. Only their outcomes enter, as parameters.
- The one-call helpers `getUser`, `updateUser`, `getLink`, `getLinkFromSlug`, `deleteLink` and `recordLinkClick` are not modelled; none of the modelled code calls them. `createLink` and `updateLink` are modelled where the pages call them (`LinkDashboard.CreateLink`, `LinkDetail.UpdateDatabaseLink`).
- The `users` row read by the sidebar is a parameter; the `users` table is not modelled.
- The sidebar's logout handler is not modelled; it is navigation only.
- The definition of the database function `get_click_counts_for_links` is not modelled. Its answer is part of the database value.
- Rows with equal keys are not ordered as SQL orders them. The model keeps them in table order, which SQL does not promise.
- `cn` (lib/utils.ts:4-6) is not modelled: class-name merging only.
- `\s` is modelled as the ECMAScript white-space and line-terminator set. `toUpperCase` is modelled for ASCII letters only.
- Strings are sequences of Unicode scalar values, not UTF-16 code units. `name[0]`, `substring(0, 2)` (components/sidebar.tsx:102-106) and `tag.length` (components/link-detail.tsx:96) therefore differ from the JavaScript result on characters outside the Basic Multilingual Plane, where JavaScript takes half a surrogate pair.
- The `try`/`catch` inside the realtime INSERT and DELETE handlers (hooks/use-realtime.tsx:43-46, 66-69) is not modelled. Nothing in the handler body can throw once the payload shape is given.
- The `!userAnalytics` check in `GET` (app/api/analytics/route.ts:24-27) is not modelled: `getAnalytics` resolves to an array or rejects, so the check cannot fire.
- The fallbacks `days[i] || …` and `months[i] || …` (app/api/analytics/route.ts:65, 106) are not modelled: i is always in range.
- The `catch` of `updateLinkInDatabase` (hooks/use-links.tsx:137-142) cannot be reached from the helper, which catches its own errors. It is still modelled, through the answer `Threw`.
- `handleInputChange` with a field name that is not a form field is not modelled: the modal only calls it with its own fields.
- A `Partial` update that sets a property to `undefined` is not modelled: a patch either has a value or leaves the property alone.
- A null `data` from the count RPC without an `error` is not modelled: the RPC is taken to answer with rows or with an error.
- The link-detail page's "Link not found" view is not modelled as its own view. `HandleSave` does nothing then.
- The dashboard's mount effect and `handleModalOpenChange` are not modelled separately. The effect is the retry handler's call under one more condition, and the other only sets the modal flag.
- The realtime `onError` callback is modelled as always given and `onAnalyticsUpdate` as given. The provider passes both; `Realtime` takes them as flags.
- UseLinks.LinksProvider.SyncRealtime: states only the setup failure's message in `error`, not the `CHANNEL_ERROR` path. That path is stated by `UseRealtime.Realtime.OnStatus`.
- AnalyticsRoute.SlotsConsecutive: for `1y` it needs today's date to be at most 28. Past that, `setMonth` rolls over and the months overlap (`AnalyticsRoute.ShortMonthBucketRepeats`).
- Sidebar.GetInitials: states only the length and case of the initials. The exact characters are stated by `Sidebar.NameInitials` for every name, and by `Sidebar.InitialsWithoutName` for the e-mail and "U" fallbacks.
- UseRealtime.Realtime.Subscribe: a setup throw opens no channel in the model. In the source, a throw after `supabase.channel(...)` (hooks/use-realtime.tsx:24-83) leaves that channel registered with the client while `channelRef` stays unset, so `RunEffect`'s no-leak guarantee is optimistic on that path.
