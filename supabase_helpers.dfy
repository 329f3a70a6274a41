/** `getAnalytics` and the two wrappers that call it with fixed options
    (lib/supabase/helpers.ts), over an in-memory copy of the `links` and
    `analytics` tables and of what each query answers.  The count RPC
    `get_click_counts_for_links` is a database function whose definition is
    not part of this model: its answer is part of the `Db` value. */
module SupabaseHelpers {
  import opened Common
  import opened SupabaseTypes
  import opened Utils

  /** A row of the count RPC's answer. */
  datatype ClickCount = ClickCount(linkId: string, clickCount: int)

  /** `{ link, clickCount }`. */
  datatype LinkWithCount = LinkWithCount(link: DbLink, clickCount: int)

  /** An element of the union result type `Analytics[] | { link; clickCount }[]`. */
  datatype AnalyticsRow = Click(record: ClickRecord) | LinkRow(entry: LinkWithCount)

  /** Inclusive bounds on `clicked_at`. */
  datatype DateRange = DateRange(start: int, end: int)

  datatype AnalyticsOptions = AnalyticsOptions(
    userId: Option<string>,
    linkId: Option<string>,
    dateRange: Option<DateRange>,
    includeLinks: bool,
    includeClickCounts: bool)

  /** The tables and the answers of the database.  `clientError` is set when
      `createClient()` throws (missing environment); the query flags say which
      query comes back with an `error`; `countsAnswer` is `None` when the RPC
      comes back with an error. */
  datatype Db = Db(
    clientError: Option<Thrown>,
    links: seq<DbLink>,
    analytics: seq<ClickRecord>,
    linksQueryError: bool,
    countsAnswer: Option<seq<ClickCount>>,
    analyticsQueryError: bool)

  // ---------------------------------------------------------------- rows

  /** `.from('links').select(...).eq('user_id', userId)`. */
  function LinksOfUser(links: seq<DbLink>, userId: string): (r: seq<DbLink>)
    ensures forall l :: l in r <==> l in links && l.userId == userId
  {
    if links == [] then []
    else if links[0].userId == userId then [links[0]] + LinksOfUser(links[1..], userId)
    else
      assert links == [links[0]] + links[1..];
      LinksOfUser(links[1..], userId)
  }

  /** `.eq('link_id', linkId)` on the click records. */
  function RecordsOfLink(records: seq<ClickRecord>, linkId: string): (r: seq<ClickRecord>)
    ensures forall c :: c in r <==> c in records && c.linkId == linkId
  {
    if records == [] then []
    else if records[0].linkId == linkId then [records[0]] + RecordsOfLink(records[1..], linkId)
    else
      assert records == [records[0]] + records[1..];
      RecordsOfLink(records[1..], linkId)
  }

  /** `.in('link_id', ids)` on the click records. */
  function RecordsOfLinks(records: seq<ClickRecord>, ids: seq<string>): (r: seq<ClickRecord>)
    ensures forall c :: c in r <==> c in records && c.linkId in ids
  {
    if records == [] then []
    else if records[0].linkId in ids then [records[0]] + RecordsOfLinks(records[1..], ids)
    else
      assert records == [records[0]] + records[1..];
      RecordsOfLinks(records[1..], ids)
  }

  /** `.gte('clicked_at', start)`. */
  function RecordsFrom(records: seq<ClickRecord>, start: int): (r: seq<ClickRecord>)
    ensures forall c :: c in r <==> c in records && c.clickedAt >= start
  {
    if records == [] then []
    else if records[0].clickedAt >= start then [records[0]] + RecordsFrom(records[1..], start)
    else
      assert records == [records[0]] + records[1..];
      RecordsFrom(records[1..], start)
  }

  /** `.lte('clicked_at', end)`. */
  function RecordsUntil(records: seq<ClickRecord>, end: int): (r: seq<ClickRecord>)
    ensures forall c :: c in r <==> c in records && c.clickedAt <= end
  {
    if records == [] then []
    else if records[0].clickedAt <= end then [records[0]] + RecordsUntil(records[1..], end)
    else
      assert records == [records[0]] + records[1..];
      RecordsUntil(records[1..], end)
  }

  predicate InRange(r: ClickRecord, range: DateRange) {
    range.start <= r.clickedAt <= range.end
  }

  /** The records inside a date range, both ends included, in their order. */
  function RecordsInRange(records: seq<ClickRecord>, range: DateRange): (r: seq<ClickRecord>)
    ensures forall c :: c in r <==> c in records && InRange(c, range)
  {
    if records == [] then []
    else if InRange(records[0], range) then [records[0]] + RecordsInRange(records[1..], range)
    else
      assert records == [records[0]] + records[1..];
      RecordsInRange(records[1..], range)
  }

  /** Applying `gte` and then `lte` keeps the records of the range, in order. */
  lemma {:induction false} BoundsMakeRange(records: seq<ClickRecord>, range: DateRange)
    ensures RecordsUntil(RecordsFrom(records, range.start), range.end) == RecordsInRange(records, range)
  {
    if records != [] {
      BoundsMakeRange(records[1..], range);
    }
  }

  predicate SortedDesc<T>(s: seq<T>, key: T -> int) {
    forall i, j :: 0 <= i < j < |s| ==> key(s[i]) >= key(s[j])
  }

  /** Insertion of x in front of the first element with a smaller key. */
  function InsertDesc<T>(x: T, s: seq<T>, key: T -> int): (r: seq<T>)
    ensures multiset(r) == multiset(s) + multiset{x}
  {
    if s == [] || key(x) >= key(s[0]) then [x] + s
    else
      assert s == [s[0]] + s[1..];
      [s[0]] + InsertDesc(x, s[1..], key)
  }

  lemma {:induction false} InsertDescSorted<T>(x: T, s: seq<T>, key: T -> int)
    requires SortedDesc(s, key)
    ensures SortedDesc(InsertDesc(x, s, key), key)
  {
    if s != [] && key(x) < key(s[0]) {
      var rest := InsertDesc(x, s[1..], key);
      InsertDescSorted(x, s[1..], key);
      forall k | 0 <= k < |rest|
        ensures key(s[0]) >= key(rest[k])
      {
        assert rest[k] in multiset(rest);
        if rest[k] != x {
          assert rest[k] in s[1..];
        }
      }
      assert InsertDesc(x, s, key) == [s[0]] + rest;
    }
  }

  /** `.order(column, { ascending: false })`: largest key first.  Rows with
      equal keys keep the order in which they were given. */
  function SortDesc<T>(s: seq<T>, key: T -> int): (r: seq<T>)
    ensures multiset(r) == multiset(s)
    ensures SortedDesc(r, key)
  {
    if s == [] then []
    else
      assert s == [s[0]] + s[1..];
      InsertDescSorted(s[0], SortDesc(s[1..], key), key);
      InsertDesc(s[0], SortDesc(s[1..], key), key)
  }

  function LinkCreatedAt(l: DbLink): int { l.createdAt }

  function RecordClickedAt(r: ClickRecord): int { r.clickedAt }

  /** `links.map(link => link.id)`. */
  function IdsOf(links: seq<DbLink>): (ids: seq<string>)
    ensures |ids| == |links|
    ensures forall i :: 0 <= i < |links| ==> ids[i] == links[i].id
  {
    seq(|links|, i requires 0 <= i < |links| => links[i].id)
  }

  /** `clickCountsMap.get(id) || 0` for a Map built from the RPC rows: the
      count of the last row for the id (later pairs overwrite earlier ones),
      and 0 when there is none. */
  function LookupCount(counts: seq<ClickCount>, id: string): (c: int)
    ensures (forall k :: 0 <= k < |counts| ==> counts[k].linkId != id) ==> c == 0
    ensures forall k :: 0 <= k < |counts| && counts[k].linkId == id
              && (forall j :: k < j < |counts| ==> counts[j].linkId != id)
              ==> c == counts[k].clickCount
  {
    if counts == [] then 0
    else if counts[|counts| - 1].linkId == id then counts[|counts| - 1].clickCount
    else
      var init := counts[..|counts| - 1];
      assert forall k :: 0 <= k < |init| ==> init[k] == counts[k];
      LookupCount(init, id)
  }

  /** Step 3 of the links-with-counts mode: each link with its count. */
  function AttachCounts(links: seq<DbLink>, counts: seq<ClickCount>): (r: seq<LinkWithCount>)
    ensures |r| == |links|
    ensures forall i :: 0 <= i < |r| ==> r[i] == LinkWithCount(links[i], LookupCount(counts, links[i].id))
  {
    seq(|links|, i requires 0 <= i < |links| => LinkWithCount(links[i], LookupCount(counts, links[i].id)))
  }

  function LinkRows(entries: seq<LinkWithCount>): (r: seq<AnalyticsRow>)
    ensures |r| == |entries| && forall i :: 0 <= i < |r| ==> r[i] == LinkRow(entries[i])
  {
    seq(|entries|, i requires 0 <= i < |entries| => LinkRow(entries[i]))
  }

  function ClickRows(records: seq<ClickRecord>): (r: seq<AnalyticsRow>)
    ensures |r| == |records| && forall i :: 0 <= i < |r| ==> r[i] == Click(records[i])
  {
    seq(|records|, i requires 0 <= i < |records| => Click(records[i]))
  }

  // ------------------------------------------------------- specification

  predicate IsLinksWithCountsMode(opts: AnalyticsOptions) {
    Truthy(opts.userId) && opts.includeLinks && opts.includeClickCounts
  }

  /** The user's links, newest first, as step 1 of the links-with-counts mode reads them. */
  function UserLinksNewestFirst(db: Db, userId: string): seq<DbLink> {
    SortDesc(LinksOfUser(db.links, userId), LinkCreatedAt)
  }

  /** The links-with-counts mode once the client exists; every failure is caught and gives []. */
  function LinksWithCountsAnswer(db: Db, userId: string): seq<AnalyticsRow> {
    if db.linksQueryError then []
    else
      var links := UserLinksNewestFirst(db, userId);
      if links == [] then []
      else if db.countsAnswer.None? then []
      else LinkRows(AttachCounts(links, db.countsAnswer.value))
  }

  /** The records the raw-mode query selects before ordering, or `None` when
      the procedure returns [] before querying `analytics`. */
  function RawSelection(db: Db, opts: AnalyticsOptions): Option<seq<ClickRecord>> {
    if Truthy(opts.linkId) then
      Some(RecordsOfLink(db.analytics, opts.linkId.value))
    else if Truthy(opts.userId) then
      if db.linksQueryError then None
      else
        var ids := IdsOf(LinksOfUser(db.links, opts.userId.value));
        if ids == [] then None
        else Some(RecordsOfLinks(db.analytics, ids))
    else None
  }

  function RangeFiltered(records: seq<ClickRecord>, range: Option<DateRange>): seq<ClickRecord> {
    if range.None? then records else RecordsInRange(records, range.value)
  }

  /** The raw mode once the client exists. */
  function RawAnswer(db: Db, opts: AnalyticsOptions): seq<AnalyticsRow> {
    match RawSelection(db, opts)
    case None => []
    case Some(records) =>
      if db.analyticsQueryError then []
      else ClickRows(SortDesc(RangeFiltered(records, opts.dateRange), RecordClickedAt))
  }

  /** What `getAnalytics(options)` resolves to.  Only `createClient()`, which
      runs before the `try`, can make it reject. */
  function AnalyticsQuery(db: Db, opts: AnalyticsOptions): Result<seq<AnalyticsRow>, Thrown> {
    if db.clientError.Some? then Failure(db.clientError.value)
    else if IsLinksWithCountsMode(opts) then Success(LinksWithCountsAnswer(db, opts.userId.value))
    else Success(RawAnswer(db, opts))
  }

  // ------------------------------------------------------------ procedure

  /** `getAnalytics`: the procedure as written, with its early returns and the
      `query` it narrows step by step. */
  method GetAnalytics(db: Db, opts: AnalyticsOptions) returns (r: Result<seq<AnalyticsRow>, Thrown>)
    ensures r == AnalyticsQuery(db, opts)
  {
    if db.clientError.Some? {
      return Failure(db.clientError.value);
    }
    if IsLinksWithCountsMode(opts) {
      if db.linksQueryError {
        return Success([]);
      }
      var links := UserLinksNewestFirst(db, opts.userId.value);
      if links == [] {
        return Success([]);
      }
      if db.countsAnswer.None? {
        return Success([]);
      }
      return Success(LinkRows(AttachCounts(links, db.countsAnswer.value)));
    }
    var query := db.analytics;
    if Truthy(opts.linkId) {
      query := RecordsOfLink(query, opts.linkId.value);
    } else if Truthy(opts.userId) {
      if db.linksQueryError {
        return Success([]);
      }
      var ids := IdsOf(LinksOfUser(db.links, opts.userId.value));
      if ids == [] {
        return Success([]);
      }
      query := RecordsOfLinks(query, ids);
    } else {
      return Success([]);
    }
    if opts.dateRange.Some? {
      var range := opts.dateRange.value;
      var selected := query;
      query := RecordsFrom(query, range.start);
      query := RecordsUntil(query, range.end);
      BoundsMakeRange(selected, range);
    }
    if db.analyticsQueryError {
      return Success([]);
    }
    return Success(ClickRows(SortDesc(query, RecordClickedAt)));
  }

  // ------------------------------------------------------------- wrappers

  function LinksWithCountsOptions(userId: string): AnalyticsOptions {
    AnalyticsOptions(Some(userId), None, None, true, true)
  }

  function LinkAnalyticsOptions(linkId: string): AnalyticsOptions {
    AnalyticsOptions(None, Some(linkId), None, false, false)
  }

  /** `getLinksWithClickCounts(userId)`: `getAnalytics` in the links-with-counts
      mode, cast to entries; an empty user id falls into the raw mode, which
      gives [].  `LinksWithClickCountsIsQuery` shows the cast loses nothing. */
  function GetLinksWithClickCounts(db: Db, userId: string): (r: Result<seq<LinkWithCount>, Thrown>)
    ensures db.clientError.Some? <==> r.Failure?
    ensures r.Failure? ==> r.error == db.clientError.value
    ensures r.Success? && userId != "" ==> r.value == WithCounts(db, userId)
    ensures userId == "" && r.Success? ==> r.value == []
  {
    if db.clientError.Some? then Failure(db.clientError.value)
    else if userId == "" then Success([])
    else Success(WithCounts(db, userId))
  }

  /** The entries are exactly the rows `getAnalytics` resolves to in that
      mode: every row is a link row, and the rejection is the same. */
  lemma LinksWithClickCountsIsQuery(db: Db, userId: string)
    ensures var r := GetLinksWithClickCounts(db, userId);
      && (r.Failure? ==> AnalyticsQuery(db, LinksWithCountsOptions(userId)) == Failure(r.error))
      && (r.Success? ==> AnalyticsQuery(db, LinksWithCountsOptions(userId)) == Success(LinkRows(r.value)))
  {
    var opts := LinksWithCountsOptions(userId);
    if db.clientError.None? && userId == "" {
      assert RawSelection(db, opts).None?;
      assert LinkRows([]) == [];
    }
  }

  /** The entries of the links-with-counts mode once the client exists. */
  function WithCounts(db: Db, userId: string): seq<LinkWithCount> {
    if db.linksQueryError then []
    else
      var links := UserLinksNewestFirst(db, userId);
      if links == [] || db.countsAnswer.None? then []
      else AttachCounts(links, db.countsAnswer.value)
  }

  /** `getLinkAnalytics(linkId)`: `getAnalytics({ linkId })`, whose rows are all click records. */
  function GetLinkAnalytics(db: Db, linkId: string): (r: Result<seq<AnalyticsRow>, Thrown>)
    ensures r.Success? ==> forall i :: 0 <= i < |r.value| ==> r.value[i].Click? && r.value[i].record.linkId == linkId
    ensures r.Success? ==> forall i :: 0 <= i < |r.value| ==> r.value[i].record in db.analytics
  {
    var r := AnalyticsQuery(db, LinkAnalyticsOptions(linkId));
    if r.Success? && linkId != "" then
      var records := RecordsOfLink(db.analytics, linkId);
      SortKeepsElements(records, RecordClickedAt);
      r
    else r
  }

  // ------------------------------------------------------------ properties

  /** Links-with-counts mode: one entry per link of the user, newest first,
      each with the RPC count for its id or 0. */
  lemma LinksWithCountsEntries(db: Db, userId: string)
    requires userId != "" && db.clientError.None? && !db.linksQueryError && db.countsAnswer.Some?
    ensures var r := GetLinksWithClickCounts(db, userId);
      && r.Success?
      && multiset(Entries(r.value)) == multiset(LinksOfUser(db.links, userId))
      && SortedDesc(Entries(r.value), LinkCreatedAt)
      && forall i :: 0 <= i < |r.value| ==> r.value[i].clickCount == LookupCount(db.countsAnswer.value, r.value[i].link.id)
  {
    var r := GetLinksWithClickCounts(db, userId);
    var links := UserLinksNewestFirst(db, userId);
    if links == [] {
      assert Entries(r.value) == links;
    } else {
      assert Entries(r.value) == links;
    }
  }

  /** The links of a list of entries. */
  function Entries(entries: seq<LinkWithCount>): (r: seq<DbLink>)
    ensures |r| == |entries| && forall i :: 0 <= i < |r| ==> r[i] == entries[i].link
  {
    seq(|entries|, i requires 0 <= i < |entries| => entries[i].link)
  }

  /** A user with no links gets [] in both modes. */
  lemma NoLinksNoRows(db: Db, opts: AnalyticsOptions)
    requires Truthy(opts.userId) && !Truthy(opts.linkId)
    requires LinksOfUser(db.links, opts.userId.value) == []
    ensures db.clientError.None? ==> AnalyticsQuery(db, opts) == Success([])
  {
  }

  /** In the raw mode a link id takes precedence: the user id is then ignored. */
  lemma LinkIdTakesPrecedence(db: Db, opts: AnalyticsOptions, otherUser: Option<string>)
    requires !IsLinksWithCountsMode(opts) && Truthy(opts.linkId)
    requires !IsLinksWithCountsMode(opts.(userId := otherUser))
    ensures AnalyticsQuery(db, opts) == AnalyticsQuery(db, opts.(userId := otherUser))
  {
  }

  /** The user-id-only query orders the click records of the user's links. */
  lemma UserQueryIsSortedSelection(db: Db, userId: string)
    requires userId != "" && db.clientError.None? && !db.linksQueryError && !db.analyticsQueryError
    requires LinksOfUser(db.links, userId) != []
    ensures AnalyticsQuery(db, AnalyticsOptions(Some(userId), None, None, false, false))
         == Success(ClickRows(SortDesc(RecordsOfLinks(db.analytics, IdsOf(LinksOfUser(db.links, userId))), RecordClickedAt)))
  {
    var opts := AnalyticsOptions(Some(userId), None, None, false, false);
    assert IdsOf(LinksOfUser(db.links, userId)) != [];
    assert RawSelection(db, opts) == Some(RecordsOfLinks(db.analytics, IdsOf(LinksOfUser(db.links, userId))));
  }

  /** A record is selected exactly when one of the user's links has its link id. */
  lemma SelectedAreUserClicks(db: Db, userId: string)
    ensures var selected := RecordsOfLinks(db.analytics, IdsOf(LinksOfUser(db.links, userId)));
      forall c :: c in selected <==> c in db.analytics && exists l :: l in db.links && l.userId == userId && l.id == c.linkId
  {
    var mine := LinksOfUser(db.links, userId);
    var ids := IdsOf(mine);
    var selected := RecordsOfLinks(db.analytics, ids);
    forall c
      ensures c in selected <==> c in db.analytics && exists l :: l in db.links && l.userId == userId && l.id == c.linkId
    {
      if c in selected {
        var k :| 0 <= k < |ids| && ids[k] == c.linkId;
        assert mine[k] in mine;
      }
      if c in db.analytics && exists l :: l in db.links && l.userId == userId && l.id == c.linkId {
        var l :| l in db.links && l.userId == userId && l.id == c.linkId;
        assert l in mine;
        var k :| 0 <= k < |mine| && mine[k] == l;
        assert ids[k] == c.linkId;
      }
    }
  }

  /** With a user id alone, the rows are exactly the click records of the
      user's links, with their multiplicities, newest first. */
  lemma UserRowsAreTheirClicks(db: Db, userId: string)
    requires userId != "" && db.clientError.None? && !db.linksQueryError && !db.analyticsQueryError
    requires LinksOfUser(db.links, userId) != []
    ensures var opts := AnalyticsOptions(Some(userId), None, None, false, false);
      exists records ::
        && AnalyticsQuery(db, opts) == Success(ClickRows(records))
        && SortedDesc(records, RecordClickedAt)
        && multiset(records) == multiset(RecordsOfLinks(db.analytics, IdsOf(LinksOfUser(db.links, userId))))
        && forall c :: c in records <==> c in db.analytics && exists l :: l in db.links && l.userId == userId && l.id == c.linkId
  {
    var selected := RecordsOfLinks(db.analytics, IdsOf(LinksOfUser(db.links, userId)));
    var records := SortDesc(selected, RecordClickedAt);
    UserQueryIsSortedSelection(db, userId);
    SelectedAreUserClicks(db, userId);
    SortKeepsElements(selected, RecordClickedAt);
    assert forall c :: c in records <==> c in selected;
  }

  /** With neither a user id nor a link id there is nothing to fetch. */
  lemma NeitherIdNoRows(db: Db, opts: AnalyticsOptions)
    requires !Truthy(opts.userId) && !Truthy(opts.linkId) && db.clientError.None?
    ensures AnalyticsQuery(db, opts) == Success([])
  {
  }

  /** Sorting keeps exactly the elements it was given. */
  lemma SortKeepsElements<T>(s: seq<T>, key: T -> int)
    ensures forall x :: x in SortDesc(s, key) <==> x in s
  {
    var r := SortDesc(s, key);
    forall x
      ensures x in r <==> x in s
    {
      assert x in r <==> x in multiset(r);
      assert x in s <==> x in multiset(s);
    }
  }

  /** Raw rows are click records, newest first. */
  lemma RawRowsNewestFirst(db: Db, opts: AnalyticsOptions)
    ensures var r := RawAnswer(db, opts);
      && (forall i :: 0 <= i < |r| ==> r[i].Click?)
      && (forall i, j :: 0 <= i < j < |r| ==> r[i].record.clickedAt >= r[j].record.clickedAt)
  {
    match RawSelection(db, opts)
    case None =>
    case Some(records) =>
      if !db.analyticsQueryError {
        var sorted := SortDesc(RangeFiltered(records, opts.dateRange), RecordClickedAt);
        assert forall i, j :: 0 <= i < j < |sorted| ==> RecordClickedAt(sorted[i]) >= RecordClickedAt(sorted[j]);
      }
  }

  /** With a date range, a raw row is a selected record inside it (both
      ends included); and every selected record inside it is a row. */
  lemma RawRowsAreTheRange(db: Db, opts: AnalyticsOptions, c: ClickRecord)
    requires RawSelection(db, opts).Some? && !db.analyticsQueryError && opts.dateRange.Some?
    ensures Click(c) in RawAnswer(db, opts)
        <==> c in RawSelection(db, opts).value && InRange(c, opts.dateRange.value)
  {
    var kept := RecordsInRange(RawSelection(db, opts).value, opts.dateRange.value);
    var sorted := SortDesc(kept, RecordClickedAt);
    SortKeepsElements(kept, RecordClickedAt);
    ClickRowsMembership(sorted, c);
  }

  /** Without a date range every selected record is a raw row, and nothing else is. */
  lemma RawRowsAreTheSelection(db: Db, opts: AnalyticsOptions, c: ClickRecord)
    requires RawSelection(db, opts).Some? && !db.analyticsQueryError && opts.dateRange.None?
    ensures Click(c) in RawAnswer(db, opts) <==> c in RawSelection(db, opts).value
  {
    var kept := RawSelection(db, opts).value;
    SortKeepsElements(kept, RecordClickedAt);
    ClickRowsMembership(SortDesc(kept, RecordClickedAt), c);
  }

  lemma ClickRowsMembership(records: seq<ClickRecord>, c: ClickRecord)
    ensures Click(c) in ClickRows(records) <==> c in records
  {
    var rows := ClickRows(records);
    if c in records {
      var k :| 0 <= k < |records| && records[k] == c;
      assert rows[k] == Click(c);
    }
  }

  /** Every failure after the client exists is caught and resolves to []. */
  lemma ErrorsGiveNoRows(db: Db, opts: AnalyticsOptions)
    requires db.clientError.None?
    requires (IsLinksWithCountsMode(opts) && (db.linksQueryError || db.countsAnswer.None?))
          || (!IsLinksWithCountsMode(opts) && db.analyticsQueryError)
          || (!IsLinksWithCountsMode(opts) && !Truthy(opts.linkId) && db.linksQueryError)
    ensures AnalyticsQuery(db, opts) == Success([])
  {
  }
}
