/** The client-side link cache (hooks/use-links.tsx): `LinksProvider` with
    its list of links and flags, the conversion of database rows into list
    entries, the list transformers, and the realtime feed that adjusts click
    counts. */
module UseLinks {
  import opened Common
  import opened SupabaseTypes
  import opened Utils
  import SupabaseHelpers
  import UseRealtime

  /** A list entry.  `createdAt` keeps the row's instant; the locale date
      text the page shows is not modelled. */
  datatype UILink = UILink(
    id: string,
    favicon: string,
    shortUrl: string,
    originalUrl: string,
    description: string,
    clicks: int,
    createdAt: int,
    isActive: bool,
    tags: Option<string>,
    folder: Option<string>,
    conversionTracking: Option<bool>)

  const SHORT_URL_PREFIX: string := "localhost:3000/"

  // ------------------------------------------------------------- JSON text

  function HexDigit(d: nat): char
    requires d < 16
  {
    "0123456789abcdef"[d]
  }

  /** How `JSON.stringify` writes one character inside a string literal. */
  function JsonEscape(c: char): (r: string)
    ensures |r| >= 1
    ensures r == [c] <==> JsonPlain(c)
  {
    if c == '"' then "\\\""
    else if c == '\\' then "\\\\"
    else if c == '\U{0008}' then "\\b"
    else if c == '\U{000C}' then "\\f"
    else if c == '\n' then "\\n"
    else if c == '\r' then "\\r"
    else if c == '\t' then "\\t"
    else if c < '\U{0020}' then "\\u00" + [HexDigit(c as int / 16), HexDigit(c as int % 16)]
    else [c]
  }

  /** A character `JSON.stringify` writes as itself. */
  predicate JsonPlain(c: char) {
    c != '"' && c != '\\' && c >= '\U{0020}'
  }

  function JsonEscaped(s: string): (r: string)
    ensures |r| >= |s|
    ensures (forall k :: 0 <= k < |s| ==> JsonPlain(s[k])) ==> r == s
  {
    if s == [] then [] else JsonEscape(s[0]) + JsonEscaped(s[1..])
  }

  /** The value of a lower-case hexadecimal digit. */
  function HexValue(c: char): (d: nat)
    ensures d < 16
  {
    if '0' <= c <= '9' then c as int - '0' as int
    else if 'a' <= c <= 'f' then c as int - 'a' as int + 10
    else 0
  }

  /** The character a one-letter escape `\x` stands for. */
  function Unescaped(c: char): char {
    if c == 'b' then '\U{0008}'
    else if c == 'f' then '\U{000C}'
    else if c == 'n' then '\n'
    else if c == 'r' then '\r'
    else if c == 't' then '\t'
    else c
  }

  /** Reading the inside of a JSON string literal back: the escapes
      `\"`, `\\`, `\b`, `\f`, `\n`, `\r`, `\t` and `\u00XY`, every other
      character as itself. */
  function JsonUnescape(t: string): (s: string)
    decreases |t|
  {
    if t == [] then []
    else if t[0] == '\\' && |t| >= 6 && t[1] == 'u' then
      [(HexValue(t[4]) * 16 + HexValue(t[5])) as char] + JsonUnescape(t[6..])
    else if t[0] == '\\' && |t| >= 2 then [Unescaped(t[1])] + JsonUnescape(t[2..])
    else [t[0]] + JsonUnescape(t[1..])
  }

  lemma HexRoundTrip(d: nat)
    requires d < 16
    ensures HexValue(HexDigit(d)) == d
  {
  }

  /** One escaped character reads back as itself, whatever follows it. */
  lemma {:induction false} EscapeStep(c: char, rest: string)
    ensures JsonUnescape(JsonEscape(c) + rest) == [c] + JsonUnescape(rest)
  {
    var t := JsonEscape(c) + rest;
    if c < '\U{0020}' && c != '\U{0008}' && c != '\U{000C}' && c != '\n' && c != '\r' && c != '\t' {
      var hi, lo := c as int / 16, c as int % 16;
      HexRoundTrip(hi);
      HexRoundTrip(lo);
      assert t[4] == HexDigit(hi) && t[5] == HexDigit(lo) && t[6..] == rest;
      assert (hi * 16 + lo) as char == c;
    } else if JsonPlain(c) {
      assert t[1..] == rest;
    } else {
      assert t[2..] == rest;
    }
  }

  /** `JsonUnescape` undoes `JsonEscaped`. */
  lemma {:induction false} JsonEscapedRoundTrip(s: string)
    ensures JsonUnescape(JsonEscaped(s)) == s
  {
    if s != [] {
      EscapeStep(s[0], JsonEscaped(s[1..]));
      JsonEscapedRoundTrip(s[1..]);
      assert [s[0]] + s[1..] == s;
    }
  }

  /** `JSON.stringify` of a string: between double quotes, the text that
      reads back as the string, which is the string itself when no character
      needs escaping. */
  function JsonString(s: string): (r: string)
    ensures |r| >= 2 && r[0] == '"' && r[|r| - 1] == '"'
    ensures JsonUnescape(r[1..|r| - 1]) == s
    ensures (forall k :: 0 <= k < |s| ==> JsonPlain(s[k])) ==> r == "\"" + s + "\""
  {
    JsonEscapedRoundTrip(s);
    var r := "\"" + JsonEscaped(s) + "\"";
    assert r[1..|r| - 1] == JsonEscaped(s);
    r
  }

  /** The JSON string literals of the elements. */
  function JsonStrings(ts: seq<string>): (r: seq<string>)
    ensures |r| == |ts| && forall i :: 0 <= i < |r| ==> r[i] == JsonString(ts[i])
  {
    seq(|ts|, i requires 0 <= i < |ts| => JsonString(ts[i]))
  }

  /** `JSON.stringify` of an array of strings: between brackets, the
      elements' string literals separated by commas. */
  function JsonStringArray(ts: seq<string>): (r: string)
    ensures |r| >= 2 && r[0] == '[' && r[|r| - 1] == ']'
    ensures r[1..|r| - 1] == Join(JsonStrings(ts), ",")
  {
    var r := "[" + Join(JsonStrings(ts), ",") + "]";
    assert r[1..|r| - 1] == Join(JsonStrings(ts), ",");
    r
  }

  /** Tags that need no escaping and hold no comma: the text between the
      brackets splits at its commas into the quoted tags. */
  lemma {:induction false} PlainTagsJson(ts: seq<string>)
    requires |ts| >= 1
    requires forall i, k :: 0 <= i < |ts| && 0 <= k < |ts[i]| ==> JsonPlain(ts[i][k]) && ts[i][k] != ','
    ensures var r := JsonStringArray(ts);
      Split(r[1..|r| - 1], ',') == seq(|ts|, i requires 0 <= i < |ts| => "\"" + ts[i] + "\"")
  {
    var quoted := seq(|ts|, i requires 0 <= i < |ts| => "\"" + ts[i] + "\"");
    forall i | 0 <= i < |ts|
      ensures JsonStrings(ts)[i] == quoted[i] && ',' !in quoted[i]
    {
      assert forall k :: 0 <= k < |ts[i]| ==> JsonPlain(ts[i][k]);
      assert ',' !in ts[i];
    }
    assert JsonStrings(ts) == quoted;
    SplitJoin(quoted, ',');
  }

  // ------------------------------------------------------------ conversion

  /** `convertDatabaseLinkToUI(dbLink, clicks)`. */
  function ConvertDatabaseLinkToUI(row: DbLink, clicks: int): (ui: UILink)
    ensures ui.id == row.id && ui.clicks == clicks && ui.createdAt == row.createdAt
    ensures ui.isActive && ui.favicon == "/placeholder.svg"
    ensures Truthy(row.slug) ==> ui.shortUrl == SHORT_URL_PREFIX + row.slug.value
    ensures !Truthy(row.slug) ==> ui.shortUrl == SHORT_URL_PREFIX + "unknown"
    ensures row.destinationUrl.Some? ==> ui.originalUrl == row.destinationUrl.value
    ensures row.destinationUrl.None? ==> ui.originalUrl == ""
    ensures ui.description != "" && ui.folder.Some? && ui.folder.value != "" && ui.conversionTracking.Some?
    ensures Truthy(row.description) ==> ui.description == row.description.value
    ensures !Truthy(row.description) ==> ui.description == "Untitled Link"
    ensures Truthy(row.folder) ==> ui.folder == row.folder
    ensures !Truthy(row.folder) ==> ui.folder == Some("links")
    ensures row.tags.Some? ==> ui.tags == Some(JsonStringArray(row.tags.value))
    ensures ui.conversionTracking == Some(row.conversionTracking == Some(true))
    ensures row.tags.None? <==> ui.tags == Some("")
  {
    UILink(
      row.id,
      "/placeholder.svg",
      SHORT_URL_PREFIX + OrElse(row.slug, "unknown"),
      OrElse(row.destinationUrl, ""),
      OrElse(row.description, "Untitled Link"),
      clicks,
      row.createdAt,
      true,
      Some(if row.tags.Some? then JsonStringArray(row.tags.value) else ""),
      Some(OrElse(row.folder, "links")),
      Some(row.conversionTracking == Some(true)))
  }

  /** The short URL of a converted row ends in its slug: the text after its
      last '/' is the slug, when the slug is non-empty and holds no '/'. */
  lemma ShortUrlEndsInSlug(row: DbLink, clicks: int)
    requires Truthy(row.slug) && '/' !in row.slug.value
    ensures LastPiece(ConvertDatabaseLinkToUI(row, clicks).shortUrl, '/') == row.slug.value
  {
    assert SHORT_URL_PREFIX == "localhost:3000" + ['/'];
    LastPieceAfter("localhost:3000", row.slug.value, '/');
  }

  /** `linksWithCounts.map(({ link, clickCount }) => convertDatabaseLinkToUI(link, clickCount))`. */
  function ToUI(entries: seq<SupabaseHelpers.LinkWithCount>): (r: seq<UILink>)
    ensures |r| == |entries|
    ensures forall i :: 0 <= i < |r| ==> r[i] == ConvertDatabaseLinkToUI(entries[i].link, entries[i].clickCount)
  {
    seq(|entries|, i requires 0 <= i < |entries| => ConvertDatabaseLinkToUI(entries[i].link, entries[i].clickCount))
  }

  // ------------------------------------------------------ list transformers

  /** A `Partial<Link>`: the properties it has. */
  datatype LinkPatch = LinkPatch(
    id: Option<string>,
    favicon: Option<string>,
    shortUrl: Option<string>,
    originalUrl: Option<string>,
    description: Option<string>,
    clicks: Option<int>,
    createdAt: Option<int>,
    isActive: Option<bool>,
    tags: Option<string>,
    folder: Option<string>,
    conversionTracking: Option<bool>)

  function Pick<T>(p: Option<T>, old_: T): T {
    if p.Some? then p.value else old_
  }

  function PickOpt<T>(p: Option<T>, old_: Option<T>): Option<T> {
    if p.Some? then p else old_
  }

  /** `{ ...link, ...updates }`. */
  function ApplyPatch(link: UILink, p: LinkPatch): UILink {
    UILink(
      Pick(p.id, link.id), Pick(p.favicon, link.favicon), Pick(p.shortUrl, link.shortUrl),
      Pick(p.originalUrl, link.originalUrl), Pick(p.description, link.description),
      Pick(p.clicks, link.clicks), Pick(p.createdAt, link.createdAt), Pick(p.isActive, link.isActive),
      PickOpt(p.tags, link.tags), PickOpt(p.folder, link.folder),
      PickOpt(p.conversionTracking, link.conversionTracking))
  }

  const EMPTY_PATCH: LinkPatch := LinkPatch(None, None, None, None, None, None, None, None, None, None, None)

  /** Spreading a patch twice is spreading it once; the empty patch changes nothing. */
  lemma PatchIdempotent(link: UILink, p: LinkPatch)
    ensures ApplyPatch(ApplyPatch(link, p), p) == ApplyPatch(link, p)
    ensures ApplyPatch(link, EMPTY_PATCH) == link
  {
  }

  /** `updateLink(id, updates)`: every link with the id is patched, the others are kept. */
  function UpdateLinks(links: seq<UILink>, id: string, p: LinkPatch): (r: seq<UILink>)
    ensures |r| == |links|
    ensures forall i :: 0 <= i < |links| ==>
      r[i] == if links[i].id == id then ApplyPatch(links[i], p) else links[i]
  {
    seq(|links|, i requires 0 <= i < |links| => if links[i].id == id then ApplyPatch(links[i], p) else links[i])
  }

  /** `Math.max(0, clicks + change)`. */
  function ClampedClicks(clicks: int, change: int): (n: int)
    ensures n >= 0
    ensures clicks + change >= 0 ==> n == clicks + change
    ensures clicks + change < 0 ==> n == 0
  {
    if clicks + change > 0 then clicks + change else 0
  }

  /** `handleAnalyticsUpdate(linkId, clickChange)`. */
  function ApplyClickChange(links: seq<UILink>, linkId: string, change: int): (r: seq<UILink>)
    ensures |r| == |links|
    ensures forall i :: 0 <= i < |links| ==>
      r[i] == if links[i].id == linkId then links[i].(clicks := ClampedClicks(links[i].clicks, change)) else links[i]
  {
    seq(|links|, i requires 0 <= i < |links| =>
      if links[i].id == linkId then links[i].(clicks := ClampedClicks(links[i].clicks, change)) else links[i])
  }

  predicate NonNegativeClicks(links: seq<UILink>) {
    forall i :: 0 <= i < |links| ==> links[i].clicks >= 0
  }

  /** Click updates never make a count negative, and change nothing but
      the count of the links with the id. */
  lemma ClickChangeKeepsCounts(links: seq<UILink>, linkId: string, change: int)
    requires NonNegativeClicks(links)
    ensures NonNegativeClicks(ApplyClickChange(links, linkId, change))
    ensures forall i :: 0 <= i < |links| ==>
      ApplyClickChange(links, linkId, change)[i].(clicks := links[i].clicks) == links[i]
  {
  }

  /** Clamping loses information: a link at 0 that sees a DELETE and then an
      INSERT shows 1 click, not 0. */
  lemma ClampIsNotReversible(link: UILink)
    requires link.clicks == 0
    ensures ApplyClickChange(ApplyClickChange([link], link.id, -1), link.id, 1)[0].clicks == 1
  {
  }

  /** What the update in the database resolves to: the updated row, null
      (an `error`, or no row), or a thrown value.  The helper catches its
      own errors, so the last case does not arise from it. */
  datatype UpdateAnswer = Updated(row: DbLink) | NoRow | Threw(e: Thrown)

  /** The local merge after a successful database update: a returned value
      replaces the old one only when it is truthy, except the short URL,
      which is always rebuilt; tags become the `, `-joined array. */
  function MergeUpdatedRow(link: UILink, row: DbLink): (r: UILink)
    ensures r.id == link.id && r.clicks == link.clicks && r.createdAt == link.createdAt
    ensures r.favicon == link.favicon && r.isActive == link.isActive
    ensures r.shortUrl == SHORT_URL_PREFIX + OrElse(row.slug, "unknown")
    ensures link.conversionTracking == Some(true) ==> r.conversionTracking == Some(true)
    ensures !Truthy(row.description) ==> r.description == link.description
    ensures !Truthy(row.destinationUrl) ==> r.originalUrl == link.originalUrl
    ensures !Truthy(row.folder) ==> r.folder == link.folder
    ensures row.tags.None? ==> r.tags == link.tags
  {
    link.(
      originalUrl := OrElse(row.destinationUrl, link.originalUrl),
      shortUrl := SHORT_URL_PREFIX + OrElse(row.slug, "unknown"),
      tags := if row.tags.Some? then Some(Join(row.tags.value, ", ")) else link.tags,
      folder := if Truthy(row.folder) then row.folder else link.folder,
      conversionTracking := if row.conversionTracking == Some(true) then Some(true) else link.conversionTracking,
      description := OrElse(row.description, link.description))
  }

  function MergeInto(links: seq<UILink>, id: string, row: DbLink): (r: seq<UILink>)
    ensures |r| == |links|
    ensures forall i :: 0 <= i < |links| ==>
      r[i] == if links[i].id == id then MergeUpdatedRow(links[i], row) else links[i]
  {
    seq(|links|, i requires 0 <= i < |links| => if links[i].id == id then MergeUpdatedRow(links[i], row) else links[i])
  }

  /** The first position holding the id, or -1. */
  function IndexOfId(links: seq<UILink>, id: string): (k: int)
    ensures -1 <= k < |links|
    ensures k == -1 <==> forall i :: 0 <= i < |links| ==> links[i].id != id
    ensures k >= 0 ==> links[k].id == id && forall i :: 0 <= i < k ==> links[i].id != id
  {
    if links == [] then -1
    else if links[0].id == id then 0
    else
      var k := IndexOfId(links[1..], id);
      if k == -1 then -1 else k + 1
  }

  /** `getLinkById(id)`: `links.find(link => link.id === id)`. */
  function GetLinkById(links: seq<UILink>, id: string): (r: Option<UILink>)
    ensures r.None? <==> forall i :: 0 <= i < |links| ==> links[i].id != id
    ensures r.Some? ==> r.value == links[IndexOfId(links, id)] && r.value.id == id
  {
    var k := IndexOfId(links, id);
    if k == -1 then None else Some(links[k])
  }

  function IdsOf(links: seq<UILink>): (ids: seq<string>)
    ensures |ids| == |links| && forall i :: 0 <= i < |links| ==> ids[i] == links[i].id
  {
    seq(|links|, i requires 0 <= i < |links| => links[i].id)
  }

  // -------------------------------------------------------------- provider

  class LinksProvider {
    var links: seq<UILink>
    var isLoading: bool
    var isConnecting: bool
    var hasInitialized: bool
    var error: Option<string>
    var currentUserId: Option<string>
    /** The `useRealtime` instance the provider holds. */
    const realtime: UseRealtime.Realtime

    ghost predicate Valid()
      reads this, realtime
    {
      && realtime.Valid() && realtime.NoLeak()
      && realtime.handlesUpdates && realtime.reportsErrors
    }

    constructor()
      ensures Valid() && fresh(realtime)
      ensures links == [] && !isLoading && !isConnecting && !hasInitialized
      ensures error.None? && currentUserId.None?
      ensures realtime.channel.None? && realtime.linkIds == []
    {
      links := [];
      isLoading := false;
      isConnecting := false;
      hasInitialized := false;
      error := None;
      currentUserId := None;
      realtime := new UseRealtime.Realtime(true, true);
    }

    /** `fetchUserLinks(userId)`: skipped once initialised with links;
        otherwise the list becomes the user's links with their counts, or []
        with an error message when the fetch throws. */
    method FetchUserLinks(userId: string, db: SupabaseHelpers.Db)
      modifies this
      ensures old(hasInitialized) && |old(links)| > 0 ==>
        links == old(links) && isLoading == old(isLoading) && isConnecting == old(isConnecting)
        && hasInitialized == old(hasInitialized) && error == old(error) && currentUserId == old(currentUserId)
      ensures !(old(hasInitialized) && |old(links)| > 0) ==>
        && currentUserId == Some(userId) && hasInitialized && !isLoading && !isConnecting
        && match SupabaseHelpers.GetLinksWithClickCounts(db, userId)
           case Success(entries) => links == ToUI(entries) && error.None?
           case Failure(e) => links == [] && error == Some(if e.ErrorInstance? then e.message else "Failed to fetch links")
    {
      if hasInitialized && |links| > 0 {
        return;
      }
      currentUserId := Some(userId);
      isConnecting := true;
      error := None;
      isConnecting := false;
      isLoading := true;
      var linksWithCounts := SupabaseHelpers.GetLinksWithClickCounts(db, userId);
      if linksWithCounts.Success? {
        links := ToUI(linksWithCounts.value);
        hasInitialized := true;
      } else {
        var e := linksWithCounts.error;
        error := Some(if e.ErrorInstance? then e.message else "Failed to fetch links");
        links := [];
        hasInitialized := true;
      }
      isLoading := false;
      isConnecting := false;
    }

    /** `forceRefreshLinks(userId)`: no guard; the list is replaced by the
        fetch result, or emptied with an error message. */
    method ForceRefreshLinks(userId: string, db: SupabaseHelpers.Db)
      modifies this
      ensures !isLoading
      ensures isConnecting == old(isConnecting) && hasInitialized == old(hasInitialized)
      ensures currentUserId == old(currentUserId)
      ensures match SupabaseHelpers.GetLinksWithClickCounts(db, userId)
        case Success(entries) => links == ToUI(entries) && error.None?
        case Failure(e) => links == [] && error == Some(ShowErrorToast(e, "Failed to refresh links"))
    {
      isLoading := true;
      error := None;
      var linksWithCounts := SupabaseHelpers.GetLinksWithClickCounts(db, userId);
      if linksWithCounts.Success? {
        links := ToUI(linksWithCounts.value);
      } else {
        error := Some(ShowErrorToast(linksWithCounts.error, "Failed to refresh links"));
        links := [];
      }
      isLoading := false;
    }

    /** `updateLink(id, updates)`. */
    method UpdateLink(id: string, updates: LinkPatch)
      modifies this
      ensures links == UpdateLinks(old(links), id, updates)
      ensures isLoading == old(isLoading) && isConnecting == old(isConnecting)
      ensures hasInitialized == old(hasInitialized) && error == old(error) && currentUserId == old(currentUserId)
    {
      links := UpdateLinks(links, id, updates);
    }

    /** `updateLinkInDatabase(id, updates)`, given what the database update
        resolves to. */
    method UpdateLinkInDatabase(id: string, answer: UpdateAnswer) returns (ok: bool)
      modifies this
      ensures ok <==> answer.Updated?
      ensures answer.Updated? ==> links == MergeInto(old(links), id, answer.row)
      ensures !answer.Updated? ==> links == old(links)
      ensures answer.Threw? ==> error == Some(ShowErrorToast(answer.e, "Failed to update link in database"))
      ensures !answer.Threw? ==> error == old(error)
      ensures isLoading == old(isLoading) && isConnecting == old(isConnecting)
      ensures hasInitialized == old(hasInitialized) && currentUserId == old(currentUserId)
    {
      match answer
      case Threw(e) =>
        error := Some(ShowErrorToast(e, "Failed to update link in database"));
        return false;
      case NoRow =>
        return false;
      case Updated(row) =>
        links := MergeInto(links, id, row);
        return true;
    }

    /** `addLink(linkData)`: the entry with a fresh id, in front. */
    method AddLink(linkData: UILink, freshId: string)
      modifies this
      ensures links == [linkData.(id := freshId)] + old(links)
      ensures isLoading == old(isLoading) && error == old(error) && hasInitialized == old(hasInitialized)
      ensures isConnecting == old(isConnecting) && currentUserId == old(currentUserId)
    {
      var newLink := linkData.(id := freshId);
      links := [newLink] + links;
    }

    /** `addDatabaseLink(dbLink, clicks = 0)`: the converted row, in front. */
    method AddDatabaseLink(row: DbLink, clicks: Option<int>)
      modifies this
      ensures links == [ConvertDatabaseLinkToUI(row, Pick(clicks, 0))] + old(links)
      ensures isLoading == old(isLoading) && error == old(error) && hasInitialized == old(hasInitialized)
      ensures isConnecting == old(isConnecting) && currentUserId == old(currentUserId)
    {
      var uiLink := ConvertDatabaseLinkToUI(row, if clicks.Some? then clicks.value else 0);
      links := [uiLink] + links;
    }

    /** `handleAnalyticsUpdate(linkId, clickChange)`. */
    method HandleAnalyticsUpdate(linkId: string, clickChange: int)
      modifies this
      ensures links == ApplyClickChange(old(links), linkId, clickChange)
      ensures isLoading == old(isLoading) && error == old(error) && hasInitialized == old(hasInitialized)
      ensures isConnecting == old(isConnecting) && currentUserId == old(currentUserId)
    {
      links := ApplyClickChange(links, linkId, clickChange);
    }

    /** A notification arriving on the realtime channel: the hook's handler
        decides, and the provider applies the click change. */
    method OnRealtimeChange(change: UseRealtime.Change)
      requires Valid()
      modifies this
      ensures var d := UseRealtime.Notification(change, realtime.linkIds, true);
        links == if d.Some? then ApplyClickChange(old(links), d.value.linkId, d.value.change) else old(links)
      ensures error == old(error) && hasInitialized == old(hasInitialized)
      ensures isLoading == old(isLoading) && isConnecting == old(isConnecting) && currentUserId == old(currentUserId)
    {
      var delta := realtime.OnChange(change);
      if delta.Some? {
        HandleAnalyticsUpdate(delta.value.linkId, delta.value.change);
      }
    }

    /** The subscribe effect of `useRealtime({ userId: currentUserId || '' })`;
        a setup failure lands in `error` through `onError`. */
    method SyncRealtime(setupFailure: Option<Thrown>)
      requires Valid()
      modifies realtime, this
      ensures Valid()
      ensures links == old(links) && hasInitialized == old(hasInitialized)
      ensures realtime.linkIds == old(realtime.linkIds)
      ensures realtime.channel.Some? <==> Truthy(currentUserId) && setupFailure.None?
      ensures Truthy(currentUserId) && setupFailure.Some? ==>
        error == Some("Failed to set up realtime subscription: " + ErrorMessageOr(setupFailure.value, "Unknown error"))
      ensures !(Truthy(currentUserId) && setupFailure.Some?) ==> error == old(error)
    {
      var reported := realtime.RunEffect(OrElse(currentUserId, ""), setupFailure);
      if reported.Some? {
        error := reported;
      }
    }

    /** The effect on `links`: the tracked ids become the ids of the list,
        but only while the list is non-empty. */
    method LinksEffect()
      requires Valid()
      modifies realtime
      ensures Valid()
      ensures |links| > 0 ==> realtime.linkIds == IdsOf(links)
      ensures |links| == 0 ==> realtime.linkIds == old(realtime.linkIds)
      ensures realtime.channel == old(realtime.channel) && realtime.open == old(realtime.open)
    {
      if |links| > 0 {
        realtime.UpdateLinkIds(IdsOf(links));
      }
    }
  }

  // ------------------------------------------------------------ properties

  lemma SameMultisetSameElements<T>(a: seq<T>, b: seq<T>)
    requires multiset(a) == multiset(b)
    ensures |a| == |b| && forall x :: x in a <==> x in b
  {
    assert |multiset(a)| == |multiset(b)|;
    forall x
      ensures x in a <==> x in b
    {
      assert x in a <==> x in multiset(a);
      assert x in b <==> x in multiset(b);
    }
  }

  /** The refreshed entries are the user's links, each once per row. */
  lemma EntriesMirrorLinks(db: SupabaseHelpers.Db, userId: string)
    requires userId != "" && db.clientError.None? && !db.linksQueryError && db.countsAnswer.Some?
    ensures var r := SupabaseHelpers.GetLinksWithClickCounts(db, userId);
      && r.Success?
      && |r.value| == |SupabaseHelpers.LinksOfUser(db.links, userId)|
      && forall l :: l in SupabaseHelpers.Entries(r.value) <==> l in SupabaseHelpers.LinksOfUser(db.links, userId)
  {
    var r := SupabaseHelpers.GetLinksWithClickCounts(db, userId);
    SupabaseHelpers.LinksWithCountsEntries(db, userId);
    SameMultisetSameElements(SupabaseHelpers.Entries(r.value), SupabaseHelpers.LinksOfUser(db.links, userId));
  }

  /** After a successful refresh the list mirrors the user's links in the
      database: the same number of entries, each converted from one of them,
      and each of them converted into one entry. */
  lemma RefreshMirrorsDatabase(db: SupabaseHelpers.Db, userId: string)
    requires userId != "" && db.clientError.None? && !db.linksQueryError && db.countsAnswer.Some?
    ensures var r := SupabaseHelpers.GetLinksWithClickCounts(db, userId);
      && r.Success?
      && |ToUI(r.value)| == |SupabaseHelpers.LinksOfUser(db.links, userId)|
      && (forall i :: 0 <= i < |r.value| ==> r.value[i].link in SupabaseHelpers.LinksOfUser(db.links, userId))
      && (forall l :: l in SupabaseHelpers.LinksOfUser(db.links, userId) ==>
            exists i :: 0 <= i < |r.value| && r.value[i].link == l && ToUI(r.value)[i].id == l.id)
  {
    var r := SupabaseHelpers.GetLinksWithClickCounts(db, userId);
    EntriesMirrorLinks(db, userId);
    ListMirrorsLinks(r.value, SupabaseHelpers.LinksOfUser(db.links, userId));
  }

  /** Entries whose links are exactly `mine` convert into one list entry per link. */
  lemma ListMirrorsLinks(entries: seq<SupabaseHelpers.LinkWithCount>, mine: seq<DbLink>)
    requires |entries| == |mine|
    requires forall l :: l in SupabaseHelpers.Entries(entries) <==> l in mine
    ensures |ToUI(entries)| == |mine|
    ensures forall i :: 0 <= i < |entries| ==> entries[i].link in mine
    ensures forall l :: l in mine ==>
      exists i :: 0 <= i < |entries| && entries[i].link == l && ToUI(entries)[i].id == l.id
  {
    var ls := SupabaseHelpers.Entries(entries);
    forall i | 0 <= i < |entries|
      ensures entries[i].link in mine
    {
      assert ls[i] in ls;
    }
    ToUIKeepsIds(entries);
    forall l | l in mine
      ensures exists i :: 0 <= i < |entries| && entries[i].link == l && ToUI(entries)[i].id == l.id
    {
      assert l in ls;
      var i :| 0 <= i < |ls| && ls[i] == l;
    }
  }

  lemma ToUIKeepsIds(entries: seq<SupabaseHelpers.LinkWithCount>)
    ensures |ToUI(entries)| == |entries|
    ensures forall i :: 0 <= i < |entries| ==> ToUI(entries)[i].id == entries[i].link.id
  {
  }

  /** Both ways of adding put the new entry in front and keep the rest. */
  lemma AddedLinkIsFound(links: seq<UILink>, row: DbLink, clicks: int)
    ensures GetLinkById([ConvertDatabaseLinkToUI(row, clicks)] + links, row.id)
         == Some(ConvertDatabaseLinkToUI(row, clicks))
  {
  }
}
