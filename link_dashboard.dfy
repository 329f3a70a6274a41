/** The links page (components/link-dashboard.tsx): creating a link from the
    modal's data, the retry button, and which of its views the list area
    shows.  The hosted `links` table is the `links` field of a
    `SupabaseHelpers.Db`, and `createLink` inserts into it. */
module LinkDashboard {
  import opened Common
  import opened SupabaseTypes
  import opened Utils
  import SupabaseHelpers
  import UseLinks

  /** What the modal hands to `onCreateLink`. */
  datatype NewLinkData = NewLinkData(destinationUrl: string, shortUrl: string, description: string, tags: Option<string>)

  /** The record given to `createLink`: a `links` row without `id` and `created_at`. */
  datatype LinkInsert = LinkInsert(
    userId: string,
    description: string,
    destinationUrl: string,
    slug: string,
    conversionTracking: bool,
    tags: seq<string>,
    folder: string)

  datatype ToastKind = SuccessToast | ErrorToast

  datatype Toast = Toast(show: bool, kind: ToastKind, title: string, description: string)

  const HIDDEN_TOAST: Toast := Toast(false, SuccessToast, "", "")

  /** The steps of a successful create, in the order they happen. */
  datatype Step = Refreshed | ModalClosed | ToastShown

  const NOT_AUTHENTICATED: string := "User not authenticated. Please log in to create links."
  const CREATE_FAILED: string := "Failed to create link in database"
  const CREATE_DEFAULT_ERROR: string := "There was an error creating your link. Please try again."

  // ------------------------------------------------------------ derivation

  /** `shortUrl.split('/').pop() || shortUrl`: the text after the last '/',
      or the whole short URL when that text is empty. */
  function ShortCode(shortUrl: string): (code: string)
    ensures code == shortUrl || ('/' !in code && code != [])
    ensures '/' !in shortUrl ==> code == shortUrl
  {
    var piece := LastPiece(shortUrl, '/');
    if piece != [] then piece
    else
      assert '/' !in shortUrl ==> LastPiece(shortUrl, '/') == shortUrl by {
        if '/' !in shortUrl {
          SplitNoSeparator(shortUrl, '/');
        }
      }
      shortUrl
  }

  /** The modal's `domain + "/" + slug` gives the slug back. */
  lemma ShortCodeOfModalUrl(domain: string, slug: string)
    requires slug != [] && '/' !in slug
    ensures ShortCode(domain + "/" + slug) == slug
  {
    LastPieceAfter(domain, slug, '/');
  }

  /** A URL ending in '/' keeps the whole URL as its slug, slashes included. */
  lemma TrailingSlashKeepsUrl(url: string)
    requires url != [] && url[|url| - 1] == '/'
    ensures ShortCode(url) == url
  {
    assert url == url[..|url| - 1] + ['/'] + [];
    LastPieceAfter(url[..|url| - 1], [], '/');
  }

  function TrimAll(parts: seq<string>): (r: seq<string>)
    ensures |r| == |parts| && forall k :: 0 <= k < |r| ==> r[k] == Trim(parts[k])
  {
    seq(|parts|, k requires 0 <= k < |parts| => Trim(parts[k]))
  }

  /** `tags ? tags.split(',').map(tag => tag.trim()) : []`: one tag per
      comma-separated piece, empty pieces kept. */
  function ParseCreateTags(tags: Option<string>): (r: seq<string>)
    ensures !Truthy(tags) ==> r == []
    ensures Truthy(tags) ==> |r| == |Split(tags.value, ',')| >= 1
    ensures forall k :: 0 <= k < |r| ==> IsTrimmed(r[k]) && ',' !in r[k]
  {
    if !Truthy(tags) then []
    else
      var parts := Split(tags.value, ',');
      var r := TrimAll(parts);
      assert forall k :: 0 <= k < |r| ==> ',' !in r[k] by {
        forall k | 0 <= k < |r|
          ensures ',' !in r[k]
        {
          TrimIsInfix(parts[k]);
        }
      }
      r
  }

  lemma TrimIsInfix(s: string)
    ensures forall c :: c in Trim(s) ==> c in s
  {
    var t := TrimStart(s);
    assert forall c :: c in t ==> c in s by {
      assert t == s[|s| - |t|..];
    }
    var u := TrimEnd(t);
    assert forall c :: c in u ==> c in t by {
      assert u == t[..|u|];
    }
  }

  lemma SplitOfCommaJoin(ts: seq<string>)
    requires |ts| >= 1 && forall k :: 0 <= k < |ts| ==> ',' !in ts[k]
    ensures Split(Join(ts, ","), ',') == ts
  {
    assert [','] == ",";
    SplitJoin(ts, ',');
  }

  lemma TrimAllOfTrimmed(ts: seq<string>)
    requires forall k :: 0 <= k < |ts| ==> IsTrimmed(ts[k])
    ensures TrimAll(ts) == ts
  {
  }

  /** Joining trimmed, comma-free tags with ',' and parsing gives them back. */
  lemma CreateTagsRoundTrip(ts: seq<string>)
    requires |ts| >= 1 && Join(ts, ",") != ""
    requires forall k :: 0 <= k < |ts| ==> ',' !in ts[k] && IsTrimmed(ts[k])
    ensures ParseCreateTags(Some(Join(ts, ","))) == ts
  {
    SplitOfCommaJoin(ts);
    TrimAllOfTrimmed(ts);
  }

  /** Empty pieces survive: two commas in a row give an empty tag between
      the two around them ("a,,b" gives three tags). */
  lemma CreateKeepsEmptyTags(a: string, b: string)
    requires ',' !in a && ',' !in b && IsTrimmed(a) && IsTrimmed(b)
    ensures ParseCreateTags(Some(a + ",," + b)) == [a, "", b]
  {
    var ts := [a, "", b];
    assert Join(ts, ",") == a + ",," + b by {
      assert Join(ts[1..], ",") == "" + "," + b;
    }
    CreateTagsRoundTrip(ts);
  }

  /** The record `handleCreateLink` sends for a signed-in user. */
  function BuildLinkData(userId: string, data: NewLinkData): (r: LinkInsert)
    ensures r.userId == userId && r.destinationUrl == data.destinationUrl
    ensures r.slug == ShortCode(data.shortUrl) && r.tags == ParseCreateTags(data.tags)
    ensures r.conversionTracking && r.folder == "links"
    ensures r.description != "" && (data.description != "" ==> r.description == data.description)
  {
    LinkInsert(
      userId,
      if data.description != "" then data.description else "Untitled Link",
      data.destinationUrl,
      ShortCode(data.shortUrl),
      true,
      ParseCreateTags(data.tags),
      "links")
  }

  /** `createLink(linkData)`: the inserted row with the id and time the
      database assigns, or null when the client or the insert fails; the
      helper catches every error. */
  function CreateLink(db: SupabaseHelpers.Db, data: LinkInsert, id: string, createdAt: int, insertFails: bool)
    : (r: (SupabaseHelpers.Db, Option<DbLink>))
    ensures r.1.None? <==> db.clientError.Some? || insertFails
    ensures r.1.None? ==> r.0 == db
    ensures r.1.Some? ==> r.0 == db.(links := db.links + [r.1.value])
    ensures r.1.Some? ==>
      (r.1.value.id == id && r.1.value.userId == data.userId
       && r.1.value.slug == Some(data.slug) && r.1.value.tags == Some(data.tags))
  {
    if db.clientError.Some? || insertFails then (db, None)
    else
      var row := DbLink(id, createdAt, data.userId, Some(data.destinationUrl), Some(data.slug),
                        Some(data.tags), Some(data.conversionTracking), Some(data.folder), Some(data.description));
      (db.(links := db.links + [row]), Some(row))
  }

  // ----------------------------------------------------------------- views

  /** The views the list area can show. */
  datatype View =
    | AuthSkeleton
    | AuthRequired
    | ConnectingMessage
    | InitialSkeleton
    | ErrorMessage(message: string)
    | LoadingSkeleton
    | NoLinksYet
    | Cards(links: seq<UseLinks.UILink>)

  /** The nested conditional that picks the view. */
  function RenderBranch(authLoading: bool, signedIn: bool, hasInitialized: bool, isConnecting: bool,
                        error: Option<string>, isLoading: bool, links: seq<UseLinks.UILink>): (v: View)
    ensures v.Cards? <==>
      !authLoading && signedIn && hasInitialized && !Truthy(error) && !isLoading && links != []
    ensures v.Cards? ==> v.links == links
    ensures v.ErrorMessage? <==> !authLoading && signedIn && hasInitialized && Truthy(error)
    ensures v.ErrorMessage? ==> v == ErrorMessage(error.value)
    ensures authLoading <==> v == AuthSkeleton
  {
    if authLoading then AuthSkeleton
    else if !signedIn then AuthRequired
    else if !hasInitialized then (if isConnecting then ConnectingMessage else InitialSkeleton)
    else if Truthy(error) then ErrorMessage(error.value)
    else if isLoading then LoadingSkeleton
    else if links == [] then NoLinksYet
    else Cards(links)
  }

  // -------------------------------------------------------------- the page

  /** The success toast of a create, naming the short URL. */
  function CreatedToast(shortUrl: string): (t: Toast)
    ensures t.show && t.kind == SuccessToast && t.title == "Link Created Successfully"
    ensures t.description == "Your short link " + shortUrl + " has been created and is ready to use."
  {
    Toast(true, SuccessToast, "Link Created Successfully",
          "Your short link " + shortUrl + " has been created and is ready to use.")
  }

  class Dashboard {
    var isModalOpen: bool
    var toast: Toast
    /** The steps of successful creates so far. */
    ghost var steps: seq<Step>
    /** The `useLinks()` context the page reads. */
    const provider: UseLinks.LinksProvider

    constructor(provider: UseLinks.LinksProvider)
      ensures !isModalOpen && toast == HIDDEN_TOAST && steps == [] && this.provider == provider
    {
      isModalOpen := false;
      toast := HIDDEN_TOAST;
      steps := [];
      this.provider := provider;
    }

    /** `handleCreateLink(newLinkData)` for the signed-in user `userId`
        (None when `user?.id` is falsy).  The database assigns `newId` and
        `createdAt`; `insertFails` says whether the insert comes back with an
        error.  Returns the database afterwards. */
    method HandleCreateLink(userId: Option<string>, data: NewLinkData, db: SupabaseHelpers.Db,
                            newId: string, createdAt: int, insertFails: bool)
      returns (dbAfter: SupabaseHelpers.Db)
      modifies this, provider
      ensures !Truthy(userId) ==>
        && dbAfter == db && toast == Toast(true, ErrorToast, "Failed to Create Link", NOT_AUTHENTICATED)
      ensures Truthy(userId) ==>
        dbAfter == CreateLink(db, BuildLinkData(userId.value, data), newId, createdAt, insertFails).0
      ensures Truthy(userId) && (db.clientError.Some? || insertFails) ==>
        toast == Toast(true, ErrorToast, "Failed to Create Link", CREATE_FAILED)
      ensures !Truthy(userId) || db.clientError.Some? || insertFails ==>
        && isModalOpen == old(isModalOpen) && steps == old(steps)
        && provider.links == old(provider.links) && provider.error == old(provider.error)
      ensures Truthy(userId) && db.clientError.None? && !insertFails ==>
        && steps == old(steps) + [Refreshed, ModalClosed, ToastShown]
        && !isModalOpen && !provider.isLoading
        && toast == CreatedToast(data.shortUrl)
        && SupabaseHelpers.GetLinksWithClickCounts(dbAfter, userId.value).Success?
        && provider.links == UseLinks.ToUI(SupabaseHelpers.GetLinksWithClickCounts(dbAfter, userId.value).value)
    {
      dbAfter := db;
      if !Truthy(userId) {
        toast := Toast(true, ErrorToast, "Failed to Create Link",
                       ShowErrorToast(ErrorInstance(NOT_AUTHENTICATED), CREATE_DEFAULT_ERROR));
        return;
      }
      var linkData := BuildLinkData(userId.value, data);
      var outcome := CreateLink(db, linkData, newId, createdAt, insertFails);
      dbAfter := outcome.0;
      if outcome.1.None? {
        toast := Toast(true, ErrorToast, "Failed to Create Link",
                       ShowErrorToast(ErrorInstance(CREATE_FAILED), CREATE_DEFAULT_ERROR));
        return;
      }
      AfterCreate(userId.value, data.shortUrl, dbAfter);
    }

    /** The steps after a successful insert: refresh the list, close the
        modal, show the success toast. */
    method AfterCreate(userId: string, shortUrl: string, db: SupabaseHelpers.Db)
      requires db.clientError.None?
      modifies this, provider
      ensures steps == old(steps) + [Refreshed, ModalClosed, ToastShown]
      ensures !isModalOpen && !provider.isLoading && toast == CreatedToast(shortUrl)
      ensures SupabaseHelpers.GetLinksWithClickCounts(db, userId).Success?
      ensures provider.links == UseLinks.ToUI(SupabaseHelpers.GetLinksWithClickCounts(db, userId).value)
    {
      provider.ForceRefreshLinks(userId, db);
      steps := steps + [Refreshed];
      isModalOpen := false;
      steps := steps + [ModalClosed];
      toast := CreatedToast(shortUrl);
      steps := steps + [ToastShown];
    }

    /** `handleRetryClick`: fetch again only for a signed-in user. */
    method HandleRetryClick(userId: Option<string>, db: SupabaseHelpers.Db)
      modifies provider
      ensures !Truthy(userId) || (old(provider.hasInitialized) && |old(provider.links)| > 0) ==>
        && provider.links == old(provider.links) && provider.error == old(provider.error)
        && provider.isLoading == old(provider.isLoading) && provider.isConnecting == old(provider.isConnecting)
        && provider.hasInitialized == old(provider.hasInitialized)
        && provider.currentUserId == old(provider.currentUserId)
      ensures Truthy(userId) && !(old(provider.hasInitialized) && |old(provider.links)| > 0) ==>
        && provider.currentUserId == userId && provider.hasInitialized
        && !provider.isLoading && !provider.isConnecting
        && match SupabaseHelpers.GetLinksWithClickCounts(db, userId.value)
           case Success(entries) => provider.links == UseLinks.ToUI(entries) && provider.error.None?
           case Failure(e) => provider.links == [] && provider.error == Some(if e.ErrorInstance? then e.message else "Failed to fetch links")
    {
      if Truthy(userId) {
        provider.FetchUserLinks(userId.value, db);
      }
    }

    /** `handleModalError(message)`. */
    method HandleModalError(message: string)
      modifies this
      ensures toast == Toast(true, ErrorToast, "Validation Error", message)
      ensures isModalOpen == old(isModalOpen) && steps == old(steps)
    {
      toast := Toast(true, ErrorToast, "Validation Error", message);
    }

    /** `handleCloseToast`: hide the toast and keep its text. */
    method HandleCloseToast()
      modifies this
      ensures toast == old(toast).(show := false)
      ensures isModalOpen == old(isModalOpen) && steps == old(steps)
    {
      toast := toast.(show := false);
    }
  }

  // ------------------------------------------------------------ properties

  lemma {:induction false} LinksOfUserAppend(links: seq<DbLink>, row: DbLink, userId: string)
    requires row.userId == userId
    ensures SupabaseHelpers.LinksOfUser(links + [row], userId) == SupabaseHelpers.LinksOfUser(links, userId) + [row]
  {
    if links == [] {
      assert links + [row] == [row];
      assert [row][1..] == [];
    } else {
      assert (links + [row])[1..] == links[1..] + [row];
      LinksOfUserAppend(links[1..], row, userId);
    }
  }

  lemma TwoPositionsCountTwice<T>(s: seq<T>, i: nat, j: nat)
    requires i < j < |s| && s[i] == s[j]
    ensures multiset(s)[s[i]] >= 2
  {
    assert s == s[..j] + [s[j]] + s[j + 1..];
    assert s[i] in multiset(s[..j]);
  }

  /** A link that occurs once, and is the only one with its id, sits at
      exactly one position with that id. */
  lemma UniqueIdPosition(ls: seq<DbLink>, row: DbLink)
    requires multiset(ls)[row] == 1
    requires forall l :: l in ls && l.id == row.id ==> l == row
    ensures exists i :: 0 <= i < |ls| && ls[i].id == row.id
              && forall j :: 0 <= j < |ls| && j != i ==> ls[j].id != row.id
  {
    assert row in multiset(ls);
    var i :| 0 <= i < |ls| && ls[i] == row;
    forall j | 0 <= j < |ls| && j != i
      ensures ls[j].id != row.id
    {
      if ls[j].id == row.id {
        assert ls[j] in ls;
        if i < j {
          TwoPositionsCountTwice(ls, i, j);
        } else {
          TwoPositionsCountTwice(ls, j, i);
        }
      }
    }
  }

  /** After the insert, the refreshed entries hold the new row once, and
      no other entry shares its id. */
  lemma {:induction false} EntriesHoldNewRowOnce(db: SupabaseHelpers.Db, row: DbLink, userId: string)
    requires userId != "" && db.clientError.None? && !db.linksQueryError && db.countsAnswer.Some?
    requires row.userId == userId
    requires forall l :: l in db.links ==> l.id != row.id
    ensures var r := SupabaseHelpers.GetLinksWithClickCounts(db.(links := db.links + [row]), userId);
      && r.Success?
      && multiset(SupabaseHelpers.Entries(r.value))[row] == 1
      && forall l :: l in SupabaseHelpers.Entries(r.value) && l.id == row.id ==> l == row
  {
    var db2 := db.(links := db.links + [row]);
    var r := SupabaseHelpers.GetLinksWithClickCounts(db2, userId);
    SupabaseHelpers.LinksWithCountsEntries(db2, userId);
    var ls := SupabaseHelpers.Entries(r.value);
    var before := SupabaseHelpers.LinksOfUser(db.links, userId);
    LinksOfUserAppend(db.links, row, userId);
    assert multiset(ls) == multiset(before) + multiset{row};
    assert row !in before;
    forall l | l in ls && l.id == row.id
      ensures l == row
    {
      assert l in multiset(ls);
      assert l in before || l == row;
    }
  }

  /** After a successful create and the refresh that follows it, the list
      holds the new link exactly once, when its id is new to the table. */
  lemma CreatedLinkAppearsOnce(db: SupabaseHelpers.Db, row: DbLink, userId: string)
    requires userId != "" && db.clientError.None? && !db.linksQueryError && db.countsAnswer.Some?
    requires row.userId == userId
    requires forall l :: l in db.links ==> l.id != row.id
    ensures var r := SupabaseHelpers.GetLinksWithClickCounts(db.(links := db.links + [row]), userId);
      && r.Success?
      && exists i :: 0 <= i < |r.value| && UseLinks.ToUI(r.value)[i].id == row.id
           && forall j :: 0 <= j < |r.value| && j != i ==> UseLinks.ToUI(r.value)[j].id != row.id
  {
    var r := SupabaseHelpers.GetLinksWithClickCounts(db.(links := db.links + [row]), userId);
    EntriesHoldNewRowOnce(db, row, userId);
    var ls := SupabaseHelpers.Entries(r.value);
    UniqueIdPosition(ls, row);
    var ui := UseLinks.ToUI(r.value);
    assert forall j :: 0 <= j < |ui| ==> ui[j].id == ls[j].id;
  }

  /** Once auth has settled for a signed-in user and the cache is
      initialised, an error is shown before the loading and empty states. */
  lemma ErrorShownBeforeLoading(isConnecting: bool, message: string, isLoading: bool, links: seq<UseLinks.UILink>)
    requires message != ""
    ensures RenderBranch(false, true, true, isConnecting, Some(message), isLoading, links) == ErrorMessage(message)
  {
  }
}
