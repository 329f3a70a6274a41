/** The link editing page (components/link-detail.tsx): the form filled from
    the cached link, the tag parser, and `handleSave`, which sends the form
    to the `links` table through the `updateLink` helper and merges the
    returned row into the cache. */
module LinkDetail {
  import opened Common
  import opened SupabaseTypes
  import SupabaseHelpers
  import UseLinks
  import LinkDashboard

  /** The form's local state. */
  datatype LinkForm = LinkForm(
    originalUrl: string,
    shortUrl: string,
    tags: string,
    conversionTracking: bool,
    folder: string,
    description: string)

  const EMPTY_FORM: LinkForm := LinkForm("", "", "", false, "links", "")

  /** One input's change handler. */
  datatype FormField =
    | OriginalUrl(text: string)
    | ShortUrl(text: string)
    | Tags(text: string)
    | ConversionTracking(checked: bool)
    | Folder(text: string)
    | Description(text: string)

  /** `setFormData(prev => ({ ...prev, <field>: value }))`. */
  function WithField(form: LinkForm, f: FormField): (r: LinkForm)
    ensures f.OriginalUrl? ==> r == form.(originalUrl := f.text)
    ensures f.ShortUrl? ==> r == form.(shortUrl := f.text)
    ensures f.Tags? ==> r == form.(tags := f.text)
    ensures f.ConversionTracking? ==> r == form.(conversionTracking := f.checked)
    ensures f.Folder? ==> r == form.(folder := f.text)
    ensures f.Description? ==> r == form.(description := f.text)
  {
    match f
    case OriginalUrl(t) => form.(originalUrl := t)
    case ShortUrl(t) => form.(shortUrl := t)
    case Tags(t) => form.(tags := t)
    case ConversionTracking(b) => form.(conversionTracking := b)
    case Folder(t) => form.(folder := t)
    case Description(t) => form.(description := t)
  }

  /** The form-initialisation effect: the text after the last '/' of the
      short URL, and defaults for the missing optional fields. */
  function FormFromLink(link: UseLinks.UILink): (form: LinkForm)
    ensures form.originalUrl == link.originalUrl && form.description == link.description
    ensures form.shortUrl == LastPiece(link.shortUrl, '/') && '/' !in form.shortUrl
    ensures form.conversionTracking <==> link.conversionTracking == Some(true)
    ensures form.folder != ""
    ensures Truthy(link.folder) ==> form.folder == link.folder.value
    ensures !Truthy(link.folder) ==> form.folder == "links"
    ensures Truthy(link.tags) ==> form.tags == link.tags.value
    ensures !Truthy(link.tags) ==> form.tags == ""
  {
    LinkForm(
      link.originalUrl,
      LastPiece(link.shortUrl, '/'),
      OrElse(link.tags, ""),
      link.conversionTracking == Some(true),
      OrElse(link.folder, "links"),
      link.description)
  }

  /** A converted row opens with its slug in the short-URL field. */
  lemma FormShowsSlug(row: DbLink, clicks: int)
    requires Truthy(row.slug) && '/' !in row.slug.value
    ensures FormFromLink(UseLinks.ConvertDatabaseLinkToUI(row, clicks)).shortUrl == row.slug.value
  {
    UseLinks.ShortUrlEndsInSlug(row, clicks);
  }

  // ------------------------------------------------------------------ tags

  /** Every tag is trimmed and holds no comma. */
  predicate CleanTags(ts: seq<string>) {
    forall k :: 0 <= k < |ts| ==> IsTrimmed(ts[k]) && ',' !in ts[k]
  }

  /** `.filter(tag => tag.length > 0)`. */
  function NonEmpty(ts: seq<string>): (r: seq<string>)
    ensures forall t :: t in r <==> t in ts && t != ""
    ensures forall k :: 0 <= k < |r| ==> r[k] != ""
    ensures CleanTags(ts) ==> CleanTags(r)
    ensures |r| <= |ts|
  {
    if ts == [] then []
    else if ts[0] != "" then [ts[0]] + NonEmpty(ts[1..])
    else
      assert ts == [ts[0]] + ts[1..];
      NonEmpty(ts[1..])
  }

  /** The save parser: split on ',', trim, drop the empty pieces; no text
      gives no tags.  It is the create parser without its empty tags. */
  function ParseSaveTags(text: string): (r: seq<string>)
    ensures text == "" ==> r == []
    ensures forall t :: t in r <==> t in LinkDashboard.ParseCreateTags(Some(text)) && t != ""
    ensures forall k :: 0 <= k < |r| ==> r[k] != ""
    ensures CleanTags(r)
  {
    NonEmpty(LinkDashboard.ParseCreateTags(Some(text)))
  }

  /** `ts.map(t => " " + t)`. */
  function Spaced(ts: seq<string>): (r: seq<string>)
    ensures |r| == |ts| && forall k :: 0 <= k < |ts| ==> r[k] == " " + ts[k]
  {
    seq(|ts|, k requires 0 <= k < |ts| => " " + ts[k])
  }

  lemma {:induction false} JoinSpaced(ts: seq<string>)
    requires |ts| >= 1
    ensures Join(Spaced(ts), ",") == " " + Join(ts, ", ")
  {
    if |ts| > 1 {
      JoinSpaced(ts[1..]);
      assert Spaced(ts)[1..] == Spaced(ts[1..]);
    }
  }

  lemma {:induction false} NonEmptyKeepsNonEmpty(ts: seq<string>)
    requires forall k :: 0 <= k < |ts| ==> ts[k] != ""
    ensures NonEmpty(ts) == ts
  {
    if ts != [] {
      NonEmptyKeepsNonEmpty(ts[1..]);
    }
  }

  /** `ts.join(", ")` is the join with ',' of the first tag and the
      others with a leading space. */
  lemma {:induction false} CommaSpaceJoin(ts: seq<string>)
    requires |ts| >= 1
    ensures Join(ts, ", ") == Join([ts[0]] + Spaced(ts[1..]), ",")
  {
    var pieces := [ts[0]] + Spaced(ts[1..]);
    if |ts| > 1 {
      var rest := Join(ts[1..], ", ");
      JoinSpaced(ts[1..]);
      assert pieces[1..] == Spaced(ts[1..]);
      calc {
        Join(pieces, ",");
        pieces[0] + "," + Join(pieces[1..], ",");
        ts[0] + "," + (" " + rest);
        { assert "," + " " == ", "; }
        ts[0] + ", " + rest;
        Join(ts, ", ");
      }
    }
  }

  lemma {:induction false} TrimSpacedPieces(ts: seq<string>)
    requires |ts| >= 1 && CleanTags(ts)
    ensures var pieces := [ts[0]] + Spaced(ts[1..]);
      && (forall k :: 0 <= k < |pieces| ==> ',' !in pieces[k])
      && LinkDashboard.TrimAll(pieces) == ts
  {
    var pieces := [ts[0]] + Spaced(ts[1..]);
    PieceByPiece(ts, pieces);
    var trimmed := LinkDashboard.TrimAll(pieces);
    assert |trimmed| == |ts|;
    assert forall k :: 0 <= k < |ts| ==> trimmed[k] == ts[k];
  }

  lemma PieceByPiece(ts: seq<string>, pieces: seq<string>)
    requires |ts| >= 1 && CleanTags(ts) && pieces == [ts[0]] + Spaced(ts[1..])
    ensures |pieces| == |ts|
    ensures forall k :: 0 <= k < |pieces| ==> ',' !in pieces[k] && Trim(pieces[k]) == ts[k]
  {
    forall k | 0 <= k < |pieces|
      ensures ',' !in pieces[k] && Trim(pieces[k]) == ts[k]
    {
      if k > 0 {
        assert pieces[k] == Spaced(ts[1..])[k - 1] == " " + ts[k];
        SpacedPiece(ts[k]);
      }
    }
  }

  /** One tag after a space: still comma-free, and trimmed back to the tag. */
  lemma SpacedPiece(t: string)
    requires IsTrimmed(t) && ',' !in t
    ensures ',' !in " " + t && Trim(" " + t) == t
  {
    TrimLeadingSpace(" ", t);
    assert forall k :: 1 <= k < |" " + t| ==> (" " + t)[k] == t[k - 1];
  }

  /** The cache shows saved tags joined with ", "; the save parser reads
      them back unchanged when each is non-empty, trimmed and comma-free. */
  lemma {:induction false} SaveTagsRoundTrip(ts: seq<string>)
    requires CleanTags(ts) && forall k :: 0 <= k < |ts| ==> ts[k] != ""
    ensures ParseSaveTags(Join(ts, ", ")) == ts
  {
    if ts != [] {
      var pieces := [ts[0]] + Spaced(ts[1..]);
      var text := Join(ts, ", ");
      CommaSpaceJoin(ts);
      TrimSpacedPieces(ts);
      assert Split(text, ',') == pieces by {
        SplitJoin(pieces, ',');
        assert [','] == ",";
      }
      assert text != "" by {
        assert pieces[0] != "";
        assert Join(pieces, ",")[..|pieces[0]|] == pieces[0];
      }
      assert LinkDashboard.ParseCreateTags(Some(text)) == ts;
      NonEmptyKeepsNonEmpty(ts);
    }
  }

  lemma JsonOfAB()
    ensures UseLinks.JsonStringArray(["a", "b"]) == "[\"a\",\"b\"]"
  {
    var q := UseLinks.JsonStrings(["a", "b"]);
    assert q[0] == "\"a\"" by {
      assert forall k :: 0 <= k < |"a"| ==> UseLinks.JsonPlain("a"[k]);
    }
    assert q[1] == "\"b\"" by {
      assert forall k :: 0 <= k < |"b"| ==> UseLinks.JsonPlain("b"[k]);
    }
    assert q == [q[0], q[1]];
    var inner := Join(q, ",");
    assert inner == "\"a\",\"b\"";
    var r := UseLinks.JsonStringArray(["a", "b"]);
    assert r == [r[0]] + r[1..|r| - 1] + [r[|r| - 1]];
  }


  /** The cache keeps a freshly loaded link's tags as JSON text, so saving
      the form unedited turns the tags ["a", "b"] into the two tags `["a"`
      and `"b"]`. */
  lemma UneditedJsonTagsAreMangled(row: DbLink, clicks: int)
    requires row.tags == Some(["a", "b"])
    ensures ParseSaveTags(FormFromLink(UseLinks.ConvertDatabaseLinkToUI(row, clicks)).tags)
         == ["[\"a\"", "\"b\"]"]
  {
    var ui := UseLinks.ConvertDatabaseLinkToUI(row, clicks);
    JsonOfAB();
    assert ui.tags == Some("[\"a\",\"b\"]");
    assert FormFromLink(ui).tags == "[\"a\",\"b\"]";
    SaveParseOfJsonAB();
  }

  lemma SaveParseOfJsonAB()
    ensures ParseSaveTags("[\"a\",\"b\"]") == ["[\"a\"", "\"b\"]"]
  {
    var p0, p1 := "[\"a\"", "\"b\"]";
    assert "[\"a\",\"b\"]" == Join([p0, p1], ",");
    assert !IsWhitespace('[') && !IsWhitespace('"') && !IsWhitespace(']');
    SaveParseOfTwo(p0, p1);
  }

  lemma SaveParseOfTwo(p0: string, p1: string)
    requires p0 != "" && p1 != "" && CleanTags([p0, p1])
    ensures ParseSaveTags(Join([p0, p1], ",")) == [p0, p1]
  {
    LinkDashboard.CreateTagsRoundTrip([p0, p1]);
    NonEmptyKeepsNonEmpty([p0, p1]);
  }

  // ---------------------------------------------------------------- saving

  /** `databaseUpdates`: the `Partial<Link>` the form is saved as. */
  datatype LinkUpdate = LinkUpdate(
    destinationUrl: string,
    slug: string,
    tags: seq<string>,
    conversionTracking: bool,
    folder: string,
    description: string)

  /** Each form field onto its column; tags through the save parser. */
  function DatabaseUpdates(form: LinkForm): (u: LinkUpdate)
    ensures u.destinationUrl == form.originalUrl && u.slug == form.shortUrl
    ensures u.conversionTracking == form.conversionTracking
    ensures u.folder == form.folder && u.description == form.description
    ensures u.tags == ParseSaveTags(form.tags)
  {
    LinkUpdate(form.originalUrl, form.shortUrl, ParseSaveTags(form.tags),
               form.conversionTracking, form.folder, form.description)
  }

  /** `.update(updates)` on one row. */
  function ApplyUpdate(row: DbLink, u: LinkUpdate): (r: DbLink)
    ensures r.id == row.id && r.userId == row.userId && r.createdAt == row.createdAt
    ensures r.tags == Some(u.tags) && r.slug == Some(u.slug)
  {
    row.(destinationUrl := Some(u.destinationUrl), slug := Some(u.slug), tags := Some(u.tags),
         conversionTracking := Some(u.conversionTracking), folder := Some(u.folder),
         description := Some(u.description))
  }

  function UpdateRows(links: seq<DbLink>, id: string, u: LinkUpdate): (r: seq<DbLink>)
    ensures |r| == |links|
    ensures forall i :: 0 <= i < |links| ==> r[i] == if links[i].id == id then ApplyUpdate(links[i], u) else links[i]
  {
    seq(|links|, i requires 0 <= i < |links| => if links[i].id == id then ApplyUpdate(links[i], u) else links[i])
  }

  /** The first row with the id. */
  function FindRow(links: seq<DbLink>, id: string): (r: Option<DbLink>)
    ensures r.None? <==> forall i :: 0 <= i < |links| ==> links[i].id != id
    ensures r.Some? ==> r.value in links && r.value.id == id
  {
    if links == [] then None
    else if links[0].id == id then Some(links[0])
    else FindRow(links[1..], id)
  }

  /** The `updateLink` helper: the updated row, or null when the client, the
      update or `.single()` fails (no row with the id); it catches every error. */
  function UpdateDatabaseLink(db: SupabaseHelpers.Db, id: string, u: LinkUpdate, updateFails: bool)
    : (r: (SupabaseHelpers.Db, Option<DbLink>))
    ensures r.1.None? <==> db.clientError.Some? || updateFails || forall l :: l in db.links ==> l.id != id
    ensures r.1.None? ==> r.0 == db
    ensures r.1.Some? ==> r.0 == db.(links := UpdateRows(db.links, id, u))
    ensures r.1.Some? ==> exists l :: l in db.links && l.id == id && r.1.value == ApplyUpdate(l, u)
  {
    var found := FindRow(db.links, id);
    if db.clientError.Some? || updateFails || found.None? then (db, None)
    else (db.(links := UpdateRows(db.links, id, u)), Some(ApplyUpdate(found.value, u)))
  }

  /** A successful save followed by the form-initialisation effect gives back
      the same tags, the same slug and the same destination: saving again
      without editing changes none of them. */
  lemma SaveThenReloadIsStable(link: UseLinks.UILink, row: DbLink, form: LinkForm)
    requires form.shortUrl != "" && '/' !in form.shortUrl && form.originalUrl != ""
    ensures var merged := UseLinks.MergeUpdatedRow(link, ApplyUpdate(row, DatabaseUpdates(form)));
      && ParseSaveTags(FormFromLink(merged).tags) == ParseSaveTags(form.tags)
      && FormFromLink(merged).shortUrl == form.shortUrl
      && FormFromLink(merged).originalUrl == form.originalUrl
  {
    SavedTagsReload(link, row, form);
    SavedSlugReloads(link, row, form);
  }

  /** The tags shown after a save parse to the tags that were saved. */
  lemma SavedTagsReload(link: UseLinks.UILink, row: DbLink, form: LinkForm)
    ensures var merged := UseLinks.MergeUpdatedRow(link, ApplyUpdate(row, DatabaseUpdates(form)));
      ParseSaveTags(FormFromLink(merged).tags) == ParseSaveTags(form.tags)
  {
    var ts := ParseSaveTags(form.tags);
    var merged := UseLinks.MergeUpdatedRow(link, ApplyUpdate(row, DatabaseUpdates(form)));
    SaveTagsRoundTrip(ts);
    if Join(ts, ", ") == "" {
      assert FormFromLink(merged).tags == "";
    }
  }

  /** The slug shown after a save is the one that was saved. */
  lemma SavedSlugReloads(link: UseLinks.UILink, row: DbLink, form: LinkForm)
    requires form.shortUrl != "" && '/' !in form.shortUrl
    ensures var merged := UseLinks.MergeUpdatedRow(link, ApplyUpdate(row, DatabaseUpdates(form)));
      FormFromLink(merged).shortUrl == form.shortUrl
  {
    assert UseLinks.SHORT_URL_PREFIX == "localhost:3000" + ['/'];
    LastPieceAfter("localhost:3000", form.shortUrl, '/');
  }

  const SAVE_FAILED: string := "Failed to update link in database"
  const NAVIGATION_DELAY_MS: nat := 1800

  /** The toast of a save that went through. */
  function SavedToast(shortUrl: string): (t: LinkDashboard.Toast)
    ensures t.show && t.kind == LinkDashboard.SuccessToast && t.title == "Link Updated Successfully"
    ensures t.description == "Changes to " + shortUrl + " have been saved and will take effect immediately."
  {
    LinkDashboard.Toast(true, LinkDashboard.SuccessToast, "Link Updated Successfully",
      "Changes to " + shortUrl + " have been saved and will take effect immediately.")
  }

  const SAVE_FAILED_TOAST: LinkDashboard.Toast :=
    LinkDashboard.Toast(true, LinkDashboard.ErrorToast, "Failed to Update Link", SAVE_FAILED)

  class LinkDetail {
    const linkId: string
    /** The `useLinks()` context the page reads. */
    const provider: UseLinks.LinksProvider
    var form: LinkForm
    var toast: LinkDashboard.Toast
    /** The delay of the scheduled `router.push('/')`, if one is scheduled. */
    var navigation: Option<nat>

    constructor(linkId: string, provider: UseLinks.LinksProvider)
      ensures this.linkId == linkId && this.provider == provider
      ensures form == EMPTY_FORM && toast == LinkDashboard.HIDDEN_TOAST && navigation.None?
    {
      this.linkId := linkId;
      this.provider := provider;
      form := EMPTY_FORM;
      toast := LinkDashboard.HIDDEN_TOAST;
      navigation := None;
    }

    /** The effect on `link`: fill the form when the link is in the cache. */
    method InitForm()
      modifies this
      ensures var link := UseLinks.GetLinkById(provider.links, linkId);
        form == if link.Some? then FormFromLink(link.value) else old(form)
      ensures toast == old(toast) && navigation == old(navigation)
    {
      var link := UseLinks.GetLinkById(provider.links, linkId);
      if link.Some? {
        form := FormFromLink(link.value);
      }
    }

    method ChangeField(f: FormField)
      modifies this
      ensures form == WithField(old(form), f)
      ensures toast == old(toast) && navigation == old(navigation)
    {
      form := WithField(form, f);
    }

    /** `handleSave`, with the database and whether its update comes back
        with an error.  Returns the database afterwards. */
    method HandleSave(db: SupabaseHelpers.Db, updateFails: bool) returns (dbAfter: SupabaseHelpers.Db)
      modifies this, provider
      ensures UseLinks.GetLinkById(old(provider.links), linkId).None? ==>
        && dbAfter == db && toast == old(toast) && navigation == old(navigation)
        && provider.links == old(provider.links)
      ensures UseLinks.GetLinkById(old(provider.links), linkId).Some? ==>
        var (after, row) := UpdateDatabaseLink(db, linkId, DatabaseUpdates(old(form)), updateFails);
        && dbAfter == after
        && (row.Some? ==>
              && provider.links == UseLinks.MergeInto(old(provider.links), linkId, row.value)
              && toast == SavedToast(old(form).shortUrl)
              && navigation == Some(NAVIGATION_DELAY_MS))
        && (row.None? ==>
              && provider.links == old(provider.links) && navigation == old(navigation)
              && toast == SAVE_FAILED_TOAST)
      ensures form == old(form) && provider.error == old(provider.error)
    {
      dbAfter := db;
      var link := UseLinks.GetLinkById(provider.links, linkId);
      if link.None? {
        return;
      }
      var updates := DatabaseUpdates(form);
      var result := UpdateDatabaseLink(db, linkId, updates, updateFails);
      dbAfter := result.0;
      var answer := if result.1.Some? then UseLinks.Updated(result.1.value) else UseLinks.NoRow;
      var success := provider.UpdateLinkInDatabase(linkId, answer);
      ShowSaveOutcome(success);
    }

    /** The toast and the scheduled navigation that follow the update. */
    method ShowSaveOutcome(success: bool)
      modifies this
      ensures success ==> toast == SavedToast(form.shortUrl) && navigation == Some(NAVIGATION_DELAY_MS)
      ensures !success ==> toast == SAVE_FAILED_TOAST && navigation == old(navigation)
      ensures form == old(form)
    {
      if success {
        toast := SavedToast(form.shortUrl);
        navigation := Some(NAVIGATION_DELAY_MS);
      } else {
        toast := SAVE_FAILED_TOAST;
      }
    }

    /** `handleCloseToast`. */
    method HandleCloseToast()
      modifies this
      ensures toast == old(toast).(show := false)
      ensures form == old(form) && navigation == old(navigation)
    {
      toast := toast.(show := false);
    }
  }
}
