/** The "create link" dialog (components/link-modal.tsx): its form, the
    7-character random slug, and `handleCreateLink`, which validates the form,
    hands the data to `onCreateLink` and resets the form after success.
    `Math.random` is an oracle: the indices it leads to are a parameter. */
module LinkModal {
  import opened Common
  import opened Utils
  import LinkDashboard

  datatype ModalForm = ModalForm(
    destinationUrl: string,
    shortUrl: string,
    shortUrlDomain: string,
    tags: string,
    description: string,
    folder: string)

  const INITIAL_FORM: ModalForm := ModalForm("", "pOg8x1e", "links.sh", "", "", "links")

  /** The inputs `handleInputChange` is called for. */
  datatype ModalField = DestinationUrl | ShortUrl | ShortUrlDomain | Tags | Description | Folder

  /** `{ ...prev, [field]: value }`. */
  function WithInput(form: ModalForm, field: ModalField, value: string): (r: ModalForm)
    ensures field == DestinationUrl ==> r == form.(destinationUrl := value)
    ensures field == ShortUrl ==> r == form.(shortUrl := value)
    ensures field == ShortUrlDomain ==> r == form.(shortUrlDomain := value)
    ensures field == Tags ==> r == form.(tags := value)
    ensures field == Description ==> r == form.(description := value)
    ensures field == Folder ==> r == form.(folder := value)
  {
    match field
    case DestinationUrl => form.(destinationUrl := value)
    case ShortUrl => form.(shortUrl := value)
    case ShortUrlDomain => form.(shortUrlDomain := value)
    case Tags => form.(tags := value)
    case Description => form.(description := value)
    case Folder => form.(folder := value)
  }

  /** Setting an input twice keeps the last value; setting two different
      inputs commutes. */
  lemma InputChangesCommute(form: ModalForm, f: ModalField, g: ModalField, a: string, b: string)
    ensures WithInput(WithInput(form, f, a), f, b) == WithInput(form, f, b)
    ensures f != g ==> WithInput(WithInput(form, f, a), g, b) == WithInput(WithInput(form, g, b), f, a)
  {
  }

  // ---------------------------------------------------------- random slug

  /** Character k of "abc…zABC…Z01…9". */
  function AlphabetChar(k: nat): char
    requires k < 62
  {
    if k < 26 then ('a' as int + k) as char
    else if k < 52 then ('A' as int + (k - 26)) as char
    else ('0' as int + (k - 52)) as char
  }

  /** `chars`: the lower-case letters, the upper-case letters, the digits. */
  function Alphabet(): (chars: string)
    ensures |chars| == 62 && forall k :: 0 <= k < 62 ==> chars[k] == AlphabetChar(k)
  {
    seq(62, k requires 0 <= k < 62 => AlphabetChar(k))
  }
  const SLUG_LENGTH: nat := 7

  predicate IsAlphanumeric(c: char) {
    ('a' <= c <= 'z') || ('A' <= c <= 'Z') || ('0' <= c <= '9')
  }

  /** `Math.floor(Math.random() * chars.length)` draws, one per character. */
  predicate ValidDraws(draws: seq<nat>) {
    |draws| == SLUG_LENGTH && forall k :: 0 <= k < |draws| ==> draws[k] < 62
  }

  /** The slug the draws select. */
  function SlugOf(draws: seq<nat>): (s: string)
    requires ValidDraws(draws)
    ensures |s| == SLUG_LENGTH && forall k :: 0 <= k < SLUG_LENGTH ==> s[k] == Alphabet()[draws[k]]
  {
    seq(SLUG_LENGTH, k requires 0 <= k < SLUG_LENGTH => Alphabet()[draws[k]])
  }

  lemma AlphabetIsAlphanumeric()
    ensures |Alphabet()| == 62
    ensures forall k :: 0 <= k < |Alphabet()| ==> IsAlphanumeric(Alphabet()[k])
  {
  }

  /** `generateRandomShortUrl`: the loop appending one drawn character at a time. */
  method GenerateRandomShortUrl(draws: seq<nat>) returns (result: string)
    requires ValidDraws(draws)
    ensures result == SlugOf(draws)
  {
    result := "";
    var i := 0;
    while i < SLUG_LENGTH
      invariant 0 <= i <= SLUG_LENGTH
      invariant |result| == i && forall k :: 0 <= k < i ==> result[k] == Alphabet()[draws[k]]
    {
      result := result + [Alphabet()[draws[i]]];
      i := i + 1;
    }
  }

  /** A generated slug is seven alphanumeric characters: it survives the
      blank check, holds no '/', and is what the page stores as the slug. */
  lemma GeneratedSlugIsUsable(draws: seq<nat>, domain: string)
    requires ValidDraws(draws)
    ensures var s := SlugOf(draws);
      && |s| == 7 && (forall k :: 0 <= k < |s| ==> IsAlphanumeric(s[k]))
      && Trim(s) != "" && '/' !in s
      && LinkDashboard.ShortCode(domain + "/" + s) == s
  {
    var s := SlugOf(draws);
    AlphabetIsAlphanumeric();
    assert forall k :: 0 <= k < |s| ==> IsAlphanumeric(s[k]) && !IsWhitespace(s[k]);
    assert IsTrimmed(s);
    LinkDashboard.ShortCodeOfModalUrl(domain, s);
  }

  /** Every seven-character alphanumeric string can be generated. */
  lemma EverySlugCanBeDrawn(s: string)
    requires |s| == 7 && forall k :: 0 <= k < |s| ==> IsAlphanumeric(s[k])
    ensures exists draws :: ValidDraws(draws) && SlugOf(draws) == s
  {
    var draws := seq(7, k requires 0 <= k < 7 => IndexInAlphabet(s[k]));
    assert SlugOf(draws) == s;
  }

  function IndexInAlphabet(c: char): (n: nat)
    requires IsAlphanumeric(c)
    ensures n < |Alphabet()| && Alphabet()[n] == c
  {
    if 'a' <= c <= 'z' then (c as int - 'a' as int) as nat
    else if 'A' <= c <= 'Z' then 26 + (c as int - 'A' as int) as nat
    else 52 + (c as int - '0' as int) as nat
  }

  // ---------------------------------------------------------------- create

  const NO_DESTINATION: string := "Please enter a destination URL"
  const NO_SHORT_URL: string := "Please enter a short URL"

  /** The outcome of the two checks, in the order they run. */
  datatype Check = MissingDestination | MissingShortUrl | Passed

  /** `!s.trim()`: nothing but whitespace. */
  predicate Blank(s: string) {
    forall k :: 0 <= k < |s| ==> IsWhitespace(s[k])
  }

  /** A string is blank exactly when trimming it leaves nothing. */
  lemma BlankIffTrimEmpty(s: string)
    ensures Blank(s) <==> Trim(s) == ""
  {
  }

  /** A blank destination fails first, then a blank short URL. */
  function Validate(form: ModalForm): (c: Check)
    ensures c == MissingDestination <==> Blank(form.destinationUrl)
    ensures c == MissingShortUrl <==> !Blank(form.destinationUrl) && Blank(form.shortUrl)
    ensures c == Passed <==> !Blank(form.destinationUrl) && !Blank(form.shortUrl)
  {
    if Blank(form.destinationUrl) then MissingDestination
    else if Blank(form.shortUrl) then MissingShortUrl
    else Passed
  }

  /** What `onError` is given for a failed check. */
  function CheckMessage(c: Check): string
    requires c != Passed
  {
    if c == MissingDestination then NO_DESTINATION else NO_SHORT_URL
  }

  /** What `handleCreateLink` hands to `onCreateLink`. */
  function Request(form: ModalForm): (data: LinkDashboard.NewLinkData)
    ensures data.shortUrl == form.shortUrlDomain + "/" + form.shortUrl
    ensures data.destinationUrl == form.destinationUrl && data.description == form.description
    ensures data.tags == Some(form.tags)
  {
    LinkDashboard.NewLinkData(form.destinationUrl, form.shortUrlDomain + "/" + form.shortUrl,
                              form.description, Some(form.tags))
  }

  /** The slug the page stores is the short-URL field, when it is non-empty
      and holds no '/'; the domain never reaches the table. */
  lemma ModalSlugReachesDatabase(userId: string, form: ModalForm)
    requires form.shortUrl != "" && '/' !in form.shortUrl
    ensures LinkDashboard.BuildLinkData(userId, Request(form)).slug == form.shortUrl
  {
    LinkDashboard.ShortCodeOfModalUrl(form.shortUrlDomain, form.shortUrl);
  }

  /** The form after a successful create: the initial form with a new short URL. */
  function ResetForm(slug: string): (form: ModalForm)
    ensures form == INITIAL_FORM.(shortUrl := slug)
  {
    ModalForm("", slug, "links.sh", "", "", "links")
  }

  class LinkModal {
    var form: ModalForm
    var isLoading: bool
    var conversionTracking: bool
    /** The messages passed to `onError`, oldest first. */
    var errors: seq<string>
    /** The calls made to `onCreateLink`, oldest first. */
    var requests: seq<LinkDashboard.NewLinkData>

    constructor()
      ensures form == INITIAL_FORM && !isLoading && !conversionTracking && errors == [] && requests == []
    {
      form := INITIAL_FORM;
      isLoading := false;
      conversionTracking := false;
      errors := [];
      requests := [];
    }

    /** `handleInputChange(field, value)`. */
    method HandleInputChange(field: ModalField, value: string)
      modifies this
      ensures form == WithInput(old(form), field, value)
      ensures isLoading == old(isLoading) && errors == old(errors) && requests == old(requests)
      ensures conversionTracking == old(conversionTracking)
    {
      form := WithInput(form, field, value);
    }

    /** `handleRefreshClick`: a new random short URL. */
    method HandleRefreshClick(draws: seq<nat>)
      requires ValidDraws(draws)
      modifies this
      ensures form == old(form).(shortUrl := SlugOf(draws))
      ensures isLoading == old(isLoading) && errors == old(errors) && requests == old(requests)
    {
      var slug := GenerateRandomShortUrl(draws);
      HandleInputChange(ShortUrl, slug);
    }

    /** `handleCreateLink`.  `thrown` is what `onCreateLink` rejects with, if
        anything; `draws` feed the slug of the reset form. */
    method HandleCreateLink(thrown: Option<Thrown>, draws: seq<nat>)
      requires ValidDraws(draws)
      modifies this
      ensures !isLoading && conversionTracking == old(conversionTracking)
      ensures Validate(old(form)) != Passed ==>
        && errors == old(errors) + [CheckMessage(Validate(old(form)))] && requests == old(requests) && form == old(form)
      ensures Validate(old(form)) == Passed ==> requests == old(requests) + [Request(old(form))]
      ensures Validate(old(form)) == Passed && thrown.Some? ==>
        && errors == old(errors) + [if thrown.value.ErrorInstance? then thrown.value.message else "An error occurred"]
        && form == old(form)
      ensures Validate(old(form)) == Passed && thrown.None? ==>
        && errors == old(errors) && form == ResetForm(SlugOf(draws))
    {
      var check := Validate(form);
      if check != Passed {
        errors := errors + [CheckMessage(check)];
        isLoading := false;
        return;
      }
      isLoading := true;
      requests := requests + [Request(form)];
      if thrown.Some? {
        var e := thrown.value;
        errors := errors + [if e.ErrorInstance? then e.message else "An error occurred"];
      } else {
        var slug := GenerateRandomShortUrl(draws);
        form := ResetForm(slug);
      }
      isLoading := false;
    }
  }

  /** The form after a successful create fails the destination check until
      a URL is entered, and then passes: its new short URL is never blank. */
  lemma ResetFormNeedsDestination(draws: seq<nat>)
    requires ValidDraws(draws)
    ensures Validate(ResetForm(SlugOf(draws))) == MissingDestination
    ensures forall url :: Trim(url) != "" ==> Validate(ResetForm(SlugOf(draws)).(destinationUrl := url)) == Passed
  {
    var slug := SlugOf(draws);
    GeneratedSlugIsUsable(draws, "links.sh");
    BlankIffTrimEmpty(slug);
    BlankIffTrimEmpty("");
    forall url | Trim(url) != ""
      ensures Validate(ResetForm(slug).(destinationUrl := url)) == Passed
    {
      BlankIffTrimEmpty(url);
    }
  }
}
