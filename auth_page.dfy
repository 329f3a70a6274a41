/** The magic-link sign-in page (app/auth/page.tsx): the e-mail pattern
    `^[^\s@]+@[^\s@]+\.[^\s@]+$`, the request `signInWithEmail` sends, the
    way it turns a throw into an `error`, and `handleSubmit`. */
module AuthPage {
  import opened Common
  import opened Utils

  // ----------------------------------------------------------------- email

  /** `[^\s@]`. */
  predicate Plain(c: char) {
    !IsWhitespace(c) && c != '@'
  }

  predicate AllPlain(s: string) {
    forall k :: 0 <= k < |s| ==> Plain(s[k])
  }

  /** The whole string matches the pattern: a non-empty local part, '@', a
      non-empty domain (dots allowed), '.', and a non-empty last label, none
      of them holding whitespace or '@'. */
  ghost predicate MatchesEmailPattern(s: string) {
    exists i, j :: 0 < i && i + 1 < j && j + 1 < |s| && s[i] == '@' && s[j] == '.'
      && AllPlain(s[..i]) && AllPlain(s[i + 1..j]) && AllPlain(s[j + 1..])
  }

  /** The position of the first c, or |s|. */
  function IndexOf(s: string, c: char): (i: nat)
    ensures i <= |s| && (i < |s| ==> s[i] == c)
    ensures forall k :: 0 <= k < i ==> s[k] != c
  {
    if s == [] then 0
    else if s[0] == c then 0
    else 1 + IndexOf(s[1..], c)
  }

  /** `emailRegex.test(email)`, decided directly: a local part before the
      first '@', nothing after it but pattern characters, and a '.' that is
      neither the first character of the domain nor the last of the string. */
  predicate IsValidEmail(s: string) {
    var i := IndexOf(s, '@');
    && 0 < i < |s|
    && AllPlain(s[..i]) && AllPlain(s[i + 1..])
    && exists j :: i + 1 < j < |s| - 1 && s[j] == '.'
  }

  lemma {:induction false} AllPlainSlices(s: string, i: nat, j: nat)
    requires i <= j <= |s| && AllPlain(s)
    ensures AllPlain(s[i..j])
  {
    assert forall k :: 0 <= k < j - i ==> s[i..j][k] == s[i + k];
  }

  lemma CheckGivesPattern(s: string)
    requires IsValidEmail(s)
    ensures MatchesEmailPattern(s)
  {
    var i := IndexOf(s, '@');
    var j :| i + 1 < j < |s| - 1 && s[j] == '.';
    var rest := s[i + 1..];
    AllPlainSlices(rest, 0, j - (i + 1));
    AllPlainSlices(rest, j - i, |rest|);
    assert rest[0..j - (i + 1)] == s[i + 1..j];
    assert rest[j - i..|rest|] == s[j + 1..];
  }

  lemma PatternGivesCheck(s: string)
    requires MatchesEmailPattern(s)
    ensures IsValidEmail(s)
  {
    var a, b :| 0 < a && a + 1 < b && b + 1 < |s| && s[a] == '@' && s[b] == '.'
      && AllPlain(s[..a]) && AllPlain(s[a + 1..b]) && AllPlain(s[b + 1..]);
    FirstAt(s, a);
    PlainAfterAt(s, a, b);
  }

  /** An '@' with only pattern characters before it is the first '@'. */
  lemma FirstAt(s: string, a: nat)
    requires a < |s| && s[a] == '@' && AllPlain(s[..a])
    ensures IndexOf(s, '@') == a
  {
    assert forall k :: 0 <= k < a ==> s[..a][k] == s[k];
  }

  /** Pattern characters on both sides of the '.' make the whole part after
      the '@' plain. */
  lemma PlainAfterAt(s: string, a: nat, b: nat)
    requires a + 1 < b < |s| && s[b] == '.' && AllPlain(s[a + 1..b]) && AllPlain(s[b + 1..])
    ensures AllPlain(s[a + 1..])
  {
    forall k | a + 1 <= k < |s|
      ensures Plain(s[k])
    {
      if k < b {
        assert s[a + 1..b][k - (a + 1)] == s[k];
      } else if k > b {
        assert s[b + 1..][k - (b + 1)] == s[k];
      }
    }
    var rest := s[a + 1..];
    assert forall k :: 0 <= k < |rest| ==> rest[k] == s[a + 1 + k];
  }

  /** The check decides the pattern. */
  lemma EmailCheckMatchesPattern(s: string)
    ensures IsValidEmail(s) <==> MatchesEmailPattern(s)
  {
    if IsValidEmail(s) {
      CheckGivesPattern(s);
    }
    if MatchesEmailPattern(s) {
      PatternGivesCheck(s);
    }
  }

  /** What an accepted address looks like: no whitespace, exactly one '@'
      (not first), and a '.' after it that is neither right after the '@'
      nor the last character. */
  lemma AcceptedEmailShape(s: string)
    requires IsValidEmail(s)
    ensures forall k :: 0 <= k < |s| ==> !IsWhitespace(s[k])
    ensures exists i :: (0 < i < |s| && s[i] == '@' && (forall k :: 0 <= k < |s| && s[k] == '@' ==> k == i)
                        && (exists j :: i + 1 < j < |s| - 1 && s[j] == '.'))
  {
    var i := IndexOf(s, '@');
    forall k | 0 <= k < |s|
      ensures !IsWhitespace(s[k]) && (s[k] == '@' ==> k == i)
    {
      if k < i {
        assert s[..i][k] == s[k];
      } else if k > i {
        assert s[i + 1..][k - i - 1] == s[k];
      }
    }
  }

  /** An address whose only '@' has no '.' after it, or whose '@' comes
      first, is refused. */
  lemma RefusedShapes(local: string, domain: string)
    requires '@' !in local && '.' !in domain
    ensures !IsValidEmail(local + "@" + domain)
    ensures !IsValidEmail("@" + domain)
  {
    var s := local + "@" + domain;
    assert forall k :: 0 <= k < |local| ==> s[k] == local[k];
    assert s[|local|] == '@';
    assert IndexOf(s, '@') == |local|;
    assert forall j :: |local| + 1 < j < |s| - 1 ==> s[j] == domain[j - |local| - 1];
    assert ("@" + domain)[0] == '@';
  }

  /** Every local part, domain and last label made of pattern characters
      gives an accepted address; the domain may itself hold dots. */
  lemma AcceptsEveryPatternAddress(local: string, domain: string, tld: string)
    requires local != "" && domain != "" && tld != ""
    requires AllPlain(local) && AllPlain(domain) && AllPlain(tld)
    ensures IsValidEmail(local + "@" + domain + "." + tld)
  {
    var s := local + "@" + domain + "." + tld;
    var i, j := |local|, |local| + 1 + |domain|;
    assert s[..i] == local && s[i + 1..j] == domain && s[j + 1..] == tld;
    assert s[i] == '@' && s[j] == '.';
    PatternGivesCheck(s);
  }

  // --------------------------------------------------------------- sign-in

  /** The `options.data` of the OTP request: `{ display_name: name }` when
      the name is non-empty, `{}` otherwise. */
  function SignInMetadata(name: string): (displayName: Option<string>)
    ensures displayName.Some? <==> name != ""
    ensures displayName.Some? ==> displayName.value == name
  {
    if name != "" then Some(name) else None
  }

  /** A `signInWithOtp` call: the address and the display name it carries. */
  datatype OtpRequest = OtpRequest(email: string, displayName: Option<string>)

  /** How `signInWithOtp` answers: `{ error }` with a message or without an
      error, or a throw.  `ClientFailed` is `createClient()` throwing, which
      happens before the `try` of `signInWithEmail`. */
  datatype OtpAnswer = ClientFailed | Returned(error: Option<string>) | Threw(e: Thrown)

  const AUTH_DEFAULT_ERROR: string := "Authentication error occurred"

  /** The `error` `signInWithEmail` returns (its message, when present) for
      an answer other than `ClientFailed`. */
  function SignInError(answer: OtpAnswer): (error: Option<string>)
    requires !answer.ClientFailed?
    ensures answer.Returned? ==> error == answer.error
    ensures answer.Threw? ==> error == Some(ShowErrorToast(answer.e, AUTH_DEFAULT_ERROR))
  {
    if answer.Returned? then answer.error else Some(ShowErrorToast(answer.e, AUTH_DEFAULT_ERROR))
  }

  /** A throw inside the call always counts as a failure, never as success. */
  lemma ThrowIsNeverSuccess(e: Thrown)
    ensures SignInError(Threw(e)).Some?
    ensures e.OtherValue? ==> SignInError(Threw(e)) == Some(AUTH_DEFAULT_ERROR)
  {
  }

  datatype ToastKind = SuccessToast | ErrorToast

  /** A `toast.success` or `toast.error` call. */
  datatype Toast = Toast(kind: ToastKind, title: string, description: string)

  const INVALID_EMAIL: Toast := Toast(ErrorToast, "Invalid email format", "Please enter a valid email address.")
  const LINK_SENT: Toast := Toast(SuccessToast, "Magic link sent!", "Check your email for the login link.")
  const UNEXPECTED: Toast := Toast(ErrorToast, "An unexpected error occurred", "Please try again later.")

  /** `toast.error("Failed to send magic link", …)` for an error message. */
  function FailureToast(message: string): (t: Toast)
    ensures t.kind == ErrorToast && t.title == "Failed to send magic link" && t.description != ""
    ensures message != "" ==> t.description == message
  {
    Toast(ErrorToast, "Failed to send magic link", if message != "" then message else "Please try again later.")
  }

  class AuthPage {
    var name: string
    var email: string
    var isLoading: bool
    var isSubmitted: bool
    /** The toasts shown, oldest first. */
    var toasts: seq<Toast>
    /** The `signInWithOtp` calls made, oldest first. */
    var requests: seq<OtpRequest>

    constructor()
      ensures name == "" && email == "" && !isLoading && !isSubmitted && toasts == [] && requests == []
    {
      name := "";
      email := "";
      isLoading := false;
      isSubmitted := false;
      toasts := [];
      requests := [];
    }

    /** `handleSubmit` with `answer` as the outcome of the sign-in call. */
    method HandleSubmit(answer: OtpAnswer)
      modifies this
      ensures name == old(name) && email == old(email)
      ensures !IsValidEmail(email) ==>
        && toasts == old(toasts) + [INVALID_EMAIL] && requests == old(requests)
        && isLoading == old(isLoading) && isSubmitted == old(isSubmitted)
      ensures IsValidEmail(email) ==> !isLoading
      ensures IsValidEmail(email) && answer.ClientFailed? ==>
        toasts == old(toasts) + [UNEXPECTED] && requests == old(requests) && isSubmitted == old(isSubmitted)
      ensures IsValidEmail(email) && !answer.ClientFailed? ==>
        requests == old(requests) + [OtpRequest(email, SignInMetadata(name))]
      ensures IsValidEmail(email) && !answer.ClientFailed? && SignInError(answer).Some? ==>
        toasts == old(toasts) + [FailureToast(SignInError(answer).value)] && isSubmitted == old(isSubmitted)
      ensures IsValidEmail(email) && !answer.ClientFailed? && SignInError(answer).None? ==>
        toasts == old(toasts) + [LINK_SENT] && isSubmitted
    {
      if !IsValidEmail(email) {
        toasts := toasts + [INVALID_EMAIL];
        return;
      }
      isLoading := true;
      if answer.ClientFailed? {
        toasts := toasts + [UNEXPECTED];
      } else {
        requests := requests + [OtpRequest(email, SignInMetadata(name))];
        var error := SignInError(answer);
        if error.Some? {
          toasts := toasts + [FailureToast(error.value)];
        } else {
          toasts := toasts + [LINK_SENT];
          isSubmitted := true;
        }
      }
      isLoading := false;
    }
  }

  /** The page reaches its "check your email" state only through a request
      for a valid address that came back without an error. */
  lemma SubmittedOnlyAfterCleanAnswer(email: string, answer: OtpAnswer)
    requires IsValidEmail(email) && !answer.ClientFailed?
    ensures SignInError(answer).None? <==> answer.Returned? && answer.error.None?
  {
  }
}
