/** The user card of the sidebar (components/sidebar.tsx): the record shown
    when the `users` row cannot be read, the initials in the avatar, and the
    name and e-mail lines with their fallbacks. */
module Sidebar {
  import opened Common
  import opened Utils

  /** The `user_metadata` entries the fallback record reads. */
  datatype Metadata = Metadata(displayName: Option<string>, name: Option<string>, fullName: Option<string>)

  /** The signed-in auth user. */
  datatype AuthUser = AuthUser(id: string, createdAt: Option<string>, email: Option<string>, metadata: Option<Metadata>)

  /** `userData`: a `users` row, or the record built from the auth user. */
  datatype UserData = UserData(id: string, createdAt: string, name: Option<string>, email: Option<string>)

  /** What reading the `users` row gives: the row, an `error`, or a throw. */
  datatype UsersAnswer = Row(data: UserData) | QueryError(message: string) | Threw(e: Thrown)

  /** `display_name || name || full_name`: the first truthy entry, and the
      last one when none is. */
  function FallbackName(m: Option<Metadata>): (name: Option<string>)
    ensures Truthy(name) <==>
      m.Some? && (Truthy(m.value.displayName) || Truthy(m.value.name) || Truthy(m.value.fullName))
    ensures m.Some? && Truthy(m.value.displayName) ==> name == m.value.displayName
    ensures m.Some? && !Truthy(m.value.displayName) && Truthy(m.value.name) ==> name == m.value.name
    ensures Truthy(name) ==>
      name == m.value.displayName || name == m.value.name || name == m.value.fullName
  {
    if m.None? then None
    else if Truthy(m.value.displayName) then m.value.displayName
    else if Truthy(m.value.name) then m.value.name
    else m.value.fullName
  }

  /** The record built from the auth user when the `users` row cannot be
      read; `nowIso` is `new Date().toISOString()`. */
  function FallbackUser(user: AuthUser, nowIso: string): (u: UserData)
    ensures u.id == user.id && u.email == user.email
    ensures u.name == FallbackName(user.metadata)
    ensures Truthy(user.createdAt) ==> u.createdAt == user.createdAt.value
    ensures !Truthy(user.createdAt) ==> u.createdAt == nowIso
  {
    UserData(user.id, OrElse(user.createdAt, nowIso), FallbackName(user.metadata), user.email)
  }

  /** `fetchUserData`: the row when the query succeeds, the fallback record
      when it reports an error or throws, and the previous value when there
      is no signed-in user id.  The second result is the message handed to
      `showErrorToast` in the throwing case. */
  function LoadUserData(user: Option<AuthUser>, answer: UsersAnswer, nowIso: string, previous: Option<UserData>)
    : (r: (Option<UserData>, Option<string>))
    ensures user.None? || user.value.id == "" ==> r == (previous, None)
    ensures user.Some? && user.value.id != "" && answer.Row? ==> r == (Some(answer.data), None)
    ensures user.Some? && user.value.id != "" && !answer.Row? ==> r.0 == Some(FallbackUser(user.value, nowIso))
    ensures r.1.Some? <==> user.Some? && user.value.id != "" && answer.Threw?
    ensures r.1.Some? ==> r.1.value == ShowErrorToast(answer.e, "Failed to fetch user data")
  {
    if user.None? || user.value.id == "" then (previous, None)
    else match answer
      case Row(data) => (Some(data), None)
      case QueryError(_) => (Some(FallbackUser(user.value, nowIso)), None)
      case Threw(e) => (Some(FallbackUser(user.value, nowIso)), Some(ShowErrorToast(e, "Failed to fetch user data")))
  }

  // -------------------------------------------------------------- initials

  predicate IsLowerAscii(c: char) {
    'a' <= c <= 'z'
  }

  /** No lower-case ASCII letter anywhere in s. */
  predicate NoLowerAscii(s: string) {
    forall k :: 0 <= k < |s| ==> !IsLowerAscii(s[k])
  }

  /** `toUpperCase` on one character, for the ASCII letters. */
  function UpperAscii(c: char): (u: char)
    ensures !IsLowerAscii(u)
    ensures IsLowerAscii(c) ==> u as int == c as int - 32
    ensures !IsLowerAscii(c) ==> u == c
  {
    if IsLowerAscii(c) then (c as int - 32) as char else c
  }

  /** `toUpperCase`, character by character. */
  function ToUpper(s: string): (u: string)
    ensures |u| == |s| && forall k :: 0 <= k < |s| ==> u[k] == UpperAscii(s[k])
    ensures NoLowerAscii(u)
  {
    seq(|s|, k requires 0 <= k < |s| => UpperAscii(s[k]))
  }

  /** `substring(0, 2)`. */
  function FirstTwo(s: string): (p: string)
    ensures |p| == (if |s| < 2 then |s| else 2) && p == s[..|p|]
  {
    if |s| < 2 then s else s[..2]
  }

  /** `name.trim().split(' ')`. */
  function NameParts(name: string): (parts: seq<string>)
    ensures |parts| >= 1
  {
    Split(Trim(name), ' ')
  }

  /** The trimmed name splits into two parts or more exactly when it holds a space. */
  lemma {:induction false} SpaceSplits(t: string)
    ensures |Split(t, ' ')| >= 2 <==> ' ' in t
  {
    if ' ' !in t {
      SplitNoSeparator(t, ' ');
    }
  }

  /** In a trimmed name with a space, the first part starts the name and the
      last part is the non-empty text after its last space. */
  lemma {:induction false} OuterParts(name: string)
    ensures var parts := NameParts(name); var t := Trim(name);
      && (|parts| >= 2 <==> ' ' in t)
      && (|parts| >= 2 ==>
            && parts[0] != "" && parts[0][0] == t[0]
            && parts[|parts| - 1] == LastPiece(t, ' ') && LastPiece(t, ' ') != "")
  {
    SpacedParts(Trim(name));
  }

  /** The same facts about a string with no whitespace at either end. */
  lemma {:induction false} SpacedParts(t: string)
    requires IsTrimmed(t)
    ensures var parts := Split(t, ' ');
      && (|parts| >= 2 <==> ' ' in t)
      && (|parts| >= 2 ==> parts[0] != "" && parts[0][0] == t[0] && LastPiece(t, ' ') != "")
  {
    var parts := Split(t, ' ');
    SpaceSplits(t);
    if |parts| >= 2 {
      assert t == parts[0] + [' '] + Join(parts[1..], [' ']);
      assert t[0] != ' ';
      LastPieceIsSuffix(t, ' ');
      assert t[|t| - 1] != ' ';
    }
  }

  /** The initials taken from a non-empty name: when the trimmed name holds a
      space, the first character of the trimmed name and the first character
      after its last space; otherwise the first two characters of the name
      as stored.  Upper-cased either way. */
  function NameInitials(name: string): (r: string)
    requires name != ""
    ensures 1 <= |r| <= 2
    ensures NoLowerAscii(r)
    ensures var t := Trim(name); var last := LastPiece(t, ' ');
      ' ' in t ==> last != "" && r == ToUpper([t[0], last[0]])
    ensures ' ' !in Trim(name) ==> r == ToUpper(FirstTwo(name))
  {
    var parts := NameParts(name);
    OuterParts(name);
    if |parts| >= 2 then
      var r := ToUpper([parts[0][0], parts[|parts| - 1][0]]);
      assert r == ToUpper([Trim(name)[0], LastPiece(Trim(name), ' ')[0]]);
      r
    else
      ToUpper(FirstTwo(name))
  }

  /** `getInitials`. */
  function GetInitials(userData: Option<UserData>): (r: string)
    ensures 1 <= |r| <= 2
    ensures NoLowerAscii(r)
  {
    if userData.Some? && Truthy(userData.value.name) then
      NameInitials(userData.value.name.value)
    else if userData.Some? && Truthy(userData.value.email) then
      ToUpper(FirstTwo(userData.value.email.value))
    else
      "U"
  }


  /** A first and a last word give their first letters, upper-cased. */
  lemma TwoWordInitials(u: UserData, first: string, last: string)
    requires first != "" && last != "" && ' ' !in first && ' ' !in last
    requires !IsWhitespace(first[0]) && !IsWhitespace(last[|last| - 1])
    requires u.name == Some(first + " " + last)
    ensures GetInitials(Some(u)) == [UpperAscii(first[0]), UpperAscii(last[0])]
  {
    assert Join([first, last], " ") == first + " " + last;
    ManyWordInitials(u, [first, last]);
  }

  /** A name of one word keeps the first two characters of the name as
      stored, before trimming: a leading space is one of them. */
  lemma OneWordInitials(u: UserData, w: string)
    requires w != "" && ' ' !in w && IsTrimmed(w)
    requires u.name == Some(" " + w)
    ensures GetInitials(Some(u)) == [' ', UpperAscii(w[0])]
  {
    var name := " " + w;
    OneWordParts(w);
    assert FirstTwo(name) == [' ', w[0]];
    assert NameInitials(name) == ToUpper([' ', w[0]]);
  }

  /** A name of one word, stored trimmed, gives its first two characters,
      upper-cased. */
  lemma {:induction false} OneTrimmedWordInitials(u: UserData, w: string)
    requires w != "" && ' ' !in w && IsTrimmed(w)
    requires u.name == Some(w)
    ensures GetInitials(Some(u)) == ToUpper(FirstTwo(w))
  {
    assert Trim(w) == w;
  }

  /** A name joined from parts of two or more starts with the first part,
      holds a space, and ends with the last part, which follows its last space. */
  lemma {:induction false} JoinedName(parts: seq<string>)
    requires |parts| >= 2 && forall k :: 0 <= k < |parts| ==> ' ' !in parts[k]
    requires parts[0] != ""
    ensures var name := Join(parts, " ");
      && name != "" && name[0] == parts[0][0] && ' ' in name
      && LastPiece(name, ' ') == parts[|parts| - 1]
  {
    var name := Join(parts, " ");
    assert name == parts[0] + " " + Join(parts[1..], " ");
    assert name[|parts[0]|] == ' ';
    LastPieceOfJoin(parts, ' ');
  }

  /** A trimmed name of two parts or more gives the first letters of its
      first and last parts, upper-cased; the parts between do not matter. */
  lemma {:induction false} ManyWordInitials(u: UserData, parts: seq<string>)
    requires |parts| >= 2 && forall k :: 0 <= k < |parts| ==> ' ' !in parts[k]
    requires parts[0] != "" && parts[|parts| - 1] != ""
    requires !IsWhitespace(parts[0][0])
    requires var last := parts[|parts| - 1]; !IsWhitespace(last[|last| - 1])
    requires u.name == Some(Join(parts, " "))
    ensures GetInitials(Some(u)) == [UpperAscii(parts[0][0]), UpperAscii(parts[|parts| - 1][0])]
  {
    var name := Join(parts, " ");
    var last := parts[|parts| - 1];
    JoinedName(parts);
    assert Trim(name) == name by {
      LastPieceIsSuffix(name, ' ');
      assert name[|name| - 1] == last[|last| - 1];
    }
    InitialsOfSpacedName(name, last);
  }

  /** The initials of a trimmed name with a space whose last space is
      followed by `last`. */
  lemma {:induction false} InitialsOfSpacedName(name: string, last: string)
    requires name != "" && Trim(name) == name && ' ' in name && LastPiece(name, ' ') == last
    ensures last != "" && NameInitials(name) == [UpperAscii(name[0]), UpperAscii(last[0])]
  {
    var r := NameInitials(name);
    assert r == ToUpper([name[0], last[0]]);
  }




  /** A word after a leading space is the only part. */
  lemma OneWordParts(w: string)
    requires ' ' !in w && IsTrimmed(w)
    ensures NameParts(" " + w) == [w]
  {
    TrimLeadingSpace(" ", w);
    SplitNoSeparator(w, ' ');
  }

  /** Without a truthy name the e-mail's first two characters are used, and
      with neither the avatar shows "U". */
  lemma InitialsWithoutName(u: UserData)
    requires !Truthy(u.name)
    ensures Truthy(u.email) ==> GetInitials(Some(u)) == ToUpper(FirstTwo(u.email.value))
    ensures !Truthy(u.email) ==> GetInitials(Some(u)) == "U"
    ensures GetInitials(None) == "U"
  {
  }

  // ---------------------------------------------------------------- labels

  /** `userData?.name || 'User'`. */
  function DisplayName(userData: Option<UserData>): (s: string)
    ensures s != ""
    ensures userData.Some? && Truthy(userData.value.name) ==> s == userData.value.name.value
    ensures !(userData.Some? && Truthy(userData.value.name)) ==> s == "User"
  {
    if userData.Some? then OrElse(userData.value.name, "User") else "User"
  }

  /** `userData?.email || 'No email'`. */
  function DisplayEmail(userData: Option<UserData>): (s: string)
    ensures s != ""
    ensures userData.Some? && Truthy(userData.value.email) ==> s == userData.value.email.value
    ensures !(userData.Some? && Truthy(userData.value.email)) ==> s == "No email"
  {
    if userData.Some? then OrElse(userData.value.email, "No email") else "No email"
  }

  /** The fallback record shows the display name from the metadata when
      there is one, and the e-mail of the auth user. */
  lemma FallbackCardShowsMetadata(user: AuthUser, nowIso: string)
    requires user.metadata.Some? && Truthy(user.metadata.value.displayName)
    ensures DisplayName(Some(FallbackUser(user, nowIso))) == user.metadata.value.displayName.value
    ensures DisplayEmail(Some(FallbackUser(user, nowIso))) == OrElse(user.email, "No email")
  {
  }
}
