/** Value helpers shared by every module: optional values, JavaScript
    truthiness of strings (`s || fallback`), the whitespace class that both
    `String.prototype.trim` and the regular-expression class `\s` use,
    `split`/`join` on a one-character separator, and decimal text of naturals. */
module Common {

  datatype Option<+T> = None | Some(value: T)

  /** The outcome of a call that either returns a value or throws. */
  datatype Result<+T, +E> = Success(value: T) | Failure(error: E)

  /** A string is truthy in JavaScript when it is present and not "". */
  predicate Truthy(s: Option<string>) {
    s.Some? && s.value != ""
  }

  /** JavaScript `s || fallback` for an optional string. */
  function OrElse(s: Option<string>, fallback: string): string {
    if Truthy(s) then s.value else fallback
  }

  /** The characters ECMAScript counts as WhiteSpace or LineTerminator:
      what `trim` removes and what the regular-expression class `\s` matches. */
  predicate IsWhitespace(c: char) {
    || c == '\t' || c == '\n' || c == '\U{000B}' || c == '\U{000C}' || c == '\r'
    || c == ' ' || c == '\U{00A0}' || c == '\U{1680}'
    || ('\U{2000}' <= c <= '\U{200A}')
    || c == '\U{2028}' || c == '\U{2029}' || c == '\U{202F}' || c == '\U{205F}'
    || c == '\U{3000}' || c == '\U{FEFF}'
  }

  /** No whitespace at either end. */
  predicate IsTrimmed(s: string) {
    s == [] || (!IsWhitespace(s[0]) && !IsWhitespace(s[|s| - 1]))
  }

  function TrimStart(s: string): (r: string)
    ensures |r| <= |s| && r == s[|s| - |r|..]
    ensures r != [] ==> !IsWhitespace(r[0])
    ensures forall k :: 0 <= k < |s| - |r| ==> IsWhitespace(s[k])
  {
    if s != [] && IsWhitespace(s[0]) then TrimStart(s[1..]) else s
  }

  function TrimEnd(s: string): (r: string)
    ensures |r| <= |s| && r == s[..|r|]
    ensures r != [] ==> !IsWhitespace(r[|r| - 1])
    ensures forall k :: |r| <= k < |s| ==> IsWhitespace(s[k])
  {
    if s != [] && IsWhitespace(s[|s| - 1]) then TrimEnd(s[..|s| - 1]) else s
  }

  /** `String.prototype.trim`: the longest middle slice of s with no
      whitespace at either end, obtained by dropping whitespace only. */
  function Trim(s: string): (r: string)
    ensures IsTrimmed(r) && |r| <= |s|
    ensures IsTrimmed(s) ==> r == s
  {
    if IsTrimmed(s) then
      TrimStartOfTrimmed(s);
      TrimEndOfTrimmed(s);
      TrimEnd(TrimStart(s))
    else
      TrimEnd(TrimStart(s))
  }

  lemma {:induction false} TrimStartOfTrimmed(s: string)
    requires s == [] || !IsWhitespace(s[0])
    ensures TrimStart(s) == s
  {
  }

  lemma {:induction false} TrimEndOfTrimmed(s: string)
    requires s == [] || !IsWhitespace(s[|s| - 1])
    ensures TrimEnd(s) == s
  {
  }

  /** Trimming removes leading whitespace and nothing else of a trimmed string. */
  lemma {:induction false} TrimLeadingSpace(w: string, s: string)
    requires forall k :: 0 <= k < |w| ==> IsWhitespace(w[k])
    requires IsTrimmed(s)
    ensures Trim(w + s) == s
  {
    if w == [] {
      assert w + s == s;
      TrimStartOfTrimmed(s);
      TrimEndOfTrimmed(s);
    } else {
      assert (w + s)[1..] == w[1..] + s;
      TrimLeadingSpace(w[1..], s);
      assert TrimStart(w + s) == TrimStart(w[1..] + s);
    }
  }

  /** `String.prototype.split` with a one-character separator: the pieces
      between separators, at least one, possibly empty. */
  function Split(s: string, sep: char): (parts: seq<string>)
    ensures |parts| >= 1
    ensures forall k :: 0 <= k < |parts| ==> sep !in parts[k]
    ensures Join(parts, [sep]) == s
  {
    if s == [] then [[]]
    else
      var rest := Split(s[1..], sep);
      if s[0] == sep then
        assert [[]] + rest == [[]] + [rest[0]] + rest[1..];
        [[]] + rest
      else
        var parts := [[s[0]] + rest[0]] + rest[1..];
        assert |rest| > 1 ==> Join(rest, [sep]) == rest[0] + [sep] + Join(rest[1..], [sep]);
        assert |parts| > 1 ==> parts[1..] == rest[1..];
        parts
  }

  /** `Array.prototype.join`. */
  function Join(parts: seq<string>, sep: string): string {
    if |parts| == 0 then ""
    else if |parts| == 1 then parts[0]
    else parts[0] + sep + Join(parts[1..], sep)
  }

  lemma {:induction false} SplitNoSeparator(s: string, sep: char)
    requires sep !in s
    ensures Split(s, sep) == [s]
  {
    if s != [] {
      SplitNoSeparator(s[1..], sep);
    }
  }

  lemma {:induction false} SplitAtSeparator(a: string, b: string, sep: char)
    requires sep !in a
    ensures Split(a + [sep] + b, sep) == [a] + Split(b, sep)
  {
    if a == [] {
      assert (a + [sep] + b)[1..] == b;
    } else {
      assert (a + [sep] + b)[1..] == a[1..] + [sep] + b;
      SplitAtSeparator(a[1..], b, sep);
      assert [a[0]] + a[1..] == a;
    }
  }

  /** Splitting a join recovers the pieces when no piece holds the separator. */
  lemma {:induction false} SplitJoin(ts: seq<string>, sep: char)
    requires |ts| >= 1
    requires forall k :: 0 <= k < |ts| ==> sep !in ts[k]
    ensures Split(Join(ts, [sep]), sep) == ts
  {
    if |ts| == 1 {
      SplitNoSeparator(ts[0], sep);
    } else {
      SplitJoin(ts[1..], sep);
      SplitAtSeparator(ts[0], Join(ts[1..], [sep]), sep);
      assert [ts[0]] + ts[1..] == ts;
    }
  }

  /** The text after the last separator (`s.split(sep).pop()`). */
  function LastPiece(s: string, sep: char): (r: string)
    ensures sep !in r
  {
    var parts := Split(s, sep);
    parts[|parts| - 1]
  }

  /** The last piece is a separator-free suffix of s, preceded by a
      separator when s holds one, and all of s when it holds none. */
  lemma {:induction false} LastPieceIsSuffix(s: string, sep: char)
    ensures var r := LastPiece(s, sep);
      && |r| <= |s| && r == s[|s| - |r|..]
      && (sep in s ==> |r| < |s| && s[|s| - |r| - 1] == sep)
      && (sep !in s ==> r == s)
  {
    var parts := Split(s, sep);
    var n := |parts|;
    if n == 1 {
      assert Join(parts, [sep]) == parts[0];
    } else {
      assert parts == parts[..n - 1] + [parts[n - 1]];
      JoinAppend(parts[..n - 1], parts[n - 1], [sep]);
      var head := Join(parts[..n - 1], [sep]);
      assert s == head + [sep] + parts[n - 1];
      assert s[|head|] == sep;
      assert s[|head| + 1..] == parts[n - 1];
    }
  }

  /** The last piece of `prefix + [sep] + tail` is tail when tail holds no separator. */
  lemma {:induction false} LastPieceAfter(prefix: string, tail: string, sep: char)
    requires sep !in tail
    ensures LastPiece(prefix + [sep] + tail, sep) == tail
  {
    var s := prefix + [sep] + tail;
    var r := LastPiece(s, sep);
    LastPieceIsSuffix(s, sep);
    assert s[|s| - |tail|..] == tail && s[|s| - |tail| - 1] == sep;
  }

  lemma {:induction false} JoinAppend(ts: seq<string>, t: string, sep: string)
    requires |ts| >= 1
    ensures Join(ts + [t], sep) == Join(ts, sep) + sep + t
  {
    if |ts| == 1 {
      assert (ts + [t])[1..] == [t];
    } else {
      assert (ts + [t])[1..] == ts[1..] + [t];
      JoinAppend(ts[1..], t, sep);
    }
  }

  lemma {:induction false} LastPieceOfJoin(ts: seq<string>, sep: char)
    requires |ts| >= 1
    requires forall k :: 0 <= k < |ts| ==> sep !in ts[k]
    ensures LastPiece(Join(ts, [sep]), sep) == ts[|ts| - 1]
  {
    var n := |ts|;
    var last := ts[n - 1];
    if n == 1 {
      LastPieceIsSuffix(last, sep);
    } else {
      JoinInitLast(ts, [sep]);
      LastPieceAfter(Join(ts[..n - 1], [sep]), last, sep);
    }
  }

  /** A join of two pieces or more is the join of all but the last, the
      separator, and the last. */
  lemma {:induction false} JoinInitLast(ts: seq<string>, sep: string)
    requires |ts| >= 2
    ensures Join(ts, sep) == Join(ts[..|ts| - 1], sep) + sep + ts[|ts| - 1]
  {
    var n := |ts|;
    assert ts == ts[..n - 1] + [ts[n - 1]];
    JoinAppend(ts[..n - 1], ts[n - 1], sep);
  }

  function DigitChar(d: nat): char
    requires d < 10
  {
    "0123456789"[d]
  }

  /** Decimal text of a natural number, as template literals print it. */
  function NatToString(n: nat): (s: string)
    ensures |s| >= 1
    ensures forall k :: 0 <= k < |s| ==> '0' <= s[k] <= '9'
    ensures |s| > 1 ==> s[0] != '0'
  {
    if n < 10 then [DigitChar(n)] else NatToString(n / 10) + [DigitChar(n % 10)]
  }

  /** The value of a string of decimal digits, read most significant first. */
  function DecimalValue(s: string): nat
    requires forall k :: 0 <= k < |s| ==> '0' <= s[k] <= '9'
  {
    if s == [] then 0 else 10 * DecimalValue(s[..|s| - 1]) + (s[|s| - 1] as int - '0' as int)
  }

  /** Reading a printed number back gives the number: printing is injective. */
  lemma {:induction false} DecimalRoundTrip(n: nat)
    ensures DecimalValue(NatToString(n)) == n
  {
    var s := NatToString(n);
    if n >= 10 {
      DecimalRoundTrip(n / 10);
      assert s[..|s| - 1] == NatToString(n / 10);
    }
  }
}
