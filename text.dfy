/** The Python string operations the codec relies on, over `string` (a
    sequence of characters): `strip()`, `isdigit()`, `split(sep, 1)`,
    `sep.join(...)` and `replace(old, new)`. */
module Text {
  import opened Wrappers

  /** The characters Python's `str.strip()` removes (string.whitespace). */
  predicate IsWhitespace(c: char) {
    c == ' ' || c == '\t' || c == '\n' || c == '\r' || c == '\U{000B}' || c == '\U{000C}'
  }

  predicate IsDigitChar(c: char) {
    '0' <= c <= '9'
  }

  /** Python's `str.isdigit()`: non-empty and made of decimal digits only. */
  predicate IsDigits(s: string) {
    |s| > 0 && forall i :: 0 <= i < |s| ==> IsDigitChar(s[i])
  }

  /** No whitespace at either end. */
  predicate IsStripped(s: string) {
    s == [] || (!IsWhitespace(s[0]) && !IsWhitespace(s[|s| - 1]))
  }

  /** Where the part `strip()` keeps begins: the first non-blank position
      from `i` on, or the end. */
  function SkipLeading(s: string, i: nat): (a: nat)
    requires i <= |s|
    ensures i <= a <= |s|
    ensures forall j :: i <= j < a ==> IsWhitespace(s[j])
    ensures a < |s| ==> !IsWhitespace(s[a])
    decreases |s| - i
  {
    if i < |s| && IsWhitespace(s[i]) then SkipLeading(s, i + 1) else i
  }

  /** Where it ends: just after the last non-blank position before `j`, and
      not before `a`. */
  function SkipTrailing(s: string, a: nat, j: nat): (b: nat)
    requires a <= j <= |s|
    ensures a <= b <= j
    ensures forall k :: b <= k < j ==> IsWhitespace(s[k])
    ensures a < b ==> !IsWhitespace(s[b - 1])
    decreases j
  {
    if a < j && IsWhitespace(s[j - 1]) then SkipTrailing(s, a, j - 1) else j
  }

  /** Python's `str.strip()` with no argument: the part of `s` between the
      leading and the trailing whitespace. */
  function Strip(s: string): (r: string)
    ensures IsStripped(r)
    ensures |r| <= |s|
  {
    var a := SkipLeading(s, 0);
    s[a..SkipTrailing(s, a, |s|)]
  }

  /** What `strip()` removes is whitespace, and it removes all of it from
      both ends: the result is the slice of `s` between two positions with
      only whitespace before the first and from the second on. */
  lemma StripIsSlice(s: string)
    ensures var a := SkipLeading(s, 0); var b := SkipTrailing(s, a, |s|);
      a <= b <= |s| && Strip(s) == s[a..b] &&
      (forall i :: 0 <= i < a ==> IsWhitespace(s[i])) &&
      (forall i :: b <= i < |s| ==> IsWhitespace(s[i]))
  {
  }

  lemma StripOfStripped(s: string)
    requires IsStripped(s)
    ensures Strip(s) == s
  {
    if s != [] {
      assert SkipLeading(s, 0) == 0;
      assert SkipTrailing(s, 0, |s|) == |s|;
      assert s[0..|s|] == s;
    }
  }

  lemma StripIdempotent(s: string)
    ensures Strip(Strip(s)) == Strip(s)
  {
    StripOfStripped(Strip(s));
  }

  /** One blank before a stripped value is all `strip()` removes. */
  lemma StripLeadingBlank(s: string)
    requires s != [] && IsStripped(s)
    ensures Strip(" " + s) == s
  {
    var t := " " + s;
    assert SkipLeading(t, 1) == 1;
    assert SkipLeading(t, 0) == 1;
    assert SkipTrailing(t, 1, |t|) == |t|;
    assert t[1..] == s;
  }

  /** One blank after a stripped value is all `strip()` removes. */
  lemma StripTrailingBlank(s: string)
    requires s != [] && IsStripped(s)
    ensures Strip(s + " ") == s
  {
    var t := s + " ";
    assert SkipLeading(t, 0) == 0;
    assert SkipTrailing(t, 0, |s|) == |s|;
    assert SkipTrailing(t, 0, |t|) == |s|;
    assert t[0..|s|] == s;
  }

  /** A string that ends in a newline after a non-blank character loses only
      that newline: the shape of every block the serializers strip. */
  lemma StripTrailingNewline(s: string)
    requires |s| >= 2 && !IsWhitespace(s[0]) && s[|s| - 1] == '\n' && !IsWhitespace(s[|s| - 2])
    ensures Strip(s) == s[..|s| - 1]
  {
    assert SkipLeading(s, 0) == 0;
    assert SkipTrailing(s, 0, |s|) == SkipTrailing(s, 0, |s| - 1) == |s| - 1;
  }

  /** Index of the first occurrence of `c`. */
  function IndexOf(s: string, c: char): (r: Option<nat>)
    ensures r.None? <==> c !in s
    ensures r.Some? ==> r.value < |s| && s[r.value] == c && c !in s[..r.value]
    ensures r.Some? ==> forall k :: 0 <= k < r.value ==> s[k] != c
  {
    if s == [] then None
    else if s[0] == c then Some(0)
    else
      match IndexOf(s[1..], c)
      case None => None
      case Some(k) => assert s[..k + 1] == [s[0]] + s[1..][..k]; Some(k + 1)
  }

  /** Python's `s.split(sep, 1)` for a one-character separator. */
  function SplitOnce(s: string, sep: char): (r: seq<string>)
    ensures sep !in s ==> r == [s]
    ensures sep in s ==> |r| == 2 && sep !in r[0] && s == r[0] + [sep] + r[1]
  {
    match IndexOf(s, sep)
    case None => [s]
    case Some(i) =>
      assert s == s[..i] + [sep] + s[i + 1..];
      [s[..i], s[i + 1..]]
  }

  /** `s.split(" ", 1)[0]`: everything before the first space. */
  function FirstToken(s: string): (r: string)
    ensures ' ' !in r
    ensures r <= s
    ensures ' ' !in s ==> r == s
  {
    SplitOnce(s, ' ')[0]
  }

  /** `split` cuts at the first separator: a part without `sep`, then `sep`,
      then anything, splits into that part and the rest. */
  lemma SplitOnceAt(a: string, sep: char, b: string)
    requires sep !in a
    ensures SplitOnce(a + [sep] + b, sep) == [a, b]
  {
    var s := a + [sep] + b;
    assert forall k :: 0 <= k < |a| ==> s[k] == a[k];
    assert s[..|a|] == a && s[|a|] == sep && s[|a| + 1..] == b;
    assert IndexOf(s, sep) == Some(|a|);
  }

  /** The first token of a value with a space is what precedes that space. */
  lemma FirstTokenAt(a: string, b: string)
    requires ' ' !in a
    ensures FirstToken(a + " " + b) == a
  {
    SplitOnceAt(a, ' ', b);
  }

  /** `sep.join(xs)`. */
  function Join(sep: string, xs: seq<string>): (r: string)
    ensures xs == [] ==> r == ""
    ensures |xs| == 1 ==> r == xs[0]
    ensures |xs| > 1 ==> r == xs[0] + sep + Join(sep, xs[1..])
  {
    if xs == [] then ""
    else if |xs| == 1 then xs[0]
    else xs[0] + sep + Join(sep, xs[1..])
  }

  /** Python's `s.replace(pat, rep)`: every non-overlapping occurrence of
      `pat`, scanning from the left, is replaced. */
  function Replace(s: string, pat: string, rep: string): string
    requires pat != []
    decreases |s|
  {
    if |s| < |pat| then s
    else if s[..|pat|] == pat then rep + Replace(s[|pat|..], pat, rep)
    else [s[0]] + Replace(s[1..], pat, rep)
  }

  /** Turning the `&amp;` entity back into `&`, as the URL getters do. */
  function UnescapeAmp(s: string): string {
    Replace(s, "&amp;", "&")
  }

  /** The entity escaping of `&` that markup producers apply. */
  function EscapeAmp(s: string): (r: string)
    ensures '&' !in s ==> r == s
  {
    if s == [] then []
    else if s[0] == '&' then "&amp;" + EscapeAmp(s[1..])
    else [s[0]] + EscapeAmp(s[1..])
  }

  /** Unescaping undoes escaping: a URL stored with its `&` escaped comes
      back exactly. */
  lemma {:induction false} UnescapeEscapeAmp(s: string)
    ensures UnescapeAmp(EscapeAmp(s)) == s
  {
    if s == [] {
    } else if s[0] == '&' {
      var t := "&amp;" + EscapeAmp(s[1..]);
      assert t[..5] == "&amp;";
      assert t[5..] == EscapeAmp(s[1..]);
      UnescapeEscapeAmp(s[1..]);
      assert s == "&" + s[1..];
    } else {
      var t := [s[0]] + EscapeAmp(s[1..]);
      assert t[0] == s[0];
      if |t| >= 5 {
        assert t[..5] != "&amp;" by { assert t[..5][0] == s[0]; }
      }
      assert t[1..] == EscapeAmp(s[1..]);
      UnescapeEscapeAmp(s[1..]);
      assert s == [s[0]] + s[1..];
    }
  }

  /** A value without `&` is left alone. */
  lemma {:induction false} UnescapeNoAmp(s: string)
    requires '&' !in s
    ensures UnescapeAmp(s) == s
  {
    assert EscapeAmp(s) == s;
    UnescapeEscapeAmp(s);
  }
}
