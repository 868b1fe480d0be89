/** The parts of JavaScript's String built-ins that the minter relies on:
    `trim`, `slice` with negative indices, `startsWith`, `includes`,
    `split(c)[0]`, truthiness of a possibly absent string, and the Latin-1
    range that `btoa` accepts. Lengths are counted in Dafny `char`s; the
    strings the minter handles (hex addresses, hashes) are ASCII, where this
    agrees with JavaScript's UTF-16 code units. */
module JsStrings {
  import opened Options

  /** ECMAScript WhiteSpace and LineTerminator code points: what `trim` strips. */
  predicate IsJsWhitespace(c: char) {
    || c == '\U{9}' || c == '\U{B}' || c == '\U{C}' || c == ' ' || c == '\U{A0}' || c == '\U{FEFF}'
    || c == '\U{1680}' || ('\U{2000}' <= c <= '\U{200A}') || c == '\U{202F}' || c == '\U{205F}' || c == '\U{3000}'
    || c == '\n' || c == '\r' || c == '\U{2028}' || c == '\U{2029}'
  }

  /** Every character is whitespace: exactly the strings `trim` empties. */
  predicate IsBlank(s: string) {
    forall i | 0 <= i < |s| :: IsJsWhitespace(s[i])
  }

  /** Number of leading whitespace characters. */
  function LeadingSpace(s: string): (n: nat)
    ensures n <= |s|
    ensures IsBlank(s[..n])
    ensures n < |s| ==> !IsJsWhitespace(s[n])
  {
    if |s| > 0 && IsJsWhitespace(s[0]) then
      var m := LeadingSpace(s[1..]);
      assert s[..m + 1] == [s[0]] + s[1..][..m];
      m + 1
    else 0
  }

  /** Number of trailing whitespace characters. */
  function TrailingSpace(s: string): (n: nat)
    ensures n <= |s|
    ensures IsBlank(s[|s| - n..])
    ensures n < |s| ==> !IsJsWhitespace(s[|s| - 1 - n])
  {
    if |s| > 0 && IsJsWhitespace(s[|s| - 1]) then
      var init := s[..|s| - 1];
      var m := TrailingSpace(init);
      assert IsBlank(init[|init| - m..]);
      assert s[|s| - (m + 1)..] == init[|init| - m..] + [s[|s| - 1]];
      assert m < |init| ==> s[|s| - 1 - (m + 1)] == init[|init| - 1 - m];
      m + 1
    else 0
  }

  /** `String.prototype.trim`: the infix left after removing whitespace at both ends. */
  function Trim(s: string): (r: string)
    ensures r == [] <==> IsBlank(s)
    ensures r != [] ==> !IsJsWhitespace(r[0]) && !IsJsWhitespace(r[|r| - 1])
    ensures exists i :: 0 <= i <= |s| - |r| && r == s[i..i + |r|] && IsBlank(s[..i]) && IsBlank(s[i + |r|..])
  {
    var a := LeadingSpace(s);
    var rest := s[a..];
    var b := TrailingSpace(rest);
    var r := rest[..|rest| - b];
    assert r == s[a..a + |r|];
    assert s[a + |r|..] == rest[|rest| - b..];
    assert 0 <= a <= |s| - |r| && IsBlank(s[..a]) && IsBlank(s[a + |r|..]);
    if a == |s| then
      assert s[..a] == s;
      r
    else
      assert rest[0] == s[a];
      assert b < |rest|;
      assert r[0] == s[a];
      assert r[|r| - 1] == rest[|rest| - 1 - b];
      r
  }

  /** JavaScript's relative index as `slice` reads it: negative counts from the end, clamped to [0, len]. */
  function RelativeIndex(len: nat, k: int): (r: nat)
    ensures r <= len
    ensures 0 <= k <= len ==> r == k
    ensures -(len as int) <= k < 0 ==> r == len + k
    ensures k > len ==> r == len
    ensures k < -(len as int) ==> r == 0
  {
    if k < 0 then (if len + k < 0 then 0 else len + k)
    else if k > len then len
    else k
  }

  /** `s.slice(start, end)`: total, empty when the clamped bounds cross. */
  function Slice(s: string, start: int, end: int): (r: string)
    ensures |r| <= |s|
    ensures RelativeIndex(|s|, start) < RelativeIndex(|s|, end) ==> r == s[RelativeIndex(|s|, start)..RelativeIndex(|s|, end)]
    ensures RelativeIndex(|s|, start) >= RelativeIndex(|s|, end) ==> r == []
  {
    var from := RelativeIndex(|s|, start);
    var to := RelativeIndex(|s|, end);
    if from < to then s[from..to] else []
  }

  /** `s.slice(start)`. */
  function SliceFrom(s: string, start: int): (r: string)
    ensures |r| <= |s|
  {
    Slice(s, start, |s|)
  }

  /** `s.startsWith(p)`. */
  predicate StartsWith(s: string, p: string) {
    |p| <= |s| && s[..|p|] == p
  }

  /** The pattern sits in the text starting at position i. */
  predicate OccursAt(text: string, pat: string, i: int) {
    0 <= i && i + |pat| <= |text| && text[i..i + |pat|] == pat
  }

  /** `text.includes(pat)`: some window of the text equals the pattern. */
  predicate Includes(text: string, pat: string) {
    exists i | 0 <= i <= |text| - |pat| :: OccursAt(text, pat, i)
  }

  /** Sliding-window search deciding `Includes`. */
  method FindIncludes(text: string, pat: string) returns (found: bool)
    ensures found <==> Includes(text, pat)
  {
    var i := 0;
    while i + |pat| <= |text|
      invariant i == 0 || i <= |text| - |pat| + 1
      invariant forall j | 0 <= j < i :: !OccursAt(text, pat, j)
      decreases |text| - i
    {
      if text[i..i + |pat|] == pat {
        assert OccursAt(text, pat, i);
        return true;
      }
      i := i + 1;
    }
    return false;
  }

  /** Position of the first `c`, or `|s|` when there is none. */
  function IndexOf(s: string, c: char): (r: nat)
    ensures r <= |s|
    ensures r < |s| ==> s[r] == c
    ensures c !in s[..r]
  {
    if |s| == 0 then 0
    else if s[0] == c then 0
    else
      var k := IndexOf(s[1..], c);
      assert s[..k + 1] == [s[0]] + s[1..][..k];
      k + 1
  }

  /** `s.split(c)[0]`: everything before the first separator. */
  function SplitFirst(s: string, c: char): (r: string)
    ensures c !in r
    ensures r <= s
    ensures |r| < |s| ==> s[|r|] == c
  {
    s[..IndexOf(s, c)]
  }

  /** Every character is in U+0000..U+00FF, the range `btoa` encodes without throwing. */
  predicate IsLatin1(s: string) {
    forall i | 0 <= i < |s| :: s[i] <= '\U{FF}'
  }

  lemma Latin1Concat(a: string, b: string)
    ensures IsLatin1(a + b) <==> IsLatin1(a) && IsLatin1(b)
  {
    if IsLatin1(a + b) {
      forall i | 0 <= i < |a| ensures a[i] <= '\U{FF}' { assert (a + b)[i] == a[i]; }
      forall i | 0 <= i < |b| ensures b[i] <= '\U{FF}' { assert (a + b)[|a| + i] == b[i]; }
    }
  }

  /** JavaScript truthiness of a string that may be `undefined` or `null`: present and non-empty. */
  predicate IsTruthy(o: Option<string>) {
    o.Some? && o.value != []
  }

  /** Applying `trim` a second time changes nothing. */
  lemma {:induction false} TrimIdempotent(s: string)
    ensures Trim(Trim(s)) == Trim(s)
  {
    var r := Trim(s);
    if r != [] {
      assert LeadingSpace(r) == 0;
      assert TrailingSpace(r) == 0;
    }
  }

  /** `includes` finds a pattern placed anywhere in the text. */
  lemma IncludesInfix(pre: string, pat: string, post: string)
    ensures Includes(pre + pat + post, pat)
  {
    var t := pre + pat + post;
    assert t[|pre|..|pre| + |pat|] == pat;
    assert OccursAt(t, pat, |pre|);
  }
}
