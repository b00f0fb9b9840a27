/** The character classification and trimming of the .NET base library. */
module Text {

  /** `char.IsWhiteSpace`: the Unicode space separators (Zs), the line and paragraph
      separators, and the control characters U+0009..U+000D and U+0085. */
  predicate IsWhiteSpace(c: char)
  {
    c == ' ' || ('\t' <= c <= '\r') || c == '\U{0085}' || c == '\U{00A0}' || c == '\U{1680}'
    || ('\U{2000}' <= c <= '\U{200A}') || c == '\U{2028}' || c == '\U{2029}' || c == '\U{202F}'
    || c == '\U{205F}' || c == '\U{3000}'
  }

  predicate AllWhiteSpace(s: string)
  {
    forall i :: 0 <= i < |s| ==> IsWhiteSpace(s[i])
  }

  /** `string.IsNullOrWhiteSpace` on a non-null string. */
  predicate IsNullOrWhiteSpace(s: string)
  {
    AllWhiteSpace(s)
  }

  /** Length of the longest all-white-space prefix. */
  function LeadingWhiteSpace(s: string): (n: nat)
    ensures n <= |s|
    ensures AllWhiteSpace(s[..n])
    ensures n < |s| ==> !IsWhiteSpace(s[n])
  {
    if s == [] || !IsWhiteSpace(s[0]) then 0
    else
      var k := LeadingWhiteSpace(s[1..]);
      assert s[..k + 1] == [s[0]] + s[1..][..k];
      k + 1
  }

  /** Length of the longest all-white-space suffix. */
  function TrailingWhiteSpace(s: string): (n: nat)
    ensures n <= |s|
    ensures AllWhiteSpace(s[|s| - n..])
    ensures n < |s| ==> !IsWhiteSpace(s[|s| - n - 1])
  {
    if s == [] || !IsWhiteSpace(s[|s| - 1]) then 0
    else
      var k := TrailingWhiteSpace(s[..|s| - 1]);
      TrailingStep(s, k);
      k + 1
  }

  /** One more white-space character at the end extends the white-space suffix by one. */
  lemma TrailingStep(s: string, k: nat)
    requires |s| > 0 && IsWhiteSpace(s[|s| - 1]) && k <= |s| - 1
    requires AllWhiteSpace(s[..|s| - 1][|s| - 1 - k..])
    requires k < |s| - 1 ==> !IsWhiteSpace(s[..|s| - 1][|s| - 2 - k])
    ensures AllWhiteSpace(s[|s| - (k + 1)..])
    ensures k + 1 < |s| ==> !IsWhiteSpace(s[|s| - k - 2])
  {
    var init := s[..|s| - 1];
    var suffix := s[|s| - (k + 1)..];
    forall i | 0 <= i < |suffix|
      ensures IsWhiteSpace(suffix[i])
    {
      if i < k {
        assert suffix[i] == init[|s| - 1 - k..][i];
      }
    }
    if k + 1 < |s| {
      assert s[|s| - k - 2] == init[|s| - 2 - k];
    }
  }

  /** `r` occurs in `s` at position `a`. */
  predicate IsSliceAt(r: string, s: string, a: nat)
  {
    a + |r| <= |s| && r == s[a..a + |r|]
  }

  /** `string.Trim()`: removes white space from both ends. */
  function Trim(s: string): (r: string)
    ensures r == [] || (!IsWhiteSpace(r[0]) && !IsWhiteSpace(r[|r| - 1]))
    ensures r == [] <==> AllWhiteSpace(s)
    ensures
      var a := LeadingWhiteSpace(s);
      a + |r| <= |s| && IsSliceAt(r, s, a) && AllWhiteSpace(s[..a]) && AllWhiteSpace(s[a + |r|..])
  {
    var a := LeadingWhiteSpace(s);
    var b := TrailingWhiteSpace(s[a..]);
    TrimFacts(s, a, b);
    s[a..|s| - b]
  }

  /** What cutting the leading white space `a` and then the trailing white space `b` of the
      rest leaves. */
  lemma TrimFacts(s: string, a: nat, b: nat)
    requires a == LeadingWhiteSpace(s) && b == TrailingWhiteSpace(s[a..])
    ensures a + b <= |s|
    ensures var r := s[a..|s| - b];
      && (r == [] || (!IsWhiteSpace(r[0]) && !IsWhiteSpace(r[|r| - 1])))
      && (r == [] <==> AllWhiteSpace(s))
      && a + |r| <= |s| && IsSliceAt(r, s, a)
      && AllWhiteSpace(s[..a]) && AllWhiteSpace(s[a + |r|..])
  {
    SuffixOfSuffix(s, a, b);
    TrimEnds(s, a, b);
    TrimEmpty(s, a, b);
    TrimTail(s, a, b);
  }

  /** A suffix of a suffix is a suffix. */
  lemma SuffixOfSuffix(s: string, a: nat, b: nat)
    requires a <= |s| && b <= |s[a..]|
    ensures a + b <= |s|
    ensures s[a..][|s[a..]| - b..] == s[|s| - b..]
    ensures b < |s[a..]| ==> s[a..][|s[a..]| - b - 1] == s[|s| - b - 1]
  {
    assert |s[a..]| == |s| - a;
  }

  /** The text between a prefix `a` and a suffix `b` that are cut at non-white-space
      characters starts and ends with a character that is not white space. */
  lemma TrimEnds(s: string, a: nat, b: nat)
    requires a + b <= |s|
    requires a < |s| ==> !IsWhiteSpace(s[a])
    requires a + b < |s| ==> !IsWhiteSpace(s[|s| - b - 1])
    ensures var r := s[a..|s| - b];
      && (r == [] || (!IsWhiteSpace(r[0]) && !IsWhiteSpace(r[|r| - 1])))
      && a + |r| <= |s| && IsSliceAt(r, s, a)
  {
    var r := s[a..|s| - b];
    assert |r| == |s| - b - a;
    if r != [] {
      assert r[0] == s[a] && r[|r| - 1] == s[|s| - b - 1];
    }
  }

  /** Cutting white-space ends leaves nothing exactly when the text is all white space. */
  lemma TrimEmpty(s: string, a: nat, b: nat)
    requires a + b <= |s|
    requires AllWhiteSpace(s[..a]) && (a < |s| ==> !IsWhiteSpace(s[a]))
    requires AllWhiteSpace(s[|s| - b..])
    ensures s[a..|s| - b] == [] <==> AllWhiteSpace(s)
  {
    AllWhiteSpaceSplit(s, a);
    if a + b == |s| {
      assert s[a..] == s[|s| - b..];
    }
  }

  /** What follows the text between the cut ends is the white-space suffix. */
  lemma TrimTail(s: string, a: nat, b: nat)
    requires a + b <= |s|
    requires AllWhiteSpace(s[|s| - b..])
    ensures AllWhiteSpace(s[a + |s[a..|s| - b]|..])
  {
    assert a + |s[a..|s| - b]| == |s| - b;
  }

  lemma AllWhiteSpaceSplit(s: string, a: nat)
    requires a <= |s|
    ensures AllWhiteSpace(s) <==> AllWhiteSpace(s[..a]) && AllWhiteSpace(s[a..])
  {
    if AllWhiteSpace(s[..a]) && AllWhiteSpace(s[a..]) {
      forall i | 0 <= i < |s| ensures IsWhiteSpace(s[i]) {
        if i < a { assert s[i] == s[..a][i]; } else { assert s[i] == s[a..][i - a]; }
      }
    }
  }
}
