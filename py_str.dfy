/** The few pieces of Python's `str` behaviour the modelled code relies on:
    `isspace`, `split()` with no separator, `in` on substrings, `rfind` and
    `rsplit(sep, 1)`. */
module PyStr {

  /** Python's `str.isspace()` for a single character: the characters whose
      bidirectional class is WS, B or S, or whose category is Zs. */
  predicate IsSpace(c: char) {
    c in Whitespace
  }

  const Whitespace: set<char> := {
    '\t', '\n', '\U{B}', '\U{C}', '\r', '\U{1C}', '\U{1D}', '\U{1E}', '\U{1F}', ' ',
    '\U{85}', '\U{A0}', '\U{1680}',
    '\U{2000}', '\U{2001}', '\U{2002}', '\U{2003}', '\U{2004}', '\U{2005}',
    '\U{2006}', '\U{2007}', '\U{2008}', '\U{2009}', '\U{200A}',
    '\U{2028}', '\U{2029}', '\U{202F}', '\U{205F}', '\U{3000}'
  }

  predicate AllSpace(s: string) {
    forall i :: 0 <= i < |s| ==> IsSpace(s[i])
  }

  predicate NoSpace(s: string) {
    forall i :: 0 <= i < |s| ==> !IsSpace(s[i])
  }

  /** The first index at or after `i` that does not hold whitespace, or |s|. */
  function SkipSpace(s: string, i: nat): (j: nat)
    requires i <= |s|
    ensures i <= j <= |s|
    ensures forall m :: i <= m < j ==> IsSpace(s[m])
    ensures j < |s| ==> !IsSpace(s[j])
    decreases |s| - i
  {
    if i == |s| || !IsSpace(s[i]) then i else SkipSpace(s, i + 1)
  }

  /** The first index at or after `i` that holds whitespace, or |s|. */
  function SkipWord(s: string, i: nat): (j: nat)
    requires i <= |s|
    ensures i <= j <= |s|
    ensures forall m :: i <= m < j ==> !IsSpace(s[m])
    ensures j < |s| ==> IsSpace(s[j])
    ensures i < |s| && !IsSpace(s[i]) ==> i < j
    decreases |s| - i
  {
    if i == |s| || IsSpace(s[i]) then i else SkipWord(s, i + 1)
  }

  /** The words of `s` from index `i` on. */
  function SplitFrom(s: string, i: nat): (words: seq<string>)
    requires i <= |s|
    decreases |s| - i
  {
    var a := SkipSpace(s, i);
    if a == |s| then []
    else
      var b := SkipWord(s, a);
      [s[a..b]] + SplitFrom(s, b)
  }

  /** `s.split()`: the maximal runs of non-whitespace, left to right. */
  function Split(s: string): (words: seq<string>)
  {
    SplitFrom(s, 0)
  }

  /** `s.split()` is empty exactly when `s` is all whitespace. */
  lemma SplitEmpty(s: string)
    ensures Split(s) == [] <==> AllSpace(s)
  {
    var a := SkipSpace(s, 0);
    if a < |s| {
      assert !IsSpace(s[a]);
    }
  }

  /** Every word from index `i` on is a non-empty run without whitespace. */
  lemma {:induction false} SplitFromWords(s: string, i: nat)
    requires i <= |s|
    ensures forall k :: 0 <= k < |SplitFrom(s, i)| ==>
      SplitFrom(s, i)[k] != [] && NoSpace(SplitFrom(s, i)[k])
    decreases |s| - i
  {
    var a := SkipSpace(s, i);
    if a < |s| {
      var b := SkipWord(s, a);
      var w := s[a..b];
      assert NoSpace(w) by {
        forall m | 0 <= m < |w| ensures !IsSpace(w[m]) {
          assert w[m] == s[a + m];
        }
      }
      SplitFromWords(s, b);
      var words := SplitFrom(s, i);
      assert words == [w] + SplitFrom(s, b);
      forall k | 0 <= k < |words| ensures words[k] != [] && NoSpace(words[k]) {
        if k > 0 {
          assert words[k] == SplitFrom(s, b)[k - 1];
        }
      }
    }
  }

  /** Every word of `s.split()` is a non-empty run without whitespace. */
  lemma SplitWords(s: string)
    ensures forall k :: 0 <= k < |Split(s)| ==> Split(s)[k] != [] && NoSpace(Split(s)[k])
  {
    SplitFromWords(s, 0);
  }

  /** The first word of `s.split()` is the first maximal run of
      non-whitespace: whitespace comes before it, and it ends at the end of
      `s` or at a whitespace character. */
  lemma SplitFirstWord(s: string)
    requires !AllSpace(s)
    ensures Split(s) != []
    ensures exists a: nat :: a <= |s| && FirstRunAt(s, a, Split(s)[0])
  {
    var a := SkipSpace(s, 0);
    assert a < |s|;
    var b := SkipWord(s, a);
    assert Split(s)[0] == s[a..b];
    assert AllSpace(s[..a]) by {
      forall m | 0 <= m < a ensures IsSpace(s[..a][m]) {
        assert s[..a][m] == s[m];
      }
    }
    assert FirstRunAt(s, a, s[a..b]);
  }

  /** `w` is the run of non-whitespace that starts at index `a` of `s`, after
      nothing but whitespace. */
  predicate FirstRunAt(s: string, a: nat, w: string) {
    && a + |w| <= |s|
    && AllSpace(s[..a])
    && s[a..a + |w|] == w
    && w != [] && NoSpace(w)
    && (a + |w| == |s| || IsSpace(s[a + |w|]))
  }

  /** `pat` occurs in `s` starting at index `i`. */
  predicate OccursAt(s: string, pat: string, i: nat) {
    i + |pat| <= |s| && s[i..i + |pat|] == pat
  }

  /** Python's `pat in s` for strings. */
  predicate Contains(s: string, pat: string) {
    exists i: nat :: i <= |s| && OccursAt(s, pat, i)
  }

  /** An occurrence in a suffix of `s` is an occurrence in `s`, shifted. */
  lemma OccursInSuffix(s: string, k: nat, pat: string, j: nat)
    requires k <= |s|
    ensures OccursAt(s[k..], pat, j) ==> OccursAt(s, pat, k + j)
  {
    if OccursAt(s[k..], pat, j) {
      assert s[k..][j..j + |pat|] == s[k + j..k + j + |pat|];
    }
  }

  /** Search downward from index `i` for an occurrence of `pat`. */
  function RFindFrom(s: string, pat: string, i: nat): (r: int)
    requires i <= |s|
    ensures -1 <= r <= i
    ensures r >= 0 ==> OccursAt(s, pat, r)
    ensures forall j: nat :: r < j <= i ==> !OccursAt(s, pat, j)
  {
    if OccursAt(s, pat, i) then i
    else if i == 0 then -1
    else RFindFrom(s, pat, i - 1)
  }

  /** `s.rfind(pat)`: the highest index at which `pat` occurs, or -1. */
  function RFind(s: string, pat: string): (r: int)
    ensures r == -1 <==> !Contains(s, pat)
    ensures r >= 0 ==> OccursAt(s, pat, r) && forall j: nat :: r < j ==> !OccursAt(s, pat, j)
  {
    RFindFrom(s, pat, |s|)
  }

  /** `s.rsplit(sep, 1)` for a non-empty separator: `[s]` when `sep` does not
      occur, otherwise the text before and after its last occurrence. */
  function RSplitOnce(s: string, sep: string): (parts: seq<string>)
    requires sep != []
    ensures 1 <= |parts| <= 2
    ensures |parts| == 1 <==> !Contains(s, sep)
    ensures |parts| == 1 ==> parts[0] == s
    ensures |parts| == 2 ==> s == parts[0] + sep + parts[1] && !Contains(parts[1], sep)
    ensures |parts| == 2 ==> |parts[0]| == RFind(s, sep)
  {
    var i := RFind(s, sep);
    if i < 0 then [s]
    else
      var before, after := s[..i], s[i + |sep|..];
      assert s == before + sep + after;
      assert !Contains(after, sep) by {
        forall j: nat | j <= |after| ensures !OccursAt(after, sep, j) {
          OccursInSuffix(s, i + |sep|, sep, j);
        }
      }
      [before, after]
  }

  /** The decimal digit for 0..9. */
  function DigitChar(d: nat): (c: char)
    requires d < 10
    ensures '0' <= c <= '9'
    ensures c as int - '0' as int == d
  {
    ('0' as int + d) as char
  }

  /** `str(n)` for a non-negative integer: its decimal digits, no leading
      zero. */
  function NatToString(n: nat): (s: string)
    ensures |s| >= 1
    ensures forall i :: 0 <= i < |s| ==> '0' <= s[i] <= '9'
    ensures |s| > 1 ==> s[0] != '0'
  {
    if n < 10 then [DigitChar(n)] else NatToString(n / 10) + [DigitChar(n % 10)]
  }

  /** `str(n)` for any integer. */
  function IntToString(n: int): (s: string)
    ensures |s| >= 1 && (n < 0 <==> s[0] == '-')
  {
    if n < 0 then "-" + NatToString(-n) else NatToString(n)
  }
}
