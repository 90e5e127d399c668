/** The Python `str` operations the runner relies on: `isspace`, `startswith`,
    `lstrip()` and `split(maxsplit=1)`, all without arguments other than those. */
module Text {

  /** True for the characters CPython treats as whitespace in `str.isspace()`,
      `str.lstrip()` and `str.split()` without a separator. */
  predicate IsSpace(c: char) {
    || ('\t' <= c <= '\r')
    || ('\U{1c}' <= c <= '\U{1f}')
    || c == ' '
    || c == '\U{85}'
    || c == '\U{a0}'
    || c == '\U{1680}'
    || ('\U{2000}' <= c <= '\U{200a}')
    || c == '\U{2028}'
    || c == '\U{2029}'
    || c == '\U{202f}'
    || c == '\U{205f}'
    || c == '\U{3000}'
  }

  /** Every character of `s` is whitespace (the empty string included). */
  predicate AllSpace(s: string) {
    forall i :: 0 <= i < |s| ==> IsSpace(s[i])
  }

  /** `s.startswith(p)`. */
  predicate StartsWith(s: string, p: string) {
    |p| <= |s| && s[..|p|] == p
  }

  /** The first index at or after `i` that does not hold whitespace. */
  function SkipSpace(s: string, i: nat): (j: nat)
    requires i <= |s|
    ensures i <= j <= |s|
    ensures forall k :: i <= k < j ==> IsSpace(s[k])
    ensures j == |s| || !IsSpace(s[j])
    decreases |s| - i
  {
    if i < |s| && IsSpace(s[i]) then SkipSpace(s, i + 1) else i
  }

  /** The first index at or after `i` that holds whitespace. */
  function SkipWord(s: string, i: nat): (j: nat)
    requires i <= |s|
    ensures i <= j <= |s|
    ensures forall k :: i <= k < j ==> !IsSpace(s[k])
    ensures j == |s| || IsSpace(s[j])
    decreases |s| - i
  {
    if i < |s| && !IsSpace(s[i]) then SkipWord(s, i + 1) else i
  }

  /** `s.lstrip()`: the longest suffix of `s` that does not start with whitespace. */
  function LStrip(s: string): (r: string)
    ensures |r| <= |s| && r == s[|s| - |r|..]
    ensures AllSpace(s[..|s| - |r|])
    ensures r == [] || !IsSpace(r[0])
  {
    var a := SkipSpace(s, 0);
    assert forall k :: 0 <= k < a ==> s[..a][k] == s[k];
    s[a..]
  }

  /** `s.split(maxsplit=1)`: nothing for a blank string; otherwise the first
      whitespace-separated word, followed by the rest of the string with its
      leading whitespace removed when that rest is not blank. */
  function SplitOnce(s: string): (parts: seq<string>)
    ensures |parts| <= 2
  {
    var a := SkipSpace(s, 0);
    if a == |s| then []
    else
      var b := SkipWord(s, a);
      var c := SkipSpace(s, b);
      if c == |s| then [s[a..b]] else [s[a..b], s[c..]]
  }

  /** `split(maxsplit=1)` gives no pieces exactly for a blank string. */
  lemma SplitOnceBlank(s: string)
    ensures SplitOnce(s) == [] <==> AllSpace(s)
  {
  }

  /** The first piece is the non-empty word that starts at the first
      non-whitespace character of `s` and runs up to the next whitespace. */
  lemma SplitOnceFirstWord(s: string)
    requires SplitOnce(s) != []
    ensures var a, w := SkipSpace(s, 0), SplitOnce(s)[0];
      && w != []
      && a + |w| <= |s| && w == s[a..a + |w|]
      && (forall i :: 0 <= i < |w| ==> !IsSpace(w[i]))
      && (a + |w| == |s| || IsSpace(s[a + |w|]))
  {
  }

  /** After the first word, `split(maxsplit=1)` loses nothing but whitespace:
      when there is one piece, only whitespace follows the word. */
  lemma SplitOnceSingle(s: string)
    requires |SplitOnce(s)| == 1
    ensures var after := SkipSpace(s, 0) + |SplitOnce(s)[0]|;
      after <= |s| && AllSpace(s[after..])
  {
  }

  /** When there are two pieces, the second is the non-blank tail of `s` that
      starts with a non-whitespace character, and only whitespace lies between
      the first word and it. */
  lemma SplitOnceSecond(s: string)
    requires |SplitOnce(s)| == 2
    ensures var parts := SplitOnce(s);
      var after := SkipSpace(s, 0) + |parts[0]|;
      && parts[1] != [] && !IsSpace(parts[1][0])
      && after <= |s| - |parts[1]|
      && parts[1] == s[|s| - |parts[1]|..]
      && AllSpace(s[after..|s| - |parts[1]|])
  {
  }

  /** `"".join(pieces)`. */
  function Join(pieces: seq<string>): (r: string)
    ensures |pieces| == 1 ==> r == pieces[0]
    ensures pieces == [] ==> r == []
  {
    if pieces == [] then [] else pieces[0] + Join(pieces[1..])
  }
}
