/** The two string operations the search uses: `toLowerCase` (restricted
    to ASCII letters) and `String.prototype.includes`. */
module Text {

  /** `toLowerCase` on one character, ASCII letters only. */
  function LowerChar(c: char): (r: char)
    ensures 'A' <= c <= 'Z' ==> 'a' <= r <= 'z' && r as int - c as int == 'a' as int - 'A' as int
    ensures !('A' <= c <= 'Z') ==> r == c
  {
    if 'A' <= c <= 'Z' then (c as int - 'A' as int + 'a' as int) as char else c
  }

  /** `toLowerCase` on a string: same length, each character lowered. */
  function Lower(s: string): (r: string)
    ensures |r| == |s|
    ensures forall i :: 0 <= i < |s| ==> r[i] == LowerChar(s[i])
    ensures forall i :: 0 <= i < |r| ==> !('A' <= r[i] <= 'Z')
  {
    if s == [] then [] else [LowerChar(s[0])] + Lower(s[1..])
  }

  /** `needle` occurs in `hay` starting at position `k`. */
  predicate OccursAt(hay: string, needle: string, k: nat)
  {
    k + |needle| <= |hay| && hay[k..k + |needle|] == needle
  }

  /** `hay.includes(needle)`: `needle` occurs at some position of `hay`. */
  predicate Includes(hay: string, needle: string)
  {
    exists k: nat | k <= |hay| :: OccursAt(hay, needle, k)
  }

  /** `hay.toLowerCase().includes(needle.toLowerCase())`. */
  predicate IncludesIgnoreCase(hay: string, needle: string)
  {
    Includes(Lower(hay), Lower(needle))
  }

  /** Lowering twice is lowering once. */
  lemma LowerIdempotent(s: string)
    ensures Lower(Lower(s)) == Lower(s)
  {
    var l := Lower(s);
    assert forall i :: 0 <= i < |l| ==> Lower(l)[i] == l[i];
  }

  /** The case-insensitive test only sees the lowered strings: changing the
      case of either argument does not change its answer. */
  lemma IncludesIgnoreCaseIsCaseBlind(hay: string, needle: string)
    ensures IncludesIgnoreCase(Lower(hay), needle) == IncludesIgnoreCase(hay, needle)
    ensures IncludesIgnoreCase(hay, Lower(needle)) == IncludesIgnoreCase(hay, needle)
  {
    LowerIdempotent(hay);
    LowerIdempotent(needle);
  }

  /** An occurrence in the original string is an occurrence, ignoring case. */
  lemma IncludesImpliesIgnoreCase(hay: string, needle: string)
    requires Includes(hay, needle)
    ensures IncludesIgnoreCase(hay, needle)
  {
    var k: nat :| OccursAt(hay, needle, k);
    assert OccursAt(hay, needle, k);
    var lh, ln := Lower(hay), Lower(needle);
    forall i | 0 <= i < |ln| ensures lh[k..k + |ln|][i] == ln[i] {
      assert needle[i] == hay[k..k + |needle|][i] == hay[k + i];
    }
    assert lh[k..k + |ln|] == ln;
    assert OccursAt(lh, ln, k);
  }

  /** An occurrence up to case at position `k` is a case-insensitive match. */
  lemma OccursIgnoringCase(hay: string, needle: string, k: nat)
    requires k + |needle| <= |hay|
    requires forall i :: 0 <= i < |needle| ==> LowerChar(hay[k + i]) == LowerChar(needle[i])
    ensures IncludesIgnoreCase(hay, needle)
  {
    var lh, ln := Lower(hay), Lower(needle);
    assert lh[k..k + |ln|] == ln;
    assert OccursAt(lh, ln, k);
  }
}
