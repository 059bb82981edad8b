/**
 * String tests used by the admission guards.  Every regular expression of
 * the chain is a literal substring or suffix test, optionally with the
 * `i` flag; for a literal pattern made of ASCII characters the `i` flag
 * compares characters after ASCII case folding, which is what `Lower`
 * does here.
 */
module Text {

  /**
   * ASCII lower-casing of one character: an upper-case letter becomes the
   * letter of the same rank in the lower-case alphabet, every other
   * character is kept, and no upper-case letter is left.
   */
  function Lower(c: char): (d: char)
    ensures !('A' <= d <= 'Z')
    ensures !('A' <= c <= 'Z') ==> d == c
    ensures 'A' <= c <= 'Z' ==> d == "abcdefghijklmnopqrstuvwxyz"[c as int - 'A' as int]
  {
    if 'A' <= c <= 'Z' then (c as int + 32) as char else c
  }

  /**
   * ASCII lower-casing of a whole string: same length, no upper-case letter
   * left, and a string without upper-case letters is kept as it is.
   */
  function Fold(s: string): (r: string)
    ensures |r| == |s|
    ensures forall i :: 0 <= i < |r| ==> !('A' <= r[i] <= 'Z')
    ensures (forall i :: 0 <= i < |s| ==> !('A' <= s[i] <= 'Z')) ==> r == s
  {
    seq(|s|, i requires 0 <= i < |s| => Lower(s[i]))
  }

  /** Folding twice is folding once. */
  lemma FoldIdempotent(s: string)
    ensures Fold(Fold(s)) == Fold(s)
  {
  }

  /** `p` occurs in `s` starting at position `i`. */
  ghost predicate OccursAt(s: string, p: string, i: int) {
    0 <= i && i + |p| <= |s| && s[i..i + |p|] == p
  }

  /** `p` occurs in `s` at position `i` when characters are compared after ASCII case folding. */
  ghost predicate OccursAtIgnoringCase(s: string, p: string, i: int) {
    0 <= i && i + |p| <= |s| &&
    forall k :: 0 <= k < |p| ==> Lower(s[i + k]) == Lower(p[k])
  }

  /** JavaScript's `s.includes(p)`: a case-sensitive substring test. */
  function Contains(s: string, p: string): (b: bool)
    ensures b <==> exists i :: OccursAt(s, p, i)
    decreases |s|
  {
    if |s| < |p| then false
    else if s[..|p|] == p then
      assert OccursAt(s, p, 0);
      true
    else
      var b := Contains(s[1..], p);
      ShiftOccurrence(s, p);
      assert !OccursAt(s, p, 0);
      b
  }

  /** Occurrences in the tail of `s` are the occurrences in `s` past position 0. */
  lemma ShiftOccurrence(s: string, p: string)
    requires 0 < |s|
    ensures forall i :: OccursAt(s[1..], p, i) ==> OccursAt(s, p, i + 1)
    ensures forall j :: OccursAt(s, p, j) && j > 0 ==> OccursAt(s[1..], p, j - 1)
  {
    forall i | OccursAt(s[1..], p, i)
      ensures OccursAt(s, p, i + 1)
    {
      if 0 <= i && i + |p| <= |s| - 1 {
        assert s[1..][i..i + |p|] == s[i + 1..i + 1 + |p|];
      }
    }
    // Every occurrence in `s` other than at 0 is one in the tail.
    forall j | OccursAt(s, p, j) && j > 0
      ensures OccursAt(s[1..], p, j - 1)
    {
      assert s[1..][j - 1..j - 1 + |p|] == s[j..j + |p|];
    }
  }

  /**
   * `s` ends with `p`: an occurrence at the last position one can start.
   * On folded strings it is the test behind a `/lit$/i` pattern.
   */
  function EndsWith(s: string, p: string): (b: bool)
    ensures b <==> OccursAt(s, p, |s| - |p|)
  {
    if |p| <= |s| then
      assert s[|s| - |p|..] == s[|s| - |p|..|s| - |p| + |p|];
      s[|s| - |p|..] == p
    else
      false
  }

  /** `EndsWith(s, p)` holds exactly when `s` is some string followed by `p`. */
  lemma EndsWithMeans(s: string, p: string)
    ensures EndsWith(s, p) <==> exists t :: s == t + p
  {
    if |p| <= |s| {
      assert s == s[..|s| - |p|] + s[|s| - |p|..];
    }
  }

  /** A regular expression `/p/i` with a literal ASCII pattern `p`: substring test after case folding. */
  function ContainsIgnoringCase(s: string, p: string): (b: bool)
    ensures b <==> exists i :: OccursAtIgnoringCase(s, p, i)
  {
    var b := Contains(Fold(s), Fold(p));
    FoldedOccurrence(s, p);
    b
  }

  /** A regular expression `/p$/i` with a literal ASCII pattern `p`: suffix test after case folding. */
  function EndsWithIgnoringCase(s: string, p: string): (b: bool)
    ensures b <==> OccursAtIgnoringCase(s, p, |s| - |p|)
  {
    var b := EndsWith(Fold(s), Fold(p));
    FoldedOccurrence(s, p);
    if |p| <= |s| then
      assert Fold(s)[|s| - |p|..] == Fold(s)[|s| - |p|..|s| - |p| + |p|];
      b
    else
      b
  }

  /** An occurrence between folded strings is an occurrence ignoring case. */
  lemma FoldedOccurrence(s: string, p: string)
    ensures forall i :: OccursAt(Fold(s), Fold(p), i) <==> OccursAtIgnoringCase(s, p, i)
  {
    forall i
      ensures OccursAt(Fold(s), Fold(p), i) <==> OccursAtIgnoringCase(s, p, i)
    {
      if 0 <= i && i + |p| <= |s| {
        if OccursAt(Fold(s), Fold(p), i) {
          forall k | 0 <= k < |p|
            ensures Lower(s[i + k]) == Lower(p[k])
          {
            assert Fold(s)[i..i + |p|][k] == Fold(p)[k];
          }
        }
        if OccursAtIgnoringCase(s, p, i) {
          assert Fold(s)[i..i + |p|] == Fold(p);
        }
      }
    }
  }
}
