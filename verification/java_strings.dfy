/** The `java.lang.String` searches the placeholder grammar is built on. */
module JavaStrings {

  /** `sub` occurs in `s` starting at index `k`. */
  predicate OccursAt(s: string, sub: string, k: int) {
    0 <= k && k + |sub| <= |s| && s[k..k + |sub|] == sub
  }

  /** `sub` occurs somewhere in `s`: plain substring containment. */
  predicate Contains(s: string, sub: string) {
    exists k | 0 <= k <= |s| :: OccursAt(s, sub, k)
  }

  /** `s.indexOf(c)`: the first index holding `c`, or -1 when there is none. */
  function IndexOf(s: string, c: char): (r: int)
    ensures -1 <= r < |s|
    ensures r == -1 <==> c !in s
    ensures 0 <= r ==> s[r] == c && c !in s[..r]
  {
    if |s| == 0 then -1
    else if s[0] == c then 0
    else
      var i := IndexOf(s[1..], c);
      if i < 0 then -1
      else
        assert s[..i + 1] == [s[0]] + s[1..][..i];
        i + 1
  }

  /**
   * `s.indexOf(sub, from)`: the first index at or after `from` where `sub`
   * occurs, or -1 when there is none.
   */
  function IndexOfFrom(s: string, sub: string, from: nat): (r: int)
    decreases |s| - from
    ensures r == -1 || (from <= r && OccursAt(s, sub, r))
    ensures r >= 0 ==> forall k :: from <= k < r ==> !OccursAt(s, sub, k)
    ensures r == -1 <==> forall k :: from <= k ==> !OccursAt(s, sub, k)
  {
    if from + |sub| > |s| then -1
    else if s[from..from + |sub|] == sub then from
    else IndexOfFrom(s, sub, from + 1)
  }

  /** An occurrence in `t` is an occurrence in `p + t`, shifted by `|p|`. */
  lemma {:induction false} OccursAtShift(p: string, t: string, sub: string, k: int)
    requires 0 <= k
    ensures OccursAt(p + t, sub, |p| + k) <==> OccursAt(t, sub, k)
  {
    if k + |sub| <= |t| {
      assert (p + t)[|p| + k..|p| + k + |sub|] == t[k..k + |sub|];
    }
  }
}
