/** String searching as done by Go's `strings.Index` and `strings.Contains`. */
module Text {

  /** `pat` occurs in `s` at position `i`. */
  predicate OccursAt(s: string, pat: string, i: int)
  {
    0 <= i && i + |pat| <= |s| && s[i..i + |pat|] == pat
  }

  /** Go's `strings.Contains`. */
  predicate Contains(s: string, pat: string)
  {
    exists i :: 0 <= i <= |s| && OccursAt(s, pat, i)
  }

  /** Go's `strings.Index`: the position of the first occurrence of `pat` in `s`, or -1. */
  function IndexOf(s: string, pat: string): (r: int)
    ensures -1 <= r <= |s|
    ensures r >= 0 ==> OccursAt(s, pat, r)
    decreases |s|
  {
    if pat <= s then
      assert OccursAt(s, pat, 0) by { assert s[0..|pat|] == pat; }
      0
    else if s == [] then -1
    else
      var k := IndexOf(s[1..], pat);
      ShiftOccurrence(s, pat);
      if k < 0 then -1 else k + 1
  }

  /** `IndexOf` finds the first occurrence, and gives -1 exactly when there is none. */
  lemma {:induction false} IndexOfFirst(s: string, pat: string)
    ensures forall k :: 0 <= k < (if IndexOf(s, pat) < 0 then |s| + 1 else IndexOf(s, pat)) ==> !OccursAt(s, pat, k)
    ensures IndexOf(s, pat) < 0 <==> !Contains(s, pat)
    decreases |s|
  {
    if pat <= s {
      assert OccursAt(s, pat, 0) by { assert s[0..|pat|] == pat; }
    } else if s == [] {
      assert !OccursAt(s, pat, 0);
    } else {
      IndexOfFirst(s[1..], pat);
      ShiftOccurrence(s, pat);
      assert !OccursAt(s, pat, 0) by {
        if |pat| <= |s| { assert s[..|pat|] != pat; }
      }
    }
  }

  /** Occurrences in `s[1..]` are occurrences in `s`, shifted by one. */
  lemma ShiftOccurrence(s: string, pat: string)
    requires s != []
    ensures forall k :: 1 <= k ==> (OccursAt(s, pat, k) <==> OccursAt(s[1..], pat, k - 1))
  {
    forall k | 1 <= k
      ensures OccursAt(s, pat, k) <==> OccursAt(s[1..], pat, k - 1)
    {
      if k + |pat| <= |s| {
        assert s[1..][k - 1..k - 1 + |pat|] == s[k..k + |pat|];
      }
    }
  }
}
