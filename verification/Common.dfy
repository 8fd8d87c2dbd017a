/** Types and string helpers shared by the modules of the project. */
module Common {

  datatype Option<+T> = None | Some(value: T)

  /** `pat` occurs in `s` at position `i`. */
  predicate OccursAt(s: string, pat: string, i: int) {
    0 <= i && i + |pat| <= |s| && s[i..i + |pat|] == pat
  }

  ghost predicate Contains(s: string, pat: string) {
    exists i :: OccursAt(s, pat, i)
  }

  /** Leftmost occurrence of `pat` in `s` at or after `from`. */
  function IndexOf(s: string, pat: string, from: nat): (r: Option<nat>)
    ensures r.Some? ==> from <= r.value && OccursAt(s, pat, r.value)
    ensures r.Some? ==> forall i :: from <= i < r.value ==> !OccursAt(s, pat, i)
    ensures r.None? ==> forall i :: from <= i ==> !OccursAt(s, pat, i)
    decreases |s| + 1 - from
  {
    if from > |s| then None
    else if OccursAt(s, pat, from) then Some(from)
    else IndexOf(s, pat, from + 1)
  }

  lemma OccursInSuffix(s: string, pat: string, from: nat, i: int)
    requires from <= |s|
    ensures 0 <= i ==> (OccursAt(s[from..], pat, i) <==> OccursAt(s, pat, from + i))
  {
    if 0 <= i && from + i + |pat| <= |s| {
      assert s[from..][i..i + |pat|] == s[from + i..from + i + |pat|];
    }
  }

  lemma OccursInPrefix(s: string, pat: string, end: nat, i: int)
    requires end <= |s|
    ensures i + |pat| <= end ==> (OccursAt(s[..end], pat, i) <==> OccursAt(s, pat, i))
  {
    if 0 <= i && i + |pat| <= end {
      assert s[..end][i..i + |pat|] == s[i..i + |pat|];
    }
  }
}
