/** Rust's `str::find` for a string pattern: the index of the first occurrence. */
module Text {
  import opened Wrappers

  /** `pat` occurs in `s` starting at index `j`. */
  predicate OccursAt(s: string, pat: string, j: nat) {
    j + |pat| <= |s| && s[j..j + |pat|] == pat
  }

  /** The first occurrence of `pat` in `s` at or after index `k`. */
  function FindFrom(s: string, pat: string, k: nat): (r: Option<nat>)
    requires k <= |s|
    decreases |s| - k
    ensures r.Some? ==> k <= r.value && r.value + |pat| <= |s|
  {
    if k + |pat| > |s| then None
    else if s[k..k + |pat|] == pat then Some(k)
    else FindFrom(s, pat, k + 1)
  }

  /** `s.find(pat)`. */
  function Find(s: string, pat: string): (r: Option<nat>)
    ensures r.Some? ==> r.value + |pat| <= |s|
  {
    FindFrom(s, pat, 0)
  }

  /** The search from `k` finds an occurrence at or after `k`, and none lies between `k` and it. */
  lemma {:induction false} FindFromSpec(s: string, pat: string, k: nat)
    requires k <= |s|
    decreases |s| - k
    ensures var r := FindFrom(s, pat, k);
      && (r.Some? ==> k <= r.value && OccursAt(s, pat, r.value))
      && (forall j: nat :: k <= j && (r.Some? ==> j < r.value) ==> !OccursAt(s, pat, j))
  {
    if k + |pat| <= |s| && s[k..k + |pat|] != pat {
      FindFromSpec(s, pat, k + 1);
    }
  }

  /** `Find` gives the first occurrence, and None only when there is none at all. */
  lemma FindSpec(s: string, pat: string)
    ensures Find(s, pat).Some? ==> OccursAt(s, pat, Find(s, pat).value)
    ensures forall j: nat :: (Find(s, pat).Some? ==> j < Find(s, pat).value) ==> !OccursAt(s, pat, j)
  {
    FindFromSpec(s, pat, 0);
  }
}
