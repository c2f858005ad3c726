/** Substring search, as `str.startswith(pat, i)`, `str.find` and `in` do it. */
module TextSearch {

  predicate At(text: string, pat: string, i: nat) {
    i + |pat| <= |text| && forall o | 0 <= o < |pat| :: text[i + o] == pat[o]
  }

  /** `text.find(pat, i)`, with the length of the text plus one when there is none. */
  function Find(text: string, pat: string, i: nat): (r: nat)
    ensures i <= |text| ==> i <= r
    ensures r <= |text| ==> At(text, pat, r)
    ensures forall k | i <= k < r :: !At(text, pat, k)
    ensures r <= |text| || r == |text| + 1 || r == i
    decreases |text| + 1 - i
  {
    if i > |text| then i else if At(text, pat, i) then i else Find(text, pat, i + 1)
  }

  predicate Contains(text: string, pat: string) {
    exists k | 0 <= k <= |text| :: At(text, pat, k)
  }
}
