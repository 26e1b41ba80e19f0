/** JavaScript's `Array.prototype.find`, as the index of the element it returns. */
module Find {
  import opened Wrappers

  /** The index of the first element of `s[from..]` that satisfies `p`, if any. */
  function FindIndex<T>(s: seq<T>, p: T -> bool, from: nat): (r: Option<nat>)
    requires from <= |s|
    ensures r.Some? ==> from <= r.value < |s| && p(s[r.value])
    ensures r.Some? ==> forall j :: from <= j < r.value ==> !p(s[j])
    ensures r.None? ==> forall j :: from <= j < |s| ==> !p(s[j])
    decreases |s| - from
  {
    if from == |s| then None
    else if p(s[from]) then Some(from)
    else FindIndex(s, p, from + 1)
  }
}
