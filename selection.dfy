/**
 * Python's `min(items, key=...)` and `sorted(items, key=...)[0]`: both walk
 * the items in order and keep the first item of least key.
 */
module Selection {

  import opened Wrappers

  /**
   * The index of the first element of `ks` that is `eligible` and has the
   * least `weight` among the eligible ones, or None when none is eligible.
   */
  function FirstMin<K>(ks: seq<K>, eligible: K -> bool, weight: K -> real): (r: Option<nat>)
    ensures r.None? <==> forall i :: 0 <= i < |ks| ==> !eligible(ks[i])
    ensures r.Some? ==> r.value < |ks| && eligible(ks[r.value])
    ensures r.Some? ==> forall i :: 0 <= i < |ks| && eligible(ks[i]) ==> weight(ks[r.value]) <= weight(ks[i])
    ensures r.Some? ==> forall i :: 0 <= i < r.value && eligible(ks[i]) ==> weight(ks[r.value]) < weight(ks[i])
  {
    if |ks| == 0 then None
    else
      var rest := FirstMin(ks[1..], eligible, weight);
      if !eligible(ks[0]) then
        (if rest.None? then None else Some(rest.value + 1))
      else if rest.None? || weight(ks[0]) <= weight(ks[1..][rest.value]) then
        Some(0)
      else
        Some(rest.value + 1)
  }
}
