/** The normalisation step of renderImage: the maximum of the flat sample
    array (numpy's amax), which every per-pixel colour lookup divides by. */
module Normaliser {

  /** The largest sample of a non-empty array. */
  function Max(s: seq<real>): (m: real)
    requires |s| > 0
    ensures m in s
    ensures forall i :: 0 <= i < |s| ==> s[i] <= m
  {
    if |s| == 1 then s[0]
    else
      var rest := Max(s[1..]);
      if s[0] >= rest then s[0] else rest
  }
}
