/** Sequence reversal, shared by the round-trip builder and the inbound paths. */
module Sequences {

  /** `[...s].reverse()`: element k of the result is element |s|-1-k of s. */
  function Reverse<T>(s: seq<T>): (r: seq<T>)
    ensures |r| == |s|
    ensures forall k :: 0 <= k < |s| ==> r[k] == s[|s| - 1 - k]
  {
    if s == [] then [] else Reverse(s[1..]) + [s[0]]
  }
}
