/**
 * Stable arg-max over a non-empty sequence of keys: the position of the
 * first maximal key. This is what `np.argmax`, rapidfuzz's `extractOne`
 * and Python's `max(..., key=len)` all return.
 */
module Ranking {

  /** `best` is a maximal position of `keys` and no earlier key ties it. */
  ghost predicate IsFirstMax(keys: seq<real>, best: nat)
  {
    && best < |keys|
    && (forall k :: 0 <= k < |keys| ==> keys[k] <= keys[best])
    && (forall k :: 0 <= k < best ==> keys[k] < keys[best])
  }

  /** Scans left to right and moves only on a strictly larger key. */
  function FirstMaxIndex(keys: seq<real>): (best: nat)
    requires |keys| > 0
    ensures IsFirstMax(keys, best)
  {
    if |keys| == 1 then 0
    else
      var prev := FirstMaxIndex(keys[..|keys| - 1]);
      if keys[|keys| - 1] > keys[prev] then |keys| - 1 else prev
  }
}
