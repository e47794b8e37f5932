/** `maxMin` (src/services/curvasService.js:25-33): one left-to-right scan that
    keeps the best value seen and its index, replacing it only on a strict
    improvement, so ties keep the earliest index. */
module Extrema {

  /** The index `maxMin` reports as `idxMax`, scan by scan: the last element
      takes over only when it is strictly greater than the best so far. */
  function FirstMaxIndex(s: seq<real>): (k: nat)
    requires |s| > 0
    ensures k < |s|
    ensures forall i :: 0 <= i < |s| ==> s[i] <= s[k]
    ensures forall i :: 0 <= i < k ==> s[i] < s[k]
  {
    if |s| == 1 then 0
    else
      var k := FirstMaxIndex(s[..|s| - 1]);
      if s[|s| - 1] > s[k] then |s| - 1 else k
  }

  /** The index `maxMin` reports as `idxMin`. */
  function FirstMinIndex(s: seq<real>): (k: nat)
    requires |s| > 0
    ensures k < |s|
    ensures forall i :: 0 <= i < |s| ==> s[k] <= s[i]
    ensures forall i :: 0 <= i < k ==> s[k] < s[i]
  {
    if |s| == 1 then 0
    else
      var k := FirstMinIndex(s[..|s| - 1]);
      if s[|s| - 1] < s[k] then |s| - 1 else k
  }

  /** The contract of FirstMaxIndex pins the index down: no other index is both
      maximal and preceded only by strictly smaller entries. */
  lemma FirstMaxIndexUnique(s: seq<real>, k: nat)
    requires k < |s|
    requires forall i :: 0 <= i < |s| ==> s[i] <= s[k]
    requires forall i :: 0 <= i < k ==> s[i] < s[k]
    ensures k == FirstMaxIndex(s)
  {
  }

  /** `maxMin(arr)`. The source starts from `max = -Infinity, min = Infinity`,
      so its first iteration always takes element 0; the loop here starts from
      that state. */
  method MaxMin(arr: seq<real>) returns (max: real, min: real, idxMax: nat, idxMin: nat)
    requires |arr| > 0
    ensures idxMax < |arr| && max == arr[idxMax] && idxMax == FirstMaxIndex(arr)
    ensures idxMin < |arr| && min == arr[idxMin] && idxMin == FirstMinIndex(arr)
  {
    max, min, idxMax, idxMin := arr[0], arr[0], 0, 0;
    var i := 1;
    while i < |arr|
      invariant 1 <= i <= |arr|
      invariant idxMax == FirstMaxIndex(arr[..i]) && max == arr[idxMax]
      invariant idxMin == FirstMinIndex(arr[..i]) && min == arr[idxMin]
    {
      assert arr[..i + 1][..i] == arr[..i];
      var v := arr[i];
      if v > max { max := v; idxMax := i; }
      if v < min { min := v; idxMin := i; }
      i := i + 1;
    }
    assert arr[..i] == arr;
  }
}
