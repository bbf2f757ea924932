/** Sums of sequences, in particular of the measures of a system's ranks. */
module Totals {

  function Total(ms: seq<int>): int {
    if ms == [] then 0 else Total(ms[..|ms| - 1]) + ms[|ms| - 1]
  }

  lemma {:induction false} TotalNonNegative(ms: seq<int>)
    requires forall i :: 0 <= i < |ms| ==> ms[i] >= 0
    ensures Total(ms) >= 0
  {
    if ms != [] {
      TotalNonNegative(ms[..|ms| - 1]);
    }
  }

  // One rank's measure drops and the others stay.
  lemma {:induction false} TotalDrops(ms: seq<int>, ns: seq<int>, r: nat)
    requires |ms| == |ns| && r < |ms| && ns[r] < ms[r]
    requires forall i :: 0 <= i < |ms| && i != r ==> ns[i] == ms[i]
    ensures Total(ns) < Total(ms)
  {
    var n := |ms| - 1;
    if r == n {
      assert ns[..n] == ms[..n];
    } else {
      TotalDrops(ms[..n], ns[..n], r);
    }
  }

  lemma {:induction false} TotalUpdate(ms: seq<int>, r: nat, v: int)
    requires r < |ms|
    ensures Total(ms[r := v]) == Total(ms) - ms[r] + v
  {
    var n := |ms| - 1;
    if r == n {
      assert ms[r := v][..n] == ms[..n];
    } else {
      TotalUpdate(ms[..n], r, v);
      assert ms[r := v][..n] == ms[..n][r := v];
    }
  }

  lemma {:induction false} TotalZero(ms: seq<int>)
    requires forall i :: 0 <= i < |ms| ==> ms[i] >= 0
    ensures Total(ms) >= 0
    ensures Total(ms) == 0 <==> forall i :: 0 <= i < |ms| ==> ms[i] == 0
  {
    if ms != [] {
      var n := |ms| - 1;
      TotalZero(ms[..n]);
      if Total(ms) == 0 {
        assert forall i :: 0 <= i < n ==> ms[i] == ms[..n][i];
      }
    }
  }
}
