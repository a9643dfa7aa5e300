/** Sums of finite sequences of natural numbers, used for the counting arguments. */
module Totals {

  function Total(xs: seq<nat>): nat {
    if xs == [] then 0 else xs[0] + Total(xs[1..])
  }

  /** Changing one entry changes the sum by the same amount. */
  lemma {:induction false} TotalUpdate(xs: seq<nat>, ys: seq<nat>, p: nat)
    requires |xs| == |ys| && p < |xs|
    requires forall i :: 0 <= i < |xs| && i != p ==> xs[i] == ys[i]
    ensures Total(ys) + xs[p] == Total(xs) + ys[p]
  {
    if p == 0 {
      assert xs[1..] == ys[1..];
    } else {
      TotalUpdate(xs[1..], ys[1..], p - 1);
    }
  }

  lemma {:induction false} TotalAppend(xs: seq<nat>, x: nat)
    ensures Total(xs + [x]) == Total(xs) + x
  {
    if xs == [] {
      assert xs + [x] == [x] && [x][1..] == [];
    } else {
      assert (xs + [x])[1..] == xs[1..] + [x];
      TotalAppend(xs[1..], x);
    }
  }

  /** A bound that holds entry by entry holds for the sums. */
  lemma {:induction false} TotalBound(xs: seq<nat>, ys: seq<nat>, zs: seq<nat>)
    requires |xs| == |ys| == |zs|
    requires forall i :: 0 <= i < |xs| ==> xs[i] <= ys[i] + zs[i]
    ensures Total(xs) <= Total(ys) + Total(zs)
  {
    if xs != [] {
      TotalBound(xs[1..], ys[1..], zs[1..]);
    }
  }

  /** Multiplying every entry by k multiplies the sum by k. */
  lemma {:induction false} TotalScale(xs: seq<nat>, ys: seq<nat>, k: nat)
    requires |xs| == |ys|
    requires forall i :: 0 <= i < |xs| ==> ys[i] == xs[i] * k
    ensures Total(ys) == Total(xs) * k
  {
    if xs != [] {
      TotalScale(xs[1..], ys[1..], k);
      assert (xs[0] + Total(xs[1..])) * k == xs[0] * k + Total(xs[1..]) * k;
    }
  }
}
