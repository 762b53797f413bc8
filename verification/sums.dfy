// Finite sums over sequences of reals, folded left to right in the same
// order as the running accumulators of the odds engine.
module Sums {

  /** s[0] + s[1] + ... + s[|s|-1], added from the left. */
  function Sum(s: seq<real>): real
  {
    if |s| == 0 then 0.0 else Sum(s[..|s| - 1]) + s[|s| - 1]
  }

  predicate NonNegative(s: seq<real>)
  {
    forall i :: 0 <= i < |s| ==> 0.0 <= s[i]
  }

  /** A sum splits at any cut point. */
  lemma {:induction false} SumSplit(s: seq<real>, k: nat)
    requires k <= |s|
    ensures Sum(s) == Sum(s[..k]) + Sum(s[k..])
    decreases |s|
  {
    if k == |s| {
      assert s[..k] == s;
      assert s[k..] == [];
    } else {
      var n := |s| - 1;
      SumSplit(s[..n], k);
      assert s[..n][..k] == s[..k];
      assert s[k..][..|s[k..]| - 1] == s[..n][k..];
    }
  }

  /** Extending a prefix by one element adds that element to its sum. */
  lemma SumPrefixStep(s: seq<real>, k: nat)
    requires k < |s|
    ensures Sum(s[..k + 1]) == Sum(s[..k]) + s[k]
  {
    assert s[..k + 1][..k] == s[..k];
  }

  lemma {:induction false} SumNonNegative(s: seq<real>)
    requires NonNegative(s)
    ensures Sum(s) >= 0.0
    decreases |s|
  {
    if |s| > 0 {
      SumNonNegative(s[..|s| - 1]);
    }
  }

  /** No entry of a non-negative sequence exceeds its total. */
  lemma ElementAtMostSum(s: seq<real>, k: nat)
    requires NonNegative(s) && k < |s|
    ensures s[k] <= Sum(s)
  {
    SumSplit(s, k);
    SumNonNegative(s[..k]);
    SumNonNegative(s[k + 1..]);
    assert Sum(s[k..]) == Sum(s[k..][..1]) + Sum(s[k..][1..]) by { SumSplit(s[k..], 1); }
    assert s[k..][1..] == s[k + 1..];
    assert s[k..][..1] == [s[k]];
    assert Sum([s[k]]) == Sum([s[k]][..0]) + s[k];
  }

  /** Sum of s where s[c] == u[c] + x * w[c] for every c. */
  lemma {:induction false} SumLinear(s: seq<real>, u: seq<real>, w: seq<real>, x: real)
    requires |s| == |u| == |w|
    requires forall c :: 0 <= c < |s| ==> s[c] == u[c] + x * w[c]
    ensures Sum(s) == Sum(u) + x * Sum(w)
    decreases |s|
  {
    if |s| > 0 {
      var n := |s| - 1;
      SumLinear(s[..n], u[..n], w[..n], x);
      assert x * (Sum(w[..n]) + w[n]) == x * Sum(w[..n]) + x * w[n];
    }
  }

  /** A sequence that is zero outside positions i and j sums to s[i] + s[j]. */
  lemma {:induction false} SumOfTwo(s: seq<real>, i: nat, j: nat)
    requires i < j < |s|
    requires forall k :: 0 <= k < |s| && k != i && k != j ==> s[k] == 0.0
    ensures Sum(s) == s[i] + s[j]
    decreases |s|
  {
    var n := |s| - 1;
    if n == j {
      SumOfOne(s[..n], i);
    } else {
      SumOfTwo(s[..n], i, j);
    }
  }

  /** A sequence that is zero outside position i sums to s[i]. */
  lemma {:induction false} SumOfOne(s: seq<real>, i: nat)
    requires i < |s|
    requires forall k :: 0 <= k < |s| && k != i ==> s[k] == 0.0
    ensures Sum(s) == s[i]
    decreases |s|
  {
    var n := |s| - 1;
    if n == i {
      SumOfZeros(s[..n]);
    } else {
      SumOfOne(s[..n], i);
    }
  }

  lemma {:induction false} SumOfZeros(s: seq<real>)
    requires forall k :: 0 <= k < |s| ==> s[k] == 0.0
    ensures Sum(s) == 0.0
    decreases |s|
  {
    if |s| > 0 {
      SumOfZeros(s[..|s| - 1]);
    }
  }
}
