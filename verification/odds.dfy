// The shop-roll odds engine: the chance that one shop slot shows the wanted
// champion, the Markov chain over "copies hit so far", and what is read off
// its power: the exact-count distribution, the "at least k" values and the
// expected number of copies.
module Odds {
  import opened Sums
  import opened Tables
  import opened Matrices

  /** Number of states of the chain: 0..8 copies hit, and 9 for "9 or more". */
  const States := 10

  // ----- Per-slot hit probability -----

  /** The chance that one shop slot shows the wanted champion of tier `cost`
      when `a` of its copies and `b` units of its tier are out of the pool. */
  function TransitionProb(cost: int, lvl: int, a: int, b: int, setId: int): (p: real)
    requires ValidCost(cost) && ValidLevel(lvl) && PoolSize(setId, cost, b) != 0
    ensures p == 0.0 <==> cost > MaxTier(lvl) || a >= TotalUnits(setId, cost)
    ensures Consistent(cost, a, b, setId) ==> 0.0 <= p <= 1.0
  {
    var c := CostProb(lvl, cost);
    var left := UnitsLeft(setId, cost, a) as real;
    var pool := PoolSize(setId, cost, b) as real;
    assert left == 0.0 <==> a >= TotalUnits(setId, cost);
    assert Consistent(cost, a, b, setId) ==> 0.0 < pool && 0.0 <= left <= pool;
    ScaledRatio(c, left, pool);
    c * (left / pool)
  }

  /** A probability c times left / pool is zero exactly when c or left is,
      and is itself a probability when 0 <= left <= pool. */
  lemma ScaledRatio(c: real, left: real, pool: real)
    requires pool != 0.0 && 0.0 <= c <= 1.0
    ensures c * (left / pool) == 0.0 <==> c == 0.0 || left == 0.0
    ensures 0.0 < pool && 0.0 <= left <= pool ==> 0.0 <= c * (left / pool) <= 1.0
  {
    if 0.0 < pool && 0.0 <= left <= pool {
      assert left / pool <= 1.0;
    }
  }

  /** The pool is non-empty and still holds every remaining copy of the
      wanted champion, as it does in any real game. */
  predicate Consistent(cost: int, a: int, b: int, setId: int)
    requires ValidCost(cost)
  {
    0 < PoolSize(setId, cost, b) && UnitsLeft(setId, cost, a) <= PoolSize(setId, cost, b)
  }

  /** The hit probability of every state 0..8 is defined: the pool size
      PoolSize(b) - i is never zero for i in 0..8. */
  predicate RowsDefined(cost: int, b: int, setId: int)
    requires ValidCost(cost)
  {
    PoolSize(setId, cost, b) < 0 || PoolSize(setId, cost, b) > 8
  }

  /** Inputs for which every state 0..8 sees a consistent pool. */
  predicate Playable(cost: int, a: int, b: int, setId: int)
    requires ValidCost(cost)
  {
    PoolSize(setId, cost, b) > 8 && UnitsLeft(setId, cost, a) <= PoolSize(setId, cost, b)
  }

  /** Hitting i more copies takes i more units out of both counts; a
      playable start keeps each of the nine shifted pools consistent. */
  lemma PlayableStaysConsistent(cost: int, a: int, b: int, setId: int, i: int)
    requires ValidCost(cost) && Playable(cost, a, b, setId) && 0 <= i < 9
    ensures RowsDefined(cost, b, setId)
    ensures Consistent(cost, a + i, b + i, setId)
  {
  }

  // ----- Transition matrix -----

  /** Entry (i, j) of the transition matrix: from state i < 9 the chain stays
      with probability 1 - p_i and moves to i + 1 with probability p_i, where
      p_i is the hit probability with a + i and b + i units out; state 9 is
      absorbing. */
  function TransitionEntry(cost: int, lvl: int, a: int, b: int, setId: int, i: nat, j: nat): real
    requires ValidCost(cost) && ValidLevel(lvl) && RowsDefined(cost, b, setId)
    requires i < States && j < States
  {
    if i == 9 && j == 9 then 1.0
    else if j == i then 1.0 - TransitionProb(cost, lvl, a + i, b + i, setId)
    else if j == i + 1 then TransitionProb(cost, lvl, a + i, b + i, setId)
    else 0.0
  }

  function TransitionMatrix(cost: int, lvl: int, a: int, b: int, setId: int): (m: Matrix)
    requires ValidCost(cost) && ValidLevel(lvl) && RowsDefined(cost, b, setId)
    ensures IsMatrix(m, States, States)
  {
    seq(States, i requires 0 <= i < States =>
      seq(States, j requires 0 <= j < States => TransitionEntry(cost, lvl, a, b, setId, i, j)))
  }

  /** `getTransitionMatrix`: pushes ten rows of ten entries. */
  method BuildTransitionMatrix(cost: int, lvl: int, a: int, b: int, setId: int) returns (mat: Matrix)
    requires ValidCost(cost) && ValidLevel(lvl) && RowsDefined(cost, b, setId)
    ensures mat == TransitionMatrix(cost, lvl, a, b, setId)
  {
    mat := [];
    var i := 0;
    while i < States
      invariant 0 <= i <= States && |mat| == i
      invariant forall r :: 0 <= r < i ==> mat[r] == TransitionMatrix(cost, lvl, a, b, setId)[r]
    {
      var newRow: seq<real> := [];
      var j := 0;
      while j < States
        invariant 0 <= j <= States && |newRow| == j
        invariant forall c :: 0 <= c < j ==> newRow[c] == TransitionEntry(cost, lvl, a, b, setId, i, c)
      {
        if i == 9 && j == 9 {
          newRow := newRow + [1.0];
        } else {
          // Row 9 never uses the hit probability, so it is only evaluated
          // for the states 0..8 whose pool is known to be non-empty.
          var p := if i < 9 then TransitionProb(cost, lvl, a + i, b + i, setId) else 0.0;
          if j == i {
            newRow := newRow + [1.0 - p];
          } else if j == i + 1 {
            newRow := newRow + [p];
          } else {
            newRow := newRow + [0.0];
          }
        }
        j := j + 1;
      }
      mat := mat + [newRow];
      i := i + 1;
    }
  }

  /** Every row of the transition matrix sums to one, whatever the hit
      probabilities are, and nothing lies below the diagonal: the copy count
      never goes down. */
  lemma TransitionRowsSumToOne(cost: int, lvl: int, a: int, b: int, setId: int)
    requires ValidCost(cost) && ValidLevel(lvl) && RowsDefined(cost, b, setId)
    ensures forall i :: 0 <= i < States ==> Sum(TransitionMatrix(cost, lvl, a, b, setId)[i]) == 1.0
    ensures UpperTriangular(TransitionMatrix(cost, lvl, a, b, setId), States)
  {
    var m := TransitionMatrix(cost, lvl, a, b, setId);
    forall i | 0 <= i < States
      ensures Sum(m[i]) == 1.0
    {
      if i == 9 {
        SumOfOne(m[i], 9);
      } else {
        SumOfTwo(m[i], i, i + 1);
      }
    }
  }

  /** Column c of the transition matrix is zero outside rows c - 1 and c. */
  lemma TransitionMatrixBidiagonal(cost: int, lvl: int, a: int, b: int, setId: int)
    requires ValidCost(cost) && ValidLevel(lvl) && RowsDefined(cost, b, setId)
    ensures forall i, c :: 0 <= i < States && 0 <= c < States && i + 1 != c && i != c ==>
              TransitionMatrix(cost, lvl, a, b, setId)[i][c] == 0.0
  {
  }

  /** For a playable start every entry is a probability, so the transition
      matrix is row-stochastic. */
  lemma TransitionMatrixStochastic(cost: int, lvl: int, a: int, b: int, setId: int)
    requires ValidCost(cost) && ValidLevel(lvl) && Playable(cost, a, b, setId)
    ensures Stochastic(TransitionMatrix(cost, lvl, a, b, setId), States)
  {
    var m := TransitionMatrix(cost, lvl, a, b, setId);
    TransitionRowsSumToOne(cost, lvl, a, b, setId);
    forall i | 0 <= i < States
      ensures NonNegative(m[i])
    {
      if i < 9 {
        PlayableStaysConsistent(cost, a, b, setId, i);
      }
    }
  }

  // ----- Reading off the powered matrix -----

  /** Shop slots drawn for a gold budget: 5 * floor(gold / 2), the multiple
      of five n with 2n <= 5 * gold < 2n + 10. A shop of five slots costs 2
      gold, so 10 gold buy 5 shops and 25 draws (Dafny's `/` floors for a
      positive divisor, as `Math.floor` does). */
  function SlotCount(gold: int): (n: int)
    ensures n % 5 == 0 && 2 * n <= 5 * gold < 2 * n + 10
  {
    5 * (gold / 2)
  }

  /** Row 0 of the powered transition matrix: the chance of holding exactly
      k copies, k = 0..8, and 9 or more at index 9. */
  function Distribution(cost: int, lvl: int, a: int, b: int, gold: int, setId: int): (d: seq<real>)
    requires ValidCost(cost) && ValidLevel(lvl) && RowsDefined(cost, b, setId)
    ensures |d| == States
  {
    MatPow(TransitionMatrix(cost, lvl, a, b, setId), SlotCount(gold))[0]
  }

  /** Gold 2k and 2k + 1 both buy k shops, 5k slot draws, so they give the
      same distribution. */
  lemma OddGoldIsWasted(cost: int, lvl: int, a: int, b: int, k: int, setId: int)
    requires ValidCost(cost) && ValidLevel(lvl) && RowsDefined(cost, b, setId)
    ensures SlotCount(2 * k) == SlotCount(2 * k + 1) == 5 * k
    ensures Distribution(cost, lvl, a, b, 2 * k, setId) == Distribution(cost, lvl, a, b, 2 * k + 1, setId)
  {
  }

  /** Entry k is 1 minus the chances of exactly 0, ..., k - 1 copies. */
  function Cumulative(d: seq<real>): (c: seq<real>)
    requires |d| == States
    ensures |c| == States
  {
    seq(States, k requires 0 <= k < States => 1.0 - Sum(d[..k]))
  }

  /** 1 * d[1] + ... + (k - 1) * d[k - 1], added from the left. */
  function Weighted(d: seq<real>, k: nat): real
    requires k <= |d|
  {
    if k <= 1 then 0.0 else Weighted(d, k - 1) + (k - 1) as real * d[k - 1]
  }

  /** The expected number of copies: the sum of k * d[k] for k = 1..9. */
  function ExpectedValue(d: seq<real>): real
    requires |d| == States
  {
    Weighted(d, States)
  }

  /** `getProbs`: builds the matrix, powers it to the number of slot draws
      the gold buys, and reads the distribution, the cumulative values and the
      expected value off row 0. */
  method GetProbs(cost: int, lvl: int, a: int, b: int, gold: int, setId: int)
    returns (pprob: seq<real>, cprob: seq<real>, expectedValue: real)
    requires ValidCost(cost) && ValidLevel(lvl) && RowsDefined(cost, b, setId)
    ensures pprob == Distribution(cost, lvl, a, b, gold, setId)
    ensures cprob == Cumulative(pprob)
    ensures expectedValue == ExpectedValue(pprob)
  {
    var mat := BuildTransitionMatrix(cost, lvl, a, b, setId);
    mat := Power(mat, SlotCount(gold));
    pprob := mat[0];
    cprob, expectedValue := ReadOffRow(pprob);
  }

  /** The tail of `getProbs`: from the exact-count values, accumulates the
      "at least k" values (1 minus the chances of fewer than k copies) and
      the expected number of copies. */
  method ReadOffRow(pprob: seq<real>) returns (cprob: seq<real>, expectedValue: real)
    requires |pprob| == States
    ensures cprob == Cumulative(pprob)
    ensures expectedValue == ExpectedValue(pprob)
  {
    cprob := [1.0];
    var i := 1;
    while i < States
      invariant 1 <= i <= States && |cprob| == i
      invariant forall k :: 0 <= k < i ==> cprob[k] == 1.0 - Sum(pprob[..k])
    {
      var p := 1.0;
      var j := 0;
      while j < i
        invariant 0 <= j <= i
        invariant p == 1.0 - Sum(pprob[..j])
      {
        SumPrefixStep(pprob, j);
        p := p - pprob[j];
        j := j + 1;
      }
      cprob := cprob + [p];
      i := i + 1;
    }

    expectedValue := 0.0;
    i := 1;
    while i < States
      invariant 1 <= i <= States
      invariant expectedValue == Weighted(pprob, i)
    {
      expectedValue := expectedValue + i as real * pprob[i];
      i := i + 1;
    }
  }

  // ----- Properties of the distribution -----

  /** For a playable start the exact-count values form a probability
      distribution. */
  lemma DistributionIsProbability(cost: int, lvl: int, a: int, b: int, gold: int, setId: int)
    requires ValidCost(cost) && ValidLevel(lvl) && Playable(cost, a, b, setId)
    ensures NonNegative(Distribution(cost, lvl, a, b, gold, setId))
    ensures Sum(Distribution(cost, lvl, a, b, gold, setId)) == 1.0
    ensures forall k :: 0 <= k < States ==> Distribution(cost, lvl, a, b, gold, setId)[k] <= 1.0
  {
    var m := TransitionMatrix(cost, lvl, a, b, setId);
    TransitionMatrixStochastic(cost, lvl, a, b, setId);
    PowStochastic(m, SlotCount(gold), States);
    var d := Distribution(cost, lvl, a, b, gold, setId);
    forall k | 0 <= k < States
      ensures d[k] <= 1.0
    {
      ElementAtMostSum(d, k);
    }
  }

  /** Any number of slot draws keeps the powered matrix upper-triangular: from any
      state the chain only reaches the same or higher copy counts. */
  lemma CopiesNeverDecrease(cost: int, lvl: int, a: int, b: int, n: int, setId: int)
    requires ValidCost(cost) && ValidLevel(lvl) && RowsDefined(cost, b, setId)
    ensures UpperTriangular(MatPow(TransitionMatrix(cost, lvl, a, b, setId), n), States)
  {
    TransitionRowsSumToOne(cost, lvl, a, b, setId);
    PowUpperTriangular(TransitionMatrix(cost, lvl, a, b, setId), n, States);
  }

  /** The cumulative values start at 1 and never increase along k. */
  lemma CumulativeNonIncreasing(d: seq<real>)
    requires |d| == States && NonNegative(d)
    ensures Cumulative(d)[0] == 1.0
    ensures forall k :: 0 <= k < States - 1 ==> Cumulative(d)[k + 1] <= Cumulative(d)[k]
  {
    assert d[..0] == [];
    forall k | 0 <= k < States - 1
      ensures Cumulative(d)[k + 1] <= Cumulative(d)[k]
    {
      SumPrefixStep(d, k);
    }
  }

  /** For a distribution, entry k of the cumulative values is the chance of
      holding at least k copies, and so lies in [0, 1]. */
  lemma CumulativeIsAtLeast(d: seq<real>)
    requires |d| == States && NonNegative(d) && Sum(d) == 1.0
    ensures forall k :: 0 <= k < States ==> Cumulative(d)[k] == Sum(d[k..])
    ensures forall k :: 0 <= k < States ==> 0.0 <= Cumulative(d)[k] <= 1.0
  {
    forall k | 0 <= k < States
      ensures Cumulative(d)[k] == Sum(d[k..]) && 0.0 <= Cumulative(d)[k] <= 1.0
    {
      SumSplit(d, k);
      SumNonNegative(d[..k]);
      SumNonNegative(d[k..]);
    }
  }

  lemma {:induction false} WeightedBounds(d: seq<real>, k: nat)
    requires k <= |d| <= States && NonNegative(d)
    ensures 0.0 <= Weighted(d, k) <= 9.0 * Sum(d[..k])
    decreases k
  {
    if k > 0 {
      WeightedBounds(d, k - 1);
      SumPrefixStep(d, k - 1);
      SumNonNegative(d[..k - 1]);
      assert 0.0 <= (k - 1) as real * d[k - 1] <= 9.0 * d[k - 1];
    }
  }

  /** For a distribution the expected value lies in [0, 9]. */
  lemma ExpectedValueBounds(d: seq<real>)
    requires |d| == States && NonNegative(d) && Sum(d) == 1.0
    ensures 0.0 <= ExpectedValue(d) <= 9.0
  {
    WeightedBounds(d, States);
    assert d[..States] == d;
  }

  lemma {:induction false} WeightedOfLowStates(d: seq<real>, k: nat, top: nat)
    requires k <= |d| && top < |d|
    requires forall i :: top < i < |d| ==> d[i] == 0.0
    ensures top < k ==> Weighted(d, k) == Weighted(d, top + 1)
    decreases k
  {
    if k > top + 1 {
      WeightedOfLowStates(d, k - 1, top);
    }
  }

  /** When the wanted champion cannot appear (its tier is above what the
      level offers, or all its copies are out) the chain never moves: the
      player ends with no new copy for any gold, and the expected value is 0. */
  lemma NoHitMeansNoCopies(cost: int, lvl: int, a: int, b: int, gold: int, setId: int)
    requires ValidCost(cost) && ValidLevel(lvl) && RowsDefined(cost, b, setId)
    requires cost > MaxTier(lvl) || a >= TotalUnits(setId, cost)
    ensures Distribution(cost, lvl, a, b, gold, setId) == Identity(States)[0]
    ensures ExpectedValue(Distribution(cost, lvl, a, b, gold, setId)) == 0.0
  {
    var m := TransitionMatrix(cost, lvl, a, b, setId);
    forall i | 0 <= i < States
      ensures m[i] == Identity(States)[i]
    {
      if i < 9 {
        assert TransitionProb(cost, lvl, a + i, b + i, setId) == 0.0;
      }
    }
    assert m == Identity(States);
    PowIdentity(States, SlotCount(gold));
    var d := Distribution(cost, lvl, a, b, gold, setId);
    WeightedOfLowStates(d, States, 0);
  }

  /** With fewer than two gold the exponent is at most 0 and `power` returns
      the matrix itself: the model still draws one slot, not zero. */
  lemma FewGoldStillDrawsOnce(cost: int, lvl: int, a: int, b: int, gold: int, setId: int)
    requires ValidCost(cost) && ValidLevel(lvl) && RowsDefined(cost, b, setId)
    requires gold <= 1
    ensures Distribution(cost, lvl, a, b, gold, setId)[0] == 1.0 - TransitionProb(cost, lvl, a, b, setId)
    ensures Distribution(cost, lvl, a, b, gold, setId)[1] == TransitionProb(cost, lvl, a, b, setId)
    ensures forall k :: 2 <= k < States ==> Distribution(cost, lvl, a, b, gold, setId)[k] == 0.0
    ensures ExpectedValue(Distribution(cost, lvl, a, b, gold, setId)) == TransitionProb(cost, lvl, a, b, setId)
  {
    var d := Distribution(cost, lvl, a, b, gold, setId);
    assert d == TransitionMatrix(cost, lvl, a, b, setId)[0];
    WeightedOfLowStates(d, States, 1);
  }

  /** Tier 1 at level 9 with nothing out and no gold: the expected value is
      1/130, the chance of one slot (0.10 * 22 / 286), not 0. */
  lemma NoGoldTierOneLevelNine()
    ensures ExpectedValue(Distribution(1, 9, 0, 0, 0, 11)) == 1.0 / 130.0
  {
    FewGoldStillDrawsOnce(1, 9, 0, 0, 0, 11);
  }

  // ----- More gold never lowers the expected value -----

  /** The expected value written out term by term. */
  lemma ExpectedValueExpanded(d: seq<real>)
    requires |d| == States
    ensures ExpectedValue(d) == 1.0 * d[1] + 2.0 * d[2] + 3.0 * d[3] + 4.0 * d[4] + 5.0 * d[5]
                                + 6.0 * d[6] + 7.0 * d[7] + 8.0 * d[8] + 9.0 * d[9]
  {
    assert Weighted(d, 2) == 1.0 * d[1];
    assert Weighted(d, 3) == Weighted(d, 2) + 2.0 * d[2];
    assert Weighted(d, 4) == Weighted(d, 3) + 3.0 * d[3];
    assert Weighted(d, 5) == Weighted(d, 4) + 4.0 * d[4];
    assert Weighted(d, 6) == Weighted(d, 5) + 5.0 * d[5];
    assert Weighted(d, 7) == Weighted(d, 6) + 6.0 * d[6];
    assert Weighted(d, 8) == Weighted(d, 7) + 7.0 * d[7];
    assert Weighted(d, 9) == Weighted(d, 8) + 8.0 * d[8];
  }

  /** Moving mass w[i] >= 0 from state i to state i + 1, for each i in
      0..8, raises the expected value by the total mass moved. */
  lemma MassMovedUp(u: seq<real>, v: seq<real>, w: seq<real>)
    requires |u| == States && |v| == States && |w| == States - 1
    requires forall i :: 0 <= i < States - 1 ==> 0.0 <= w[i]
    requires forall c {:trigger u[c]} :: 0 <= c < States ==>
      u[c] == (if c < States - 1 then v[c] - w[c] else v[c]) + (if c == 0 then 0.0 else w[c - 1])
    ensures ExpectedValue(u) >= ExpectedValue(v)
  {
    ExpectedValueExpanded(u);
    ExpectedValueExpanded(v);
    assert u[0] == v[0] - w[0];
    assert u[1] == v[1] - w[1] + w[0];
    assert u[2] == v[2] - w[2] + w[1];
    assert u[3] == v[3] - w[3] + w[2];
    assert u[4] == v[4] - w[4] + w[3];
    assert u[5] == v[5] - w[5] + w[4];
    assert u[6] == v[6] - w[6] + w[5];
    assert u[7] == v[7] - w[7] + w[6];
    assert u[8] == v[8] - w[8] + w[7];
    assert u[9] == v[9] + w[8];
  }

  /** Row i < 9 of a chain that only stays put or moves one state up
      keeps v[i] * m[i][i] in state i and moves v[i] * m[i][i + 1] on. */
  lemma StayOrMoveUp(v: seq<real>, m: Matrix, i: int)
    requires |v| == States && NonNegative(v) && Stochastic(m, States)
    requires 0 <= i < States - 1
    requires forall c :: 0 <= c < States && c != i && c != i + 1 ==> m[i][c] == 0.0
    ensures 0.0 <= v[i] * m[i][i + 1]
    ensures v[i] * m[i][i] == v[i] - v[i] * m[i][i + 1]
  {
    SumOfTwo(m[i], i, i + 1);
    assert m[i][i] == 1.0 - m[i][i + 1] && 0.0 <= m[i][i + 1] && 0.0 <= v[i];
    assert v[i] * (1.0 - m[i][i + 1]) == v[i] - v[i] * m[i][i + 1];
  }

  /** Entry c of one step of such a chain: what state c keeps plus what
      state c - 1 passes up. */
  lemma StepColumn(v: seq<real>, m: Matrix, c: int)
    requires |v| == States && NonNegative(v) && Stochastic(m, States)
    requires forall i, j :: 0 <= i < States && 0 <= j < States && i + 1 != j && i != j ==> m[i][j] == 0.0
    requires 0 <= c < States
    ensures VecMat(v, m, States)[c]
         == (if c < States - 1 then v[c] - v[c] * m[c][c + 1] else v[c])
          + (if c == 0 then 0.0 else v[c - 1] * m[c - 1][c])
  {
    DotBidiagonal(v, m, c);
    if c < States - 1 {
      StayOrMoveUp(v, m, c);
    } else {
      SumOfOne(m[c], c);
    }
  }

  /** A step of any row-stochastic chain that only stays put or moves one
      state up moves mass v[i] * m[i][i + 1] from each state i < 9 to i + 1,
      so it never lowers the expected value. */
  lemma StepUpRaisesExpectedValue(v: seq<real>, m: Matrix)
    requires |v| == States && NonNegative(v) && Stochastic(m, States)
    requires forall i, c :: 0 <= i < States && 0 <= c < States && i + 1 != c && i != c ==> m[i][c] == 0.0
    ensures ExpectedValue(VecMat(v, m, States)) >= ExpectedValue(v)
  {
    var u := VecMat(v, m, States);
    var w := seq(States - 1, i requires 0 <= i < States - 1 => v[i] * m[i][i + 1]);
    forall i | 0 <= i < States - 1
      ensures 0.0 <= w[i]
    {
      StayOrMoveUp(v, m, i);
    }
    forall c | 0 <= c < States
      ensures u[c] == (if c < States - 1 then v[c] - w[c] else v[c]) + (if c == 0 then 0.0 else w[c - 1])
    {
      StepColumn(v, m, c);
    }
    MassMovedUp(u, v, w);
  }

  /** Powers of such a chain: more steps never lower the expected value of
      row 0. */
  lemma {:induction false} StepsRaiseExpectedValue(m: Matrix, n1: int, n2: int)
    requires Stochastic(m, States)
    requires forall i, c :: 0 <= i < States && 0 <= c < States && i + 1 != c && i != c ==> m[i][c] == 0.0
    requires n1 <= n2
    ensures ExpectedValue(MatPow(m, n1)[0]) <= ExpectedValue(MatPow(m, n2)[0])
    decreases n2 - n1
  {
    if n1 < n2 && n2 > 1 {
      StepsRaiseExpectedValue(m, n1, n2 - 1);
      PowStochastic(m, n2 - 1, States);
      var prev := MatPow(m, n2 - 1);
      assert MatPow(m, n2)[0] == VecMat(prev[0], m, States);
      StepUpRaisesExpectedValue(prev[0], m);
    }
  }

  /** For a playable start, more slot draws never lower the expected number
      of copies. */
  lemma ExpectedValueGrowsWithSlots(cost: int, lvl: int, a: int, b: int, setId: int, n1: int, n2: int)
    requires ValidCost(cost) && ValidLevel(lvl) && Playable(cost, a, b, setId)
    requires n1 <= n2
    ensures ExpectedValue(MatPow(TransitionMatrix(cost, lvl, a, b, setId), n1)[0])
         <= ExpectedValue(MatPow(TransitionMatrix(cost, lvl, a, b, setId), n2)[0])
  {
    TransitionMatrixStochastic(cost, lvl, a, b, setId);
    TransitionMatrixBidiagonal(cost, lvl, a, b, setId);
    StepsRaiseExpectedValue(TransitionMatrix(cost, lvl, a, b, setId), n1, n2);
  }

  /** Spending more gold never lowers the expected number of copies. */
  lemma ExpectedValueGrowsWithGold(cost: int, lvl: int, a: int, b: int, setId: int, g1: int, g2: int)
    requires ValidCost(cost) && ValidLevel(lvl) && Playable(cost, a, b, setId)
    requires g1 <= g2
    ensures ExpectedValue(Distribution(cost, lvl, a, b, g1, setId))
         <= ExpectedValue(Distribution(cost, lvl, a, b, g2, setId))
  {
    assert SlotCount(g1) <= SlotCount(g2);
    ExpectedValueGrowsWithSlots(cost, lvl, a, b, setId, SlotCount(g1), SlotCount(g2));
  }
}
