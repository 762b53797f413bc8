// The gold search, for any curve of expected values: scan gold upward
// from 0 until the curve reaches a target, giving up past a fixed limit.
module GoldScan {
  /** What the search reports: an amount of gold, or that the limit was
      reached. */
  datatype GoldResult = Gold(amount: int) | LimitReached

  /** Largest gold value the scan still evaluates. */
  const MaxGold := 200

  /** What the scan reports from gold g on: g' + 1 for the first g' in
      g..MaxGold - 1 whose expected value reaches the target, otherwise
      LimitReached. */
  function Scan(targetEV: real, ev: int -> real, g: int): GoldResult
    requires 0 <= g <= MaxGold
    decreases MaxGold - g
  {
    if g == MaxGold then LimitReached
    else if ev(g) >= targetEV then Gold(g + 1)
    else Scan(targetEV, ev, g + 1)
  }

  /** The answer of the search as written: 0 for a target of at most 0,
      otherwise the scan from gold 0. */
  function Search(targetEV: real, ev: int -> real): GoldResult
  {
    if targetEV <= 0.0 then Gold(0) else Scan(targetEV, ev, 0)
  }

  /** The loop of `calculateGoldForTargetEV`: evaluates gold 0, 1, 2, ...
      while the last value is below the target and gold is at most MaxGold,
      incrementing gold after each evaluation, and reports the gold reached
      or the limit. */
  method ScanForTarget(targetEV: real, ev: int -> real) returns (r: GoldResult)
    ensures r == Search(targetEV, ev)
  {
    var gold := 0;
    var value := 0.0;
    while value < targetEV && gold <= MaxGold
      invariant 0 <= gold <= MaxGold + 1
      invariant targetEV <= 0.0 ==> gold == 0
      invariant gold == 0 ==> value == 0.0
      invariant gold > 0 ==> value == ev(gold - 1)
      invariant targetEV > 0.0 && gold > 0 ==> Scan(targetEV, ev, 0) == Scan(targetEV, ev, gold - 1)
      decreases MaxGold + 1 - gold
    {
      value := ev(gold);
      gold := gold + 1;
    }

    if gold > MaxGold {
      r := LimitReached;
    } else {
      r := Gold(gold);
    }
  }

  lemma {:induction false} ScanIsFirstHit(targetEV: real, ev: int -> real, from: int)
    requires 0 <= from <= MaxGold
    ensures var r := Scan(targetEV, ev, from);
      (r.Gold? ==>
        from < r.amount <= MaxGold && ev(r.amount - 1) >= targetEV &&
        forall g :: from <= g < r.amount - 1 ==> ev(g) < targetEV) &&
      (r.LimitReached? ==> forall g :: from <= g < MaxGold ==> ev(g) < targetEV)
    decreases MaxGold - from
  {
    if from < MaxGold {
      ScanIsFirstHit(targetEV, ev, from + 1);
    }
  }

  /** The search answers 0 for a target of at most 0. Otherwise it answers
      g + 1, where g is the least gold in 0..199 whose expected value reaches
      the target (one more than the least such gold), and it reports the
      limit when there is no such g, even if gold 200 would do. */
  lemma SearchIsFirstHit(targetEV: real, ev: int -> real)
    ensures targetEV <= 0.0 ==> Search(targetEV, ev) == Gold(0)
    ensures var r := Search(targetEV, ev);
      targetEV > 0.0 && r.Gold? ==>
        1 <= r.amount <= MaxGold && ev(r.amount - 1) >= targetEV &&
        forall g :: 0 <= g < r.amount - 1 ==> ev(g) < targetEV
    ensures Search(targetEV, ev) == LimitReached <==>
      targetEV > 0.0 && forall g :: 0 <= g < MaxGold ==> ev(g) < targetEV
  {
    if targetEV > 0.0 {
      ScanIsFirstHit(targetEV, ev, 0);
    }
  }

  /** Orders the answers: any amount of gold before the limit. */
  function Rank(r: GoldResult): int
  {
    if r.Gold? then r.amount else MaxGold + 1
  }

  /** A higher target never needs less gold. */
  lemma SearchMonotone(t1: real, t2: real, ev: int -> real)
    requires t1 <= t2
    ensures Rank(Search(t1, ev)) <= Rank(Search(t2, ev))
  {
    SearchIsFirstHit(t1, ev);
    SearchIsFirstHit(t2, ev);
  }


  /** On a non-decreasing curve the answer is a threshold: from one gold
      below the reported amount on, the curve stays at or above the target
      (the amount 0 for a non-positive target needs the curve non-negative
      there). */
  lemma SearchIsThreshold(targetEV: real, ev: int -> real, gold: int)
    requires forall g1, g2 :: g1 <= g2 ==> ev(g1) <= ev(g2)
    requires Search(targetEV, ev).Gold? && gold >= Search(targetEV, ev).amount - 1
    requires 0.0 <= ev(gold)
    ensures ev(gold) >= targetEV
  {
    SearchIsFirstHit(targetEV, ev);
  }
}

// The gold search applied to the expected value of the odds engine.
module GoldSearch {
  import opened Tables
  import opened Odds
  import opened GoldScan

  /** The expected number of copies as a function of the gold budget, the
      other inputs fixed: the third result of `GetProbs`. */
  function ExpectedValueCurve(cost: int, lvl: int, copies: int, pool: int, setId: int): int -> real
    requires ValidCost(cost) && ValidLevel(lvl) && RowsDefined(cost, pool, setId)
  {
    gold => ExpectedValue(Distribution(cost, lvl, copies, pool, gold, setId))
  }

  function RequiredGold(targetEV: real, cost: int, lvl: int, copies: int, pool: int, setId: int): GoldResult
    requires ValidCost(cost) && ValidLevel(lvl) && RowsDefined(cost, pool, setId)
  {
    Search(targetEV, ExpectedValueCurve(cost, lvl, copies, pool, setId))
  }

  /** `calculateGoldForTargetEV`: the scan over the expected-value curve of
      the given unit and pool. */
  method CalculateGoldForTargetEV(targetEV: real, cost: int, lvl: int, copies: int, pool: int, setId: int)
    returns (r: GoldResult)
    requires ValidCost(cost) && ValidLevel(lvl) && RowsDefined(cost, pool, setId)
    ensures r == RequiredGold(targetEV, cost, lvl, copies, pool, setId)
  {
    r := ScanForTarget(targetEV, ExpectedValueCurve(cost, lvl, copies, pool, setId));
  }

  /** For a playable start the answer is a threshold: once the expected value
      reaches the target, every larger budget reaches it too, including the
      reported amount itself. */
  lemma EnoughGoldStaysEnough(targetEV: real, cost: int, lvl: int, copies: int, pool: int, setId: int, gold: int)
    requires ValidCost(cost) && ValidLevel(lvl) && Playable(cost, copies, pool, setId)
    requires RequiredGold(targetEV, cost, lvl, copies, pool, setId).Gold?
    requires gold >= RequiredGold(targetEV, cost, lvl, copies, pool, setId).amount - 1
    ensures ExpectedValue(Distribution(cost, lvl, copies, pool, gold, setId)) >= targetEV
  {
    var curve := ExpectedValueCurve(cost, lvl, copies, pool, setId);
    CurveIsMonotone(cost, lvl, copies, pool, setId);
    DistributionIsProbability(cost, lvl, copies, pool, gold, setId);
    ExpectedValueBounds(Distribution(cost, lvl, copies, pool, gold, setId));
    SearchIsThreshold(targetEV, curve, gold);
  }

  /** For a playable start the curve never decreases. */
  lemma CurveIsMonotone(cost: int, lvl: int, copies: int, pool: int, setId: int)
    requires ValidCost(cost) && ValidLevel(lvl) && Playable(cost, copies, pool, setId)
    ensures forall g1, g2 :: g1 <= g2 ==>
      ExpectedValueCurve(cost, lvl, copies, pool, setId)(g1) <= ExpectedValueCurve(cost, lvl, copies, pool, setId)(g2)
  {
    forall g1, g2 | g1 <= g2
      ensures ExpectedValueCurve(cost, lvl, copies, pool, setId)(g1) <= ExpectedValueCurve(cost, lvl, copies, pool, setId)(g2)
    {
      ExpectedValueGrowsWithGold(cost, lvl, copies, pool, setId, g1, g2);
    }
  }
}
