// The fixed data of the shop: how many copies of each unit exist per cost
// tier, how many distinct champions share a tier, and the level odds that
// decide which tier a shop slot rolls.
module Tables {
  import opened Sums

  /** Copies of one champion in the shared pool, per cost tier (Set 11). */
  const TotalUnitsSet11: seq<nat> := [22, 20, 17, 10, 9]
  /** Copies of one champion in the shared pool, per cost tier (Set 12). */
  const TotalUnitsSet12: seq<nat> := [30, 25, 18, 10, 9]
  /** Distinct champions per cost tier (Set 11). */
  const DistinctChampsSet11: seq<nat> := [13, 13, 13, 12, 8]
  /** Distinct champions per cost tier (Set 12). */
  const DistinctChampsSet12: seq<nat> := [14, 13, 13, 12, 8]

  /** Row lvl-1 gives, for a player of level lvl, the chance that a shop slot
      rolls a unit of cost 1, 2, 3, 4 or 5. */
  const CostProbs: seq<seq<real>> := [
    [1.0,  0.0,  0.0,  0.0,  0.0 ],
    [1.0,  0.0,  0.0,  0.0,  0.0 ],
    [0.75, 0.25, 0.0,  0.0,  0.0 ],
    [0.55, 0.30, 0.15, 0.0,  0.0 ],
    [0.45, 0.33, 0.20, 0.02, 0.0 ],
    [0.30, 0.40, 0.25, 0.05, 0.0 ],
    [0.19, 0.30, 0.40, 0.10, 0.01],
    [0.18, 0.25, 0.32, 0.22, 0.03],
    [0.10, 0.20, 0.25, 0.35, 0.10],
    [0.05, 0.10, 0.20, 0.40, 0.25],
    [0.01, 0.02, 0.12, 0.50, 0.35]
  ]

  predicate ValidCost(cost: int) { 1 <= cost <= 5 }

  predicate ValidLevel(lvl: int) { 1 <= lvl <= 11 }

  /** Highest cost tier that a player of level lvl can see in the shop. */
  function MaxTier(lvl: int): int
  {
    if lvl <= 2 then 1 else if lvl <= 4 then lvl - 1 else if lvl <= 6 then 4 else 5
  }

  /** The chance that one shop slot rolls cost tier `cost` at level `lvl`
      (both 1-indexed). */
  function CostProb(lvl: int, cost: int): (r: real)
    requires ValidLevel(lvl) && ValidCost(cost)
    ensures 0.0 <= r <= 1.0
    ensures r == 0.0 <==> cost > MaxTier(lvl)
  {
    CostProbs[lvl - 1][cost - 1]
  }

  /** Every row of the level-odds table is a probability distribution over
      the five tiers. */
  lemma LevelOddsAreDistributions(lvl: int)
    requires ValidLevel(lvl)
    ensures |CostProbs[lvl - 1]| == 5
    ensures NonNegative(CostProbs[lvl - 1])
    ensures Sum(CostProbs[lvl - 1]) == 1.0
  {
    var row := CostProbs[lvl - 1];
    assert Sum(row[..1]) == row[0] by { assert row[..1][..0] == []; }
    SumPrefixStep(row, 1);
    SumPrefixStep(row, 2);
    SumPrefixStep(row, 3);
    SumPrefixStep(row, 4);
    assert row[..5] == row;
  }

  /** Copies of one champion of tier `cost`; setId 12 selects Set 12,
      any other value Set 11. */
  function TotalUnits(setId: int, cost: int): nat
    requires ValidCost(cost)
  {
    if setId == 12 then TotalUnitsSet12[cost - 1] else TotalUnitsSet11[cost - 1]
  }

  /** Distinct champions of tier `cost`; setId 12 selects Set 12, any
      other value Set 11. */
  function DistinctChamps(setId: int, cost: int): nat
    requires ValidCost(cost)
  {
    if setId == 12 then DistinctChampsSet12[cost - 1] else DistinctChampsSet11[cost - 1]
  }

  /** Copies of the wanted champion still in the pool once `a` are out,
      clamped at zero. */
  function UnitsLeft(setId: int, cost: int, a: int): (n: nat)
    requires ValidCost(cost)
    ensures n == 0 <==> a >= TotalUnits(setId, cost)
    ensures 0 <= a ==> n <= TotalUnits(setId, cost)
  {
    if TotalUnits(setId, cost) - a > 0 then TotalUnits(setId, cost) - a else 0
  }

  /** Units of tier `cost` still in the pool once `b` are out (may be zero
      or negative for inputs no real game produces). */
  function PoolSize(setId: int, cost: int, b: int): int
    requires ValidCost(cost)
  {
    TotalUnits(setId, cost) * DistinctChamps(setId, cost) - b
  }

  /** With nothing taken out yet, every tier of both sets holds more than
      eight units and more units than the wanted champion's copies. */
  lemma FullPoolIsPlayable(setId: int, cost: int)
    requires ValidCost(cost)
    ensures PoolSize(setId, cost, 0) > 8
    ensures UnitsLeft(setId, cost, 0) < PoolSize(setId, cost, 0)
  {
  }
}
