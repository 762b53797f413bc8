# TFT rolling odds engine in Dafny

This project models the shop-roll odds engine of the TFT rolling-odds page in
`assets/TFT_ROLLING_ODDS/script.js`. It also models the gold search built on
top of it. The engine is given these inputs:

- the cost tier of the wanted champion;
- the player's level;
- `a`, the copies of that champion already out of the pool;
- `b`, the units of the same tier already out;
- a gold budget;
- the set (12 for Set 12, anything else for Set 11).

From these, the engine:

1. computes the chance that one shop slot shows the wanted champion, from the
   level-odds table and the pool tables (`getCostProb`, `getTransitionProb`);
2. builds a 10 × 10 Markov transition matrix over "copies hit so far", where
   state 9 stands for "9 or more" and is absorbing (`getTransitionMatrix`);
3. calls `power` with exponent `5 * floor(gold / 2)`, which repeats a
   hand-written schoolbook product (`multiply`); for an exponent of at most
   1 it returns the matrix itself;
4. reads three things off row 0 (`getProbs`): the exact-count distribution,
   the "at least k copies" values, and the expected number of copies.

`calculateGoldForTargetEV` scans gold 0, 1, 2, … until the expected value
reaches a target, and gives up past 200.

All probabilities are exact `real`s. The decimal table entries are exact, and
every contract holds for exact arithmetic. Arrays are sequences. The
array-building loops of `getTransitionMatrix`, `multiply`, `power` and
`getProbs` are methods with loop invariants. Each method is proved equal to
a function:

| method | function it is proved equal to |
|---|---|
| `BuildTransitionMatrix` | `TransitionMatrix` |
| `Multiply` | `MatMul` |
| `Power` | `MatPow` |
| `GetProbs`, `ReadOffRow` | `Distribution`, `Cumulative`, `ExpectedValue` |

The lemmas state their properties about those functions.

The files are:

| file | contents |
|---|---|
| `sums.dfy` | finite sums of reals |
| `tables.dfy` | the constant tables and `getCostProb` |
| `matrices.dfy` | `multiply`, `power`, stochastic and upper-triangular matrices |
| `odds.dfy` | the per-slot probability, the transition matrix, `getProbs` and the properties of the distribution |
| `gold_search.dfy` | `calculateGoldForTargetEV` |

In several places the code differs from what its names and comments say.
The model follows the code in each case and states what the code does.

- **Shops and slots.** The comment at `script.js:192` assumes 5 shops per 10
  gold, and the exponent `5 * floor(gold / 2)` gives 25 steps for 10 gold. One
  step of the chain is therefore one shop slot, not one shop as the comment
  at `script.js:244` calls it. The model calls the step a slot draw
  (`Odds.SlotCount`).
- **No rounding in `multiply`.** The comment at `script.js:256` announces a
  product "rounded to 3 d.p.", but the statement at `script.js:268` assigns
  each entry to itself. `Matrices.Multiply` and `Matrices.Dot` do not round.

- **`power(a, n)` for small `n`.** The mathematical power `a^0` is the
  identity, as `Matrices.TruePow` defines it. The code runs `n - 1` products
  starting from `a` itself, so it returns `a` for every `n <= 1`.
  - `Matrices.PowerIsTruePower` shows that `power(a, n)` is `a` to the power
    `max(1, n)`.
  - It also shows that `power(a, 0)` equals the identity only when `a` is
    the identity.
  - As a result, gold 0 and 1 still draw one slot.
    `Odds.FewGoldStillDrawsOnce` states this, and `Odds.NoGoldTierOneLevelNine`
    gives an instance: an expected value of 1/130 with no gold.
- **The gold search.** The comments of `calculateGoldForTargetEV` say it
  raises gold "until the expected value equals or exceeds the target EV"
  and returns "the amount of gold required" (`script.js:34`, `script.js:43`),
  that is the least gold `g` with `EV(g) >= target`. The code increments
  `gold` after each evaluation, so it returns one more than the least such
  `g` in `0..199`.
  - It returns 0 for a target of at most 0.
  - It reports the limit when no `g` below 200 reaches the target, even if
    `g = 200` would.
  - `GoldScan.SearchIsFirstHit` pins this behaviour down.

## Model

| member | source | states |
|---|---|---|
| Tables.CostProb | assets/TFT_ROLLING_ODDS/script.js:166-182 | the level-odds entry for (level, tier) lies in [0, 1] and is 0 exactly when the tier is above what the level can roll (tier > 1 at levels 1-2, tier 5 at levels up to 6, and so on) |
| Tables.LevelOddsAreDistributions | assets/TFT_ROLLING_ODDS/script.js:166-178 | every row of the level-odds table has five non-negative entries that sum to exactly 1 |
| Tables.UnitsLeft | assets/TFT_ROLLING_ODDS/script.js:248 | the copies left, `max(0, total - a)`, are 0 exactly when `a` has reached the tier total, and never exceed the total for `a >= 0` |
| Tables.FullPoolIsPlayable | assets/TFT_ROLLING_ODDS/script.js:161-164 | in both sets, every tier's full pool (`total * distinct`) holds more than 8 units and more than the wanted champion's copies |
| Odds.TransitionProb | assets/TFT_ROLLING_ODDS/script.js:245-253 | with the tier total and the distinct-champion count taken from the Set 12 tables when the set is 12 and from the Set 11 tables otherwise (`TotalUnits`, `DistinctChamps`), and the pool `total * distinct - b` (`PoolSize`), the per-slot chance is 0 exactly when the tier is above the level's maximum or `a` has reached the tier total; it lies in [0, 1] whenever the pool is positive and holds every remaining copy |
| Odds.PlayableStaysConsistent | assets/TFT_ROLLING_ODDS/script.js:220-229 | from a playable start, each of the nine pools (a + i, b + i) for i in 0..8 is non-empty and holds the remaining copies, so every hit probability the matrix uses is defined |
| Odds.BuildTransitionMatrix | assets/TFT_ROLLING_ODDS/script.js:218-241 | the pushed rows are the transition matrix: 10 × 10, (i, i) = 1 - p_i, (i, i + 1) = p_i with p_i taken at (a + i, b + i), (9, 9) = 1, every other entry 0 |
| Odds.TransitionRowsSumToOne | assets/TFT_ROLLING_ODDS/script.js:218-241 | every row of the transition matrix sums to 1 and every entry below the diagonal is 0 |
| Odds.TransitionMatrixBidiagonal | assets/TFT_ROLLING_ODDS/script.js:230-236 | each state only stays put or moves one state up: all entries other than (i, i) and (i, i + 1) are 0 |
| Odds.TransitionMatrixStochastic | assets/TFT_ROLLING_ODDS/script.js:218-241 | from a playable start the transition matrix is row-stochastic (non-negative rows summing to 1) |
| Odds.SlotCount | assets/TFT_ROLLING_ODDS/script.js:192 | the exponent, the number of slot draws, is the multiple of five n with 2n <= 5 * gold < 2n + 10, i.e. 5 * floor(gold / 2) |
| Odds.OddGoldIsWasted | assets/TFT_ROLLING_ODDS/script.js:192 | gold 2k and 2k + 1 both buy k shops, 5k slot draws, and give the same distribution |
| Odds.GetProbs | assets/TFT_ROLLING_ODDS/script.js:190-212 | returns row 0 of the transition matrix raised by `power` to 5 * floor(gold / 2), its cumulative values and its expected value |
| Odds.ReadOffRow | assets/TFT_ROLLING_ODDS/script.js:196-210 | the nested `p -= pprob[j]` loops produce 1 - (pprob[0] + ... + pprob[k - 1]) at index k (1 at index 0), and the `expectedValue +=` loop produces the sum of i * pprob[i] for i = 1..9 |
| Odds.DistributionIsProbability | assets/TFT_ROLLING_ODDS/script.js:191-194 | from a playable start the exact-count values are non-negative, at most 1 and sum to 1 |
| Odds.CopiesNeverDecrease | assets/TFT_ROLLING_ODDS/script.js:191-192 | every power of the transition matrix is upper-triangular: no state reaches a lower copy count |
| Odds.CumulativeNonIncreasing | assets/TFT_ROLLING_ODDS/script.js:196-204 | the cumulative values start at 1 and never increase along k when the distribution is non-negative |
| Odds.CumulativeIsAtLeast | assets/TFT_ROLLING_ODDS/script.js:196-204 | for a distribution, cumulative value k equals pprob[k] + ... + pprob[9], the chance of at least k copies, and lies in [0, 1] |
| Odds.ExpectedValueBounds | assets/TFT_ROLLING_ODDS/script.js:206-210 | for a distribution the expected value lies in [0, 9] |
| Odds.NoHitMeansNoCopies | assets/TFT_ROLLING_ODDS/script.js:190-210 | when the wanted champion cannot appear (tier above the level's maximum, or all copies out), the distribution is [1, 0, ..., 0] for any gold and the expected value is 0 |
| Odds.FewGoldStillDrawsOnce | assets/TFT_ROLLING_ODDS/script.js:190-194 | with gold <= 1 the distribution is [1 - p_0, p_0, 0, ..., 0] and the expected value is p_0, not 0 |
| Odds.NoGoldTierOneLevelNine | assets/TFT_ROLLING_ODDS/script.js:190-194 | tier 1 at level 9, nothing out, gold 0, Set 11: the expected value is 1/130 |
| Odds.StepUpRaisesExpectedValue | assets/TFT_ROLLING_ODDS/script.js:206-210 | one step of any row-stochastic chain whose states only stay put or move one up never lowers the expected value of a non-negative row |
| Odds.StepsRaiseExpectedValue | assets/TFT_ROLLING_ODDS/script.js:274-280 | for such a chain, more products in `power` never lower the expected value of row 0 |
| Odds.ExpectedValueGrowsWithSlots | assets/TFT_ROLLING_ODDS/script.js:190-210 | from a playable start, raising the transition matrix to a larger power never lowers the expected value |
| Odds.ExpectedValueGrowsWithGold | assets/TFT_ROLLING_ODDS/script.js:190-210 | from a playable start, more gold never lowers the expected number of copies |
| Matrices.MatMul | assets/TFT_ROLLING_ODDS/script.js:257-272 | the product of an r × k matrix and a k-row matrix with c columns has r rows of c entries |
| Matrices.Multiply | assets/TFT_ROLLING_ODDS/script.js:257-272 | the three nested loops return the aNumRows × bNumCols matrix whose entry (r, c) is the sum over i of a[r][i] * b[i][c] |
| Matrices.VecMatKeepsMass | assets/TFT_ROLLING_ODDS/script.js:263-267 | a row vector times a matrix whose rows sum to 1 keeps its total |
| Matrices.MulStochastic | assets/TFT_ROLLING_ODDS/script.js:257-272 | the product of two row-stochastic matrices is row-stochastic |
| Matrices.MulUpperTriangular | assets/TFT_ROLLING_ODDS/script.js:257-272 | the product of two upper-triangular matrices is upper-triangular |
| Matrices.MatPow | assets/TFT_ROLLING_ODDS/script.js:274-280 | `power` keeps the shape of a square matrix |
| Matrices.Power | assets/TFT_ROLLING_ODDS/script.js:274-280 | the loop returns `a` for n <= 1 and otherwise the left-to-right product of n copies of `a` |
| Matrices.PowStochastic | assets/TFT_ROLLING_ODDS/script.js:274-280 | every `power` of a row-stochastic matrix is row-stochastic |
| Matrices.PowUpperTriangular | assets/TFT_ROLLING_ODDS/script.js:274-280 | every `power` of an upper-triangular matrix is upper-triangular |
| Matrices.PowerIsTruePower | assets/TFT_ROLLING_ODDS/script.js:274-280 | `power(a, n)` is the mathematical power a^max(1, n); for n <= 0 it equals the identity only when `a` is the identity |
| GoldScan.ScanForTarget | assets/TFT_ROLLING_ODDS/script.js:30-43 | the loop that evaluates gold 0, 1, ... while the last value is below the target and gold <= 200, then reports gold or the limit, returns exactly the search answer |
| GoldScan.ScanIsFirstHit | assets/TFT_ROLLING_ODDS/script.js:35-38 | scanning from gold g reports g' + 1 for the first g' in g..199 that reaches the target, with every value before it below the target, or the limit when none does |
| GoldScan.SearchIsFirstHit | assets/TFT_ROLLING_ODDS/script.js:29-44 | the answer is 0 for a target <= 0; otherwise g + 1 for the least g in 0..199 with EV(g) >= target; and the limit exactly when the target is positive and no g in 0..199 reaches it |
| GoldScan.SearchMonotone | assets/TFT_ROLLING_ODDS/script.js:29-44 | a higher target never yields an earlier answer (any gold amount ranks before the limit) |
| GoldScan.SearchIsThreshold | assets/TFT_ROLLING_ODDS/script.js:35-43 | on a non-decreasing curve, every gold from one below the reported amount on reaches the target |
| GoldSearch.CalculateGoldForTargetEV | assets/TFT_ROLLING_ODDS/script.js:29-44 | the search over the expected value of `getProbs` as a function of gold returns the search answer above |
| GoldSearch.CurveIsMonotone | assets/TFT_ROLLING_ODDS/script.js:36 | from a playable start the expected value read at each step of the search never decreases in gold |
| GoldSearch.EnoughGoldStaysEnough | assets/TFT_ROLLING_ODDS/script.js:29-44 | from a playable start, once the search reports an amount, every gold budget from one below that amount on reaches the target |

## Left out

- The page's DOM and event wiring, the sliders, and the Chart.js
  configuration and rendering (`script.js:1-27`, `script.js:47-154`) are not
  part of this model. They are user interface around the engine.
- The asteroid games (`assets/asteroids/singleplayer.js`,
  `assets/asteroids/multiplayer.js`) are not part of this model. They are
  canvas drawing, timers, keyboard input, random spawning and float physics.
- IEEE-754 double rounding is not modelled. All arithmetic is exact over
  `real`, so the contracts state the values the code approximates.
- Odds.GetProbs: the cumulative values 1..9 are the exact reals. The code
  turns them into two-decimal strings with `toFixed(2)`, and that
  presentation step is not modelled.
- Odds.TransitionProb: requires a pool size other than zero. The code divides
  without a guard and would produce `NaN` or `Infinity`. Negative pool sizes,
  which no real game produces, are kept and give negative "probabilities", as
  in the code.
- Odds.GetProbs, Odds.BuildTransitionMatrix: require each of the pools
  `b + i` for i in 0..8 to be non-zero (`RowsDefined`), for the same reason.
  The code evaluates the hit probability of row 9 but never uses it, so the
  model only evaluates it for rows 0..8.
- Tables.CostProb, Odds.TransitionProb, Odds.GetProbs: require a tier in
  1..5 and a level in 1..11. For a level outside 1..11, `costProbs[lvl - 1]`
  is `undefined` and indexing it throws a `TypeError` (`script.js:181`), so
  `getProbs` fails, and `calculateGoldForTargetEV` fails for a positive
  target. For a bad tier with a valid level the code reads `undefined`
  entries and computes `NaN`.
- GoldSearch.CalculateGoldForTargetEV: requires a tier in 1..5 and a level in
  1..11. The code needs neither for a target of at most 0: the test
  `ev < targetEV` at `script.js:35` is false from the start, so it returns 0
  without calling `getProbs`, for any tier and level. For a bad tier with a
  valid level and a positive target, `script.js:181` yields `undefined`, the
  expected value at gold 0 is `NaN`, the test is false after one step, and
  the code returns 1 (`script.js:35-43`). The model does not capture these
  two answers.
- Matrices.Multiply, Matrices.Power: require non-empty rectangular operands
  with enough rows in `b` (`Conformable`). Ragged arrays, on which the code
  reads missing entries, are not modelled.
- GoldSearch.CalculateGoldForTargetEV: each step's `getProbs(...)[2]` is
  modelled by the expected-value curve `ExpectedValue(Distribution(...))`,
  which `Odds.GetProbs` is proved to return. The call itself is not repeated
  inside the loop. The string "Gold limit reached" is the constructor
  `LimitReached`.
- GoldSearch.CalculateGoldForTargetEV: requires `RowsDefined`, i.e. none of
  the pools `b + i` for i in 0..8 is empty. The code does not fail on such
  inputs. A zero pool makes its row `NaN` (`0 / 0`) or infinite, and once
  the expected value is `NaN` the test `ev < targetEV` is false. The loop
  then stops and returns that gold + 1. For example, with tier 1, level 9,
  20 copies out, 283 units out and Set 11, the pool of row 3 is empty. Gold
  0 and 1 give an expected value of about 0.067, gold 2 gives `NaN`, and
  the code answers 3 for a target of 1. The model does not capture this
  `NaN`-driven early exit.
- Odds.ExpectedValueGrowsWithGold, GoldSearch.EnoughGoldStaysEnough: are
  proved only for playable inputs (pool above 8 units and holding every
  remaining copy). On other inputs the hit probabilities can leave [0, 1],
  and monotonicity need not hold.
