# CPT valuation in Dafny

This project models the `cpt` class of `CPTsim.py`, a small Cumulative Prospect Theory (CPT)
simulator. A CPT agent has four parameters:

- `alpha`, the curvature of the value function;
- `gamma` and `sigma`, the curvatures of the probability weighting for gains and for losses;
- `lam`, loss aversion.

The agent values an outcome with a power value function that is steeper for losses. It
distorts cumulative probabilities with two weighting functions. It then values a lottery,
a list of `(outcome, probability)` entries, by a rank-dependent sum:

- a gain at index `i` is weighted by the weighted upper tail from `i` on, minus the weighted
  upper tail after `i`;
- a loss at index `i` is weighted by the weighted lower tail up to and including `i`, minus
  the weighted lower tail before `i`.

The model has three modules:

- `Power` (`power.dfy`) holds the laws the model assumes of Python's `**`. Dafny has no real
  power function. Each agent therefore carries its power function as a field `pow`,
  constrained by the predicate `PowLaws`:
  - `pow(0, e) == 0` for `e > 0`;
  - `pow(1, e) == 1`;
  - `pow(b, e) >= 0` for `b >= 0`;
  - `pow(b, e) > 0` for `b > 0`.
- `ProspectTheory` (`cpt.dfy`) holds the agent and its operations. The agent is a datatype
  `Cpt` whose fields never change after construction. Construction is a function that returns
  either the agent or one of the two errors the source raises. `Valid()` holds the parameter
  bounds together with the power laws. The value function and both weighting functions are
  functions. `expected_value` is a method with the source's loop over the lottery. Its
  postcondition ties the running total to the specification function `CptValue`, the sum of
  value times decision weight over all entries, with the general difference formula at
  every index.
- `ProspectTheoryProperties` (`cpt_properties.dfy`) holds the lemmas about the model:
  - loss aversion;
  - the decision weights as telescoping sums;
  - the value of empty, certain and constant lotteries and of the rare-gain and rare-loss
    demonstration lotteries.

The weighting functions are modelled as the code writes them. The denominator is
`(p**gamma + (1 - p**gamma)) ** (1/gamma)`, not the inverse-S form
`(p^gamma + (1 - p)^gamma)^(1/gamma)` of the prospect-theory literature. Its base
`p^gamma + (1 - p^gamma)` is 1 for every `p`, so the gain weight is exactly `p^gamma` and the
loss weight exactly `p^sigma`. The contracts of `ProbWeightPlus` and `ProbWeightMinus` state
this.

`Scale(v, w)` in `ProspectTheoryProperties` is the product `v * w`, kept as one term in the
inductive steps; the constant-lottery lemmas state their results with the plain product, and
with the gain and loss weightings written as the powers they are proved equal to.

## Model

| member | source | states |
|---|---|---|
| ProspectTheory.Mass | CPTsim.py:41 | the sum of the probabilities of a slice, as the `sum(...)` comprehensions compute it; it is non-negative when every probability is |
| ProspectTheory.Cpt.New | CPTsim.py:4-16 | construction succeeds iff `lam > 1` and `alpha`, `gamma`, `sigma` all lie strictly between 0 and 1, and the agent then holds exactly the given parameters; `lam <= 1` yields the lambda error whatever the exponents are; otherwise any failure is the exponent error |
| ProspectTheory.Cpt.ValueFunction | CPTsim.py:18-24 | the value has the sign of the outcome: positive for a gain, negative for a loss, and exactly 0 at outcome 0, which counts as a gain |
| ProspectTheory.Cpt.ProbWeightPlus | CPTsim.py:26-29 | the weight is exactly 1 at `p == 1` and exactly 0 at `p == 0`; on the whole domain it equals `p^gamma`, because the denominator's base is identically 1 |
| ProspectTheory.Cpt.ProbWeightMinus | CPTsim.py:31-34 | the weight is exactly 1 at `p == 1` and exactly 0 at `p == 0`; on the whole domain it equals `p^sigma` |
| ProspectTheory.Cpt.ExpectedValue | CPTsim.py:36-59 | the total after the loop equals `CptValue`, the sum over all entries of value times decision weight (invariant: the total is the sum over the processed prefix) |
| ProspectTheory.Cpt.EntryTerm | CPTsim.py:39-58 | the amount the loop body adds for entry `i`, over all four branches, equals value times the general difference decision weight |
| ProspectTheory.Cpt.LastGainWeight | CPTsim.py:43-48 | for a gain at the last index, the general difference weight equals the weight of its own tail alone, as the `else` branch computes it |
| ProspectTheory.Cpt.FirstLossWeight | CPTsim.py:53-58 | for a loss at index 0, the general difference weight equals the weight of its own prefix alone, as the `else` branch computes it |
| ProspectTheoryProperties.LossAversion | CPTsim.py:20-24 | for `x > 0`, `v(-x) == -lam * v(x)`, and the loss is valued worse than the gain is valued well: `v(-x) < -v(x)` |
| ProspectTheoryProperties.WeightMinusIsWeightPlusOfSigma | CPTsim.py:26-34 | the loss weighting is the gain weighting with `gamma` replaced by `sigma` |
| ProspectTheoryProperties.GainWeightsTelescope | CPTsim.py:41-48 | over a run of gains the decision weights sum to the weighted upper tail at the start of the run minus that at its end |
| ProspectTheoryProperties.LossWeightsTelescope | CPTsim.py:51-58 | over a run of losses the decision weights sum to the weighted lower tail at the end of the run minus that at its start |
| ProspectTheoryProperties.DecisionWeightsTotal | CPTsim.py:38-58 | for a lottery whose losses all come before its gains, the decision weights sum to the weighted loss mass plus the weighted gain mass |
| ProspectTheoryProperties.GainLotteryWeights | CPTsim.py:41-48 | the decision weights of an all-gain lottery sum to the gain weighting of its total probability, whether or not that total is 1 |
| ProspectTheoryProperties.LossLotteryWeights | CPTsim.py:51-58 | the decision weights of an all-loss lottery sum to the loss weighting of its total probability, whether or not that total is 1 |
| ProspectTheoryProperties.GainLotteryWeightsSumToOne | CPTsim.py:41-48 | the decision weights of an all-gain lottery with total probability 1 sum to 1 |
| ProspectTheoryProperties.LossLotteryWeightsSumToOne | CPTsim.py:51-58 | the decision weights of an all-loss lottery with total probability 1 sum to 1 |
| ProspectTheoryProperties.PrefixValueOfConstant | CPTsim.py:37-59 | when every entry has outcome `x`, the running total after `k` entries is `v(x)` times the sum of the first `k` decision weights |
| ProspectTheoryProperties.ConstantGainLottery | CPTsim.py:39-48 | a lottery whose outcomes all equal the gain `x` is worth `v(x)` times the gain weighting of its total probability, that is `v(x) * Mass^gamma` |
| ProspectTheoryProperties.ConstantLossLottery | CPTsim.py:49-58 | a lottery whose outcomes all equal the loss `x` is worth `v(x)` times the loss weighting of its total probability, that is `v(x) * Mass^sigma` |
| ProspectTheoryProperties.EmptyLottery | CPTsim.py:37-59 | the empty lottery is worth 0 |
| ProspectTheoryProperties.CertaintyLottery | CPTsim.py:36-59 | the certain lottery `[(v, 1)]` is worth exactly `v(v)`, for a gain as for a loss, as with the demonstration lotteries `[(-5, 1)]` and `[(5, 1)]` |
| ProspectTheoryProperties.ZeroOutcomeContributesNothing | CPTsim.py:46-58 | an entry with outcome 0 adds 0 to the total |
| ProspectTheoryProperties.RareLossLottery | CPTsim.py:78 | the lottery `[(-50, 0.001), (0, 0.999)]` is worth `v(-50) * 0.001^sigma` |
| ProspectTheoryProperties.RareGainLottery | CPTsim.py:89 | the lottery `[(50, 0.001), (0, 0.999)]`, with its gains in that order, is worth `v(50) * (1 - 0.999^gamma)` |
| ProspectTheoryProperties.RareGainLotteryAscending | CPTsim.py:89 | the same gain lottery listed in ascending order, `[(0, 0.999), (50, 0.001)]`, is worth `v(50) * 0.001^gamma` |

## Left out

- The demonstration script (CPTsim.py:61-98) is left out. It prints the value of 5 and -5 and
  compares four lotteries, and its numbers depend on floating-point `**`. The symbolic
  content of its lotteries is stated by `CertaintyLottery`, `RareLossLottery` and
  `RareGainLottery`.
- The matplotlib import and the plotting (CPTsim.py:1, 100-112) are left out. They are I/O
  through a foreign library.
- Floating point (rounding, NaN, infinities) is left out. The model computes in exact reals,
  so it has no counterpart of a NaN parameter, which passes the checks at CPTsim.py:11-16
  because every comparison with NaN is false.
- Python's `**` is not computed. It is the agent's `pow` field, of which only the four laws in
  `Power.PowLaws` are known. Numeric values such as `v(5)` therefore cannot be evaluated.
- Negative probabilities are excluded by preconditions. The weighting functions require
  `p >= 0` and the lottery operations require every probability to be non-negative. On a
  negative base Python's `**` yields a complex number, which this model does not represent.
  Probabilities above 1 are accepted, as the source accepts them.
- The source performs no checks that the lottery is sorted, that its probabilities sum to 1
  or that it is non-empty, and the model adds none. Sum to 1 appears only as a lemma
  precondition, in `GainLotteryWeightsSumToOne` and `LossLotteryWeightsSumToOne`.
- ExpectedValue: the loop body is factored into the method `EntryTerm`. The source's
  `total +=` updates become one addition of the returned term. The branches and their
  order are unchanged.
- ValueFunction: its contract states the sign of the value, not its formula. The formula's
  consequence for losses is stated by `LossAversion`.
