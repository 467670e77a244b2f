/** Properties of the CPT valuation: loss aversion, the relation between the
    two weighting functions, the decision weights as telescoping sums, and
    the value of certainty, constant and demonstration lotteries. */
module ProspectTheoryProperties {
  import opened Power
  import opened ProspectTheory

  /** Loss aversion: a loss is valued exactly lam times as badly as the equal
      gain is valued well, so it weighs more than the gain. */
  lemma LossAversion(a: Cpt, x: real)
    requires a.Valid() && x > 0.0
    ensures a.ValueFunction(-x) == -a.lam * a.ValueFunction(x)
    ensures a.ValueFunction(-x) < -a.ValueFunction(x)
  {
    assert a.ValueFunction(x) > 0.0;
    AmplifiedLoss(a.ValueFunction(-x), a.lam, a.ValueFunction(x));
  }

  /** The negation of a positive value multiplied by a factor above 1 is
      below the negation of the value itself. */
  lemma AmplifiedLoss(loss: real, lam: real, v: real)
    requires lam > 1.0 && v > 0.0 && loss == -lam * v
    ensures loss < -v
  {
    assert (lam - 1.0) * v > 0.0;
  }

  /** The loss weighting is the gain weighting of the agent whose gamma is
      sigma: the two functions are one formula with different curvature. */
  lemma WeightMinusIsWeightPlusOfSigma(a: Cpt, p: real)
    requires a.Valid() && p >= 0.0
    ensures a.(gamma := a.sigma).Valid()
    ensures a.ProbWeightMinus(p) == a.(gamma := a.sigma).ProbWeightPlus(p)
  {
  }

  /** The sum of the decision weights of the entries lo .. hi - 1. */
  function WeightSum(a: Cpt, lottery: seq<Prospect>, lo: nat, hi: nat): real
    requires a.Valid() && NonNegative(lottery)
    requires lo <= hi <= |lottery|
    decreases hi - lo
  {
    if lo == hi then 0.0 else a.DecisionWeight(lottery, lo) + WeightSum(a, lottery, lo + 1, hi)
  }

  lemma {:induction false} WeightSumSplit(a: Cpt, lottery: seq<Prospect>, lo: nat, mid: nat, hi: nat)
    requires a.Valid() && NonNegative(lottery)
    requires lo <= mid <= hi <= |lottery|
    ensures WeightSum(a, lottery, lo, hi) == WeightSum(a, lottery, lo, mid) + WeightSum(a, lottery, mid, hi)
    decreases mid - lo
  {
    if lo < mid {
      WeightSumSplit(a, lottery, lo + 1, mid, hi);
    }
  }

  /** Over a run of gains the decision weights telescope: together they are
      the weighted upper tail at the start of the run minus the weighted
      upper tail at its end. */
  lemma {:induction false} GainWeightsTelescope(a: Cpt, lottery: seq<Prospect>, lo: nat, hi: nat)
    requires a.Valid() && NonNegative(lottery)
    requires lo <= hi <= |lottery|
    requires forall i :: lo <= i < hi ==> lottery[i].outcome >= 0.0
    ensures WeightSum(a, lottery, lo, hi)
      == a.ProbWeightPlus(Mass(lottery[lo..])) - a.ProbWeightPlus(Mass(lottery[hi..]))
    decreases hi - lo
  {
    if lo < hi {
      GainWeightsTelescope(a, lottery, lo + 1, hi);
    }
  }

  /** Over a run of losses the decision weights telescope: together they are
      the weighted lower tail at the end of the run minus the weighted lower
      tail at its start. */
  lemma {:induction false} LossWeightsTelescope(a: Cpt, lottery: seq<Prospect>, lo: nat, hi: nat)
    requires a.Valid() && NonNegative(lottery)
    requires lo <= hi <= |lottery|
    requires forall i :: lo <= i < hi ==> lottery[i].outcome < 0.0
    ensures WeightSum(a, lottery, lo, hi)
      == a.ProbWeightMinus(Mass(lottery[..hi])) - a.ProbWeightMinus(Mass(lottery[..lo]))
    decreases hi - lo
  {
    if lo < hi {
      LossWeightsTelescope(a, lottery, lo + 1, hi);
    }
  }

  /** For a lottery whose losses all come before its gains, with the gains
      starting at index k, the decision weights add up to the weighted mass
      of the losses plus the weighted mass of the gains. */
  lemma DecisionWeightsTotal(a: Cpt, lottery: seq<Prospect>, k: nat)
    requires a.Valid() && NonNegative(lottery)
    requires k <= |lottery|
    requires forall i :: 0 <= i < k ==> lottery[i].outcome < 0.0
    requires forall i :: k <= i < |lottery| ==> lottery[i].outcome >= 0.0
    ensures WeightSum(a, lottery, 0, |lottery|)
      == a.ProbWeightMinus(Mass(lottery[..k])) + a.ProbWeightPlus(Mass(lottery[k..]))
  {
    WeightSumSplit(a, lottery, 0, k, |lottery|);
    LossWeightsTelescope(a, lottery, 0, k);
    GainWeightsTelescope(a, lottery, k, |lottery|);
    assert lottery[..0] == [] && lottery[|lottery|..] == [];
  }

  /** The decision weights of a lottery of gains only add up to the gain
      weighting of its total probability. */
  lemma GainLotteryWeights(a: Cpt, lottery: seq<Prospect>)
    requires a.Valid() && NonNegative(lottery)
    requires forall i :: 0 <= i < |lottery| ==> lottery[i].outcome >= 0.0
    ensures WeightSum(a, lottery, 0, |lottery|) == a.ProbWeightPlus(Mass(lottery))
  {
    DecisionWeightsTotal(a, lottery, 0);
    assert lottery[0..] == lottery && lottery[..0] == [];
  }

  /** The decision weights of a lottery of losses only add up to the loss
      weighting of its total probability. */
  lemma LossLotteryWeights(a: Cpt, lottery: seq<Prospect>)
    requires a.Valid() && NonNegative(lottery)
    requires forall i :: 0 <= i < |lottery| ==> lottery[i].outcome < 0.0
    ensures WeightSum(a, lottery, 0, |lottery|) == a.ProbWeightMinus(Mass(lottery))
  {
    DecisionWeightsTotal(a, lottery, |lottery|);
    assert lottery[..|lottery|] == lottery && lottery[|lottery|..] == [];
  }

  /** The decision weights of a lottery of gains only whose probabilities sum
      to 1 sum to 1. */
  lemma GainLotteryWeightsSumToOne(a: Cpt, lottery: seq<Prospect>)
    requires a.Valid() && NonNegative(lottery)
    requires forall i :: 0 <= i < |lottery| ==> lottery[i].outcome >= 0.0
    requires Mass(lottery) == 1.0
    ensures WeightSum(a, lottery, 0, |lottery|) == 1.0
  {
    GainLotteryWeights(a, lottery);
  }

  /** The decision weights of a lottery of losses only whose probabilities
      sum to 1 sum to 1. */
  lemma LossLotteryWeightsSumToOne(a: Cpt, lottery: seq<Prospect>)
    requires a.Valid() && NonNegative(lottery)
    requires forall i :: 0 <= i < |lottery| ==> lottery[i].outcome < 0.0
    requires Mass(lottery) == 1.0
    ensures WeightSum(a, lottery, 0, |lottery|) == 1.0
  {
    LossLotteryWeights(a, lottery);
  }

  /** The running sum grows by one contribution per entry: with outcome x
      at entry j, the sum of the first j + 1 entries adds the value of x
      times the decision weight of entry j. */
  lemma PrefixValueStep(a: Cpt, lottery: seq<Prospect>, x: real, j: nat, k: nat)
    requires a.Valid() && NonNegative(lottery)
    requires k == j + 1 && k <= |lottery| && lottery[j].outcome == x
    ensures a.PrefixValue(lottery, k)
      == a.PrefixValue(lottery, j) + Scale(a.ValueFunction(x), a.DecisionWeight(lottery, j))
  {
    assert a.PrefixValue(lottery, k) == a.PrefixValue(lottery, j) + a.Contribution(lottery, j);
    ContributionOf(a, lottery, x, j);
  }

  /** The contribution of an entry with outcome x, as a scaled term. */
  lemma ContributionOf(a: Cpt, lottery: seq<Prospect>, x: real, j: nat)
    requires a.Valid() && NonNegative(lottery)
    requires j < |lottery| && lottery[j].outcome == x
    ensures a.Contribution(lottery, j) == Scale(a.ValueFunction(x), a.DecisionWeight(lottery, j))
  {
  }

  /** The sum of the first j + 1 decision weights adds the weight of entry j. */
  lemma WeightSumStep(a: Cpt, lottery: seq<Prospect>, j: nat, k: nat)
    requires a.Valid() && NonNegative(lottery)
    requires k == j + 1 && k <= |lottery|
    ensures WeightSum(a, lottery, 0, k) == WeightSum(a, lottery, 0, j) + a.DecisionWeight(lottery, j)
  {
    WeightSumSplit(a, lottery, 0, j, k);
    assert WeightSum(a, lottery, j, k) == a.DecisionWeight(lottery, j) + WeightSum(a, lottery, k, k);
  }

  /** A product kept as one term, so that the factoring steps below are
      matched syntactically instead of by nonlinear arithmetic. */
  function Scale(v: real, w: real): real {
    v * w
  }

  /** Scaling distributes over a sum given explicitly. */
  lemma ScaleAdd(v: real, s: real, d: real, sum: real)
    requires sum == s + d
    ensures Scale(v, s) + Scale(v, d) == Scale(v, sum)
  {
  }

  /** When every entry has outcome x, the value of the first k entries is the
      value of x times the sum of their decision weights. */
  lemma {:induction false} PrefixValueOfConstant(a: Cpt, lottery: seq<Prospect>, x: real, k: nat)
    requires a.Valid() && NonNegative(lottery)
    requires k <= |lottery|
    requires forall i :: 0 <= i < |lottery| ==> lottery[i].outcome == x
    ensures a.PrefixValue(lottery, k) == Scale(a.ValueFunction(x), WeightSum(a, lottery, 0, k))
    decreases k
  {
    if k > 0 {
      var j := k - 1;
      PrefixValueOfConstant(a, lottery, x, j);
      PrefixValueStep(a, lottery, x, j, k);
      WeightSumStep(a, lottery, j, k);
      ScaleAdd(a.ValueFunction(x), WeightSum(a, lottery, 0, j), a.DecisionWeight(lottery, j),
               WeightSum(a, lottery, 0, k));
    }
  }

  /** The weighted total of a constant-gain lottery, with the product kept
      as one term: the sum of its decision weights is its total probability
      to the power gamma. */
  lemma ConstantGainLotteryScaled(a: Cpt, lottery: seq<Prospect>, x: real)
    requires a.Valid() && NonNegative(lottery) && x >= 0.0
    requires forall i :: 0 <= i < |lottery| ==> lottery[i].outcome == x
    ensures a.CptValue(lottery) == Scale(a.ValueFunction(x), a.pow(Mass(lottery), a.gamma))
  {
    PrefixValueOfConstant(a, lottery, x, |lottery|);
    GainLotteryWeights(a, lottery);
  }

  /** The weighted total of a constant-loss lottery, with the product kept
      as one term: the sum of its decision weights is its total probability
      to the power sigma. */
  lemma ConstantLossLotteryScaled(a: Cpt, lottery: seq<Prospect>, x: real)
    requires a.Valid() && NonNegative(lottery) && x < 0.0
    requires forall i :: 0 <= i < |lottery| ==> lottery[i].outcome == x
    ensures a.CptValue(lottery) == Scale(a.ValueFunction(x), a.pow(Mass(lottery), a.sigma))
  {
    PrefixValueOfConstant(a, lottery, x, |lottery|);
    LossLotteryWeights(a, lottery);
  }

  /** A lottery whose entries all have the gain x is worth the value of x
      times the gain weighting of its total probability, which is that
      probability to the power gamma. */
  lemma ConstantGainLottery(a: Cpt, lottery: seq<Prospect>, x: real)
    requires a.Valid() && NonNegative(lottery) && x >= 0.0
    requires forall i :: 0 <= i < |lottery| ==> lottery[i].outcome == x
    ensures a.CptValue(lottery) == a.ValueFunction(x) * a.pow(Mass(lottery), a.gamma)
  {
    ConstantGainLotteryScaled(a, lottery, x);
    ScaleIsProduct(a.CptValue(lottery), a.ValueFunction(x), a.pow(Mass(lottery), a.gamma));
  }

  /** A lottery whose entries all have the loss x is worth the value of x
      times the loss weighting of its total probability, which is that
      probability to the power sigma. */
  lemma ConstantLossLottery(a: Cpt, lottery: seq<Prospect>, x: real)
    requires a.Valid() && NonNegative(lottery) && x < 0.0
    requires forall i :: 0 <= i < |lottery| ==> lottery[i].outcome == x
    ensures a.CptValue(lottery) == a.ValueFunction(x) * a.pow(Mass(lottery), a.sigma)
  {
    ConstantLossLotteryScaled(a, lottery, x);
    ScaleIsProduct(a.CptValue(lottery), a.ValueFunction(x), a.pow(Mass(lottery), a.sigma));
  }

  /** A total equal to a scaled term equals the plain product. */
  lemma ScaleIsProduct(total: real, v: real, w: real)
    requires total == Scale(v, w)
    ensures total == v * w
  {
  }

  /** The empty lottery is worth 0. */
  lemma EmptyLottery(a: Cpt)
    requires a.Valid()
    ensures a.CptValue([]) == 0.0
  {
  }

  /** A certain outcome is worth its value: weighting does not distort
      certainty, for a gain as for a loss. */
  lemma CertaintyLottery(a: Cpt, v: real)
    requires a.Valid()
    ensures a.CptValue([Prospect(v, 1.0)]) == a.ValueFunction(v)
  {
    if v >= 0.0 {
      ConstantGainLottery(a, [Prospect(v, 1.0)], v);
    } else {
      ConstantLossLottery(a, [Prospect(v, 1.0)], v);
    }
    assert Mass([Prospect(v, 1.0)]) == 1.0 by {
      assert [Prospect(v, 1.0)][1..] == [];
    }
  }

  /** An entry whose outcome is 0 adds nothing to the expected value. */
  lemma ZeroOutcomeContributesNothing(a: Cpt, lottery: seq<Prospect>, i: nat)
    requires a.Valid() && NonNegative(lottery)
    requires i < |lottery| && lottery[i].outcome == 0.0
    ensures a.Contribution(lottery, i) == 0.0
  {
  }

  /** The demonstration lottery with a rare large loss, [(-50, 0.001),
      (0, 0.999)]: only the loss counts, weighted by 0.001^sigma. */
  lemma RareLossLottery(a: Cpt)
    requires a.Valid()
    ensures a.CptValue([Prospect(-50.0, 0.001), Prospect(0.0, 0.999)])
      == a.ValueFunction(-50.0) * a.pow(0.001, a.sigma)
  {
    var l := [Prospect(-50.0, 0.001), Prospect(0.0, 0.999)];
    assert l[..0] == [] && l[..1] == [Prospect(-50.0, 0.001)];
    assert Mass(l[..1]) == 0.001 by {
      assert l[..1][1..] == [];
    }
    assert a.DecisionWeight(l, 0) == a.pow(0.001, a.sigma);
    ContributionOf(a, l, -50.0, 0);
    assert Scale(a.ValueFunction(-50.0), a.DecisionWeight(l, 0))
      == Scale(a.ValueFunction(-50.0), a.pow(0.001, a.sigma));
    ZeroOutcomeContributesNothing(a, l, 1);
    assert a.PrefixValue(l, 1) == a.Contribution(l, 0);
    assert a.PrefixValue(l, 2) == a.PrefixValue(l, 1) + a.Contribution(l, 1);
  }

  /** The demonstration lottery with a rare large gain listed first,
      [(50, 0.001), (0, 0.999)]: the gain at index 0 is weighted by the
      whole tail minus the tail after it, 1 - 0.999^gamma, because the
      aggregation ranks entries by their position, not by their outcome. */
  lemma RareGainLottery(a: Cpt)
    requires a.Valid()
    ensures a.CptValue([Prospect(50.0, 0.001), Prospect(0.0, 0.999)])
      == a.ValueFunction(50.0) * (1.0 - a.pow(0.999, a.gamma))
  {
    var l := [Prospect(50.0, 0.001), Prospect(0.0, 0.999)];
    assert l[0..] == l && l[1..] == [Prospect(0.0, 0.999)] && l[1..][1..] == [];
    assert Mass(l[1..]) == 0.999;
    assert Mass(l) == 1.0;
    assert a.DecisionWeight(l, 0) == 1.0 - a.pow(0.999, a.gamma);
    ContributionOf(a, l, 50.0, 0);
    assert Scale(a.ValueFunction(50.0), a.DecisionWeight(l, 0))
      == Scale(a.ValueFunction(50.0), 1.0 - a.pow(0.999, a.gamma));
    ZeroOutcomeContributesNothing(a, l, 1);
    assert a.PrefixValue(l, 1) == a.Contribution(l, 0);
    assert a.PrefixValue(l, 2) == a.PrefixValue(l, 1) + a.Contribution(l, 1);
  }

  /** The same lottery in ascending order, [(0, 0.999), (50, 0.001)]: the
      gain is now the top rank and weighted by 0.001^gamma. */
  lemma RareGainLotteryAscending(a: Cpt)
    requires a.Valid()
    ensures a.CptValue([Prospect(0.0, 0.999), Prospect(50.0, 0.001)])
      == a.ValueFunction(50.0) * a.pow(0.001, a.gamma)
  {
    var l := [Prospect(0.0, 0.999), Prospect(50.0, 0.001)];
    assert l[1..] == [Prospect(50.0, 0.001)] && l[2..] == [] && l[1..][1..] == [];
    assert Mass(l[1..]) == 0.001;
    assert a.DecisionWeight(l, 1) == a.pow(0.001, a.gamma);
    ContributionOf(a, l, 50.0, 1);
    assert Scale(a.ValueFunction(50.0), a.DecisionWeight(l, 1))
      == Scale(a.ValueFunction(50.0), a.pow(0.001, a.gamma));
    ZeroOutcomeContributesNothing(a, l, 0);
    assert a.PrefixValue(l, 1) == a.Contribution(l, 0);
    assert a.PrefixValue(l, 2) == a.PrefixValue(l, 1) + a.Contribution(l, 1);
  }
}
