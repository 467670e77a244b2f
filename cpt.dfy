/** Cumulative Prospect Theory valuation: the agent's parameters, the value
    function, the two probability-weighting functions and the rank-dependent
    aggregation of a lottery into one expected value. */
module ProspectTheory {
  import opened Power

  /** One entry of a lottery: a monetary outcome and its probability. */
  datatype Prospect = Prospect(outcome: real, probability: real)

  /** The two parameter errors construction can raise. */
  datatype ParamError =
    | LambdaNotAboveOne          // lam <= 1
    | ExponentNotInUnitInterval  // alpha, gamma or sigma outside (0, 1)

  datatype Result<T, E> = Ok(value: T) | Err(error: E)

  /** Every probability of the lottery is non-negative, so that every sum of
      probabilities stays in the domain where `**` yields a real number. */
  predicate NonNegative(lottery: seq<Prospect>) {
    forall i :: 0 <= i < |lottery| ==> lottery[i].probability >= 0.0
  }

  /** The sum of the probabilities of a slice of a lottery. */
  function Mass(s: seq<Prospect>): (m: real)
    ensures NonNegative(s) ==> m >= 0.0
  {
    if s == [] then 0.0 else s[0].probability + Mass(s[1..])
  }

  /** A CPT agent: curvature alpha of the value function, curvatures gamma
      and sigma of the gain and loss weighting functions, loss aversion lam,
      and the power function its formulas use. */
  datatype Cpt = Cpt(alpha: real, gamma: real, sigma: real, lam: real, pow: (real, real) -> real)
  {
    /** The parameter restrictions checked at construction. */
    predicate InRange() {
      && lam > 1.0
      && 0.0 < alpha < 1.0
      && 0.0 < gamma < 1.0
      && 0.0 < sigma < 1.0
    }

    ghost predicate Valid() {
      InRange() && PowLaws(pow)
    }

    /** Construction: the lambda restriction is checked first, then the three
        exponents together; no agent exists unless both pass. */
    static function New(alpha: real, gamma: real, sigma: real, lam: real, pow: (real, real) -> real)
      : (r: Result<Cpt, ParamError>)
      ensures r.Ok? <==> (lam > 1.0 && 0.0 < alpha < 1.0 && 0.0 < gamma < 1.0 && 0.0 < sigma < 1.0)
      ensures r.Ok? ==> r.value.InRange() && r.value == Cpt(alpha, gamma, sigma, lam, pow)
      ensures lam <= 1.0 ==> r == Err(LambdaNotAboveOne)
      ensures lam > 1.0 && !r.Ok? ==> r == Err(ExponentNotInUnitInterval)
    {
      if lam <= 1.0 then Err(LambdaNotAboveOne)
      else if (alpha >= 1.0 || alpha <= 0.0)
           || (gamma >= 1.0 || gamma <= 0.0)
           || (sigma >= 1.0 || sigma <= 0.0)
      then Err(ExponentNotInUnitInterval)
      else Ok(Cpt(alpha, gamma, sigma, lam, pow))
    }

    /** The power value function with loss aversion. Outcome 0 counts as a
        gain. The value has the sign of the outcome. */
    function ValueFunction(x: real): (v: real)
      requires Valid()
      ensures x > 0.0 ==> v > 0.0
      ensures x == 0.0 ==> v == 0.0
      ensures x < 0.0 ==> v < 0.0
    {
      if x >= 0.0 then pow(x, alpha)
      else -lam * pow(-x, alpha)
    }

    /** Weighting of a cumulative gain probability. The denominator's base
        `p^gamma + (1 - p^gamma)` is 1 whatever p is, so the weight is
        exactly `p^gamma` on the whole domain, the two boundary branches
        included. */
    function ProbWeightPlus(p: real): (w: real)
      requires Valid()
      requires p >= 0.0
      ensures p == 1.0 ==> w == 1.0
      ensures p == 0.0 ==> w == 0.0
      ensures w == pow(p, gamma)
    {
      if p == 1.0 then 1.0
      else if p == 0.0 then 0.0
      else pow(p, gamma) / pow(pow(p, gamma) + (1.0 - pow(p, gamma)), 1.0 / gamma)
    }

    /** Weighting of a cumulative loss probability: the gain formula with
        sigma in place of gamma, hence exactly `p^sigma`. */
    function ProbWeightMinus(p: real): (w: real)
      requires Valid()
      requires p >= 0.0
      ensures p == 1.0 ==> w == 1.0
      ensures p == 0.0 ==> w == 0.0
      ensures w == pow(p, sigma)
    {
      if p == 1.0 then 1.0
      else if p == 0.0 then 0.0
      else pow(p, sigma) / pow(pow(p, sigma) + (1.0 - pow(p, sigma)), 1.0 / sigma)
    }

    /** The decision weight of entry i, by the general difference formula:
        a gain takes the weighted upper tail from i on minus the weighted
        upper tail after i; a loss takes the weighted lower tail up to and
        including i minus the weighted lower tail before i. */
    function DecisionWeight(lottery: seq<Prospect>, i: nat): real
      requires Valid() && NonNegative(lottery)
      requires i < |lottery|
    {
      TailsNonNegative(lottery, i);
      if lottery[i].outcome >= 0.0 then
        ProbWeightPlus(Mass(lottery[i..])) - ProbWeightPlus(Mass(lottery[i + 1..]))
      else
        ProbWeightMinus(Mass(lottery[..i + 1])) - ProbWeightMinus(Mass(lottery[..i]))
    }

    /** What entry i adds to the expected value. */
    function Contribution(lottery: seq<Prospect>, i: nat): real
      requires Valid() && NonNegative(lottery)
      requires i < |lottery|
    {
      ValueFunction(lottery[i].outcome) * DecisionWeight(lottery, i)
    }

    /** The sum of the contributions of the first k entries. */
    function PrefixValue(lottery: seq<Prospect>, k: nat): real
      requires Valid() && NonNegative(lottery)
      requires k <= |lottery|
    {
      if k == 0 then 0.0
      else PrefixValue(lottery, k - 1) + Contribution(lottery, k - 1)
    }

    /** The CPT value of a lottery: the sum over all entries of value times
        decision weight. */
    function CptValue(lottery: seq<Prospect>): real
      requires Valid() && NonNegative(lottery)
    {
      PrefixValue(lottery, |lottery|)
    }

    /** The aggregation loop: one pass over the entries in the order given,
        adding what each entry contributes to the running total. */
    method ExpectedValue(lottery: seq<Prospect>) returns (total: real)
      requires Valid() && NonNegative(lottery)
      ensures total == CptValue(lottery)
    {
      total := 0.0;
      for i := 0 to |lottery|
        invariant total == PrefixValue(lottery, i)
      {
        var term := EntryTerm(lottery, i);
        total := total + term;
      }
    }

    /** The body of the aggregation loop for entry i: the amount it adds to
        the total. It recomputes the entry's tail sums and weights the last
        gain and the first loss by their own tail alone. */
    method EntryTerm(lottery: seq<Prospect>, i: nat) returns (term: real)
      requires Valid() && NonNegative(lottery)
      requires i < |lottery|
      ensures term == Contribution(lottery, i)
    {
      var xi := lottery[i].outcome;
      TailsNonNegative(lottery, i);
      if xi >= 0.0 {
        var wPlusI := ProbWeightPlus(Mass(lottery[i..]));
        if i < |lottery| - 1 {
          var wPlusNext := ProbWeightPlus(Mass(lottery[i + 1..]));
          term := ValueFunction(xi) * (wPlusI - wPlusNext);
        } else {
          LastGainWeight(lottery, i);
          term := ValueFunction(xi) * wPlusI;
        }
      } else {
        var wMinusI := ProbWeightMinus(Mass(lottery[..i + 1]));
        if i > 0 {
          var wMinusPrev := ProbWeightMinus(Mass(lottery[..i]));
          term := ValueFunction(xi) * (wMinusI - wMinusPrev);
        } else {
          FirstLossWeight(lottery);
          term := ValueFunction(xi) * wMinusI;
        }
      }
    }

    /** The last entry, when a gain, is weighted by its own tail alone: the
        tail after it is empty, weighs nothing and is weighted 0. */
    lemma LastGainWeight(lottery: seq<Prospect>, i: nat)
      requires Valid() && NonNegative(lottery)
      requires i == |lottery| - 1 && lottery[i].outcome >= 0.0
      ensures NonNegative(lottery[i..])
      ensures DecisionWeight(lottery, i) == ProbWeightPlus(Mass(lottery[i..]))
    {
      TailsNonNegative(lottery, i);
      assert lottery[i + 1..] == [];
    }

    /** The first entry, when a loss, is weighted by its own prefix alone:
        the prefix before it is empty, weighs nothing and is weighted 0. */
    lemma FirstLossWeight(lottery: seq<Prospect>)
      requires Valid() && NonNegative(lottery)
      requires |lottery| > 0 && lottery[0].outcome < 0.0
      ensures NonNegative(lottery[..1])
      ensures DecisionWeight(lottery, 0) == ProbWeightMinus(Mass(lottery[..1]))
    {
      TailsNonNegative(lottery, 0);
      assert lottery[..0] == [];
    }
  }

  /** The slices around entry i of a lottery with non-negative probabilities
      have non-negative probabilities. */
  lemma TailsNonNegative(lottery: seq<Prospect>, i: nat)
    requires NonNegative(lottery) && i < |lottery|
    ensures NonNegative(lottery[i..]) && NonNegative(lottery[i + 1..])
    ensures NonNegative(lottery[..i + 1]) && NonNegative(lottery[..i])
  {
  }
}
