/** The rollup of many attempts, what it is the image of, and the folds it stands for. */
module UsageRollup {
  import opened Prelude
  import opened UsageModel
  import Pricing

  datatype Quantities = Quantities(input: Quantity, cached: Quantity, cacheWrite: Quantity, output: Quantity, reasoning: Quantity, total: Quantity)

  datatype Distributions = Distributions(
    profiles: Distribution, requestedModels: Distribution, observedModels: Distribution, dialects: Distribution,
    contextModes: Distribution, requestedEfforts: Distribution, observedEfforts: Distribution, requestedTiers: Distribution, tiers: Distribution)

  datatype Rollup = Rollup(
    attempts: U64, succeeded: U64, failed: U64, interrupted: U64, usageRecords: U64,
    quantities: Quantities, readRatio: Ratio, writeRatio: Ratio, distributions: Distributions, costs: Costs, costUnknown: U64)

  const EMPTY := Rollup(0, 0, 0, 0, 0, Quantities(NO_QUANTITY, NO_QUANTITY, NO_QUANTITY, NO_QUANTITY, NO_QUANTITY, NO_QUANTITY),
                        NO_RATIO, NO_RATIO,
                        Distributions(NO_DISTRIBUTION, NO_DISTRIBUTION, NO_DISTRIBUTION, NO_DISTRIBUTION, NO_DISTRIBUTION,
                                      NO_DISTRIBUTION, NO_DISTRIBUTION, NO_DISTRIBUTION, NO_DISTRIBUTION),
                        map[], 0)

  // ---------- observing one attempt ----------

  function ObserveQuantities(q: Quantities, usage: Option<UsageRecord>): Quantities {
    match usage
    case None =>
      Quantities(ObserveQuantity(q.input, None, Pricing.Exact), ObserveQuantity(q.cached, None, Pricing.Exact),
                 ObserveQuantity(q.cacheWrite, None, Pricing.Exact), ObserveQuantity(q.output, None, Pricing.Exact),
                 ObserveQuantity(q.reasoning, None, Pricing.Exact), ObserveQuantity(q.total, None, Pricing.Exact))
    case Some(u) =>
      Quantities(ObserveQuantity(q.input, u.input, u.accuracy), ObserveQuantity(q.cached, u.cachedInput, u.accuracy),
                 ObserveQuantity(q.cacheWrite, u.cacheWrite, u.accuracy), ObserveQuantity(q.output, u.output, u.accuracy),
                 ObserveQuantity(q.reasoning, u.reasoningOutput, u.accuracy), ObserveQuantity(q.total, u.total, u.accuracy))
  }

  /** Cached and written input that together exceed the input spoil both ratios. */
  predicate CacheInconsistent(u: UsageRecord) {
    u.input.Some? && u.cachedInput.Some? && u.cacheWrite.Some? && u.cachedInput.value + u.cacheWrite.value > u.input.value
  }

  function ObserveCacheRatio(r: Ratio, usage: Option<UsageRecord>, read: bool): Ratio {
    match usage
    case None => ObserveRatio(r, None, None, Pricing.Exact)
    case Some(u) =>
      if CacheInconsistent(u) then ObserveInconsistent(r)
      else ObserveRatio(r, if read then u.cachedInput else u.cacheWrite, u.input, u.accuracy)
  }

  function ObserveDistributions(d: Distributions, a: Attempt): Distributions {
    Distributions(ObserveDistribution(d.profiles, Some(a.profile)), ObserveDistribution(d.requestedModels, Some(a.requestedModel)),
                  ObserveDistribution(d.observedModels, a.observedModel), ObserveDistribution(d.dialects, a.dialect),
                  ObserveDistribution(d.contextModes, a.requestedContextMode), ObserveDistribution(d.requestedEfforts, a.requestedEffort),
                  ObserveDistribution(d.observedEfforts, a.observedEffort), ObserveDistribution(d.requestedTiers, a.requestedTier),
                  ObserveDistribution(d.tiers, if a.usage.Some? then a.usage.value.tier else None))
  }

  /** Every attempt starts with its cost unknown. */
  function Observe(r: Rollup, a: Attempt): Rollup {
    Rollup(Sat(r.attempts + 1),
           if a.outcome.Succeeded? then Sat(r.succeeded + 1) else r.succeeded,
           if a.outcome.Failed? then Sat(r.failed + 1) else r.failed,
           if a.outcome.Interrupted? then Sat(r.interrupted + 1) else r.interrupted,
           if a.usage.Some? then Sat(r.usageRecords + 1) else r.usageRecords,
           ObserveQuantities(r.quantities, a.usage), ObserveCacheRatio(r.readRatio, a.usage, true),
           ObserveCacheRatio(r.writeRatio, a.usage, false), ObserveDistributions(r.distributions, a), r.costs, Sat(r.costUnknown + 1))
  }

  function ObserveCostEvaluation(r: Rollup, outcome: Cost): Rollup {
    if outcome.UnknownCost? then r
    else
      var currency := outcome.schedule.currency;
      r.(costUnknown := if r.costUnknown == 0 then 0 else r.costUnknown - 1,
         costs := r.costs[currency := ObserveCostQuantity(CostIn(r.costs, currency), outcome.amount, outcome.accuracy)])
  }

  function MergeQuantities(a: Quantities, b: Quantities): Quantities {
    Quantities(MergeQuantity(a.input, b.input), MergeQuantity(a.cached, b.cached), MergeQuantity(a.cacheWrite, b.cacheWrite),
               MergeQuantity(a.output, b.output), MergeQuantity(a.reasoning, b.reasoning), MergeQuantity(a.total, b.total))
  }

  function MergeDistributions(a: Distributions, b: Distributions): Distributions {
    Distributions(MergeDistribution(a.profiles, b.profiles), MergeDistribution(a.requestedModels, b.requestedModels),
                  MergeDistribution(a.observedModels, b.observedModels), MergeDistribution(a.dialects, b.dialects),
                  MergeDistribution(a.contextModes, b.contextModes), MergeDistribution(a.requestedEfforts, b.requestedEfforts),
                  MergeDistribution(a.observedEfforts, b.observedEfforts), MergeDistribution(a.requestedTiers, b.requestedTiers),
                  MergeDistribution(a.tiers, b.tiers))
  }

  function Merge(r: Rollup, other: Rollup): Rollup {
    Rollup(Sat(r.attempts + other.attempts), Sat(r.succeeded + other.succeeded), Sat(r.failed + other.failed),
           Sat(r.interrupted + other.interrupted), Sat(r.usageRecords + other.usageRecords),
           MergeQuantities(r.quantities, other.quantities), MergeRatio(r.readRatio, other.readRatio), MergeRatio(r.writeRatio, other.writeRatio),
           MergeDistributions(r.distributions, other.distributions), MergeCosts(r.costs, other.costs), Sat(r.costUnknown + other.costUnknown))
  }

  // ---------- the unbounded tally ----------

  datatype QuantityTallies = QuantityTallies(input: QuantityTally, cached: QuantityTally, cacheWrite: QuantityTally,
                                             output: QuantityTally, reasoning: QuantityTally, total: QuantityTally)

  datatype DistributionTallies = DistributionTallies(
    profiles: DistributionTally, requestedModels: DistributionTally, observedModels: DistributionTally, dialects: DistributionTally,
    contextModes: DistributionTally, requestedEfforts: DistributionTally, observedEfforts: DistributionTally,
    requestedTiers: DistributionTally, tiers: DistributionTally)

  datatype Tally = Tally(
    attempts: nat, succeeded: nat, failed: nat, interrupted: nat, usageRecords: nat,
    quantities: QuantityTallies, readRatio: RatioTally, writeRatio: RatioTally, distributions: DistributionTallies,
    costs: CostTallies, costUnknown: nat)

  function AddQs(a: QuantityTallies, b: QuantityTallies): QuantityTallies {
    QuantityTallies(AddQ(a.input, b.input), AddQ(a.cached, b.cached), AddQ(a.cacheWrite, b.cacheWrite),
                    AddQ(a.output, b.output), AddQ(a.reasoning, b.reasoning), AddQ(a.total, b.total))
  }

  function CapQs(t: QuantityTallies): Quantities {
    Quantities(CapQ(t.input), CapQ(t.cached), CapQ(t.cacheWrite), CapQ(t.output), CapQ(t.reasoning), CapQ(t.total))
  }

  function AddDs(a: DistributionTallies, b: DistributionTallies): DistributionTallies {
    DistributionTallies(AddD(a.profiles, b.profiles), AddD(a.requestedModels, b.requestedModels), AddD(a.observedModels, b.observedModels),
                        AddD(a.dialects, b.dialects), AddD(a.contextModes, b.contextModes), AddD(a.requestedEfforts, b.requestedEfforts),
                        AddD(a.observedEfforts, b.observedEfforts), AddD(a.requestedTiers, b.requestedTiers), AddD(a.tiers, b.tiers))
  }

  function CapDs(t: DistributionTallies): Distributions {
    Distributions(CapD(t.profiles), CapD(t.requestedModels), CapD(t.observedModels), CapD(t.dialects), CapD(t.contextModes),
                  CapD(t.requestedEfforts), CapD(t.observedEfforts), CapD(t.requestedTiers), CapD(t.tiers))
  }

  function Add(a: Tally, b: Tally): Tally {
    Tally(a.attempts + b.attempts, a.succeeded + b.succeeded, a.failed + b.failed, a.interrupted + b.interrupted,
          a.usageRecords + b.usageRecords, AddQs(a.quantities, b.quantities), AddR(a.readRatio, b.readRatio), AddR(a.writeRatio, b.writeRatio),
          AddDs(a.distributions, b.distributions), AddCosts(a.costs, b.costs), a.costUnknown + b.costUnknown)
  }

  /** What the bounded counters show of a tally. */
  function Cap(t: Tally): Rollup {
    Rollup(Sat(t.attempts), Sat(t.succeeded), Sat(t.failed), Sat(t.interrupted), Sat(t.usageRecords), CapQs(t.quantities),
           CapR(t.readRatio), CapR(t.writeRatio), CapDs(t.distributions), CapCosts(t.costs), Sat(t.costUnknown))
  }

  const NO_Q := QuantityTally(0, 0, 0)
  const NO_R := RatioTally(0, 0, 0, 0, 0, 0)
  const NO_D := DistributionTally(multiset{}, 0)
  const NOTHING := Tally(0, 0, 0, 0, 0, QuantityTallies(NO_Q, NO_Q, NO_Q, NO_Q, NO_Q, NO_Q), NO_R, NO_R,
                         DistributionTallies(NO_D, NO_D, NO_D, NO_D, NO_D, NO_D, NO_D, NO_D, NO_D), map[], 0)

  function OneQs(usage: Option<UsageRecord>): QuantityTallies {
    match usage
    case None =>
      var one := QuantityTally(0, 0, 1);
      QuantityTallies(one, one, one, one, one, one)
    case Some(u) =>
      QuantityTallies(OneQ(u.input, u.accuracy), OneQ(u.cachedInput, u.accuracy), OneQ(u.cacheWrite, u.accuracy),
                      OneQ(u.output, u.accuracy), OneQ(u.reasoningOutput, u.accuracy), OneQ(u.total, u.accuracy))
  }

  function OneCacheRatio(usage: Option<UsageRecord>, read: bool): RatioTally {
    match usage
    case None => RatioTally(0, 0, 0, 0, 1, 0)
    case Some(u) =>
      if CacheInconsistent(u) then RatioTally(0, 0, 0, 0, 0, 1)
      else OneR(if read then u.cachedInput else u.cacheWrite, u.input, u.accuracy)
  }

  function OneDs(a: Attempt): DistributionTallies {
    DistributionTallies(OneD(Some(a.profile)), OneD(Some(a.requestedModel)), OneD(a.observedModel), OneD(a.dialect),
                        OneD(a.requestedContextMode), OneD(a.requestedEffort), OneD(a.observedEffort), OneD(a.requestedTier),
                        OneD(if a.usage.Some? then a.usage.value.tier else None))
  }

  predicate Costed(a: Attempt) {
    a.cost.Some? && a.cost.value.Known?
  }

  function CostOf(cost: Cost): CostTallies
    requires cost.Known?
  {
    map[cost.schedule.currency := OneC(cost.amount, cost.accuracy)]
  }

  /** What one attempt, as it now stands, adds to any scope it belongs to. */
  function Of(a: Attempt): Tally {
    Tally(1, if a.outcome.Succeeded? then 1 else 0, if a.outcome.Failed? then 1 else 0, if a.outcome.Interrupted? then 1 else 0,
          if a.usage.Some? then 1 else 0, OneQs(a.usage), OneCacheRatio(a.usage, true), OneCacheRatio(a.usage, false), OneDs(a),
          if Costed(a) then CostOf(a.cost.value) else map[], if Costed(a) then 0 else 1)
  }

  // ---------- observing and merging are addition ----------

  lemma ObserveQuantitiesAdds(t: QuantityTallies, usage: Option<UsageRecord>)
    ensures ObserveQuantities(CapQs(t), usage) == CapQs(AddQs(t, OneQs(usage)))
  {
    var u := if usage.Some? then usage.value else Pricing.Usage(None, None, None, None, None, None, None, Pricing.Exact);
    QuantityAdds(t.input, NO_Q, u.input, u.accuracy);
    QuantityAdds(t.cached, NO_Q, u.cachedInput, u.accuracy);
    QuantityAdds(t.cacheWrite, NO_Q, u.cacheWrite, u.accuracy);
    QuantityAdds(t.output, NO_Q, u.output, u.accuracy);
    QuantityAdds(t.reasoning, NO_Q, u.reasoningOutput, u.accuracy);
    QuantityAdds(t.total, NO_Q, u.total, u.accuracy);
    assert OneQ(None, Pricing.Exact) == QuantityTally(0, 0, 1);
    hide ObserveQuantity, CapQ, AddQ, OneQ;
  }

  lemma ObserveRatioAdds(t: RatioTally, usage: Option<UsageRecord>, read: bool)
    ensures ObserveCacheRatio(CapR(t), usage, read) == CapR(AddR(t, OneCacheRatio(usage, read)))
  {
    RatioMerges(t, NO_R);
    RatioObserves(t, None, None, Pricing.Exact);
    assert OneR(None, None, Pricing.Exact) == RatioTally(0, 0, 0, 0, 1, 0);
    if usage.Some? {
      var u := usage.value;
      RatioObserves(t, if read then u.cachedInput else u.cacheWrite, u.input, u.accuracy);
    }
    hide ObserveRatio, ObserveInconsistent, CapR, AddR, OneR;
  }

  lemma ObserveDistributionsAdds(t: DistributionTallies, a: Attempt)
    ensures ObserveDistributions(CapDs(t), a) == CapDs(AddDs(t, OneDs(a)))
  {
    hide ObserveDistribution, CapD, AddD, OneD;
    DistributionObserves(t.profiles, Some(a.profile));
    DistributionObserves(t.requestedModels, Some(a.requestedModel));
    DistributionObserves(t.observedModels, a.observedModel);
    DistributionObserves(t.dialects, a.dialect);
    DistributionObserves(t.contextModes, a.requestedContextMode);
    DistributionObserves(t.requestedEfforts, a.requestedEffort);
    DistributionObserves(t.observedEfforts, a.observedEffort);
    DistributionObserves(t.requestedTiers, a.requestedTier);
    DistributionObserves(t.tiers, if a.usage.Some? then a.usage.value.tier else None);
  }

  lemma AddNoCosts(t: CostTallies)
    ensures AddCosts(t, map[]) == t
  {
    forall k <- t
      ensures AddC(t[k], NO_COSTS) == t[k]
    {
    }
    assert AddCosts(t, map[]).Keys == t.Keys;
  }

  /** Observing an attempt that has not been priced yet adds what it contributes. */
  lemma ObserveAdds(t: Tally, a: Attempt)
    requires a.cost.None?
    ensures Observe(Cap(t), a) == Cap(Add(t, Of(a)))
  {
    ObserveQuantitiesAdds(t.quantities, a.usage);
    ObserveRatioAdds(t.readRatio, a.usage, true);
    ObserveRatioAdds(t.writeRatio, a.usage, false);
    ObserveDistributionsAdds(t.distributions, a);
    AddNoCosts(t.costs);
    hide ObserveQuantities, CapQs, AddQs, OneQs, ObserveCacheRatio, CapR, AddR, OneCacheRatio;
    hide ObserveDistributions, CapDs, AddDs, OneDs, AddCosts, CapCosts;
  }

  /** Attaching a cost evaluation to a tally: known costs leave the unknown count, unknown ones change nothing. */
  function Evaluated(t: Tally, outcome: Cost): Tally {
    if outcome.UnknownCost? then t
    else t.(costs := AddCosts(t.costs, CostOf(outcome)), costUnknown := if t.costUnknown == 0 then 0 else t.costUnknown - 1)
  }

  /** The saturating counter of unpriced attempts follows the true count exactly while that count has not passed
      its maximum; beyond it, pricing an attempt takes the counter below the truth. */
  lemma EvaluateAdds(t: Tally, outcome: Cost)
    ensures ObserveCostEvaluation(Cap(t), outcome) == Cap(Evaluated(t, outcome)) <==> outcome.UnknownCost? || t.costUnknown <= U64_MAX
  {
    if outcome.Known? {
      CostObserved(t.costs, outcome.schedule.currency, outcome.amount, outcome.accuracy);
    }
    hide CapQs, CapR, CapDs, CapCosts, AddCosts, OneC, ObserveCostQuantity;
  }

  lemma MergeQuantitiesAdds(t: QuantityTallies, u: QuantityTallies)
    ensures MergeQuantities(CapQs(t), CapQs(u)) == CapQs(AddQs(t, u))
  {
    QuantityAdds(t.input, u.input, None, Pricing.Exact);
    QuantityAdds(t.cached, u.cached, None, Pricing.Exact);
    QuantityAdds(t.cacheWrite, u.cacheWrite, None, Pricing.Exact);
    QuantityAdds(t.output, u.output, None, Pricing.Exact);
    QuantityAdds(t.reasoning, u.reasoning, None, Pricing.Exact);
    QuantityAdds(t.total, u.total, None, Pricing.Exact);
    hide MergeQuantity, CapQ, AddQ;
  }

  lemma MergeDistributionsAdds(t: DistributionTallies, u: DistributionTallies)
    ensures MergeDistributions(CapDs(t), CapDs(u)) == CapDs(AddDs(t, u))
  {
    hide MergeDistribution, CapD, AddD;
    DistributionMerges(t.profiles, u.profiles);
    DistributionMerges(t.requestedModels, u.requestedModels);
    DistributionMerges(t.observedModels, u.observedModels);
    DistributionMerges(t.dialects, u.dialects);
    DistributionMerges(t.contextModes, u.contextModes);
    DistributionMerges(t.requestedEfforts, u.requestedEfforts);
    DistributionMerges(t.observedEfforts, u.observedEfforts);
    DistributionMerges(t.requestedTiers, u.requestedTiers);
    DistributionMerges(t.tiers, u.tiers);
  }

  /** Merging rollups adds what they stand for, overflow and saturation included. */
  lemma MergeAdds(t: Tally, u: Tally)
    ensures Merge(Cap(t), Cap(u)) == Cap(Add(t, u))
  {
    MergeQuantitiesAdds(t.quantities, u.quantities);
    RatioMerges(t.readRatio, u.readRatio);
    RatioMerges(t.writeRatio, u.writeRatio);
    MergeDistributionsAdds(t.distributions, u.distributions);
    CostsAdd(t.costs, u.costs);
    SatAdds(t.attempts, u.attempts);
    SatAdds(t.succeeded, u.succeeded);
    SatAdds(t.failed, u.failed);
    SatAdds(t.interrupted, u.interrupted);
    SatAdds(t.usageRecords, u.usageRecords);
    SatAdds(t.costUnknown, u.costUnknown);
    hide MergeQuantities, CapQs, AddQs, MergeRatio, CapR, AddR, MergeDistributions, CapDs, AddDs, MergeCosts, CapCosts, AddCosts, Sat;
  }

  // ---------- addition is a commutative monoid ----------

  lemma AddCCommutes(a: CostTally, b: CostTally, c: CostTally)
    ensures AddC(a, b) == AddC(b, a) && AddC(AddC(a, b), c) == AddC(a, AddC(b, c)) && AddC(a, NO_COSTS) == a
  {
  }

  lemma CostsSymmetric(a: CostTallies, b: CostTallies)
    ensures AddCosts(a, b) == AddCosts(b, a)
  {
    hide AddC;
    assert a.Keys + b.Keys == b.Keys + a.Keys;
    forall k | k in a.Keys + b.Keys
      ensures AddCosts(a, b)[k] == AddCosts(b, a)[k]
    {
      AddCCommutes(TallyIn(a, k), TallyIn(b, k), NO_COSTS);
    }
  }

  lemma CostsAssociate(a: CostTallies, b: CostTallies, c: CostTallies)
    ensures AddCosts(AddCosts(a, b), c) == AddCosts(a, AddCosts(b, c))
  {
    hide AddC;
    var left, right := AddCosts(AddCosts(a, b), c), AddCosts(a, AddCosts(b, c));
    assert left.Keys == right.Keys;
    AddCCommutes(NO_COSTS, NO_COSTS, NO_COSTS);
    forall k <- left.Keys
      ensures left[k] == right[k]
    {
      AddCCommutes(TallyIn(a, k), TallyIn(b, k), TallyIn(c, k));
      assert TallyIn(AddCosts(a, b), k) == AddC(TallyIn(a, k), TallyIn(b, k));
      assert TallyIn(AddCosts(b, c), k) == AddC(TallyIn(b, k), TallyIn(c, k));
    }
    hide AddCosts;
    assert left == right;
  }

  lemma CostsCommute(a: CostTallies, b: CostTallies, c: CostTallies)
    ensures AddCosts(a, b) == AddCosts(b, a)
    ensures AddCosts(AddCosts(a, b), c) == AddCosts(a, AddCosts(b, c))
  {
    hide AddCosts;
    CostsSymmetric(a, b);
    CostsAssociate(a, b, c);
  }

  lemma AddDsCommute(a: DistributionTallies, b: DistributionTallies, c: DistributionTallies)
    ensures AddDs(a, b) == AddDs(b, a) && AddDs(AddDs(a, b), c) == AddDs(a, AddDs(b, c))
  {
    hide AddD;
    AddDCommute(a.profiles, b.profiles, c.profiles);
    AddDCommute(a.requestedModels, b.requestedModels, c.requestedModels);
    AddDCommute(a.observedModels, b.observedModels, c.observedModels);
    AddDCommute(a.dialects, b.dialects, c.dialects);
    AddDCommute(a.contextModes, b.contextModes, c.contextModes);
    AddDCommute(a.requestedEfforts, b.requestedEfforts, c.requestedEfforts);
    AddDCommute(a.observedEfforts, b.observedEfforts, c.observedEfforts);
    AddDCommute(a.requestedTiers, b.requestedTiers, c.requestedTiers);
    AddDCommute(a.tiers, b.tiers, c.tiers);
  }

  lemma AddDCommute(a: DistributionTally, b: DistributionTally, c: DistributionTally)
    ensures AddD(a, b) == AddD(b, a) && AddD(AddD(a, b), c) == AddD(a, AddD(b, c))
  {
    assert a.values + b.values == b.values + a.values;
    assert (a.values + b.values) + c.values == a.values + (b.values + c.values);
  }

  lemma AddCommutes(a: Tally, b: Tally, c: Tally)
    ensures Add(a, b) == Add(b, a) && Add(Add(a, b), c) == Add(a, Add(b, c))
  {
    CostsCommute(a.costs, b.costs, c.costs);
    AddDsCommute(a.distributions, b.distributions, c.distributions);
    hide AddCosts, AddDs;
  }

  lemma AddNoQs(t: QuantityTallies, r: RatioTally)
    ensures AddQs(t, QuantityTallies(NO_Q, NO_Q, NO_Q, NO_Q, NO_Q, NO_Q)) == t && AddR(r, NO_R) == r
  {
  }

  lemma AddNothingRight(t: Tally)
    ensures Add(t, NOTHING) == t
  {
    AddNoQs(t.quantities, t.readRatio);
    AddNoQs(t.quantities, t.writeRatio);
    AddNoCosts(t.costs);
    AddNoDs(t.distributions);
    hide AddCosts, AddDs, AddQs, AddR;
  }

  lemma AddNothing(t: Tally)
    ensures Add(t, NOTHING) == t && Add(NOTHING, t) == t && Cap(NOTHING) == EMPTY
  {
    hide Cap, Add;
    CapNothing();
    AddCommutes(t, NOTHING, NOTHING);
    AddNothingRight(t);
  }

  lemma CapNothing()
    ensures Cap(NOTHING) == EMPTY
  {
    assert CapCosts(map[]) == map[];
    assert CapD(NO_D) == NO_DISTRIBUTION;
  }

  lemma AddNoDs(t: DistributionTallies)
    ensures AddDs(t, NOTHING.distributions) == t
  {
    hide AddD;
    AddNoD(t.profiles);
    AddNoD(t.requestedModels);
    AddNoD(t.observedModels);
    AddNoD(t.dialects);
    AddNoD(t.contextModes);
    AddNoD(t.requestedEfforts);
    AddNoD(t.observedEfforts);
    AddNoD(t.requestedTiers);
    AddNoD(t.tiers);
  }

  lemma AddNoD(t: DistributionTally)
    ensures AddD(t, NO_D) == t
  {
    assert t.values + multiset{} == t.values;
  }

  /** Rollups of attempts form a commutative monoid under merge, with the empty rollup as unit. */
  lemma MergeIsCommutativeMonoid(t: Tally, u: Tally, v: Tally)
    ensures Merge(Cap(t), Cap(u)) == Merge(Cap(u), Cap(t))
    ensures Merge(Merge(Cap(t), Cap(u)), Cap(v)) == Merge(Cap(t), Merge(Cap(u), Cap(v)))
    ensures Merge(Cap(t), EMPTY) == Cap(t)
  {
    hide Merge, Cap, Add;
    MergeAdds(t, u);
    MergeAdds(u, t);
    MergeAdds(Add(t, u), v);
    MergeAdds(u, v);
    MergeAdds(t, Add(u, v));
    MergeAdds(t, NOTHING);
    AddCommutes(t, u, v);
    AddNothing(t);
  }

  // ---------- folds over attempts ----------

  /** The keys by which the projection keeps a rollup each. */
  datatype Axis = Threads | Turns | Agents | Windows | Instants

  datatype Scope = Everything | On(axis: Axis, key: int) | Between(start: int, end: int)

  predicate In(a: Attempt, scope: Scope) {
    match scope
    case Everything => true
    case On(axis, key) => key in KeysOf(a, axis)
    case Between(start, end) => a.startedAt.Some? && start <= a.startedAt.value < end
  }

  /** The rollups of an axis an attempt belongs to. */
  function KeysOf(a: Attempt, axis: Axis): seq<int> {
    match axis
    case Threads => [a.thread]
    case Turns => [a.turn]
    case Agents => if a.agent.Some? then [a.agent.value] else []
    case Windows => a.windows
    case Instants => if a.startedAt.Some? then [a.startedAt.value] else []
  }

  /** The direct fold over the attempts of a scope. */
  function Sum(attempts: seq<Attempt>, scope: Scope): Tally
    decreases |attempts|
  {
    if |attempts| == 0 then NOTHING
    else
      var before := Sum(attempts[..|attempts| - 1], scope);
      if In(attempts[|attempts| - 1], scope) then Add(before, Of(attempts[|attempts| - 1])) else before
  }

  lemma SumMore(attempts: seq<Attempt>, a: Attempt, scope: Scope)
    ensures Sum(attempts + [a], scope) == if In(a, scope) then Add(Sum(attempts, scope), Of(a)) else Sum(attempts, scope)
  {
    hide Add, Of;
    assert (attempts + [a])[..|attempts|] == attempts;
  }

  lemma {:induction false} SumOfNone(attempts: seq<Attempt>, scope: Scope)
    requires forall a <- attempts :: !In(a, scope)
    ensures Sum(attempts, scope) == NOTHING
    decreases |attempts|
  {
    hide In, Of, Add;
    if |attempts| > 0 {
      SumOfNone(attempts[..|attempts| - 1], scope);
    }
  }

  /** Two adjacent time ranges sum to the range they cover. */
  lemma {:induction false} RangesJoin(attempts: seq<Attempt>, start: int, middle: int, end: int)
    requires start <= middle <= end
    ensures Sum(attempts, Between(start, end)) == Add(Sum(attempts, Between(start, middle)), Sum(attempts, Between(middle, end)))
    decreases |attempts|
  {
    hide Add, Of;
    if |attempts| == 0 {
      AddNothing(NOTHING);
    } else {
      var init, a := attempts[..|attempts| - 1], attempts[|attempts| - 1];
      RangesJoin(init, start, middle, end);
      var x, y := Sum(init, Between(start, middle)), Sum(init, Between(middle, end));
      AddCommutes(x, y, Of(a));
      AddCommutes(Of(a), x, y);
      AddCommutes(x, Of(a), y);
      AddCommutes(y, Of(a), x);
    }
  }

  lemma {:induction false} InstantIsRange(attempts: seq<Attempt>, instant: int)
    ensures Sum(attempts, On(Instants, instant)) == Sum(attempts, Between(instant, instant + 1))
    decreases |attempts|
  {
    hide Add, Of;
    if |attempts| > 0 {
      InstantIsRange(attempts[..|attempts| - 1], instant);
    }
  }

  lemma {:induction false} UnknownBounded(attempts: seq<Attempt>, scope: Scope)
    ensures Sum(attempts, scope).costUnknown <= |attempts|
    decreases |attempts|
  {
    hide AddQs, AddDs, AddCosts, OneQs, OneDs, OneCacheRatio, AddR;
    if |attempts| > 0 {
      UnknownBounded(attempts[..|attempts| - 1], scope);
    }
  }

  lemma OfEvaluated(a: Attempt, outcome: Cost)
    requires a.cost.None?
    ensures Of(a.(cost := Some(outcome))) == Evaluated(Of(a), outcome) && Of(a).costUnknown == 1
  {
    if outcome.Known? {
      AddNoCosts(CostOf(outcome));
      CostsCommute(map[], CostOf(outcome), map[]);
    }
    hide AddCosts;
  }

  lemma EvaluatedLater(t: Tally, u: Tally, outcome: Cost)
    requires t.costUnknown > 0
    ensures Add(Evaluated(t, outcome), u) == Evaluated(Add(t, u), outcome)
    ensures Add(u, Evaluated(t, outcome)) == Evaluated(Add(u, t), outcome)
  {
    if outcome.Known? {
      var c := CostOf(outcome);
      CostsCommute(t.costs, c, u.costs);
      CostsCommute(t.costs, u.costs, c);
      CostsCommute(c, u.costs, c);
      CostsCommute(u.costs, t.costs, c);
    }
    hide AddCosts, AddQs, AddDs, AddR;
  }

  /** The last step of the fold, with the attempt just priced or one after it. */
  lemma EvaluatedStep(before: Tally, priced: Tally, last: Attempt, included: bool, outcome: Cost)
    requires included ==> before.costUnknown > 0 && priced == Evaluated(before, outcome)
    requires !included ==> priced == before
    ensures Add(priced, Of(last)) == if included then Evaluated(Add(before, Of(last)), outcome) else Add(before, Of(last))
    ensures included ==> Add(before, Of(last)).costUnknown > 0
  {
    UnknownAdds(before, Of(last));
    hide Add, Of, Evaluated;
    if included {
      EvaluatedLater(before, Of(last), outcome);
    }
  }

  lemma EvaluatedLast(before: Tally, a: Attempt, outcome: Cost)
    requires a.cost.None?
    ensures Add(before, Of(a.(cost := Some(outcome)))) == Evaluated(Add(before, Of(a)), outcome)
    ensures Add(before, Of(a)).costUnknown > 0
  {
    OfEvaluated(a, outcome);
    UnknownAdds(before, Of(a));
    hide Add, Of, Evaluated;
    EvaluatedLater(Of(a), before, outcome);
  }

  /** Pricing one unpriced attempt changes every scope it belongs to by exactly that evaluation, and no other scope. */
  lemma {:induction false} SumEvaluated(attempts: seq<Attempt>, i: nat, outcome: Cost, scope: Scope)
    requires i < |attempts| && attempts[i].cost.None?
    ensures Sum(attempts[i := attempts[i].(cost := Some(outcome))], scope)
            == if In(attempts[i], scope) then Evaluated(Sum(attempts, scope), outcome) else Sum(attempts, scope)
    ensures In(attempts[i], scope) ==> Sum(attempts, scope).costUnknown > 0
    decreases |attempts|
  {
    hide Add, Of, Evaluated, In;
    PricedKeepsScope(attempts[i], outcome, scope);
    var last := |attempts| - 1;
    var changed := attempts[i := attempts[i].(cost := Some(outcome))];
    var before := Sum(attempts[..last], scope);
    if i == last {
      assert changed[..last] == attempts[..last];
      EvaluatedLast(before, attempts[i], outcome);
    } else {
      assert changed[..last] == attempts[..last][i := attempts[i].(cost := Some(outcome))];
      SumEvaluated(attempts[..last], i, outcome, scope);
      EvaluatedStep(before, Sum(changed[..last], scope), attempts[last], In(attempts[i], scope), outcome);
    }
  }

  lemma PricedKeepsScope(a: Attempt, outcome: Cost, scope: Scope)
    ensures In(a.(cost := Some(outcome)), scope) == In(a, scope)
  {
  }

  lemma UnknownAdds(t: Tally, u: Tally)
    ensures Add(t, u).costUnknown == t.costUnknown + u.costUnknown
  {
  }
}
