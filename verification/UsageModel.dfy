/**
 Usage counters as values, as the runtime keeps them: sixty-four bit, saturating,
 giving up a sum once it overflows. Each is the image of an unbounded tally, and
 observing or merging is addition of tallies.
 */
module UsageModel {
  import opened Prelude
  import Pricing

  type Accuracy = Pricing.Accuracy
  type UsageRecord = Pricing.Usage
  type Cost = Pricing.Cost

  datatype Outcome = Succeeded | Failed | Interrupted

  /** Texts are seen by identity only. `cost` is absent until the attempt has been evaluated. */
  datatype Attempt = Attempt(
    attempt: U32, thread: U64, turn: U64, agent: Option<U64>, profile: nat, requestedModel: nat, observedModel: Option<nat>,
    dialect: Option<nat>, requestedContextMode: Option<nat>, requestedEffort: Option<nat>, observedEffort: Option<nat>,
    requestedTier: Option<nat>, startedAt: Option<int>, completedAt: Option<int>, outcome: Outcome, usage: Option<UsageRecord>, cost: Option<Cost>, windows: seq<int>)

  function Sat(n: nat): U64 {
    if n <= U64_MAX then n else U64_MAX
  }

  function Fit(n: nat): Option<U64> {
    if n <= U64_MAX then Some(n) else None
  }

  function CheckedAdd(a: Option<U64>, b: Option<U64>): Option<U64> {
    if a.None? || b.None? then None else Fit(a.value + b.value)
  }

  // ---------- quantities ----------

  datatype Quantity = Quantity(exact: Option<U64>, estimated: Option<U64>, unknown: U64, overflowed: bool)

  const NO_QUANTITY := Quantity(Some(0), Some(0), 0, false)

  function ObserveQuantity(q: Quantity, value: Option<U64>, accuracy: Accuracy): Quantity {
    if value.None? then q.(unknown := Sat(q.unknown + 1))
    else if accuracy.Exact? then
      var next := CheckedAdd(q.exact, value);
      q.(exact := next, overflowed := q.overflowed || next.None?)
    else
      var next := CheckedAdd(q.estimated, value);
      q.(estimated := next, overflowed := q.overflowed || next.None?)
  }

  function MergeQuantity(q: Quantity, other: Quantity): Quantity {
    var exact := CheckedAdd(q.exact, other.exact);
    var estimated := CheckedAdd(q.estimated, other.estimated);
    Quantity(exact, estimated, Sat(q.unknown + other.unknown), q.overflowed || other.overflowed || exact.None? || estimated.None?)
  }

  datatype QuantityTally = QuantityTally(exact: nat, estimated: nat, unknown: nat)

  function AddQ(a: QuantityTally, b: QuantityTally): QuantityTally {
    QuantityTally(a.exact + b.exact, a.estimated + b.estimated, a.unknown + b.unknown)
  }

  function CapQ(t: QuantityTally): Quantity {
    Quantity(Fit(t.exact), Fit(t.estimated), Sat(t.unknown), t.exact > U64_MAX || t.estimated > U64_MAX)
  }

  function OneQ(value: Option<U64>, accuracy: Accuracy): QuantityTally {
    if value.None? then QuantityTally(0, 0, 1)
    else if accuracy.Exact? then QuantityTally(value.value, 0, 0)
    else QuantityTally(0, value.value, 0)
  }

  lemma QuantityAdds(t: QuantityTally, u: QuantityTally, value: Option<U64>, accuracy: Accuracy)
    ensures ObserveQuantity(CapQ(t), value, accuracy) == CapQ(AddQ(t, OneQ(value, accuracy)))
    ensures MergeQuantity(CapQ(t), CapQ(u)) == CapQ(AddQ(t, u))
  {
  }

  // ---------- ratios ----------

  datatype Ratio = Ratio(exactNumerator: Option<U64>, exactDenominator: Option<U64>,
                         estimatedNumerator: Option<U64>, estimatedDenominator: Option<U64>,
                         unknown: U64, inconsistent: U64, overflowed: bool)

  const NO_RATIO := Ratio(Some(0), Some(0), Some(0), Some(0), 0, 0, false)

  /** Both halves of a pair survive or neither does. */
  function AddPair(n: Option<U64>, d: Option<U64>, n': Option<U64>, d': Option<U64>): (Option<U64>, Option<U64>) {
    var numerator, denominator := CheckedAdd(n, n'), CheckedAdd(d, d');
    if numerator.None? || denominator.None? then (None, None) else (numerator, denominator)
  }

  function ObserveRatio(r: Ratio, numerator: Option<U64>, denominator: Option<U64>, accuracy: Accuracy): Ratio {
    if numerator.None? || denominator.None? then r.(unknown := Sat(r.unknown + 1))
    else if denominator.value == 0 then
      if numerator.value == 0 then r.(unknown := Sat(r.unknown + 1)) else r.(inconsistent := Sat(r.inconsistent + 1))
    else if numerator.value > denominator.value then r.(inconsistent := Sat(r.inconsistent + 1))
    else if accuracy.Exact? then
      var pair := AddPair(r.exactNumerator, r.exactDenominator, numerator, denominator);
      r.(exactNumerator := pair.0, exactDenominator := pair.1, overflowed := r.overflowed || pair.0.None?)
    else
      var pair := AddPair(r.estimatedNumerator, r.estimatedDenominator, numerator, denominator);
      r.(estimatedNumerator := pair.0, estimatedDenominator := pair.1, overflowed := r.overflowed || pair.0.None?)
  }

  function ObserveInconsistent(r: Ratio): Ratio {
    r.(inconsistent := Sat(r.inconsistent + 1))
  }

  function MergeRatio(r: Ratio, other: Ratio): Ratio {
    var exact := AddPair(r.exactNumerator, r.exactDenominator, other.exactNumerator, other.exactDenominator);
    var estimated := AddPair(r.estimatedNumerator, r.estimatedDenominator, other.estimatedNumerator, other.estimatedDenominator);
    Ratio(exact.0, exact.1, estimated.0, estimated.1, Sat(r.unknown + other.unknown), Sat(r.inconsistent + other.inconsistent),
          r.overflowed || other.overflowed || exact.0.None? || estimated.0.None?)
  }

  datatype RatioTally = RatioTally(exactNumerator: nat, exactDenominator: nat, estimatedNumerator: nat, estimatedDenominator: nat,
                                   unknown: nat, inconsistent: nat)

  function AddR(a: RatioTally, b: RatioTally): RatioTally {
    RatioTally(a.exactNumerator + b.exactNumerator, a.exactDenominator + b.exactDenominator,
               a.estimatedNumerator + b.estimatedNumerator, a.estimatedDenominator + b.estimatedDenominator,
               a.unknown + b.unknown, a.inconsistent + b.inconsistent)
  }

  function FitPair(n: nat, d: nat): (Option<U64>, Option<U64>) {
    if n > U64_MAX || d > U64_MAX then (None, None) else (Some(n), Some(d))
  }

  function CapR(t: RatioTally): Ratio {
    var exact := FitPair(t.exactNumerator, t.exactDenominator);
    var estimated := FitPair(t.estimatedNumerator, t.estimatedDenominator);
    Ratio(exact.0, exact.1, estimated.0, estimated.1, Sat(t.unknown), Sat(t.inconsistent), exact.0.None? || estimated.0.None?)
  }

  function OneR(numerator: Option<U64>, denominator: Option<U64>, accuracy: Accuracy): RatioTally {
    if numerator.None? || denominator.None? || (numerator.value == 0 && denominator.value == 0) then RatioTally(0, 0, 0, 0, 1, 0)
    else if numerator.value > denominator.value then RatioTally(0, 0, 0, 0, 0, 1)
    else if accuracy.Exact? then RatioTally(numerator.value, denominator.value, 0, 0, 0, 0)
    else RatioTally(0, 0, numerator.value, denominator.value, 0, 0)
  }

  lemma PairAdds(a: nat, b: nat, c: nat, d: nat)
    ensures AddPair(FitPair(a, b).0, FitPair(a, b).1, FitPair(c, d).0, FitPair(c, d).1) == FitPair(a + c, b + d)
    ensures FitPair(a, b).0.None? ==> FitPair(a + c, b + d).0.None?
    ensures FitPair(c, d).0.None? ==> FitPair(a + c, b + d).0.None?
  {
  }

  lemma SatAdds(a: nat, b: nat)
    ensures Sat(Sat(a) + Sat(b)) == Sat(a + b) && Sat(Sat(a) + 1) == Sat(a + 1)
  {
  }

  lemma RatioObserves(t: RatioTally, numerator: Option<U64>, denominator: Option<U64>, accuracy: Accuracy)
    ensures ObserveRatio(CapR(t), numerator, denominator, accuracy) == CapR(AddR(t, OneR(numerator, denominator, accuracy)))
  {
    SatAdds(t.unknown, 1);
    SatAdds(t.inconsistent, 1);
    if numerator.Some? && denominator.Some? {
      var n, d := numerator.value, denominator.value;
      assert FitPair(n, d) == (numerator, denominator);
      PairAdds(t.exactNumerator, t.exactDenominator, n, d);
      PairAdds(t.estimatedNumerator, t.estimatedDenominator, n, d);
    }
    hide AddPair, FitPair, Sat;
  }

  lemma RatioMerges(t: RatioTally, u: RatioTally)
    ensures MergeRatio(CapR(t), CapR(u)) == CapR(AddR(t, u))
    ensures ObserveInconsistent(CapR(t)) == CapR(AddR(t, RatioTally(0, 0, 0, 0, 0, 1)))
  {
    SatAdds(t.unknown, u.unknown);
    SatAdds(t.inconsistent, u.inconsistent);
    PairAdds(t.exactNumerator, t.exactDenominator, u.exactNumerator, u.exactDenominator);
    PairAdds(t.estimatedNumerator, t.estimatedDenominator, u.estimatedNumerator, u.estimatedDenominator);
    hide AddPair, FitPair, Sat;
  }

  function BasisPoints(numerator: U64, denominator: U64): (points: Option<U16>)
    ensures points.None? <==> denominator == 0 || numerator > denominator
  {
    if denominator == 0 || numerator > denominator then None
    else
      Proportion(numerator, denominator);
      Some(numerator * 10_000 / denominator)
  }

  lemma Proportion(numerator: nat, denominator: nat)
    requires denominator > 0 && numerator <= denominator
    ensures numerator * 10_000 / denominator <= 10_000
  {
    assert numerator * 10_000 <= denominator * 10_000;
    var q := numerator * 10_000 / denominator;
    if q > 10_000 {
      assert q * denominator <= numerator * 10_000;
      assert q * denominator >= 10_001 * denominator by {
        Scale(10_001, q, denominator);
      }
    }
  }

  lemma Scale(a: nat, b: nat, c: nat)
    requires a <= b
    ensures a * c <= b * c
  {
  }

  // ---------- distributions ----------

  datatype Distribution = Distribution(values: map<nat, U64>, unknown: U64)

  const NO_DISTRIBUTION := Distribution(map[], 0)

  function CountIn(values: map<nat, U64>, key: nat): U64 {
    if key in values then values[key] else 0
  }

  function ObserveDistribution(d: Distribution, value: Option<nat>): Distribution {
    if value.None? then d.(unknown := Sat(d.unknown + 1))
    else d.(values := d.values[value.value := Sat(CountIn(d.values, value.value) + 1)])
  }

  function MergeDistribution(d: Distribution, other: Distribution): Distribution {
    Distribution(map k | k in d.values.Keys + other.values.Keys :: Sat(CountIn(d.values, k) + CountIn(other.values, k)),
                 Sat(d.unknown + other.unknown))
  }

  datatype DistributionTally = DistributionTally(values: multiset<nat>, unknown: nat)

  function AddD(a: DistributionTally, b: DistributionTally): DistributionTally {
    DistributionTally(a.values + b.values, a.unknown + b.unknown)
  }

  function CapD(t: DistributionTally): Distribution {
    Distribution(map k | k in t.values :: Sat(t.values[k]), Sat(t.unknown))
  }

  function OneD(value: Option<nat>): DistributionTally {
    if value.None? then DistributionTally(multiset{}, 1) else DistributionTally(multiset{value.value}, 0)
  }

  lemma CountCapped(t: DistributionTally, key: nat)
    ensures CountIn(CapD(t).values, key) == Sat(t.values[key])
  {
  }

  lemma DistributionObserves(t: DistributionTally, value: Option<nat>)
    ensures ObserveDistribution(CapD(t), value) == CapD(AddD(t, OneD(value)))
  {
    if value.Some? {
      CountCapped(t, value.value);
      SatAdds(t.values[value.value], 1);
      var left, right := ObserveDistribution(CapD(t), value).values, CapD(AddD(t, OneD(value))).values;
      hide Sat, CountIn;
      assert left.Keys == right.Keys;
      assert left == right;
    } else {
      SatAdds(t.unknown, 1);
    }
  }

  lemma DistributionMerges(t: DistributionTally, u: DistributionTally)
    ensures MergeDistribution(CapD(t), CapD(u)) == CapD(AddD(t, u))
  {
    SatAdds(t.unknown, u.unknown);
    var left, right := MergeDistribution(CapD(t), CapD(u)).values, CapD(AddD(t, u)).values;
    assert left.Keys == right.Keys;
    forall k <- left.Keys
      ensures left[k] == right[k]
    {
      hide Sat, CountIn;
      CountCapped(t, k);
      CountCapped(u, k);
      SatAdds(t.values[k], u.values[k]);
    }
    hide Sat, CountIn, CapD;
    assert left == right;
  }

  // ---------- costs ----------

  datatype CostQuantity = CostQuantity(exact: Option<U64>, estimated: Option<U64>, records: U64, overflowed: bool)

  const NO_COST := CostQuantity(Some(0), Some(0), 0, false)

  function ObserveCostQuantity(c: CostQuantity, amount: U64, accuracy: Accuracy): CostQuantity {
    if accuracy.Exact? then
      var next := CheckedAdd(c.exact, Some(amount));
      c.(exact := next, records := Sat(c.records + 1), overflowed := c.overflowed || next.None?)
    else
      var next := CheckedAdd(c.estimated, Some(amount));
      c.(estimated := next, records := Sat(c.records + 1), overflowed := c.overflowed || next.None?)
  }

  function MergeCostQuantity(c: CostQuantity, other: CostQuantity): CostQuantity {
    var exact := CheckedAdd(c.exact, other.exact);
    var estimated := CheckedAdd(c.estimated, other.estimated);
    CostQuantity(exact, estimated, Sat(c.records + other.records), c.overflowed || other.overflowed || exact.None? || estimated.None?)
  }

  datatype CostTally = CostTally(exact: nat, estimated: nat, records: nat)

  const NO_COSTS := CostTally(0, 0, 0)

  function AddC(a: CostTally, b: CostTally): CostTally {
    CostTally(a.exact + b.exact, a.estimated + b.estimated, a.records + b.records)
  }

  function CapC(t: CostTally): CostQuantity {
    CostQuantity(Fit(t.exact), Fit(t.estimated), Sat(t.records), t.exact > U64_MAX || t.estimated > U64_MAX)
  }

  function OneC(amount: U64, accuracy: Accuracy): CostTally {
    if accuracy.Exact? then CostTally(amount, 0, 1) else CostTally(0, amount, 1)
  }

  lemma CostAdds(t: CostTally, u: CostTally, amount: U64, accuracy: Accuracy)
    ensures ObserveCostQuantity(CapC(t), amount, accuracy) == CapC(AddC(t, OneC(amount, accuracy)))
    ensures MergeCostQuantity(CapC(t), CapC(u)) == CapC(AddC(t, u))
  {
  }

  type Costs = map<nat, CostQuantity>
  type CostTallies = map<nat, CostTally>

  function CostIn(costs: Costs, currency: nat): CostQuantity {
    if currency in costs then costs[currency] else NO_COST
  }

  function TallyIn(costs: CostTallies, currency: nat): CostTally {
    if currency in costs then costs[currency] else NO_COSTS
  }

  function MergeCosts(costs: Costs, other: Costs): Costs {
    map k | k in costs.Keys + other.Keys :: if k in other then MergeCostQuantity(CostIn(costs, k), other[k]) else costs[k]
  }

  function AddCosts(a: CostTallies, b: CostTallies): CostTallies {
    map k | k in a.Keys + b.Keys :: AddC(TallyIn(a, k), TallyIn(b, k))
  }

  function CapCosts(t: CostTallies): Costs {
    map k | k in t :: CapC(t[k])
  }

  lemma CostsAdd(t: CostTallies, u: CostTallies)
    ensures MergeCosts(CapCosts(t), CapCosts(u)) == CapCosts(AddCosts(t, u))
  {
    hide MergeCostQuantity, CapC;
    forall k | k in t.Keys + u.Keys
      ensures MergeCosts(CapCosts(t), CapCosts(u))[k] == CapC(AddC(TallyIn(t, k), TallyIn(u, k)))
    {
      CostAdds(TallyIn(t, k), TallyIn(u, k), 0, Pricing.Exact);
      CapNone();
      if k !in u {
        assert AddC(TallyIn(t, k), NO_COSTS) == TallyIn(t, k);
      }
    }
    assert MergeCosts(CapCosts(t), CapCosts(u)) == CapCosts(AddCosts(t, u));
  }

  lemma CapNone()
    ensures CapC(NO_COSTS) == NO_COST
  {
  }

  lemma CostObserved(t: CostTallies, currency: nat, amount: U64, accuracy: Accuracy)
    ensures CapCosts(t)[currency := ObserveCostQuantity(CostIn(CapCosts(t), currency), amount, accuracy)]
            == CapCosts(AddCosts(t, map[currency := OneC(amount, accuracy)]))
  {
    var left := CapCosts(t)[currency := ObserveCostQuantity(CostIn(CapCosts(t), currency), amount, accuracy)];
    var added := AddCosts(t, map[currency := OneC(amount, accuracy)]);
    var right := CapCosts(added);
    assert left.Keys == t.Keys + {currency} == right.Keys;
    assert left[currency] == right[currency] by {
      hide ObserveCostQuantity, CapC, AddC, OneC;
      CostAdds(TallyIn(t, currency), NO_COSTS, amount, accuracy);
      CapNone();
    }
    forall k <- left.Keys
      ensures left[k] == right[k]
    {
      if k != currency {
        hide CapC, ObserveCostQuantity, OneC;
        assert AddC(t[k], NO_COSTS) == t[k];
      }
    }
    hide CapC, ObserveCostQuantity, OneC, AddC, CapCosts, AddCosts;
    assert left == right;
  }
}
