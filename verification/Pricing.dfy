/**
 Price schedules: which one applies to an attempt, why at most one can, and
 what an attempt costs under it in exact bounded arithmetic.
 */
module Pricing {
  import opened Prelude
  import Sorting

  const MAX_PRICE_SCHEDULES: nat := 256

  datatype Rates = Rates(input: U64, cachedInput: U64, cacheWrite: U64, output: U64, reasoningOutput: U64)

  /** Texts are seen by identity only; identifiers by their place in string order. */
  datatype Schedule = Schedule(
    id: nat, currency: nat, profile: nat, model: nat, dialect: Option<nat>, tier: Option<nat>,
    minimumContext: U64, maximumContext: Option<U64>, effectiveFrom: int, effectiveUntil: Option<int>, rates: Rates,
    fingerprint: U64)

  datatype PricingError = InvalidContextRange | InvalidEffectiveInterval | TooManySchedules | DuplicateSchedule | OverlappingSchedules

  function NewSchedule(definition: Schedule): (r: Result<Schedule, PricingError>)
    ensures r.Ok? <==> Sane(definition)
  {
    if definition.maximumContext.Some? && definition.maximumContext.value <= definition.minimumContext then Err(InvalidContextRange)
    else if definition.effectiveUntil.Some? && definition.effectiveUntil.value <= definition.effectiveFrom then Err(InvalidEffectiveInterval)
    else Ok(definition)
  }

  /** What construction guarantees: neither range is empty. */
  predicate Sane(s: Schedule) {
    && (s.maximumContext.Some? ==> s.minimumContext < s.maximumContext.value)
    && (s.effectiveUntil.Some? ==> s.effectiveFrom < s.effectiveUntil.value)
  }

  // ---------- applicability ----------

  datatype Attempt = Attempt(profile: nat, model: nat, dialect: Option<nat>, startedAt: int)

  predicate MatchesBase(s: Schedule, a: Attempt) {
    && s.profile == a.profile && s.model == a.model && (s.dialect.None? || s.dialect == a.dialect)
    && s.effectiveFrom <= a.startedAt && (s.effectiveUntil.None? || a.startedAt < s.effectiveUntil.value)
  }

  predicate MatchesTier(s: Schedule, tier: Option<nat>) {
    s.tier.None? || s.tier == tier
  }

  predicate MatchesContext(s: Schedule, input: nat) {
    s.minimumContext <= input && (s.maximumContext.None? || input < s.maximumContext.value)
  }

  predicate Applies(s: Schedule, a: Attempt, tier: Option<nat>, input: nat) {
    MatchesBase(s, a) && MatchesTier(s, tier) && MatchesContext(s, input)
  }

  predicate SelectorsOverlap(left: Option<nat>, right: Option<nat>) {
    left.None? || right.None? || left == right
  }

  predicate RangesOverlap(leftStart: int, leftEnd: Option<int>, rightStart: int, rightEnd: Option<int>) {
    (leftEnd.None? || rightStart < leftEnd.value) && (rightEnd.None? || leftStart < rightEnd.value)
  }

  predicate Overlaps(s: Schedule, t: Schedule) {
    && s.profile == t.profile && s.model == t.model && SelectorsOverlap(s.dialect, t.dialect) && SelectorsOverlap(s.tier, t.tier)
    && RangesOverlap(s.minimumContext, s.maximumContext, t.minimumContext, t.maximumContext)
    && RangesOverlap(s.effectiveFrom, s.effectiveUntil, t.effectiveFrom, t.effectiveUntil)
  }

  ghost predicate BothApply(s: Schedule, t: Schedule, a: Attempt, tier: Option<nat>, input: U64) {
    Applies(s, a, tier, input) && Applies(t, a, tier, input)
  }

  /** The pairwise test is exact: two schedules overlap just when some attempt would be priced by both. */
  lemma OverlapMeansAmbiguity(s: Schedule, t: Schedule)
    requires Sane(s) && Sane(t)
    ensures Overlaps(s, t) <==> exists a: Attempt, tier: Option<nat>, input: U64 :: BothApply(s, t, a, tier, input)
    ensures Overlaps(s, t) == Overlaps(t, s)
  {
    if Overlaps(s, t) {
      var from := if s.effectiveFrom < t.effectiveFrom then t.effectiveFrom else s.effectiveFrom;
      var input: U64 := if s.minimumContext < t.minimumContext then t.minimumContext else s.minimumContext;
      var a := Attempt(s.profile, s.model, if s.dialect.Some? then s.dialect else t.dialect, from);
      assert BothApply(s, t, a, if s.tier.Some? then s.tier else t.tier, input);
    }
  }

  // ---------- the book ----------

  function ById(): Schedule -> int {
    (s: Schedule) => s.id
  }

  function SortById(schedules: seq<Schedule>): seq<Schedule> {
    Sorting.Sort(ById(), schedules)
  }

  predicate Ordered(schedules: seq<Schedule>) {
    Sorting.Ordered(ById(), schedules)
  }

  predicate DistinctIds(schedules: seq<Schedule>) {
    forall i, j :: 0 <= i < j < |schedules| ==> schedules[i].id != schedules[j].id
  }

  predicate Disjoint(schedules: seq<Schedule>) {
    forall i, j :: 0 <= i < j < |schedules| ==> !Overlaps(schedules[i], schedules[j])
  }

  function Book(schedules: seq<Schedule>): Result<seq<Schedule>, PricingError> {
    var sorted := SortById(schedules);
    if |schedules| > MAX_PRICE_SCHEDULES then Err(TooManySchedules)
    else if exists i :: 0 < i < |sorted| && sorted[i - 1].id == sorted[i].id then Err(DuplicateSchedule)
    else if !Disjoint(sorted) then Err(OverlappingSchedules)
    else Ok(sorted)
  }

  /** Sorts, looks for equal neighbours, then compares every schedule with those after it. */
  method NewBook(schedules: seq<Schedule>) returns (r: Result<seq<Schedule>, PricingError>)
    ensures r == Book(schedules)
  {
    hide Overlaps, SortById;
    if |schedules| > MAX_PRICE_SCHEDULES {
      return Err(TooManySchedules);
    }
    var sorted := SortById(schedules);
    var i := 1;
    while i < |sorted|
      invariant 1 <= i
      invariant forall k :: 0 < k < i && k < |sorted| ==> sorted[k - 1].id != sorted[k].id
    {
      if sorted[i - 1].id == sorted[i].id {
        return Err(DuplicateSchedule);
      }
      i := i + 1;
    }
    for index := 0 to |sorted|
      invariant forall a, b :: 0 <= a < index && a < b < |sorted| ==> !Overlaps(sorted[a], sorted[b])
    {
      for candidate := index + 1 to |sorted|
        invariant forall b :: index < b < candidate ==> !Overlaps(sorted[index], sorted[b])
      {
        if Overlaps(sorted[index], sorted[candidate]) {
          return Err(OverlappingSchedules);
        }
      }
    }
    return Ok(sorted);
  }

  lemma SortSorts(schedules: seq<Schedule>)
    ensures Ordered(SortById(schedules)) && multiset(SortById(schedules)) == multiset(schedules)
  {
    Sorting.SortSorts(ById(), schedules);
  }

  /** Equal neighbours are the only way ids repeat in an ordered list. */
  lemma NeighboursSuffice(sorted: seq<Schedule>)
    requires Ordered(sorted)
    ensures (exists i :: 0 < i < |sorted| && sorted[i - 1].id == sorted[i].id) <==> !DistinctIds(sorted)
  {
    if !DistinctIds(sorted) {
      var i, j :| 0 <= i < j < |sorted| && sorted[i].id == sorted[j].id;
      assert sorted[i].id <= sorted[i + 1].id && (i + 1 == j || sorted[i + 1].id <= sorted[j].id);
      assert sorted[i + 1 - 1].id == sorted[i + 1].id;
    }
  }

  lemma SameFirst(a: seq<Schedule>, b: seq<Schedule>)
    requires Ordered(a) && DistinctIds(a) && Ordered(b) && multiset(a) == multiset(b) && |a| > 0 && |b| > 0
    ensures a[0] == b[0]
  {
    assert a[0] in multiset(b) && b[0] in multiset(a);
    var i :| 0 <= i < |b| && b[i] == a[0];
    var j :| 0 <= j < |a| && a[j] == b[0];
    assert b[0].id <= b[i].id;
    assert a[0].id <= a[j].id;
    assert j == 0;
  }

  lemma TailsPermute(a: seq<Schedule>, b: seq<Schedule>)
    requires multiset(a) == multiset(b) && |a| > 0 && |b| > 0 && a[0] == b[0]
    ensures multiset(a[1..]) == multiset(b[1..])
  {
    assert a == [a[0]] + a[1..] && b == [b[0]] + b[1..];
    assert multiset(a[1..]) == multiset(a) - multiset{a[0]};
    assert multiset(b[1..]) == multiset(b) - multiset{b[0]};
  }

  lemma TailOrdered(a: seq<Schedule>)
    requires |a| > 0
    ensures Ordered(a) ==> Ordered(a[1..])
    ensures DistinctIds(a) ==> DistinctIds(a[1..])
  {
  }

  lemma {:induction false} OneOrder(a: seq<Schedule>, b: seq<Schedule>)
    requires Ordered(a) && DistinctIds(a) && Ordered(b) && multiset(a) == multiset(b)
    ensures a == b
    decreases |a|
  {
    hide Ordered, DistinctIds;
    assert |a| == |multiset(a)| && |b| == |multiset(b)|;
    if |a| > 0 {
      SameFirst(a, b);
      TailsPermute(a, b);
      TailOrdered(a);
      TailOrdered(b);
      OneOrder(a[1..], b[1..]);
      assert a == [a[0]] + a[1..] && b == [b[0]] + b[1..];
    }
  }

  /** The order in which schedules are given never matters: the same book or the same refusal comes out. */
  lemma OrderIrrelevant(a: seq<Schedule>, b: seq<Schedule>)
    requires multiset(a) == multiset(b)
    ensures Book(a) == Book(b)
  {
    hide Overlaps, SortById, Ordered, DistinctIds, Disjoint;
    assert |a| == |multiset(a)| && |b| == |multiset(b)|;
    SortSorts(a);
    SortSorts(b);
    NeighboursSuffice(SortById(a));
    NeighboursSuffice(SortById(b));
    if DistinctIds(SortById(a)) {
      OneOrder(SortById(a), SortById(b));
    } else if DistinctIds(SortById(b)) {
      OneOrder(SortById(b), SortById(a));
    }
  }

  /** No attempt whatever can be priced by two schedules of the list. */
  ghost predicate Unambiguous(schedules: seq<Schedule>) {
    forall i, j, a: Attempt, tier: Option<nat>, input: U64 ::
      0 <= i < j < |schedules| ==> !BothApply(schedules[i], schedules[j], a, tier, input)
  }

  lemma DisjointIsUnambiguous(schedules: seq<Schedule>)
    requires forall s <- schedules :: Sane(s)
    ensures Disjoint(schedules) <==> Unambiguous(schedules)
  {
    hide Overlaps, BothApply;
    forall i, j | 0 <= i < j < |schedules|
      ensures Overlaps(schedules[i], schedules[j])
              <==> exists a: Attempt, tier: Option<nat>, input: U64 :: BothApply(schedules[i], schedules[j], a, tier, input)
    {
      OverlapMeansAmbiguity(schedules[i], schedules[j]);
    }
  }

  /** A book is made exactly of at most 256 schedules with distinct identifiers among which no attempt is ambiguous;
      an ambiguity is what the overlap error reports. */
  lemma BookAccepted(schedules: seq<Schedule>)
    requires forall s <- schedules :: Sane(s)
    ensures var sorted := SortById(schedules);
            && multiset(sorted) == multiset(schedules)
            && (Book(schedules).Ok? <==> |schedules| <= MAX_PRICE_SCHEDULES && DistinctIds(sorted) && Unambiguous(sorted))
            && (Book(schedules) == Err(OverlappingSchedules) <==>
                  |schedules| <= MAX_PRICE_SCHEDULES && DistinctIds(sorted) && !Unambiguous(sorted))
            && (Book(schedules).Ok? ==> Book(schedules).value == sorted)
  {
    hide Overlaps, SortById, Ordered, DistinctIds, Unambiguous, Disjoint, Sane;
    SortSorts(schedules);
    var sorted := SortById(schedules);
    forall s <- sorted
      ensures Sane(s)
    {
      assert s in multiset(sorted);
    }
    NeighboursSuffice(sorted);
    DisjointIsUnambiguous(sorted);
  }

  /** Schedules as they are made: every definition through its constructor, the first fault reported. */
  function NewSchedules(definitions: seq<Schedule>): Result<seq<Schedule>, PricingError> {
    if |definitions| == 0 then Ok([])
    else
      var first :- NewSchedule(definitions[0]);
      var others :- NewSchedules(definitions[1..]);
      Ok([first] + others)
  }

  lemma {:induction false} NewSchedulesMeans(definitions: seq<Schedule>)
    ensures NewSchedules(definitions).Ok? <==> forall s <- definitions :: Sane(s)
    ensures NewSchedules(definitions).Ok? ==> NewSchedules(definitions).value == definitions
  {
    hide Sane;
    if |definitions| > 0 {
      NewSchedulesMeans(definitions[1..]);
      assert definitions == [definitions[0]] + definitions[1..];
      SaneConstructed(definitions[0]);
    }
  }

  lemma SaneConstructed(s: Schedule)
    ensures NewSchedule(s) == Ok(s) <==> Sane(s)
  {
  }

  /** From arbitrary definitions a book comes out exactly when no range is empty, no identifier repeats, at most 256 are
      given and no attempt is ambiguous among them. */
  lemma DefinitionsAccepted(definitions: seq<Schedule>)
    ensures var built, sorted := NewSchedules(definitions), SortById(definitions);
            built.Ok? && Book(built.value) == Ok(sorted)
            <==> (forall s <- definitions :: Sane(s)) && |definitions| <= MAX_PRICE_SCHEDULES && DistinctIds(sorted) && Unambiguous(sorted)
  {
    hide Sane, Book, SortById, DistinctIds, Unambiguous;
    NewSchedulesMeans(definitions);
    if NewSchedules(definitions).Ok? {
      BookAccepted(definitions);
    }
  }

  // ---------- cost ----------

  datatype Accuracy = Exact | Estimated

  datatype Usage = Usage(input: Option<U64>, cachedInput: Option<U64>, cacheWrite: Option<U64>, output: Option<U64>,
                         reasoningOutput: Option<U64>, total: Option<U64>, tier: Option<nat>, accuracy: Accuracy)

  datatype Unknown =
    | MissingUsageRecord | NoMatchingSchedule | MissingInputTokens | MissingCachedInputTokens | MissingCacheWriteInputTokens
    | MissingOutputTokens | MissingReasoningOutputTokens | MissingServiceTier | InconsistentInputAccounting
    | InconsistentOutputAccounting | ArithmeticOverflow

  datatype Breakdown = Breakdown(uncachedInput: U64, cachedInput: U64, cacheWrite: U64, visibleOutput: U64, reasoningOutput: U64)

  datatype Cost = Known(schedule: Schedule, amount: U64, breakdown: Breakdown, accuracy: Accuracy) | UnknownCost(reason: Unknown)

  function Checked(amount: nat): Option<U64> {
    if amount > U64_MAX then None else Some(amount)
  }

  function CheckedSum(total: Option<U64>, next: nat): Option<U64> {
    if total.None? || total.value + next > U64_MAX then None else Some(total.value + next)
  }

  function CheckedTotal(b: Breakdown): Option<U64> {
    CheckedSum(CheckedSum(CheckedSum(CheckedSum(CheckedSum(Some(0), b.uncachedInput), b.cachedInput), b.cacheWrite), b.visibleOutput), b.reasoningOutput)
  }

  function Estimate(s: Schedule, usage: Usage): Cost {
    if usage.input.None? then UnknownCost(MissingInputTokens)
    else if usage.cachedInput.None? then UnknownCost(MissingCachedInputTokens)
    else if usage.cacheWrite.None? && s.rates.cacheWrite != 0 then UnknownCost(MissingCacheWriteInputTokens)
    else if usage.output.None? then UnknownCost(MissingOutputTokens)
    else if usage.reasoningOutput.None? && s.rates.reasoningOutput != s.rates.output then UnknownCost(MissingReasoningOutputTokens)
    else
      var cached := usage.cachedInput.value;
      var written := if usage.cacheWrite.Some? then usage.cacheWrite.value else 0;
      var reasoning := if usage.reasoningOutput.Some? then usage.reasoningOutput.value else 0;
      if usage.input.value < cached + written then UnknownCost(InconsistentInputAccounting)
      else if usage.output.value < reasoning then UnknownCost(InconsistentOutputAccounting)
      else Priced(s, usage.input.value - cached - written, cached, written, usage.output.value - reasoning, reasoning, usage.accuracy)
  }

  function Priced(s: Schedule, uncached: nat, cached: nat, written: nat, visible: nat, reasoning: nat, accuracy: Accuracy): Cost {
    Added(s, uncached * s.rates.input, cached * s.rates.cachedInput, written * s.rates.cacheWrite, visible * s.rates.output,
          reasoning * s.rates.reasoningOutput, accuracy)
  }

  /** The five products, each checked, and their checked sum. */
  function Added(s: Schedule, uncached: nat, cached: nat, written: nat, visible: nat, reasoning: nat, accuracy: Accuracy): Cost {
    var a, b, c, d, e := Checked(uncached), Checked(cached), Checked(written), Checked(visible), Checked(reasoning);
    if a.None? || b.None? || c.None? || d.None? || e.None? then UnknownCost(ArithmeticOverflow)
    else
      var breakdown := Breakdown(a.value, b.value, c.value, d.value, e.value);
      var total := CheckedTotal(breakdown);
      if total.None? then UnknownCost(ArithmeticOverflow) else Known(s, total.value, breakdown, accuracy)
  }

  /** The price in unbounded arithmetic. */
  function ExactAmount(r: Rates, uncached: nat, cached: nat, written: nat, visible: nat, reasoning: nat): nat {
    uncached * r.input + cached * r.cachedInput + written * r.cacheWrite + visible * r.output + reasoning * r.reasoningOutput
  }

  lemma AddedExactly(s: Schedule, a: nat, b: nat, c: nat, d: nat, e: nat, accuracy: Accuracy)
    ensures var cost := Added(s, a, b, c, d, e, accuracy);
            if a + b + c + d + e <= U64_MAX then cost == Known(s, a + b + c + d + e, Breakdown(a, b, c, d, e), accuracy)
            else cost == UnknownCost(ArithmeticOverflow)
  {
  }

  /** Overflow is reported exactly when the true price does not fit, and any known amount is the true price. */
  lemma PricedExactly(s: Schedule, uncached: nat, cached: nat, written: nat, visible: nat, reasoning: nat, accuracy: Accuracy)
    ensures var exact := ExactAmount(s.rates, uncached, cached, written, visible, reasoning);
            var cost := Priced(s, uncached, cached, written, visible, reasoning, accuracy);
            if exact <= U64_MAX
            then cost.Known? && cost.amount == exact && cost.schedule == s && cost.accuracy == accuracy
                 && var b := cost.breakdown;
                 b.uncachedInput + b.cachedInput + b.cacheWrite + b.visibleOutput + b.reasoningOutput == exact
            else cost == UnknownCost(ArithmeticOverflow)
  {
    hide Added;
    AddedExactly(s, uncached * s.rates.input, cached * s.rates.cachedInput, written * s.rates.cacheWrite,
                 visible * s.rates.output, reasoning * s.rates.reasoningOutput, accuracy);
  }

  lemma Distribute(a: nat, b: nat, r: nat)
    ensures a * r + b * r == (a + b) * r
  {
  }

  /** Charged alike, reasoning and visible output can be moved between each other. */
  lemma OutputMoves(r: Rates, uncached: nat, cached: nat, written: nat, visible: nat, reasoning: nat)
    requires r.reasoningOutput == r.output
    ensures ExactAmount(r, uncached, cached, written, visible, reasoning) == ExactAmount(r, uncached, cached, written, visible + reasoning, 0)
  {
    Distribute(visible, reasoning, r.output);
  }

  /** Tokens moved to free cache writes only lower the price. */
  lemma WritesMove(r: Rates, uncached: nat, cached: nat, written: nat, visible: nat, reasoning: nat)
    requires r.cacheWrite == 0
    ensures ExactAmount(r, uncached, cached, written, visible, reasoning) <= ExactAmount(r, uncached + written, cached, 0, visible, reasoning)
  {
    Distribute(uncached, written, r.input);
  }

  /** When output and reasoning are charged alike, leaving the reasoning count out prices exactly like any
      split of the output: the same amount, or the same overflow. */
  lemma ReasoningSplitIrrelevant(s: Schedule, usage: Usage, reasoning: U64)
    requires s.rates.reasoningOutput == s.rates.output && usage.reasoningOutput.None?
    requires usage.output.Some? ==> reasoning <= usage.output.value
    ensures var without, with := Estimate(s, usage), Estimate(s, usage.(reasoningOutput := Some(reasoning)));
            if without.Known? then with.Known? && with.amount == without.amount else with == without
  {
    hide Priced, Added, ExactAmount;
    if usage.input.Some? && usage.cachedInput.Some? && usage.output.Some? && (usage.cacheWrite.Some? || s.rates.cacheWrite == 0) {
      var cached := usage.cachedInput.value;
      var written := if usage.cacheWrite.Some? then usage.cacheWrite.value else 0;
      if cached + written <= usage.input.value {
        var uncached, output := usage.input.value - cached - written, usage.output.value;
        PricedExactly(s, uncached, cached, written, output, 0, usage.accuracy);
        PricedExactly(s, uncached, cached, written, output - reasoning, reasoning, usage.accuracy);
        OutputMoves(s.rates, uncached, cached, written, output - reasoning, reasoning);
      }
    }
  }

  /** When cache writes are free, leaving their count out never prices an attempt lower than any count would. */
  lemma MissingCacheWriteIsUpperBound(s: Schedule, usage: Usage, written: U64)
    requires s.rates.cacheWrite == 0 && usage.cacheWrite.None?
    ensures var without, with := Estimate(s, usage), Estimate(s, usage.(cacheWrite := Some(written)));
            without.Known? ==> with == UnknownCost(InconsistentInputAccounting) || (with.Known? && with.amount <= without.amount)
  {
    hide Priced, Added, ExactAmount;
    var without := Estimate(s, usage);
    if without.Known? {
      var cached, input := usage.cachedInput.value, usage.input.value;
      var reasoning := if usage.reasoningOutput.Some? then usage.reasoningOutput.value else 0;
      if cached + written <= input {
        PricedExactly(s, input - cached, cached, 0, usage.output.value - reasoning, reasoning, usage.accuracy);
        PricedExactly(s, input - cached - written, cached, written, usage.output.value - reasoning, reasoning, usage.accuracy);
        WritesMove(s.rates, input - cached - written, cached, written, usage.output.value - reasoning, reasoning);
      }
    }
  }

  // ---------- choosing a schedule ----------

  function FirstInContext(schedules: seq<Schedule>, a: Attempt, tier: Option<nat>, input: nat): Option<Schedule> {
    if |schedules| == 0 then None
    else if Applies(schedules[0], a, tier, input) then Some(schedules[0])
    else FirstInContext(schedules[1..], a, tier, input)
  }

  function EstimateAttempt(book: seq<Schedule>, a: Attempt, usage: Usage): Cost {
    if !exists s <- book :: MatchesBase(s, a) then UnknownCost(NoMatchingSchedule)
    else if !exists s <- book :: MatchesBase(s, a) && MatchesTier(s, usage.tier) then
      UnknownCost(if usage.tier.None? then MissingServiceTier else NoMatchingSchedule)
    else if usage.input.None? then UnknownCost(MissingInputTokens)
    else
      match FirstInContext(book, a, usage.tier, usage.input.value)
      case None => UnknownCost(NoMatchingSchedule)
      case Some(s) => Estimate(s, usage)
  }

  lemma {:induction false} FirstApplies(schedules: seq<Schedule>, a: Attempt, tier: Option<nat>, input: nat)
    ensures var found := FirstInContext(schedules, a, tier, input);
            && (found.Some? ==> found.value in schedules && Applies(found.value, a, tier, input))
            && (found.None? ==> forall s <- schedules :: !Applies(s, a, tier, input))
    decreases |schedules|
  {
    hide Applies;
    if |schedules| > 0 {
      FirstApplies(schedules[1..], a, tier, input);
      assert schedules == [schedules[0]] + schedules[1..];
    }
  }

  /** With a book, the schedule that applies is the only one that does, and it alone decides the cost. */
  lemma ScheduleUnique(schedules: seq<Schedule>, a: Attempt, usage: Usage, s: Schedule)
    requires forall x <- schedules :: Sane(x)
    requires Book(schedules).Ok? && usage.input.Some? && s in schedules && Applies(s, a, usage.tier, usage.input.value)
    ensures forall t <- schedules :: Applies(t, a, usage.tier, usage.input.value) ==> t == s
    ensures EstimateAttempt(Book(schedules).value, a, usage) == Estimate(s, usage)
  {
    BookAccepted(schedules);
    hide Overlaps, SortById, DistinctIds, Disjoint, Book, Estimate;
    var book := Book(schedules).value;
    var input := usage.input.value;
    forall t <- schedules | Applies(t, a, usage.tier, input)
      ensures t == s
    {
      assert t in multiset(book) && s in multiset(book);
      var i :| 0 <= i < |book| && book[i] == t;
      var j :| 0 <= j < |book| && book[j] == s;
      assert BothApply(t, s, a, usage.tier, input) && BothApply(s, t, a, usage.tier, input);
      assert i == j;
    }
    FirstApplies(book, a, usage.tier, input);
    assert s in multiset(book) && s in book;
    var found := FirstInContext(book, a, usage.tier, input);
    assert found.value in multiset(book);
  }

  /** When none applies the reason names what is missing: the tier, the input count, or a schedule at all. */
  lemma NoneApplies(book: seq<Schedule>, a: Attempt, usage: Usage)
    requires usage.input.None? || forall s <- book :: !Applies(s, a, usage.tier, usage.input.value)
    ensures EstimateAttempt(book, a, usage)
            == UnknownCost(if usage.tier.None? && (exists s <- book :: MatchesBase(s, a)) && (forall s <- book :: MatchesBase(s, a) ==> s.tier.Some?)
                           then MissingServiceTier
                           else if usage.input.None? && exists s <- book :: MatchesBase(s, a) && MatchesTier(s, usage.tier)
                           then MissingInputTokens else NoMatchingSchedule)
  {
    hide MatchesBase;
    if usage.input.Some? {
      FirstApplies(book, a, usage.tier, usage.input.value);
    }
  }
}
