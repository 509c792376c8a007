/** Admitting a Turn and preparing its output: plans of many events, which always commit as planned. */
module KernelAdmission {
  import opened Prelude
  import opened Strings
  import opened KernelModel
  import opened KernelInvariant
  import opened KernelPlan
  import opened KernelRuns
  import opened KernelAccepted
  import Context
  import UsageModel

  // ---------- preparing output ----------

  /** A pending Turn streaming an assistant item, with this much text so far. */
  function StreamingState(s: RuntimeData, text: string): RuntimeData
    requires s.pending.Some? && s.nextItem < U64_MAX
  {
    s.(pending := Some(s.pending.value.(phase := Streaming, assistantItem := Some(s.nextItem), streamed := text)), nextItem := s.nextItem + 1)
  }

  lemma DeltaStep(s: RuntimeData, text: string, delta: string)
    requires s.pending.Some? && s.nextItem < U64_MAX && s.pendingCost.None? && delta != ""
    requires Utf8Length(text) + Utf8Length(delta) <= MAX_INPUT_BYTES
    ensures ApplyAll(StreamingState(s, text), [TextDelta(s.pending.value.turn, s.nextItem, delta)]) == Ok(StreamingState(s, text + delta))
  {
    ApplyOne(StreamingState(s, text), TextDelta(s.pending.value.turn, s.nextItem, delta));
    hide Utf8Length, ApplyAll;
  }

  lemma {:induction false} DeltasApply(s: RuntimeData, deltas: seq<string>)
    requires s.pending.Some? && s.nextItem < U64_MAX && s.pendingCost.None?
    requires forall i :: 0 <= i < |deltas| ==> deltas[i] != ""
    requires Utf8Length(Joined(deltas)) <= MAX_INPUT_BYTES
    ensures ApplyAll(StreamingState(s, ""), DeltaEvents(s.pending.value.turn, s.nextItem, deltas)) == Ok(StreamingState(s, Joined(deltas)))
    decreases |deltas|
  {
    hide StreamingState, Utf8Length, Apply;
    if |deltas| > 0 {
      var init, last := deltas[..|deltas| - 1], deltas[|deltas| - 1];
      var turn, item := s.pending.value.turn, s.nextItem;
      Utf8Adds(Joined(init), last);
      DeltasApply(s, init);
      DeltaStep(s, Joined(init), last);
      assert DeltaEvents(turn, item, deltas) == DeltaEvents(turn, item, init) + [TextDelta(turn, item, last)];
      hide ApplyAll, DeltaEvents;
      ApplyAllJoin(StreamingState(s, ""), DeltaEvents(turn, item, init), [TextDelta(turn, item, last)]);
    }
  }

  /** The state after the output is prepared, from the one with the attempt finished. */
  function AfterPrepare(s: RuntimeData, text: string, digest: nat, usageRecords: seq<UsageRecord>): RuntimeData
    requires s.pending.Some? && s.pending.value.turn in s.turns && s.nextItem < U64_MAX && s.nextDelivery < U64_MAX && ItemText(text)
  {
    var p := s.pending.value;
    s.(items := s.items + [NewItem(s.nextItem, p.turn, Context.Assistant, text, digest)],
       pending := Some(p.(phase := Prepared, assistantItem := Some(s.nextItem), streamed := text,
                          prepared := Some(PreparedState(s.nextItem, s.nextDelivery, usageRecords)))),
       turns := s.turns[p.turn := s.turns[p.turn].(assistantItem := Some(s.nextItem), delivery := Some(s.nextDelivery))],
       nextItem := s.nextItem + 1, nextDelivery := s.nextDelivery + 1)
  }

  /** A state between a finished attempt and its output. */
  ghost predicate ReadyToPrepare(s: RuntimeData) {
    && PartPending(s) && PartItems(s) && Numbered(s) && s.pendingCost.None?
    && s.pending.Some? && s.pending.value.phase.Admitted? && s.pending.value.open.None?
    && s.pending.value.config in s.configs && s.nextItem < U64_MAX && s.nextDelivery < U64_MAX
  }

  lemma NextItemIsNew(s: RuntimeData)
    requires ReadyToPrepare(s)
    ensures !ItemExists(s, s.nextItem) && s.pending.Some? && s.pending.value.assistantItem.None? && s.pending.value.streamed == ""
  {
    hide Numbered, ActiveCandidate;
  }

  lemma StartStep(s: RuntimeData)
    requires s.pendingCost.None? && s.pending.Some? && s.pending.value.phase.Admitted? && s.pending.value.assistantItem.None?
    requires s.pending.value.streamed == "" && !ItemExists(s, s.nextItem) && s.nextItem < U64_MAX
    ensures Apply(s, AssistantStarted(s.pending.value.turn, s.nextItem)) == Ok(StreamingState(s, ""))
  {
    hide ItemExists;
  }

  lemma StartOutput(s: RuntimeData)
    requires ReadyToPrepare(s)
    ensures s.pending.Some? && s.nextItem < U64_MAX
    ensures ApplyAll(s, [AssistantStarted(s.pending.value.turn, s.nextItem)]) == Ok(StreamingState(s, ""))
  {
    hide Numbered, PartPending, PartItems, ItemExists, ApplyAll, Apply, StreamingState;
    NextItemIsNew(s);
    StartStep(s);
    ApplyOne(s, AssistantStarted(s.pending.value.turn, s.nextItem));
  }

  lemma FinishOutput(s: RuntimeData, text: string, digest: nat, usageRecords: seq<UsageRecord>)
    requires ReadyToPrepare(s) && ItemText(text) && Utf8Length(text) <= s.configs[s.pending.value.config].maxOutputBytes
    requires 0 < |usageRecords| <= MAX_USAGE_RECORDS_PER_TURN
    ensures s.pending.value.turn in s.turns
    ensures ApplyAll(StreamingState(s, text), [OutputPrepared(s.pending.value.turn, s.nextItem, s.nextDelivery, text, digest, usageRecords)])
            == Ok(AfterPrepare(s, text, digest, usageRecords))
  {
    ApplyOne(StreamingState(s, text), OutputPrepared(s.pending.value.turn, s.nextItem, s.nextDelivery, text, digest, usageRecords));
    hide ActiveCandidate, Utf8Length, Blank, ApplyAll, NewItem;
  }

  lemma StreamApplies(s: RuntimeData, deltas: seq<string>)
    requires ReadyToPrepare(s) && Utf8Length(Joined(deltas)) <= MAX_INPUT_BYTES && forall i :: 0 <= i < |deltas| ==> deltas[i] != ""
    ensures s.pending.Some? && s.nextItem < U64_MAX
    ensures ApplyAll(s, [AssistantStarted(s.pending.value.turn, s.nextItem)] + DeltaEvents(s.pending.value.turn, s.nextItem, deltas))
            == Ok(StreamingState(s, Joined(deltas)))
  {
    hide Apply, ApplyAll, ReadyToPrepare, Joined, DeltaEvents, Utf8Length, StreamingState;
    ReadyFacts(s);
    StartOutput(s);
    DeltasApply(s, deltas);
    ApplyAllJoin(s, [AssistantStarted(s.pending.value.turn, s.nextItem)], DeltaEvents(s.pending.value.turn, s.nextItem, deltas));
  }

  lemma OutputApplies(s: RuntimeData, deltas: seq<string>, digest: nat, usageRecords: seq<UsageRecord>)
    requires ReadyToPrepare(s) && ItemText(Joined(deltas)) && 0 < |usageRecords| <= MAX_USAGE_RECORDS_PER_TURN
    requires Utf8Length(Joined(deltas)) <= s.configs[s.pending.value.config].maxOutputBytes <= MAX_INPUT_BYTES
    requires forall i :: 0 <= i < |deltas| ==> deltas[i] != ""
    ensures s.pending.value.turn in s.turns
    ensures var turn := s.pending.value.turn;
            ApplyAll(s, [AssistantStarted(turn, s.nextItem)] + DeltaEvents(turn, s.nextItem, deltas)
                        + [OutputPrepared(turn, s.nextItem, s.nextDelivery, Joined(deltas), digest, usageRecords)])
            == Ok(AfterPrepare(s, Joined(deltas), digest, usageRecords))
  {
    hide Apply, ApplyAll, AfterPrepare, ReadyToPrepare, ItemText, Joined, DeltaEvents, Utf8Length, StreamingState;
    ReadyFacts(s);
    var turn, text := s.pending.value.turn, Joined(deltas);
    StreamApplies(s, deltas);
    var stream := [AssistantStarted(turn, s.nextItem)] + DeltaEvents(turn, s.nextItem, deltas);
    var last := OutputPrepared(turn, s.nextItem, s.nextDelivery, text, digest, usageRecords);
    ApplyAllJoin(s, stream, [last]);
    FinishOutput(s, text, digest, usageRecords);
  }

  lemma ReadyFacts(s: RuntimeData)
    requires ReadyToPrepare(s)
    ensures s.pending.Some? && s.pending.value.turn in s.turns && s.pendingCost.None? && s.nextItem < U64_MAX && s.nextDelivery < U64_MAX
    ensures s.pending.value.config in s.configs
  {
  }

  lemma FinishedReady(s: RuntimeData, turn: Id, attempt: U32, now: int, usage: UsageRecord, inside: set<int>)
    requires Resting(s) && SaneConfigs(s) && FinishEvents(s, turn, attempt, now, UsageModel.Succeeded, Some(usage), inside).Ok?
    requires s.nextItem < U64_MAX && s.nextDelivery < U64_MAX
    ensures s.pending.Some? && s.pending.value.open.Some? && s.thread.Some? && s.pending.value.turn in s.turns
    ensures s.pending.value.config in s.configs && s.pending.value.provider in s.providers
    ensures var middle := AfterFinish(s, now, UsageModel.Succeeded, Some(usage), inside);
            && ApplyAll(s, FinishEvents(s, turn, attempt, now, UsageModel.Succeeded, Some(usage), inside).value) == Ok(middle)
            && ReadyToPrepare(middle) && middle.configs == s.configs && middle.pending.value.turn == turn
            && middle.nextItem == s.nextItem && middle.nextDelivery == s.nextDelivery
            && middle.pending.value.config == s.pending.value.config
  {
    hide FinishEvents, FinishedAttempt, ExpectedCost, SaneConfigs, Kept, Resting;
    RestingKept(s);
    RestingNumbered(s);
    FinishApplies(s, turn, attempt, now, UsageModel.Succeeded, Some(usage), inside);
    FinishPhase(s, turn, attempt, now, UsageModel.Succeeded, Some(usage), inside);
    AfterFinishReady(s, now, usage, inside);
  }

  lemma RestingNumbered(s: RuntimeData)
    requires Resting(s)
    ensures Numbered(s)
  {
    hide Kept, Orderly, Quiescent, Numbered, AssistantNew;
  }

  lemma AfterFinishReady(s: RuntimeData, now: int, usage: UsageRecord, inside: set<int>)
    requires Kept(s) && Numbered(s) && s.pendingCost.None?
    requires s.pending.Some? && s.pending.value.open.Some? && s.thread.Some? && s.pending.value.turn in s.turns
    requires s.pending.value.config in s.configs && s.pending.value.provider in s.providers && s.pending.value.phase.Admitted?
    requires s.nextItem < U64_MAX && s.nextDelivery < U64_MAX
    ensures ReadyToPrepare(AfterFinish(s, now, UsageModel.Succeeded, Some(usage), inside))
  {
    hide FinishedAttempt, ExpectedCost, PartTurns, PartAttempts, PartCosts;
  }

  lemma PreparePlan(s: RuntimeData, turn: Id, attempt: U32, now: int, deltas: seq<string>, digest: nat,
                    usageRecords: seq<UsageRecord>, current: UsageRecord, inside: set<int>)
    requires 0 < |usageRecords| <= MAX_USAGE_RECORDS_PER_TURN
    requires FinishEvents(s, turn, attempt, now, UsageModel.Succeeded, Some(current), inside).Ok?
    requires s.pending.Some? && s.pending.value.config in s.configs
    requires !Blank(Joined(deltas)) && Utf8Length(Joined(deltas)) <= s.configs[s.pending.value.config].maxOutputBytes
    ensures PlanPrepare(s, turn, attempt, now, deltas, digest, usageRecords, current, inside)
            == Ok(FinishEvents(s, turn, attempt, now, UsageModel.Succeeded, Some(current), inside).value
                  + ([AssistantStarted(turn, s.nextItem)] + DeltaEvents(turn, s.nextItem, deltas)
                     + [OutputPrepared(turn, s.nextItem, s.nextDelivery, Joined(deltas), digest, usageRecords)]))
  {
    hide FinishEvents, Blank, Utf8Length, Joined, DeltaEvents, PlanFinishAndBlock;
    FinishPhase(s, turn, attempt, now, UsageModel.Succeeded, Some(current), inside);
    var finish := FinishEvents(s, turn, attempt, now, UsageModel.Succeeded, Some(current), inside).value;
    var a, b, c := [AssistantStarted(turn, s.nextItem)], DeltaEvents(turn, s.nextItem, deltas),
                   [OutputPrepared(turn, s.nextItem, s.nextDelivery, Joined(deltas), digest, usageRecords)];
    assert finish + a + b + c == finish + (a + b + c);
  }

  /** A Provider's complete output that fits its frozen limit always commits, as one transaction: the attempt finished and
      priced, the assistant item recorded with the next identifier, the delivery prepared with the next one. */
  lemma PrepareAccepted(s: RuntimeData, turn: Id, attempt: U32, now: int, deltas: seq<string>, digest: nat,
                        usageRecords: seq<UsageRecord>, current: UsageRecord, inside: set<int>)
    requires Resting(s) && SaneConfigs(s) && FinishEvents(s, turn, attempt, now, UsageModel.Succeeded, Some(current), inside).Ok?
    requires 0 < |usageRecords| <= MAX_USAGE_RECORDS_PER_TURN && s.nextItem < U64_MAX && s.nextDelivery < U64_MAX
    requires s.pending.Some? && s.pending.value.config in s.configs
    requires !Blank(Joined(deltas)) && Utf8Length(Joined(deltas)) <= s.configs[s.pending.value.config].maxOutputBytes
    requires forall i :: 0 <= i < |deltas| ==> deltas[i] != ""
    ensures var plan := PlanPrepare(s, turn, attempt, now, deltas, digest, usageRecords, current, inside);
            && plan.Ok? && Commit(s, plan.value).Ok? && ItemText(Joined(deltas))
            && var t := Commit(s, plan.value).value;
            && t.items == s.items + [NewItem(s.nextItem, turn, Context.Assistant, Joined(deltas), digest)]
            && t.pending.Some? && t.pending.value.turn == turn && t.pending.value.phase.Prepared?
            && t.pending.value.prepared == Some(PreparedState(s.nextItem, s.nextDelivery, usageRecords))
            && |t.usage| == |s.usage| + 1
  {
    hide PlanPrepare, FinishEvents, Resting, SaneConfigs, Joined, DeltaEvents, Blank, Utf8Length, FinishedAttempt, ExpectedCost, Quiescent, Kept,
         ReadyToPrepare, Commit, ApplyAll, ItemText, AfterFinish, AfterPrepare;
    PreparePlan(s, turn, attempt, now, deltas, digest, usageRecords, current, inside);
    TextFits(s, Joined(deltas));
    RestingKept(s);
    FinishedReady(s, turn, attempt, now, current, inside);
    var finish := FinishEvents(s, turn, attempt, now, UsageModel.Succeeded, Some(current), inside).value;
    var middle := AfterFinish(s, now, UsageModel.Succeeded, Some(current), inside);
    ReadyFacts(middle);
    OutputApplies(middle, deltas, digest, usageRecords);
    var output := [AssistantStarted(turn, s.nextItem)] + DeltaEvents(turn, s.nextItem, deltas)
                  + [OutputPrepared(turn, s.nextItem, s.nextDelivery, Joined(deltas), digest, usageRecords)];
    ApplyAllJoin(s, finish, output);
    AppliedKept(s, finish + output);
    var t := AfterPrepare(middle, Joined(deltas), digest, usageRecords);
    FinishFields(s, now, current, inside);
    PrepareFields(middle, Joined(deltas), digest, usageRecords);
    StaysQuiescent(s, t);
    CommitBecause(s, finish + output, t);
  }

  lemma FinishFields(s: RuntimeData, now: int, usage: UsageRecord, inside: set<int>)
    requires s.pending.Some? && s.pending.value.open.Some? && s.thread.Some? && s.pending.value.turn in s.turns
    requires s.pending.value.config in s.configs && s.pending.value.provider in s.providers
    ensures var m := AfterFinish(s, now, UsageModel.Succeeded, Some(usage), inside);
            && m.configs == s.configs && m.providers == s.providers && m.turns == s.turns && m.items == s.items && m.thread == s.thread
            && m.nextTurn == s.nextTurn && m.nextItem == s.nextItem && m.nextDelivery == s.nextDelivery && m.pendingCost == s.pendingCost
            && |m.usage| == |s.usage| + 1 && m.pending.Some? && m.pending.value.turn == s.pending.value.turn
  {
    hide FinishedAttempt, ExpectedCost;
  }

  lemma PrepareFields(s: RuntimeData, text: string, digest: nat, usageRecords: seq<UsageRecord>)
    requires s.pending.Some? && s.pending.value.turn in s.turns && s.nextItem < U64_MAX && s.nextDelivery < U64_MAX && ItemText(text)
    ensures var t := AfterPrepare(s, text, digest, usageRecords);
            && t.configs == s.configs && t.providers == s.providers && t.thread == s.thread && t.nextTurn == s.nextTurn
            && t.turns.Keys == s.turns.Keys && (forall k <- s.turns :: t.turns[k].fallbacks == s.turns[k].fallbacks)
            && t.pendingCost == s.pendingCost && t.usage == s.usage
            && t.items == s.items + [NewItem(s.nextItem, s.pending.value.turn, Context.Assistant, text, digest)]
            && t.pending.Some? && t.pending.value.turn == s.pending.value.turn && t.pending.value.phase.Prepared?
            && t.pending.value.prepared == Some(PreparedState(s.nextItem, s.nextDelivery, usageRecords))
  {
    hide Blank, Utf8Length;
  }

  lemma TextFits(s: RuntimeData, text: string)
    requires SaneConfigs(s) && s.pending.Some? && s.pending.value.config in s.configs
    requires !Blank(text) && Utf8Length(text) <= s.configs[s.pending.value.config].maxOutputBytes
    ensures ItemText(text) && s.configs[s.pending.value.config].maxOutputBytes <= MAX_INPUT_BYTES
  {
    hide Blank, Utf8Length;
    assert Sane(s.configs[s.pending.value.config]);
  }

  // ---------- admitting a Turn ----------

  /** The identifiers an admission needs are left. */
  predicate IdsLeft(s: RuntimeData, a: Admission) {
    (s.thread.None? ==> s.nextThread < U64_MAX) && s.nextTurn < U64_MAX && s.nextItem < U64_MAX && ConfigsLeft(s, a)
  }

  predicate ConfigsLeft(s: RuntimeData, a: Admission) {
    s.nextConfig + |a.fallbacks| < U64_MAX && s.nextProvider + |a.fallbacks| < U64_MAX
  }

  /** A plan as configuration builds it: valid presets, fewer fallbacks than candidates allowed. */
  predicate PlanSane(a: Admission) {
    |a.fallbacks| < MAX_FALLBACK_CANDIDATES && forall i :: 0 <= i < |a.fallbacks| ==> a.fallbacks[i].presetValid
  }

  function CandidateConfigOf(a: Admission, i: nat): Config
    requires i <= |a.fallbacks|
  {
    if i == 0 then a.config else a.fallbacks[i - 1].config
  }

  function CandidateProviderOf(a: Admission, i: nat): Provider
    requires i <= |a.fallbacks|
  {
    if i == 0 then a.provider else a.fallbacks[i - 1].provider
  }

  /** A map extended by exactly `i` fresh keys from `first` on. */
  ghost predicate Extended<T(!new)>(before: map<Id, T>, after: map<Id, T>, first: Id, i: nat) {
    && (forall k :: k in after <==> k in before || first <= k < first + i)
    && (forall k <- before :: after[k] == before[k]) && |after| == |before| + i
  }

  lemma ExtendedNext<T(!new)>(before: map<Id, T>, after: map<Id, T>, first: Id, i: nat, value: T)
    requires Extended(before, after, first, i) && first + i <= U64_MAX && forall k <- before :: k < first
    ensures first + i !in after && Extended(before, after[first + i := value], first, i + 1)
  {
    var next := after[first + i := value];
    assert next.Keys == after.Keys + {first + i};
    forall k
      ensures k in next <==> k in before || first <= k < first + (i + 1)
    {
      assert k in next <==> k in after || k == first + i;
    }
  }

  ghost predicate HoldsCandidate(t: RuntimeData, a: Admission, config: Id, provider: Id, j: nat)
    requires j <= |a.fallbacks|
  {
    && config + j in t.configs && t.configs[config + j] == CandidateConfigOf(a, j)
    && provider + j in t.providers && t.providers[provider + j] == CandidateProviderOf(a, j)
  }

  /** The snapshots of the candidates before position `i` are each candidate's own, numbered from these identifiers on. */
  ghost predicate HoldsCandidates(t: RuntimeData, a: Admission, config: Id, provider: Id, i: nat)
    requires i <= |a.fallbacks| + 1
  {
    forall j: nat :: j < i ==> HoldsCandidate(t, a, config, provider, j)
  }

  /** `t` is `s` with the snapshots of the candidates before position `i` frozen. */
  ghost predicate Frozen(s: RuntimeData, t: RuntimeData, a: Admission, i: nat)
    requires i <= |a.fallbacks| + 1
  {
    && t == s.(configs := t.configs, providers := t.providers, nextConfig := t.nextConfig, nextProvider := t.nextProvider)
    && Extended(s.configs, t.configs, s.nextConfig, i) && Extended(s.providers, t.providers, s.nextProvider, i)
    && HoldsCandidates(t, a, s.nextConfig, s.nextProvider, i)
    && t.nextConfig == s.nextConfig + i && t.nextProvider == s.nextProvider + i
  }

  function WithSnapshots(t: RuntimeData, epoch: Config, profile: Provider): RuntimeData
    requires t.nextConfig < U64_MAX && t.nextProvider < U64_MAX
  {
    t.(configs := t.configs[t.nextConfig := epoch], nextConfig := t.nextConfig + 1,
       providers := t.providers[t.nextProvider := profile], nextProvider := t.nextProvider + 1)
  }

  lemma ConfigStep(t: RuntimeData, epoch: Config)
    requires t.pendingCost.None? && t.nextConfig !in t.configs && t.nextConfig < U64_MAX
    ensures Apply(t, ConfigFrozen(t.nextConfig, epoch)) == Ok(t.(configs := t.configs[t.nextConfig := epoch], nextConfig := t.nextConfig + 1))
  {
  }

  lemma ProviderStep(t: RuntimeData, profile: Provider)
    requires t.pendingCost.None? && t.nextProvider !in t.providers && t.nextProvider < U64_MAX
    ensures Apply(t, ProviderFrozen(t.nextProvider, profile))
            == Ok(t.(providers := t.providers[t.nextProvider := profile], nextProvider := t.nextProvider + 1))
  {
  }

  lemma PairStep(t: RuntimeData, epoch: Config, profile: Provider)
    requires t.pendingCost.None? && t.nextConfig !in t.configs && t.nextProvider !in t.providers
    requires t.nextConfig < U64_MAX && t.nextProvider < U64_MAX
    ensures ApplyAll(t, [ConfigFrozen(t.nextConfig, epoch), ProviderFrozen(t.nextProvider, profile)]) == Ok(WithSnapshots(t, epoch, profile))
  {
    hide Apply, ApplyAll;
    ConfigStep(t, epoch);
    ProviderStep(t.(configs := t.configs[t.nextConfig := epoch], nextConfig := t.nextConfig + 1), profile);
    ApplyTwo(t, ConfigFrozen(t.nextConfig, epoch), ProviderFrozen(t.nextProvider, profile));
  }

  lemma FrozenNext(s: RuntimeData, t: RuntimeData, a: Admission, i: nat, epoch: Config, profile: Provider)
    requires Numbered(s) && ConfigsLeft(s, a) && i <= |a.fallbacks| && Frozen(s, t, a, i)
    requires epoch == CandidateConfigOf(a, i) && profile == CandidateProviderOf(a, i)
    ensures t.nextConfig !in t.configs && t.nextProvider !in t.providers && t.nextConfig < U64_MAX && t.nextProvider < U64_MAX
    ensures Frozen(s, WithSnapshots(t, epoch, profile), a, i + 1)
  {
    ExtendedNext(s.configs, t.configs, s.nextConfig, i, epoch);
    ExtendedNext(s.providers, t.providers, s.nextProvider, i, profile);
    hide Extended, Numbered, CandidateConfigOf, CandidateProviderOf;
    CandidatesNext(t, a, s.nextConfig, s.nextProvider, i, epoch, profile);
    hide HoldsCandidates;
  }

  lemma CandidatesNext(t: RuntimeData, a: Admission, config: Id, provider: Id, i: nat, epoch: Config, profile: Provider)
    requires i <= |a.fallbacks| && HoldsCandidates(t, a, config, provider, i)
    requires t.nextConfig == config + i < U64_MAX && t.nextProvider == provider + i < U64_MAX
    requires epoch == CandidateConfigOf(a, i) && profile == CandidateProviderOf(a, i)
    ensures HoldsCandidates(WithSnapshots(t, epoch, profile), a, config, provider, i + 1)
  {
    hide CandidateConfigOf, CandidateProviderOf;
    var next := WithSnapshots(t, epoch, profile);
    forall j: nat | j < i + 1
      ensures HoldsCandidate(next, a, config, provider, j)
    {
      assert j < i ==> HoldsCandidate(t, a, config, provider, j);
    }
  }

  lemma FreezeOne(s: RuntimeData, t: RuntimeData, a: Admission, i: nat)
    requires Numbered(s) && ConfigsLeft(s, a) && i <= |a.fallbacks| && s.pendingCost.None? && Frozen(s, t, a, i)
    ensures var events := [ConfigFrozen(s.nextConfig + i, CandidateConfigOf(a, i)), ProviderFrozen(s.nextProvider + i, CandidateProviderOf(a, i))];
            ApplyAll(t, events).Ok? && Frozen(s, ApplyAll(t, events).value, a, i + 1)
  {
    hide ApplyAll, Frozen, Numbered, WithSnapshots;
    FrozenCounters(s, t, a, i);
    FrozenNext(s, t, a, i, CandidateConfigOf(a, i), CandidateProviderOf(a, i));
    PairStep(t, CandidateConfigOf(a, i), CandidateProviderOf(a, i));
  }

  lemma FrozenCounters(s: RuntimeData, t: RuntimeData, a: Admission, i: nat)
    requires i <= |a.fallbacks| + 1 && Frozen(s, t, a, i)
    ensures t.nextConfig == s.nextConfig + i && t.nextProvider == s.nextProvider + i && t.pendingCost == s.pendingCost
  {
  }

  lemma {:induction false} FreezeAll(s: RuntimeData, t: RuntimeData, a: Admission, i: nat)
    requires Numbered(s) && ConfigsLeft(s, a) && i <= |a.fallbacks| + 1 && s.pendingCost.None? && Frozen(s, t, a, i)
    ensures ApplyAll(t, SnapshotEvents(s, a, i)).Ok? && Frozen(s, ApplyAll(t, SnapshotEvents(s, a, i)).value, a, |a.fallbacks| + 1)
    decreases |a.fallbacks| + 1 - i
  {
    hide Numbered, Apply, Frozen;
    if i <= |a.fallbacks| {
      FreezeOne(s, t, a, i);
      var pair := [ConfigFrozen(s.nextConfig + i, CandidateConfigOf(a, i)), ProviderFrozen(s.nextProvider + i, CandidateProviderOf(a, i))];
      ApplyAllJoin(t, pair, SnapshotEvents(s, a, i + 1));
      FreezeAll(s, ApplyAll(t, pair).value, a, i + 1);
    }
  }

  lemma FrozenStart(s: RuntimeData, a: Admission)
    requires Numbered(s)
    ensures Frozen(s, s, a, 0)
  {
  }

  /** The state with its thread, which an admission creates first when there is none. */
  function Threaded(s: RuntimeData): RuntimeData
    requires s.thread.None? ==> s.nextThread < U64_MAX
  {
    if s.thread.Some? then s else s.(thread := Some(s.nextThread), nextThread := s.nextThread + 1)
  }

  lemma ThreadApplies(s: RuntimeData)
    requires Quiescent(s) && (s.thread.None? ==> s.nextThread < U64_MAX)
    ensures ApplyAll(s, if s.thread.None? then [ThreadCreated(s.nextThread)] else []) == Ok(Threaded(s))
  {
    hide SnapshotCount, TurnComplete;
    if s.thread.None? {
      ApplyOne(s, ThreadCreated(s.nextThread));
    }
  }

  /** The state after the Turn itself is admitted. */
  ghost predicate AdmittedAs(s: RuntimeData, t: RuntimeData, a: Admission)
    requires IdsLeft(s, a) && InputValid(a.input)
  {
    && t.pending == Some(NewPending(s.nextTurn, s.nextConfig, s.nextProvider, a.agent, a.input))
    && s.nextTurn in t.turns && |t.turns[s.nextTurn].fallbacks| == |a.fallbacks| && t.turns[s.nextTurn].agent == a.agent
    && HoldsCandidates(t, a, s.nextConfig, s.nextProvider, |a.fallbacks| + 1)
    && (forall j: nat :: j <= |a.fallbacks| ==>
          CandidateConfig(t.turns[s.nextTurn], j) == s.nextConfig + j && CandidateProvider(t.turns[s.nextTurn], j) == s.nextProvider + j)
    && t.turns == s.turns[s.nextTurn := t.turns[s.nextTurn]]
    && t.items == s.items + [NewItem(s.nextItem, s.nextTurn, Context.User, a.input, a.digest)]
    && t.nextTurn == s.nextTurn + 1 && t.nextItem == s.nextItem + 1 && t.usage == s.usage && t.checkpoint == s.checkpoint
    && t.pendingCost.None? && t.thread.Some? && |t.configs| == |s.configs| + 1 + |a.fallbacks| && |t.providers| == |s.providers| + 1 + |a.fallbacks|
  }

  /** What admission relies on besides its own checks. */
  ghost predicate Admissible(s: RuntimeData, a: Admission) {
    && PartTurns(s) && PartItems(s) && Numbered(s) && s.pending.None? && s.pendingCost.None? && IdsLeft(s, a) && PlanSane(a)
    && InputValid(a.input) && SelectionMatches(s.selection, a.config, a.agent)
  }

  lemma FallbacksFrozen(s: RuntimeData, t: RuntimeData, a: Admission)
    requires IdsLeft(s, a) && PlanSane(a) && Frozen(Threaded(s), t, a, |a.fallbacks| + 1)
    ensures FallbacksValid(t, s.nextConfig, s.nextProvider, Admitting(s, a).fallbacks)
  {
  }

  /** Admission from a state that has everything it names. */
  lemma AdmissionStep(t: RuntimeData, e: Event)
    requires e.TurnAdmitted? && t.pendingCost.None? && t.pending.None? && t.thread == Some(e.thread)
    requires e.primaryConfig in t.configs && e.primaryProvider in t.providers && FallbacksValid(t, e.primaryConfig, e.primaryProvider, e.fallbacks)
    requires SelectionMatches(t.selection, t.configs[e.primaryConfig], e.owner) && e.turn !in t.turns && !ItemExists(t, e.userItem)
    requires InputValid(e.input) && t.nextTurn == e.turn < U64_MAX && t.nextItem == e.userItem < U64_MAX
    ensures Apply(t, e)
            == Ok(t.(items := t.items + [NewItem(e.userItem, e.turn, Context.User, e.input, e.digest)],
                     turns := t.turns[e.turn := TurnRecord(e.userItem, e.primaryConfig, e.primaryProvider, e.fallbacks, e.owner, None, None, false, false)],
                     pending := Some(NewPending(e.turn, e.primaryConfig, e.primaryProvider, e.owner, e.input)),
                     selection := None, nextTurn := e.turn + 1, nextItem := e.userItem + 1))
  {
    hide FallbacksValid, SelectionMatches, ItemExists, NewItem, Blank;
  }

  lemma FrozenFields(s: RuntimeData, t: RuntimeData, a: Admission)
    requires IdsLeft(s, a) && Frozen(Threaded(s), t, a, |a.fallbacks| + 1)
    ensures t.thread == Some(AdmissionThread(s)) && t.pending == s.pending && t.pendingCost == s.pendingCost && t.items == s.items
    ensures t.turns == s.turns && t.selection == s.selection && t.nextTurn == s.nextTurn && t.nextItem == s.nextItem
    ensures t.usage == s.usage && t.checkpoint == s.checkpoint
    ensures s.nextConfig in t.configs && t.configs[s.nextConfig] == a.config && s.nextProvider in t.providers
    ensures HoldsCandidates(t, a, s.nextConfig, s.nextProvider, |a.fallbacks| + 1)
    ensures |t.configs| == |s.configs| + 1 + |a.fallbacks| && |t.providers| == |s.providers| + 1 + |a.fallbacks|
  {
    FirstCandidate(t, a, s.nextConfig, s.nextProvider, |a.fallbacks| + 1);
    hide HoldsCandidates;
  }

  lemma FirstCandidate(t: RuntimeData, a: Admission, config: Id, provider: Id, i: nat)
    requires 0 < i <= |a.fallbacks| + 1 && HoldsCandidates(t, a, config, provider, i)
    ensures config in t.configs && t.configs[config] == a.config && provider in t.providers
  {
    assert HoldsCandidate(t, a, config, provider, 0);
  }

  lemma AdmittingApplies(s: RuntimeData, t: RuntimeData, a: Admission)
    requires Admissible(s, a) && Frozen(Threaded(s), t, a, |a.fallbacks| + 1)
    ensures Apply(t, Admitting(s, a)).Ok? && AdmittedAs(s, Apply(t, Admitting(s, a)).value, a)
  {
    hide FallbacksValid, SelectionMatches, InputValid, NewItem, PartTurns, PartItems, ItemExists, Numbered, Apply, Frozen;
    FallbacksFrozen(s, t, a);
    FrozenFields(s, t, a);
    NewIdentifiers(s);
    SameItems(s, t, s.nextItem);
    AdmissionStep(t, Admitting(s, a));
    var u := Apply(t, Admitting(s, a)).value;
    SameCandidates(t, u, a, s.nextConfig, s.nextProvider, |a.fallbacks| + 1);
    CandidateIds(s, a, u.turns[s.nextTurn]);
    hide HoldsCandidates, CandidateConfig, CandidateProvider;
  }

  lemma SameCandidates(t: RuntimeData, u: RuntimeData, a: Admission, config: Id, provider: Id, i: nat)
    requires i <= |a.fallbacks| + 1 && HoldsCandidates(t, a, config, provider, i) && u.configs == t.configs && u.providers == t.providers
    ensures HoldsCandidates(u, a, config, provider, i)
  {
    forall j: nat | j < i
      ensures HoldsCandidate(u, a, config, provider, j)
    {
      assert HoldsCandidate(t, a, config, provider, j);
    }
  }

  lemma CandidateIds(s: RuntimeData, a: Admission, record: TurnRecord)
    requires IdsLeft(s, a) && record.config == s.nextConfig && record.provider == s.nextProvider
    requires record.fallbacks == Admitting(s, a).fallbacks
    ensures |record.fallbacks| == |a.fallbacks|
    ensures forall j: nat :: j <= |a.fallbacks| ==>
              CandidateConfig(record, j) == s.nextConfig + j && CandidateProvider(record, j) == s.nextProvider + j
  {
  }

  lemma SameItems(s: RuntimeData, t: RuntimeData, item: Id)
    requires t.items == s.items && t.pending == s.pending
    ensures ItemExists(t, item) == ItemExists(s, item)
  {
  }

  lemma NewIdentifiers(s: RuntimeData)
    requires PartTurns(s) && PartItems(s) && s.pending.None?
    ensures s.nextTurn !in s.turns && !ItemExists(s, s.nextItem)
  {
    hide TurnKept;
  }

  lemma AdmissionApplies(s: RuntimeData, a: Admission)
    requires Admissible(s, a) && Quiescent(s)
    ensures ApplyAll(s, AdmissionEvents(s, a)).Ok? && AdmittedAs(s, ApplyAll(s, AdmissionEvents(s, a)).value, a)
  {
    hide Admissible, Quiescent, Apply, ApplyAll, Frozen, AdmittedAs, SnapshotEvents, Admitting, Numbered;
    AdmissibleFacts(s, a);
    var thread := if s.thread.None? then [ThreadCreated(s.nextThread)] else [];
    var snapshots := SnapshotEvents(s, a, 0);
    var start := Threaded(s);
    ThreadApplies(s);
    FrozenStart(start, a);
    SameSnapshotEvents(s, a, 0);
    FreezeAll(start, start, a, 0);
    ApplyAllJoin(s, thread, snapshots);
    var t := ApplyAll(s, thread + snapshots).value;
    AdmittingApplies(s, t, a);
    ApplyAllJoin(s, thread + snapshots, [Admitting(s, a)]);
    ApplyOne(t, Admitting(s, a));
  }

  lemma {:induction false} SameSnapshotEvents(s: RuntimeData, a: Admission, i: nat)
    requires IdsLeft(s, a) && i <= |a.fallbacks| + 1
    ensures SnapshotEvents(Threaded(s), a, i) == SnapshotEvents(s, a, i)
    decreases |a.fallbacks| + 1 - i
  {
    if i <= |a.fallbacks| {
      SameSnapshotEvents(s, a, i + 1);
    }
  }

  lemma AdmissibleFacts(s: RuntimeData, a: Admission)
    requires Admissible(s, a)
    ensures IdsLeft(s, a) && InputValid(a.input) && s.pendingCost.None? && Numbered(Threaded(s))
  {
    hide PartTurns, PartItems, InputValid, SelectionMatches;
  }

  lemma CountAdmitted(s: RuntimeData, t: RuntimeData, a: Admission)
    requires PartTurns(s) && IdsLeft(s, a) && InputValid(a.input) && AdmittedAs(s, t, a)
    ensures SnapshotCount(t.turns, t.nextTurn) == SnapshotCount(s.turns, s.nextTurn) + 1 + |a.fallbacks|
  {
    hide TurnKept, NewItem, InputValid;
    assert s.nextTurn !in s.turns;
    CountUnchanged(s.turns, t.turns, s.nextTurn);
  }

  lemma {:induction false} CountUnchanged(turns: map<Id, TurnRecord>, turns': map<Id, TurnRecord>, bound: nat)
    requires bound <= U64_MAX
    requires forall k: Id :: k < bound ==> ((k in turns <==> k in turns') && (k in turns ==> turns'[k] == turns[k]))
    ensures SnapshotCount(turns', bound) == SnapshotCount(turns, bound)
    decreases bound
  {
    if bound > 1 {
      CountUnchanged(turns, turns', bound - 1);
    }
  }

  lemma AdmittedQuiescent(s: RuntimeData, t: RuntimeData, a: Admission)
    requires PartTurns(s) && Quiescent(s) && IdsLeft(s, a) && InputValid(a.input) && AdmittedAs(s, t, a) && Kept(t)
    ensures Quiescent(t)
  {
    CountAdmitted(s, t, a);
    forall turn <- t.turns
      ensures TurnComplete(t, turn)
    {
      KeptTurnComplete(t, turn);
    }
    hide Kept, PartTurns, TurnComplete, SnapshotCount, NewItem, InputValid;
  }

  /** What applying an event says about the identifiers it uses up. */
  predicate IdsUsed(e: Event) {
    && (e.ThreadCreated? ==> e.thread < U64_MAX) && (e.ConfigFrozen? ==> e.config < U64_MAX) && (e.ProviderFrozen? ==> e.provider < U64_MAX)
    && (e.TurnAdmitted? ==>
          && e.turn < U64_MAX && e.userItem < U64_MAX && |e.fallbacks| < MAX_FALLBACK_CANDIDATES
          && forall i :: 0 <= i < |e.fallbacks| ==> e.fallbacks[i].presetValid)
  }

  lemma AppliedIds(s: RuntimeData, e: Event)
    requires Apply(s, e).Ok?
    ensures IdsUsed(e)
  {
    hide InputValid, SelectionMatches, ReasonValid, WindowsValid, FrozenMatches, ExpectedCost, Context.ValidateAgainst, AttemptOf, ItemText,
         Recorded, CleanlyBlocked, ItemExists;
  }

  lemma {:induction false} AppliedAllIds(s: RuntimeData, events: seq<Event>, i: nat)
    requires ApplyAll(s, events).Ok? && i < |events|
    ensures IdsUsed(events[i])
    decreases |events|
  {
    hide Apply, IdsUsed;
    AppliedIds(s, events[0]);
    if i > 0 {
      AppliedAllIds(Apply(s, events[0]).value, events[1..], i - 1);
    }
  }

  lemma {:induction false} LastSnapshots(s: RuntimeData, a: Admission, i: nat)
    requires i <= |a.fallbacks| && s.nextConfig + |a.fallbacks| <= U64_MAX && s.nextProvider + |a.fallbacks| <= U64_MAX
    ensures var events := SnapshotEvents(s, a, i);
            && |events| >= 2 && events[|events| - 2].ConfigFrozen? && events[|events| - 2].config == s.nextConfig + |a.fallbacks|
            && events[|events| - 1].ProviderFrozen? && events[|events| - 1].provider == s.nextProvider + |a.fallbacks|
    decreases |a.fallbacks| - i
  {
    if i < |a.fallbacks| {
      LastSnapshots(s, a, i + 1);
    } else {
      assert SnapshotEvents(s, a, i + 1) == [];
    }
  }

  lemma CommittedAdmission(s: RuntimeData, a: Admission)
    requires s.nextConfig + |a.fallbacks| <= U64_MAX && s.nextProvider + |a.fallbacks| <= U64_MAX
    requires ApplyAll(s, AdmissionEvents(s, a)).Ok?
    ensures IdsLeft(s, a) && PlanSane(a)
  {
    hide ApplyAll, SnapshotEvents;
    LastSnapshots(s, a, 0);
    var thread := if s.thread.None? then [ThreadCreated(s.nextThread)] else [];
    var snapshots, events := SnapshotEvents(s, a, 0), AdmissionEvents(s, a);
    assert events == thread + snapshots + [Admitting(s, a)];
    var n := |thread| + |snapshots|;
    assert events[n] == Admitting(s, a) && events[n - 1] == snapshots[|snapshots| - 1] && events[n - 2] == snapshots[|snapshots| - 2];
    assert s.thread.None? ==> events[0] == ThreadCreated(s.nextThread);
    AppliedAllIds(s, events, n);
    AppliedAllIds(s, events, n - 1);
    AppliedAllIds(s, events, n - 2);
    AppliedAllIds(s, events, 0);
    var admitting := Admitting(s, a);
    forall i | 0 <= i < |a.fallbacks|
      ensures a.fallbacks[i].presetValid
    {
      assert admitting.fallbacks[i] == FallbackAt(s, a, i);
    }
  }

  /** An admission that passes the driver's checks commits exactly while identifiers are left and the plan is one that
      configuration builds: every candidate's snapshots are frozen as its own under fresh identifiers, the Turn is pending
      on the primary candidate, and its user item is the latest. */
  lemma AdmitAccepted(s: RuntimeData, head: Context.Head, a: Admission)
    requires Resting(s) || s == EMPTY
    requires PlanAdmit(s, head, a).Ok?
    ensures InputValid(a.input) && (Commit(s, PlanAdmit(s, head, a).value).Ok? <==> IdsLeft(s, a) && PlanSane(a))
    ensures Commit(s, PlanAdmit(s, head, a).value).Ok? ==> AdmittedAs(s, Commit(s, PlanAdmit(s, head, a).value).value, a)
  {
    AdmitPlan(s, head, a);
    if IdsLeft(s, a) && PlanSane(a) {
      ReadyToAdmit(s, a);
      hide Resting, Admissible, Quiescent, Kept, AssistantNew, ApplyAll, AdmissionEvents, PlanAdmit, AdmittedAs, InputValid, PartTurns, Commit, IdsLeft;
      AdmissionApplies(s, a);
      var t := ApplyAll(s, AdmissionEvents(s, a)).value;
      ApplyAllKeeps(s, AdmissionEvents(s, a));
      AdmittedQuiescent(s, t, a);
      CommitBecause(s, AdmissionEvents(s, a), t);
    } else {
      hide Resting, Quiescent, ApplyAll, AdmissionEvents, PlanAdmit, IdsLeft, PlanSane;
      if Commit(s, PlanAdmit(s, head, a).value).Ok? {
        CommittedAdmission(s, a);
      }
    }
  }

  lemma AdmitPlan(s: RuntimeData, head: Context.Head, a: Admission)
    requires PlanAdmit(s, head, a).Ok?
    ensures s.pending.None? && InputValid(a.input) && SelectionMatches(s.selection, a.config, a.agent)
    ensures s.nextConfig + |a.fallbacks| <= U64_MAX && s.nextProvider + |a.fallbacks| <= U64_MAX
    ensures PlanAdmit(s, head, a).value == AdmissionEvents(s, a)
  {
    hide InputValid, SelectionMatches, ContextFor, AdmissionEvents, SelectionFits;
  }

  lemma ReadyToAdmit(s: RuntimeData, a: Admission)
    requires (Resting(s) || s == EMPTY) && s.pending.None? && IdsLeft(s, a) && PlanSane(a)
    requires InputValid(a.input) && SelectionMatches(s.selection, a.config, a.agent)
    ensures Admissible(s, a) && Quiescent(s) && Kept(s) && AssistantNew(s) && PartTurns(s)
  {
    EmptyKept();
    hide Orderly, PartPending, PartAttempts, PartCosts, TurnComplete, InputValid, SelectionMatches, IdsLeft;
  }
}
