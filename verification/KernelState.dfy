/** The conversation state as it runs: one object whose fields every event updates in place. */
module KernelState {
  import opened Prelude
  import opened Strings
  import opened KernelModel
  import Context

  class RuntimeState {
    var thread: Option<Id>
    var configs: map<Id, Config>
    var providers: map<Id, Provider>
    var turns: map<Id, TurnRecord>
    var items: seq<Item>
    var pending: Option<PendingTurn>
    var selection: Option<PendingSelection>
    var checkpoint: Option<Checkpoint>
    var acknowledged: set<Id>
    var usage: seq<Attempt>
    var pendingCost: Option<(Id, U32)>
    var nextThread: Id
    var nextTurn: Id
    var nextItem: Id
    var nextDelivery: Id
    var nextConfig: Id
    var nextProvider: Id

    function View(): RuntimeData
      reads this
    {
      RuntimeData(thread, configs, providers, turns, items, pending, selection, checkpoint, acknowledged, usage, pendingCost,
                  nextThread, nextTurn, nextItem, nextDelivery, nextConfig, nextProvider)
    }

    /** The answer and the state are those of `applied`; after an error the state no longer matters. */
    ghost predicate Realizes(applied: Applied, r: Check)
      reads this
    {
      if applied.Ok? then r == Ok(()) && View() == applied.value else r == Err(applied.error)
    }

    constructor ()
      ensures View() == EMPTY
    {
      thread, configs, providers, turns, items, pending := None, map[], map[], map[], [], None;
      selection, checkpoint, acknowledged, usage, pendingCost := None, None, {}, [], None;
      nextThread, nextTurn, nextItem, nextDelivery, nextConfig, nextProvider := 1, 1, 1, 1, 1, 1;
    }

    constructor Clone(other: RuntimeState)
      ensures View() == other.View()
    {
      thread, configs, providers, turns := other.thread, other.configs, other.providers, other.turns;
      items, pending, selection, checkpoint := other.items, other.pending, other.selection, other.checkpoint;
      acknowledged, usage, pendingCost := other.acknowledged, other.usage, other.pendingCost;
      nextThread, nextTurn, nextItem := other.nextThread, other.nextTurn, other.nextItem;
      nextDelivery, nextConfig, nextProvider := other.nextDelivery, other.nextConfig, other.nextProvider;
    }

    // ---------- checkpoints, selections, snapshots ----------

    method PublishCheckpoint(published: Checkpoint) returns (r: Check)
      modifies this
      ensures Realizes(ApplyCheckpoint(old(View()), published), r)
    {
      hide Context.ValidateAgainst;
      if pending.Some? {
        return Err(Corrupt);
      }
      var checked := Context.ValidateAgainst(published, items);
      if checked.Err? {
        return Err(ContextError(checked.error));
      }
      checkpoint := Some(published);
      r := Ok(());
    }

    method StageSelection(agent: Id, staged: Selection) returns (r: Check)
      modifies this
      ensures Realizes(ApplySelection(old(View()), agent, staged), r)
    {
      if pending.Some? {
        return Err(Corrupt);
      }
      if selection.Some? && selection.value.agent != agent {
        return Err(Corrupt);
      }
      selection := Some(PendingSelection(agent, staged));
      r := Ok(());
    }

    method CreateThread(created: Id) returns (r: Check)
      modifies this
      ensures Realizes(ApplyThread(old(View()), created), r)
    {
      var previous := thread;
      thread := Some(created);
      if previous.Some? || turns != map[] {
        return Err(Corrupt);
      }
      nextThread :- ObserveId(nextThread, created);
      r := Ok(());
    }

    method FreezeConfig(id: Id, epoch: Config) returns (r: Check)
      modifies this
      ensures Realizes(ApplyConfig(old(View()), id, epoch), r)
    {
      var present := id in configs;
      configs := configs[id := epoch];
      if present {
        return Err(Corrupt);
      }
      nextConfig :- ObserveId(nextConfig, id);
      r := Ok(());
    }

    method FreezeProvider(id: Id, profile: Provider) returns (r: Check)
      modifies this
      ensures Realizes(ApplyProvider(old(View()), id, profile), r)
    {
      var present := id in providers;
      providers := providers[id := profile];
      if present {
        return Err(Corrupt);
      }
      nextProvider :- ObserveId(nextProvider, id);
      r := Ok(());
    }

    // ---------- admission ----------

    /** One pass over the fallbacks with the snapshots seen so far. */
    method CheckFallbacks(config: Id, provider: Id, fallbacks: seq<Fallback>) returns (valid: bool)
      ensures valid == FallbacksValid(View(), config, provider, fallbacks)
    {
      if |fallbacks| >= MAX_FALLBACK_CANDIDATES {
        return false;
      }
      var seenConfigs: set<Id>, seenProviders: set<Id> := {}, {};
      for i := 0 to |fallbacks|
        invariant seenConfigs == set k | 0 <= k < i :: fallbacks[k].config
        invariant seenProviders == set k | 0 <= k < i :: fallbacks[k].provider
        invariant forall k :: 0 <= k < i ==>
                    && fallbacks[k].presetValid && fallbacks[k].config != config && fallbacks[k].provider != provider
                    && fallbacks[k].config in configs && fallbacks[k].provider in providers
        invariant forall k, l :: 0 <= k < l < i ==> fallbacks[k].config != fallbacks[l].config && fallbacks[k].provider != fallbacks[l].provider
      {
        var fallback := fallbacks[i];
        if !fallback.presetValid || fallback.config == config || fallback.provider == provider
           || fallback.config in seenConfigs || fallback.provider in seenProviders
           || fallback.config !in configs || fallback.provider !in providers {
          return false;
        }
        seenConfigs := seenConfigs + {fallback.config};
        seenProviders := seenProviders + {fallback.provider};
      }
      return true;
    }

    /** Every condition on an admission, in order. */
    method CheckAdmission(e: Event) returns (r: Check)
      requires e.TurnAdmitted?
      ensures r == AdmissionRefusal(View(), e)
    {
      hide FallbacksValid, SelectionMatches, ItemExists, InputValid;
      if thread != Some(e.thread) || pending.Some? {
        return Err(Corrupt);
      }
      if e.primaryConfig !in configs || e.primaryProvider !in providers {
        return Err(Corrupt);
      }
      var valid := CheckFallbacks(e.primaryConfig, e.primaryProvider, e.fallbacks);
      if !valid {
        return Err(Corrupt);
      }
      if !SelectionMatches(selection, configs[e.primaryConfig], e.owner) {
        return Err(Corrupt);
      }
      if e.turn in turns || ItemExists(View(), e.userItem) {
        return Err(Corrupt);
      }
      if !InputValid(e.input) {
        return Err(InvalidInput);
      }
      return Ok(());
    }

    method RecordAdmission(e: Event)
      requires e.TurnAdmitted? && ItemText(e.input)
      modifies this
      ensures View() == WithTurn(old(View()), e)
    {
      hide NewItem, ItemText;
      selection := None;
      items := items + [NewItem(e.userItem, e.turn, Context.User, e.input, e.digest)];
      turns := turns[e.turn := TurnRecord(e.userItem, e.primaryConfig, e.primaryProvider, e.fallbacks, e.owner, None, None, false, false)];
      pending := Some(NewPending(e.turn, e.primaryConfig, e.primaryProvider, e.owner, e.input));
    }

    method ObserveAdmission(e: Event) returns (r: Check)
      requires e.TurnAdmitted?
      modifies this
      ensures Realizes(WithCounters(old(View()), e), r)
    {
      nextTurn :- ObserveId(nextTurn, e.turn);
      nextItem :- ObserveId(nextItem, e.userItem);
      r := Ok(());
    }

    method AdmitTurn(e: Event) returns (r: Check)
      requires e.TurnAdmitted?
      modifies this
      ensures Realizes(ApplyAdmission(old(View()), e), r)
    {
      hide ApplyAdmission, AdmissionRefusal, ItemText, WithTurn, WithCounters;
      AdmissionSplits(View(), e);
      var _ :- CheckAdmission(e);
      RecordAdmission(e);
      r := ObserveAdmission(e);
    }

    // ---------- output ----------

    method StartAssistant(turn: Id, item: Id) returns (r: Check)
      modifies this
      ensures Realizes(ApplyAssistantStarted(old(View()), turn, item), r)
    {
      hide ItemExists;
      if ItemExists(View(), item) {
        return Err(Corrupt);
      }
      var p :- PendingFor(View(), turn);
      if !p.phase.Admitted? || p.assistantItem.Some? {
        return Err(Corrupt);
      }
      pending := Some(p.(phase := Streaming, assistantItem := Some(item)));
      nextItem :- ObserveId(nextItem, item);
      r := Ok(());
    }

    method AppendDelta(turn: Id, item: Id, delta: string) returns (r: Check)
      modifies this
      ensures Realizes(ApplyDelta(old(View()), turn, item, delta), r)
    {
      hide Utf8Length;
      if delta == "" {
        return Err(Corrupt);
      }
      var p :- PendingFor(View(), turn);
      if !p.phase.Streaming? || p.assistantItem != Some(item) {
        return Err(Corrupt);
      }
      if Utf8Length(p.streamed) + Utf8Length(delta) > MAX_INPUT_BYTES {
        return Err(Corrupt);
      }
      pending := Some(p.(streamed := p.streamed + delta));
      r := Ok(());
    }

    method PrepareOutput(e: Event) returns (r: Check)
      requires e.OutputPrepared?
      modifies this
      ensures Realizes(ApplyPrepared(old(View()), e), r)
    {
      hide Blank, Utf8Length, NewItem, ItemText, ObserveId;
      if e.delivery in acknowledged {
        return Err(Corrupt);
      }
      if |e.usageRecords| == 0 || |e.usageRecords| > MAX_USAGE_RECORDS_PER_TURN {
        return Err(Corrupt);
      }
      var p :- PendingFor(View(), e.turn);
      if !p.phase.Streaming? || p.assistantItem != Some(e.item) || p.streamed != e.text || p.prepared.Some? {
        return Err(Corrupt);
      }
      if p.config !in configs {
        return Err(Corrupt);
      }
      if Blank(e.text) || Utf8Length(e.text) > configs[p.config].maxOutputBytes {
        return Err(Corrupt);
      }
      if p.open.Some? {
        return Err(Corrupt);
      }
      if !ItemText(e.text) {
        return Err(Corrupt);
      }
      items := items + [NewItem(e.item, e.turn, Context.Assistant, e.text, e.digest)];
      pending := Some(p.(phase := Prepared, prepared := Some(PreparedState(e.item, e.delivery, e.usageRecords))));
      if e.turn !in turns {
        return Err(Corrupt);
      }
      turns := turns[e.turn := turns[e.turn].(assistantItem := Some(e.item), delivery := Some(e.delivery))];
      nextDelivery :- ObserveId(nextDelivery, e.delivery);
      r := Ok(());
    }

    method AcknowledgeOutput(turn: Id, delivery: Id) returns (r: Check)
      modifies this
      ensures Realizes(ApplyAcknowledged(old(View()), turn, delivery), r)
    {
      var p :- PendingFor(View(), turn);
      if !p.phase.Prepared? || p.acknowledged || p.prepared.None? || p.prepared.value.delivery != delivery {
        return Err(Corrupt);
      }
      pending := Some(p.(acknowledged := true));
      if delivery in acknowledged {
        return Err(Corrupt);
      }
      acknowledged := acknowledged + {delivery};
      r := Ok(());
    }

    method CompleteTurn(turn: Id) returns (r: Check)
      modifies this
      ensures Realizes(ApplyCompleted(old(View()), turn), r)
    {
      var p :- PendingFor(View(), turn);
      if !p.phase.Prepared? || !p.acknowledged || turn !in turns {
        return Err(Corrupt);
      }
      turns := turns[turn := turns[turn].(completed := true)];
      pending := None;
      r := Ok(());
    }

    // ---------- blocking ----------

    method BlockTurn(turn: Id, reason: string, origin: BlockOrigin, stage: Option<Stage>) returns (r: Check)
      modifies this
      ensures Realizes(ApplyBlocked(old(View()), turn, reason, origin, stage), r)
    {
      hide ReasonValid;
      if !ReasonValid(reason) || (stage.Some? && !origin.FromProvider?) {
        return Err(Corrupt);
      }
      var p :- PendingFor(View(), turn);
      if !p.phase.Admitted? || p.open.Some? {
        return Err(Corrupt);
      }
      pending := Some(p.(phase := Blocked, reason := Some(reason), origin := Some(origin), stage := stage));
      r := Ok(());
    }

    method CancelTurn(turn: Id) returns (r: Check)
      modifies this
      ensures Realizes(ApplyCancelled(old(View()), turn), r)
    {
      var p :- PendingFor(View(), turn);
      if !CleanlyBlocked(p) || turn !in turns || turns[turn].completed || turns[turn].cancelled {
        return Err(Corrupt);
      }
      turns := turns[turn := turns[turn].(cancelled := true)];
      pending := None;
      r := Ok(());
    }

    method RetryTurn(turn: Id) returns (r: Check)
      modifies this
      ensures Realizes(ApplyRetry(old(View()), turn), r)
    {
      var p :- PendingFor(View(), turn);
      if !CleanlyBlocked(p) || !Retryable(p.stage) {
        return Err(Corrupt);
      }
      pending := Some(Unblocked(p));
      r := Ok(());
    }

    method FallBack(turn: Id, index: U32) returns (r: Check)
      modifies this
      ensures Realizes(ApplyFallback(old(View()), turn, index), r)
    {
      if turn !in turns || index == 0 || index > |turns[turn].fallbacks| {
        return Err(Corrupt);
      }
      var fallback := turns[turn].fallbacks[index - 1];
      var p :- PendingFor(View(), turn);
      if !CleanlyBlocked(p) || !Retryable(p.stage) || p.fallbackIndex + 1 != index {
        return Err(Corrupt);
      }
      pending := Some(Unblocked(p).(config := fallback.config, provider := fallback.provider, fallbackIndex := index));
      r := Ok(());
    }

    // ---------- usage attempts ----------

    method StartAttempt(turn: Id, attempt: U32, startedAt: int) returns (r: Check)
      modifies this
      ensures Realizes(ApplyAttemptStarted(old(View()), turn, attempt, startedAt), r)
    {
      var p :- PendingFor(View(), turn);
      if !p.phase.Admitted? || p.open.Some? || attempt != p.nextAttempt || attempt == 0 {
        return Err(Corrupt);
      }
      if p.nextAttempt == U32_MAX {
        return Err(IntegerOverflow);
      }
      pending := Some(p.(nextAttempt := p.nextAttempt + 1, open := Some(OpenAttempt(attempt, startedAt))));
      r := Ok(());
    }

    /** One pass over the named windows: each must be frozen in the configuration and named once. */
    method CheckWindows(config: Config, names: seq<nat>) returns (valid: bool)
      ensures valid == WindowsValid(config, names)
    {
      var seen: set<nat> := {};
      for i := 0 to |names|
        invariant seen == set k | 0 <= k < i :: names[k]
        invariant forall k :: 0 <= k < i ==> WindowNamed(config.windows, names[k])
        invariant forall k, l :: 0 <= k < l < i ==> names[k] != names[l]
      {
        if !WindowNamed(config.windows, names[i]) || names[i] in seen {
          return false;
        }
        seen := seen + {names[i]};
      }
      return true;
    }

    method FinishAttempt(e: Event) returns (r: Check)
      requires e.AttemptFinished?
      modifies this
      ensures Realizes(ApplyAttemptFinished(old(View()), e), r)
    {
      hide WindowsValid, Recorded, ResolveWindow;
      if e.outcome.Succeeded? != e.usage.Some? {
        return Err(Corrupt);
      }
      var p :- PendingFor(View(), e.turn);
      if !p.phase.Admitted? || p.open.None? || p.open.value.attempt != e.attempt {
        return Err(Corrupt);
      }
      if e.completedAt < p.open.value.startedAt {
        return Err(Corrupt);
      }
      if p.config !in configs || p.provider !in providers || thread.None? || e.turn !in turns {
        return Err(Corrupt);
      }
      var valid := CheckWindows(configs[p.config], e.windows);
      if !valid {
        return Err(Corrupt);
      }
      if e.attempt == 0 || Recorded(usage, e.turn, e.attempt) {
        return Err(Corrupt);
      }
      var attempt := AttemptOf(View(), p, p.open.value, e);
      pending := Some(p.(open := None));
      usage := usage + [attempt];
      pendingCost := Some((e.turn, e.attempt));
      r := Ok(());
    }

    method PriceAttempt(turn: Id, attempt: U32, evaluation: Frozen) returns (r: Check)
      modifies this
      ensures Realizes(ApplyAttemptCosted(old(View()), turn, attempt, evaluation), r)
    {
      hide ExpectedCost, FrozenMatches, Recorded, IndexOf;
      if pendingCost != Some((turn, attempt)) {
        return Err(Corrupt);
      }
      var p :- PendingFor(View(), turn);
      if p.config !in configs || thread.None? || turn !in turns || p.provider !in providers {
        return Err(Corrupt);
      }
      if !Recorded(usage, turn, attempt) {
        return Err(Corrupt);
      }
      var i := IndexOf(usage, turn, attempt);
      if usage[i].usage.Some? && usage[i].startedAt.None? {
        return Err(Corrupt);
      }
      var expected := ExpectedCost(configs[p.config], usage[i]);
      if !FrozenMatches(evaluation, expected) || usage[i].cost.Some? {
        return Err(Corrupt);
      }
      usage := usage[i := usage[i].(cost := Some(expected))];
      pendingCost := None;
      r := Ok(());
    }

    // ---------- events ----------

    method ApplyEvent(e: Event) returns (r: Check)
      modifies this
      ensures Realizes(Apply(old(View()), e), r)
    {
      hide ApplyCheckpoint, ApplySelection, ApplyThread, ApplyConfig, ApplyProvider, ApplyAdmission, ApplyAssistantStarted, ApplyDelta,
           ApplyPrepared, ApplyAcknowledged, ApplyCompleted, ApplyBlocked, ApplyCancelled, ApplyRetry, ApplyFallback,
           ApplyAttemptStarted, ApplyAttemptFinished, ApplyAttemptCosted;
      if !CostComesNext(View(), e) {
        return Err(Corrupt);
      }
      match e {
        case CheckpointPublished(published) => r := PublishCheckpoint(published);
        case SelectionStaged(agent, staged) => r := StageSelection(agent, staged);
        case ThreadCreated(created) => r := CreateThread(created);
        case ConfigFrozen(config, epoch) => r := FreezeConfig(config, epoch);
        case ProviderFrozen(provider, profile) => r := FreezeProvider(provider, profile);
        case TurnAdmitted(_, _, _, _, _, _, _, _, _) => r := AdmitTurn(e);
        case AssistantStarted(turn, item) => r := StartAssistant(turn, item);
        case TextDelta(turn, item, delta) => r := AppendDelta(turn, item, delta);
        case OutputPrepared(_, _, _, _, _, _) => r := PrepareOutput(e);
        case OutputAcknowledged(turn, delivery) => r := AcknowledgeOutput(turn, delivery);
        case TurnCompleted(turn) => r := CompleteTurn(turn);
        case TurnBlocked(turn, reason, origin, stage) => r := BlockTurn(turn, reason, origin, stage);
        case TurnCancelled(turn) => r := CancelTurn(turn);
        case RetryRequested(turn) => r := RetryTurn(turn);
        case FallbackRequested(turn, index) => r := FallBack(turn, index);
        case AttemptStarted(turn, attempt, startedAt) => r := StartAttempt(turn, attempt, startedAt);
        case AttemptFinished(_, _, _, _, _, _) => r := FinishAttempt(e);
        case AttemptCosted(turn, attempt, evaluation) => r := PriceAttempt(turn, attempt, evaluation);
      }
    }
  }

  function AdmissionRefusal(s: RuntimeData, e: Event): Check
    requires e.TurnAdmitted?
  {
    if s.thread != Some(e.thread) || s.pending.Some? then Err(Corrupt)
    else if e.primaryConfig !in s.configs || e.primaryProvider !in s.providers then Err(Corrupt)
    else if !FallbacksValid(s, e.primaryConfig, e.primaryProvider, e.fallbacks) then Err(Corrupt)
    else if !SelectionMatches(s.selection, s.configs[e.primaryConfig], e.owner) then Err(Corrupt)
    else if e.turn in s.turns || ItemExists(s, e.userItem) then Err(Corrupt)
    else if !InputValid(e.input) then Err(InvalidInput)
    else Ok(())
  }

  function WithTurn(s: RuntimeData, e: Event): RuntimeData
    requires e.TurnAdmitted? && ItemText(e.input)
  {
    s.(items := s.items + [NewItem(e.userItem, e.turn, Context.User, e.input, e.digest)],
       turns := s.turns[e.turn := TurnRecord(e.userItem, e.primaryConfig, e.primaryProvider, e.fallbacks, e.owner, None, None, false, false)],
       pending := Some(NewPending(e.turn, e.primaryConfig, e.primaryProvider, e.owner, e.input)), selection := None)
  }

  function WithCounters(s: RuntimeData, e: Event): Applied
    requires e.TurnAdmitted?
  {
    var nextTurn :- ObserveId(s.nextTurn, e.turn);
    var nextItem :- ObserveId(s.nextItem, e.userItem);
    Ok(s.(nextTurn := nextTurn, nextItem := nextItem))
  }

  /** An admission is its conditions and then its updates. */
  lemma AdmissionSplits(s: RuntimeData, e: Event)
    requires e.TurnAdmitted?
    ensures AdmissionRefusal(s, e).Ok? ==> ItemText(e.input)
    ensures ApplyAdmission(s, e)
            == if AdmissionRefusal(s, e).Err? then Err(AdmissionRefusal(s, e).error) else WithCounters(WithTurn(s, e), e)
  {
    hide FallbacksValid, SelectionMatches, ItemExists, Blank, Utf8Length, NewItem;
  }
}
