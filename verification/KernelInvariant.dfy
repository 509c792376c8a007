/** What every kernel event keeps: the life of Turns, the active candidate, attempts and their costs. */
module KernelInvariant {
  import opened Prelude
  import opened KernelModel
  import Context

  // ---------- the pending Turn ----------

  /** Candidate zero is the primary, candidate `i` the fallback before position `i`. */
  function CandidateConfig(record: TurnRecord, index: nat): Id
    requires index <= |record.fallbacks|
  {
    if index == 0 then record.config else record.fallbacks[index - 1].config
  }

  function CandidateProvider(record: TurnRecord, index: nat): Id
    requires index <= |record.fallbacks|
  {
    if index == 0 then record.provider else record.fallbacks[index - 1].provider
  }

  /** The active snapshot pair is the frozen candidate at the fallback index. */
  predicate ActiveCandidate(p: PendingTurn, record: TurnRecord) {
    && p.fallbackIndex <= |record.fallbacks| && p.agent == record.agent
    && p.config == CandidateConfig(record, p.fallbackIndex) && p.provider == CandidateProvider(record, p.fallbackIndex)
  }

  /** Which fields a phase allows. */
  predicate PhaseKept(p: PendingTurn, record: TurnRecord, acknowledged: set<Id>) {
    && (p.prepared.Some? <==> p.phase.Prepared?)
    && (p.assistantItem.Some? <==> p.phase.Streaming? || p.phase.Prepared?)
    && (p.phase.Admitted? || p.phase.Blocked? ==> p.streamed == "" && !p.acknowledged)
    && (p.acknowledged ==> p.phase.Prepared? && p.prepared.value.delivery in acknowledged)
    && (p.phase.Blocked? <==> p.reason.Some?) && (p.phase.Blocked? <==> p.origin.Some?)
    && (p.phase.Blocked? ==> p.open.None?) && (p.stage.Some? ==> p.origin == Some(FromProvider))
    && (if p.phase.Prepared?
        then record.delivery == Some(p.prepared.value.delivery) && record.assistantItem == Some(p.prepared.value.item)
        else record.delivery.None? && record.assistantItem.None?)
    && (p.open.Some? ==> p.nextAttempt > 1 && p.open.value.attempt == p.nextAttempt - 1) && p.nextAttempt >= 1
  }

  predicate PendingKept(pending: Option<PendingTurn>, turns: map<Id, TurnRecord>, acknowledged: set<Id>) {
    pending.Some? ==>
      && pending.value.turn in turns
      && ActiveCandidate(pending.value, turns[pending.value.turn]) && PhaseKept(pending.value, turns[pending.value.turn], acknowledged)
  }

  function OpenTurn(pending: Option<PendingTurn>): Option<Id> {
    if pending.Some? then Some(pending.value.turn) else None
  }

  // ---------- every Turn ----------

  /** A Turn is exactly one of pending, completed and cancelled; it completed only with an acknowledged delivery;
      its snapshots and its user item exist. */
  ghost predicate TurnKept(turn: Id, record: TurnRecord, configs: set<Id>, providers: set<Id>, items: seq<Item>, open: Option<Id>,
                           acknowledged: set<Id>) {
    && record.config in configs && record.provider in providers
    && (forall i :: 0 <= i < |record.fallbacks| ==> record.fallbacks[i].config in configs && record.fallbacks[i].provider in providers)
    && (exists i :: 0 <= i < |items| && items[i].id == record.userItem && items[i].turn == turn)
    && !(record.completed && record.cancelled) && (open == Some(turn) <==> !(record.completed || record.cancelled))
    && (record.completed ==> record.assistantItem.Some? && record.delivery.Some? && record.delivery.value in acknowledged)
    && (record.cancelled ==> record.assistantItem.None? && record.delivery.None?)
  }

  ghost predicate TurnsKept(turns: map<Id, TurnRecord>, configs: set<Id>, providers: set<Id>, items: seq<Item>, open: Option<Id>,
                            acknowledged: set<Id>, thread: Option<Id>, nextTurn: Id) {
    && (forall t <- turns :: t < nextTurn && TurnKept(t, turns[t], configs, providers, items, open, acknowledged))
    && (turns != map[] ==> thread.Some?)
  }

  /** Items have different identifiers, all handed out. */
  ghost predicate ItemsKept(items: seq<Item>, assistant: Option<Id>, nextItem: Id) {
    && (forall i :: 0 <= i < |items| ==> items[i].id < nextItem)
    && (forall i, j :: 0 <= i < j < |items| ==> items[i].id != items[j].id)
    && (assistant.Some? ==> assistant.value < nextItem)
  }

  // ---------- attempts ----------

  /** The numbers of a Turn's recorded attempts, in order. */
  function Numbers(usage: seq<Attempt>, turn: Id): seq<nat> {
    if |usage| == 0 then []
    else
      var before := Numbers(usage[..|usage| - 1], turn);
      if usage[|usage| - 1].turn == turn then before + [usage[|usage| - 1].attempt] else before
  }

  predicate Sequential(numbers: seq<nat>) {
    forall i :: 0 <= i < |numbers| ==> numbers[i] == i + 1
  }

  function FinishedAttempts(p: PendingTurn): int {
    p.nextAttempt - 1 - if p.open.Some? then 1 else 0
  }

  /** Every Turn's attempts are numbered from one without gaps; of the pending one all but the open attempt are recorded. */
  ghost predicate AttemptsKept(usage: seq<Attempt>, turns: set<Id>, pending: Option<PendingTurn>) {
    && (forall i :: 0 <= i < |usage| ==> usage[i].turn in turns)
    && (forall t <- turns :: Sequential(Numbers(usage, t)))
    && (pending.Some? ==> |Numbers(usage, pending.value.turn)| == FinishedAttempts(pending.value))
  }

  /** An attempt was made through one of its Turn's frozen candidates and carries that candidate's evidence. */
  ghost predicate MadeBy(a: Attempt, index: nat, turns: map<Id, TurnRecord>, configs: map<Id, Config>, providers: map<Id, Provider>) {
    && a.turn != 0 && a.turn in turns && index <= |turns[a.turn].fallbacks| && a.startedAt.Some?
    && CandidateConfig(turns[a.turn], index) in configs && CandidateProvider(turns[a.turn], index) in providers
    && var provider := providers[CandidateProvider(turns[a.turn], index)];
    && a.profile == provider.profile && a.requestedModel == provider.model && a.dialect == provider.dialect
  }

  /** Its cost is what recomputation from that candidate's frozen price book gives. */
  ghost predicate PricedBy(a: Attempt, index: nat, turns: map<Id, TurnRecord>, configs: map<Id, Config>, providers: map<Id, Provider>) {
    && MadeBy(a, index, turns, configs, providers)
    && a.cost == Some(ExpectedCost(configs[CandidateConfig(turns[a.turn], index)], a))
  }

  ghost predicate Priced(a: Attempt, turns: map<Id, TurnRecord>, configs: map<Id, Config>, providers: map<Id, Provider>) {
    exists index :: PricedBy(a, index, turns, configs, providers)
  }

  /** Every attempt but one just finished is priced; that one is the last, and the debt names it. */
  ghost predicate CostsKept(usage: seq<Attempt>, debt: Option<(Id, U32)>, pending: Option<PendingTurn>, turns: map<Id, TurnRecord>,
                            configs: map<Id, Config>, providers: map<Id, Provider>) {
    var settled := |usage| - if debt.Some? then 1 else 0;
    && settled >= 0
    && (forall i :: 0 <= i < settled ==> Priced(usage[i], turns, configs, providers))
    && (debt.Some? ==>
          && usage[settled].turn == debt.value.0 && usage[settled].attempt == debt.value.1 && usage[settled].cost.None?
          && pending.Some? && pending.value.turn == debt.value.0
          && MadeBy(usage[settled], pending.value.fallbackIndex, turns, configs, providers))
  }

  // ---------- the whole ----------

  ghost predicate PartPending(s: RuntimeData) {
    PendingKept(s.pending, s.turns, s.acknowledged)
  }

  ghost predicate PartTurns(s: RuntimeData) {
    TurnsKept(s.turns, s.configs.Keys, s.providers.Keys, s.items, OpenTurn(s.pending), s.acknowledged, s.thread, s.nextTurn)
  }

  ghost predicate PartItems(s: RuntimeData) {
    ItemsKept(s.items, if s.pending.Some? then s.pending.value.assistantItem else None, s.nextItem)
  }

  ghost predicate PartAttempts(s: RuntimeData) {
    AttemptsKept(s.usage, s.turns.Keys, s.pending)
  }

  ghost predicate PartCosts(s: RuntimeData) {
    CostsKept(s.usage, s.pendingCost, s.pending, s.turns, s.configs, s.providers)
  }

  ghost predicate Kept(s: RuntimeData) {
    PartPending(s) && PartTurns(s) && PartItems(s) && PartAttempts(s) && PartCosts(s)
  }

  lemma EmptyKept()
    ensures Kept(EMPTY)
  {
  }

  /** Events that leave Turns, items and attempts alone. */
  lemma PreparationKeeps(s: RuntimeData, e: Event)
    requires Kept(s) && Apply(s, e).Ok?
    requires e.CheckpointPublished? || e.SelectionStaged? || e.ThreadCreated?
    ensures Kept(Apply(s, e).value)
  {
    hide PendingKept, ItemsKept, AttemptsKept, CostsKept, TurnKept, Context.ValidateAgainst, ExpectedCost;
  }

  lemma PricedLater(a: Attempt, index: nat, turns: map<Id, TurnRecord>, configs: map<Id, Config>, providers: map<Id, Provider>,
                    turns': map<Id, TurnRecord>, configs': map<Id, Config>, providers': map<Id, Provider>)
    requires MadeBy(a, index, turns, configs, providers)
    requires a.turn in turns' && turns'[a.turn].config == turns[a.turn].config && turns'[a.turn].provider == turns[a.turn].provider
    requires turns'[a.turn].fallbacks == turns[a.turn].fallbacks
    requires forall c <- configs :: c in configs' && configs'[c] == configs[c]
    requires forall p <- providers :: p in providers' && providers'[p] == providers[p]
    ensures MadeBy(a, index, turns', configs', providers')
    ensures PricedBy(a, index, turns, configs, providers) ==> PricedBy(a, index, turns', configs', providers')
  {
    hide ExpectedCost;
  }

  /** The prices of recorded attempts stay right when snapshots are added and Turns keep their plans. */
  lemma CostsLater(s: RuntimeData, t: RuntimeData)
    requires PartCosts(s) && t.usage == s.usage && t.pendingCost == s.pendingCost
    requires s.pendingCost.Some? ==> t.pending.Some? && s.pending.Some? && t.pending.value.turn == s.pending.value.turn
                                     && t.pending.value.fallbackIndex == s.pending.value.fallbackIndex
    requires forall k <- s.turns :: k in t.turns && t.turns[k].config == s.turns[k].config && t.turns[k].provider == s.turns[k].provider
                                    && t.turns[k].fallbacks == s.turns[k].fallbacks
    requires forall c <- s.configs :: c in t.configs && t.configs[c] == s.configs[c]
    requires forall p <- s.providers :: p in t.providers && t.providers[p] == s.providers[p]
    ensures PartCosts(t)
  {
    hide MadeBy, PricedBy;
    var settled := |s.usage| - if s.pendingCost.Some? then 1 else 0;
    forall i | 0 <= i < settled
      ensures Priced(t.usage[i], t.turns, t.configs, t.providers)
    {
      assert Priced(s.usage[i], s.turns, s.configs, s.providers);
      var index :| PricedBy(s.usage[i], index, s.turns, s.configs, s.providers);
      PricedIsMade(s.usage[i], index, s.turns, s.configs, s.providers);
      PricedLater(s.usage[i], index, s.turns, s.configs, s.providers, t.turns, t.configs, t.providers);
    }
    if s.pendingCost.Some? {
      MadeIsKnown(s.usage[settled], s.pending.value.fallbackIndex, s.turns, s.configs, s.providers);
      PricedLater(s.usage[settled], s.pending.value.fallbackIndex, s.turns, s.configs, s.providers, t.turns, t.configs, t.providers);
    }
  }

  lemma PricedIsMade(a: Attempt, index: nat, turns: map<Id, TurnRecord>, configs: map<Id, Config>, providers: map<Id, Provider>)
    requires PricedBy(a, index, turns, configs, providers)
    ensures MadeBy(a, index, turns, configs, providers) && a.turn != 0 && a.turn in turns
  {
    hide ExpectedCost;
  }

  lemma MadeIsKnown(a: Attempt, index: nat, turns: map<Id, TurnRecord>, configs: map<Id, Config>, providers: map<Id, Provider>)
    requires MadeBy(a, index, turns, configs, providers)
    ensures a.turn != 0 && a.turn in turns
  {
  }

  lemma TurnsLater(turns: map<Id, TurnRecord>, configs: set<Id>, providers: set<Id>, items: seq<Item>, open: Option<Id>, acknowledged: set<Id>,
                   thread: Option<Id>, nextTurn: Id, configs': set<Id>, providers': set<Id>, items': seq<Item>, acknowledged': set<Id>)
    requires TurnsKept(turns, configs, providers, items, open, acknowledged, thread, nextTurn)
    requires configs <= configs' && providers <= providers' && items <= items' && acknowledged <= acknowledged'
    ensures TurnsKept(turns, configs', providers', items', open, acknowledged', thread, nextTurn)
  {
    forall t <- turns
      ensures TurnKept(t, turns[t], configs', providers', items', open, acknowledged')
    {
      assert TurnKept(t, turns[t], configs, providers, items, open, acknowledged);
      var i :| 0 <= i < |items| && items[i].id == turns[t].userItem && items[i].turn == t;
      assert items'[i] == items[i];
    }
  }

  lemma SnapshotKeeps(s: RuntimeData, e: Event)
    requires Kept(s) && Apply(s, e).Ok? && (e.ConfigFrozen? || e.ProviderFrozen?)
    ensures Kept(Apply(s, e).value)
  {
    hide PendingKept, ItemsKept, AttemptsKept, CostsKept, TurnsKept, ExpectedCost;
    var t := Apply(s, e).value;
    TurnsLater(s.turns, s.configs.Keys, s.providers.Keys, s.items, OpenTurn(s.pending), s.acknowledged, s.thread, s.nextTurn,
               t.configs.Keys, t.providers.Keys, t.items, t.acknowledged);
    CostsLater(s, t);
  }

  // ---------- admission ----------

  lemma {:induction false} NumbersNone(usage: seq<Attempt>, turn: Id)
    requires forall i :: 0 <= i < |usage| ==> usage[i].turn != turn
    ensures Numbers(usage, turn) == []
    decreases |usage|
  {
    if |usage| > 0 {
      NumbersNone(usage[..|usage| - 1], turn);
    }
  }

  lemma AdmittedTurns(s: RuntimeData, e: Event)
    requires PartTurns(s) && e.TurnAdmitted? && ApplyAdmission(s, e).Ok?
    ensures PartTurns(ApplyAdmission(s, e).value)
  {
    hide InputValid, SelectionMatches;
    var t := ApplyAdmission(s, e).value;
    forall k <- t.turns
      ensures k < t.nextTurn && TurnKept(k, t.turns[k], t.configs.Keys, t.providers.Keys, t.items, OpenTurn(t.pending), t.acknowledged)
    {
      if k == e.turn {
        assert t.items[|s.items|].id == e.userItem && t.items[|s.items|].turn == k;
      } else {
        assert TurnKept(k, s.turns[k], s.configs.Keys, s.providers.Keys, s.items, None, s.acknowledged);
        var i :| 0 <= i < |s.items| && s.items[i].id == s.turns[k].userItem && s.items[i].turn == k;
        assert t.items[i] == s.items[i];
      }
    }
  }

  lemma AdmittedItems(s: RuntimeData, e: Event)
    requires PartItems(s) && e.TurnAdmitted? && ApplyAdmission(s, e).Ok?
    ensures PartItems(ApplyAdmission(s, e).value)
  {
    hide InputValid, SelectionMatches, FallbacksValid;
  }

  lemma AdmissionKeeps(s: RuntimeData, e: Event)
    requires Kept(s) && e.TurnAdmitted? && Apply(s, e).Ok?
    ensures Kept(Apply(s, e).value)
  {
    hide InputValid, SelectionMatches, FallbacksValid, TurnsKept, ItemsKept, CostsKept;
    var t := Apply(s, e).value;
    AdmittedTurns(s, e);
    AdmittedItems(s, e);
    CostsLater(s, t);
    AdmittedAttempts(s, e);
  }

  lemma AdmittedAttempts(s: RuntimeData, e: Event)
    requires PartAttempts(s) && e.TurnAdmitted? && ApplyAdmission(s, e).Ok?
    ensures PartAttempts(ApplyAdmission(s, e).value)
  {
    hide InputValid, SelectionMatches, FallbacksValid;
    NumbersNone(s.usage, e.turn);
  }

  // ---------- output ----------

  lemma StreamingKeeps(s: RuntimeData, e: Event)
    requires Kept(s) && Apply(s, e).Ok? && (e.AssistantStarted? || e.TextDelta?)
    ensures Kept(Apply(s, e).value)
  {
    hide TurnsKept, CostsKept, Numbers, Sequential;
    CostsLater(s, Apply(s, e).value);
  }

  /** Replacing the open Turn's record, and perhaps closing it. */
  lemma TurnReplaced(s: RuntimeData, turn: Id, record: TurnRecord, items: seq<Item>, open: Option<Id>, acknowledged: set<Id>)
    requires PartTurns(s) && turn in s.turns && OpenTurn(s.pending) == Some(turn) && (open == Some(turn) || open == None)
    requires s.items <= items && s.acknowledged <= acknowledged
    requires TurnKept(turn, record, s.configs.Keys, s.providers.Keys, items, open, acknowledged)
    ensures TurnsKept(s.turns[turn := record], s.configs.Keys, s.providers.Keys, items, open, acknowledged, s.thread, s.nextTurn)
  {
    var turns := s.turns[turn := record];
    forall k <- turns
      ensures k < s.nextTurn && TurnKept(k, turns[k], s.configs.Keys, s.providers.Keys, items, open, acknowledged)
    {
      if k != turn {
        assert TurnKept(k, s.turns[k], s.configs.Keys, s.providers.Keys, s.items, OpenTurn(s.pending), s.acknowledged);
        var i :| 0 <= i < |s.items| && s.items[i].id == s.turns[k].userItem && s.items[i].turn == k;
        assert items[i] == s.items[i];
      } else {
        assert k in s.turns;
      }
    }
  }

  /** The open Turn's record with some fields changed, over more items. */
  lemma OpenRecordKept(s: RuntimeData, turn: Id, record: TurnRecord, items: seq<Item>, open: Option<Id>)
    requires PartTurns(s) && turn in s.turns && OpenTurn(s.pending) == Some(turn) && s.items <= items
    requires var old' := s.turns[turn];
             record == old'.(assistantItem := record.assistantItem, delivery := record.delivery, completed := record.completed, cancelled := record.cancelled)
    requires !(record.completed && record.cancelled) && (open == Some(turn) <==> !(record.completed || record.cancelled))
    requires record.completed ==> record.assistantItem.Some? && record.delivery.Some? && record.delivery.value in s.acknowledged
    requires record.cancelled ==> record.assistantItem.None? && record.delivery.None?
    ensures TurnKept(turn, record, s.configs.Keys, s.providers.Keys, items, open, s.acknowledged)
  {
    assert TurnKept(turn, s.turns[turn], s.configs.Keys, s.providers.Keys, s.items, OpenTurn(s.pending), s.acknowledged);
    var i :| 0 <= i < |s.items| && s.items[i].id == s.turns[turn].userItem && s.items[i].turn == turn;
    assert items[i] == s.items[i];
  }

  lemma PreparedItems(s: RuntimeData, e: Event)
    requires PartItems(s) && PartPending(s) && e.OutputPrepared? && ApplyPrepared(s, e).Ok?
    requires forall i :: 0 <= i < |s.items| ==> s.items[i].id != e.item
    ensures PartItems(ApplyPrepared(s, e).value)
  {
  }

  /** While an assistant item is being produced it is no recorded item. */
  ghost predicate AssistantNew(s: RuntimeData) {
    s.pending.Some? && s.pending.value.phase.Streaming? && s.pending.value.assistantItem.Some? ==>
      forall i :: 0 <= i < |s.items| ==> s.items[i].id != s.pending.value.assistantItem.value
  }

  lemma PreparedKeeps(s: RuntimeData, e: Event)
    requires Kept(s) && AssistantNew(s) && e.OutputPrepared? && Apply(s, e).Ok?
    ensures Kept(Apply(s, e).value)
  {
    hide TurnsKept, CostsKept, AttemptsKept, ItemsKept, TurnKept;
    var t := Apply(s, e).value;
    PreparedItems(s, e);
    var record := t.turns[e.turn];
    assert !s.turns[e.turn].completed && !s.turns[e.turn].cancelled by {
      OpenIsLive(s, e.turn);
    }
    OpenRecordKept(s, e.turn, record, t.items, Some(e.turn));
    TurnReplaced(s, e.turn, record, t.items, Some(e.turn), s.acknowledged);
    CostsLater(s, t);
    AttemptsSame(s, t);
  }

  lemma OpenIsLive(s: RuntimeData, turn: Id)
    requires PartTurns(s) && turn in s.turns && OpenTurn(s.pending) == Some(turn)
    ensures !s.turns[turn].completed && !s.turns[turn].cancelled
  {
    assert TurnKept(turn, s.turns[turn], s.configs.Keys, s.providers.Keys, s.items, OpenTurn(s.pending), s.acknowledged);
  }

  lemma AttemptsSame(s: RuntimeData, t: RuntimeData)
    requires PartAttempts(s) && t.usage == s.usage && t.turns.Keys == s.turns.Keys
    requires t.pending.Some? ==> s.pending.Some? && t.pending.value.turn == s.pending.value.turn
                                 && FinishedAttempts(t.pending.value) == FinishedAttempts(s.pending.value)
    ensures PartAttempts(t)
  {
    hide Numbers, Sequential;
  }

  lemma AcknowledgedKeeps(s: RuntimeData, e: Event)
    requires Kept(s) && e.OutputAcknowledged? && Apply(s, e).Ok?
    ensures Kept(Apply(s, e).value)
  {
    hide TurnsKept, CostsKept, AttemptsKept, ItemsKept;
    var t := Apply(s, e).value;
    TurnsLater(s.turns, s.configs.Keys, s.providers.Keys, s.items, OpenTurn(s.pending), s.acknowledged, s.thread, s.nextTurn,
               t.configs.Keys, t.providers.Keys, t.items, t.acknowledged);
    CostsLater(s, t);
    AttemptsSame(s, t);
  }

  lemma ItemsSame(s: RuntimeData, t: RuntimeData)
    requires PartItems(s) && t.items == s.items && t.nextItem == s.nextItem
    requires t.pending.Some? ==> s.pending.Some? && t.pending.value.assistantItem == s.pending.value.assistantItem
    ensures PartItems(t)
  {
  }

  /** Completing or cancelling the pending Turn. */
  lemma ClosedKeeps(s: RuntimeData, e: Event)
    requires Kept(s) && (e.TurnCompleted? || e.TurnCancelled?) && Apply(s, e).Ok?
    ensures Kept(Apply(s, e).value)
  {
    hide TurnsKept, CostsKept, AttemptsKept, ItemsKept, TurnKept;
    var t := Apply(s, e).value;
    OpenIsLive(s, e.turn);
    OpenRecordKept(s, e.turn, t.turns[e.turn], s.items, None);
    TurnReplaced(s, e.turn, t.turns[e.turn], s.items, None, s.acknowledged);
    CostsLater(s, t);
    AttemptsSame(s, t);
    ItemsSame(s, t);
  }

  // ---------- blocking ----------

  lemma BlockingKeeps(s: RuntimeData, e: Event)
    requires Kept(s) && Apply(s, e).Ok? && (e.TurnBlocked? || e.RetryRequested? || e.FallbackRequested?)
    ensures Kept(Apply(s, e).value)
  {
    hide TurnsKept, CostsKept, AttemptsKept, ItemsKept, ReasonValid;
    var t := Apply(s, e).value;
    CostsLater(s, t);
    AttemptsSame(s, t);
    ItemsSame(s, t);
  }

  // ---------- attempts ----------

  lemma StartedKeeps(s: RuntimeData, e: Event)
    requires Kept(s) && e.AttemptStarted? && Apply(s, e).Ok?
    ensures Kept(Apply(s, e).value)
  {
    hide TurnsKept, CostsKept, AttemptsKept, ItemsKept;
    var t := Apply(s, e).value;
    CostsLater(s, t);
    AttemptsSame(s, t);
    ItemsSame(s, t);
  }

  lemma NumbersMore(usage: seq<Attempt>, a: Attempt, turn: Id)
    ensures Numbers(usage + [a], turn) == if a.turn == turn then Numbers(usage, turn) + [a.attempt] else Numbers(usage, turn)
  {
    assert (usage + [a])[..|usage|] == usage;
  }

  lemma FinishedAttemptsKept(s: RuntimeData, t: RuntimeData, a: Attempt)
    requires PartAttempts(s) && PartPending(s) && s.pending.Some? && s.pending.value.open.Some?
    requires t.usage == s.usage + [a] && t.turns == s.turns && t.pending == Some(s.pending.value.(open := None))
    requires a.turn == s.pending.value.turn && a.attempt == s.pending.value.open.value.attempt
    ensures PartAttempts(t)
  {
    hide Numbers, ActiveCandidate;
    forall k <- t.turns
      ensures Sequential(Numbers(t.usage, k))
    {
      NumbersMore(s.usage, a, k);
    }
    NumbersMore(s.usage, a, s.pending.value.turn);
  }

  lemma FinishedCostsKept(s: RuntimeData, t: RuntimeData, a: Attempt)
    requires PartCosts(s) && s.pendingCost.None? && s.pending.Some? && a.cost.None?
    requires t.usage == s.usage + [a] && t.turns == s.turns && t.configs == s.configs && t.providers == s.providers
    requires t.pending == Some(s.pending.value.(open := None)) && t.pendingCost == Some((s.pending.value.turn, a.attempt))
    requires a.turn == s.pending.value.turn && MadeBy(a, s.pending.value.fallbackIndex, s.turns, s.configs, s.providers)
    ensures PartCosts(t)
  {
    hide MadeBy, Priced;
    forall i | 0 <= i < |s.usage|
      ensures Priced(t.usage[i], t.turns, t.configs, t.providers)
    {
      assert t.usage[i] == s.usage[i];
    }
    assert t.usage[|s.usage|] == a;
  }

  lemma FinishedMade(s: RuntimeData, e: Event)
    requires Kept(s) && e.AttemptFinished? && ApplyAttemptFinished(s, e).Ok?
    ensures s.pending.Some? && s.pending.value.turn == e.turn && s.pending.value.open.Some? && s.pending.value.open.value.attempt == e.attempt
    ensures var t := ApplyAttemptFinished(s, e).value;
            |t.usage| > 0
            && var a := t.usage[|t.usage| - 1];
            && t == s.(usage := s.usage + [a], pending := Some(s.pending.value.(open := None)), pendingCost := Some((e.turn, e.attempt)))
            && a.turn == e.turn && a.attempt == e.attempt && a.cost.None?
            && MadeBy(a, s.pending.value.fallbackIndex, s.turns, s.configs, s.providers)
  {
    hide WindowsValid, PhaseKept, TurnsKept, ItemsKept, AttemptsKept, CostsKept, ResolveWindow;
  }

  lemma FinishedKeeps(s: RuntimeData, e: Event)
    requires Kept(s) && e.AttemptFinished? && Apply(s, e).Ok?
    ensures Kept(Apply(s, e).value)
  {
    FinishedMade(s, e);
    hide ApplyAttemptFinished, TurnsKept, AttemptsKept, CostsKept, ItemsKept, MadeBy;
    var t := Apply(s, e).value;
    var a := t.usage[|t.usage| - 1];
    FinishedAttemptsKept(s, t, a);
    FinishedCostsKept(s, t, a);
    ItemsSame(s, t);
  }

  lemma {:induction false} NumberAt(usage: seq<Attempt>, i: nat, turn: Id)
    requires i < |usage| && usage[i].turn == turn
    ensures var k := |Numbers(usage[..i], turn)|; k < |Numbers(usage, turn)| && Numbers(usage, turn)[k] == usage[i].attempt
    decreases |usage|
  {
    var init := usage[..|usage| - 1];
    if i < |usage| - 1 {
      NumberAt(init, i, turn);
      assert init[..i] == usage[..i];
    }
  }

  lemma {:induction false} NumbersGrow(usage: seq<Attempt>, i: nat, j: nat, turn: Id)
    requires i <= j <= |usage|
    ensures |Numbers(usage[..i], turn)| <= |Numbers(usage[..j], turn)|
    ensures i < j && usage[i].turn == turn ==> |Numbers(usage[..i], turn)| < |Numbers(usage[..j], turn)|
    decreases j - i
  {
    if i < j {
      NumbersGrow(usage, i, j - 1, turn);
      assert usage[..j][..j - 1] == usage[..j - 1];
    }
  }

  /** No two attempts of a Turn share a number. */
  lemma NamesDiffer(usage: seq<Attempt>, turn: Id, i: nat, j: nat)
    requires Sequential(Numbers(usage, turn)) && i < |usage| && j < |usage| && usage[i].turn == turn && usage[j].turn == turn
    requires usage[i].attempt == usage[j].attempt
    ensures i == j
  {
    NumberAt(usage, i, turn);
    NumberAt(usage, j, turn);
    if i < j {
      NumbersGrow(usage, i, j, turn);
    } else if j < i {
      NumbersGrow(usage, j, i, turn);
    }
  }

  lemma {:induction false} NumbersPriced(usage: seq<Attempt>, i: nat, cost: Option<Cost>, turn: Id)
    requires i < |usage|
    ensures Numbers(usage[i := usage[i].(cost := cost)], turn) == Numbers(usage, turn)
    decreases |usage|
  {
    var changed := usage[i := usage[i].(cost := cost)];
    var last := |usage| - 1;
    if i == last {
      assert changed[..last] == usage[..last];
    } else {
      NumbersPriced(usage[..last], i, cost, turn);
      assert changed[..last] == usage[..last][i := usage[i].(cost := cost)];
    }
  }

  /** The owed evaluation is always of the last attempt, and always finds the recomputed cost. */
  lemma CostedIsLast(s: RuntimeData, e: Event)
    requires Kept(s) && e.AttemptCosted? && ApplyAttemptCosted(s, e.turn, e.attempt, e.evaluation).Ok?
    ensures |s.usage| > 0 && s.pending.Some? && s.pending.value.turn == e.turn
    ensures var t := ApplyAttemptCosted(s, e.turn, e.attempt, e.evaluation).value;
            var last := |s.usage| - 1;
            && s.usage[last].turn == e.turn && s.pending.value.config in s.configs
            && t == s.(usage := s.usage[last := s.usage[last].(cost := Some(ExpectedCost(s.configs[s.pending.value.config], s.usage[last])))],
                       pendingCost := None)
  {
    hide FrozenMatches, PhaseKept, TurnsKept, ItemsKept, MadeBy, Priced, ExpectedCost, ActiveCandidate, Sequential;
    var last := |s.usage| - 1;
    assert e.turn in s.turns;
    NamesDiffer(s.usage, e.turn, IndexOf(s.usage, e.turn, e.attempt), last);
  }

  lemma ExpectedIgnoresCost(config: Config, a: Attempt, cost: Option<Cost>)
    ensures ExpectedCost(config, a.(cost := cost)) == ExpectedCost(config, a)
  {
    hide Pricing.EstimateAttempt;
  }

  lemma CostedPriced(s: RuntimeData, a: Attempt)
    requires PartPending(s) && s.pending.Some? && a.turn == s.pending.value.turn
    requires MadeBy(a, s.pending.value.fallbackIndex, s.turns, s.configs, s.providers) && s.pending.value.config in s.configs
    ensures Priced(a.(cost := Some(ExpectedCost(s.configs[s.pending.value.config], a))), s.turns, s.configs, s.providers)
  {
    var p := s.pending.value;
    var expected := ExpectedCost(s.configs[p.config], a);
    ExpectedIgnoresCost(s.configs[p.config], a, Some(expected));
    hide ExpectedCost, PhaseKept;
    assert PricedBy(a.(cost := Some(expected)), p.fallbackIndex, s.turns, s.configs, s.providers);
  }

  lemma CostedCostsKept(s: RuntimeData, t: RuntimeData, priced: Attempt)
    requires PartCosts(s) && s.pendingCost.Some? && |s.usage| > 0
    requires t == s.(usage := s.usage[|s.usage| - 1 := priced], pendingCost := None)
    requires Priced(priced, s.turns, s.configs, s.providers)
    ensures PartCosts(t)
  {
    hide MadeBy, Priced;
  }

  lemma CostedKeeps(s: RuntimeData, e: Event)
    requires Kept(s) && e.AttemptCosted? && Apply(s, e).Ok?
    ensures Kept(Apply(s, e).value)
  {
    CostedIsLast(s, e);
    hide ApplyAttemptCosted, TurnsKept, ItemsKept, MadeBy, Priced, ExpectedCost, Sequential, PhaseKept, ActiveCandidate;
    var t := Apply(s, e).value;
    var last := |s.usage| - 1;
    CostedPriced(s, s.usage[last]);
    CostedCostsKept(s, t, t.usage[last]);
    forall k <- s.turns
      ensures Numbers(t.usage, k) == Numbers(s.usage, k)
    {
      NumbersPriced(s.usage, last, t.usage[last].cost, k);
    }
    ItemsSame(s, t);
  }

  // ---------- every event ----------

  lemma AssistantStaysNew(s: RuntimeData, e: Event)
    requires AssistantNew(s) && Apply(s, e).Ok?
    ensures AssistantNew(Apply(s, e).value)
  {
    hide InputValid, SelectionMatches, FallbacksValid, ReasonValid, WindowsValid, FrozenMatches, ExpectedCost, Context.ValidateAgainst;
  }

  /** No event that is accepted breaks the invariant. */
  lemma ApplyKeeps(s: RuntimeData, e: Event)
    requires Kept(s) && AssistantNew(s) && Apply(s, e).Ok?
    ensures Kept(Apply(s, e).value) && AssistantNew(Apply(s, e).value)
  {
    AssistantStaysNew(s, e);
    hide Kept, AssistantNew, Apply;
    match e
    case CheckpointPublished(_) => PreparationKeeps(s, e);
    case SelectionStaged(_, _) => PreparationKeeps(s, e);
    case ThreadCreated(_) => PreparationKeeps(s, e);
    case ConfigFrozen(_, _) => SnapshotKeeps(s, e);
    case ProviderFrozen(_, _) => SnapshotKeeps(s, e);
    case TurnAdmitted(_, _, _, _, _, _, _, _, _) => AdmissionKeeps(s, e);
    case AssistantStarted(_, _) => StreamingKeeps(s, e);
    case TextDelta(_, _, _) => StreamingKeeps(s, e);
    case OutputPrepared(_, _, _, _, _, _) => PreparedKeeps(s, e);
    case OutputAcknowledged(_, _) => AcknowledgedKeeps(s, e);
    case TurnCompleted(_) => ClosedKeeps(s, e);
    case TurnBlocked(_, _, _, _) => BlockingKeeps(s, e);
    case TurnCancelled(_) => ClosedKeeps(s, e);
    case RetryRequested(_) => BlockingKeeps(s, e);
    case FallbackRequested(_, _) => BlockingKeeps(s, e);
    case AttemptStarted(_, _, _) => StartedKeeps(s, e);
    case AttemptFinished(_, _, _, _, _, _) => FinishedKeeps(s, e);
    case AttemptCosted(_, _, _) => CostedKeeps(s, e);
  }

  lemma {:induction false} ApplyAllKeeps(s: RuntimeData, events: seq<Event>)
    requires Kept(s) && AssistantNew(s) && ApplyAll(s, events).Ok?
    ensures Kept(ApplyAll(s, events).value) && AssistantNew(ApplyAll(s, events).value)
    decreases |events|
  {
    hide Kept, AssistantNew, Apply;
    if |events| > 0 {
      ApplyKeeps(s, events[0]);
      ApplyAllKeeps(Apply(s, events[0]).value, events[1..]);
    }
  }

  // ---------- what never goes back ----------

  /** What may happen between two states: Turns stay, terminal ones unchanged; snapshots, acknowledgements, items and
      attempts only accumulate; a Turn's plan is frozen; the active candidate only advances. */
  ghost predicate Advances(s: RuntimeData, t: RuntimeData) {
    && s.items <= t.items && s.acknowledged <= t.acknowledged && SnapshotsAdvance(s, t) && TurnsAdvance(s.turns, t.turns)
    && UsageAdvances(s.usage, t.usage) && PendingAdvances(s.pending, t.pending)
  }

  ghost predicate SnapshotsAdvance(s: RuntimeData, t: RuntimeData) {
    && (forall c <- s.configs :: c in t.configs && t.configs[c] == s.configs[c])
    && (forall p <- s.providers :: p in t.providers && t.providers[p] == s.providers[p])
  }

  ghost predicate TurnsAdvance(turns: map<Id, TurnRecord>, turns': map<Id, TurnRecord>) {
    forall k <- turns :: k in turns' && TurnAdvances(turns[k], turns'[k])
  }

  ghost predicate UsageAdvances(usage: seq<Attempt>, usage': seq<Attempt>) {
    |usage| <= |usage'| && forall i :: 0 <= i < |usage| ==> AttemptAdvances(usage[i], usage'[i])
  }

  predicate PendingAdvances(pending: Option<PendingTurn>, pending': Option<PendingTurn>) {
    pending.Some? && pending'.Some? && pending.value.turn == pending'.value.turn ==>
      pending.value.fallbackIndex <= pending'.value.fallbackIndex && pending.value.nextAttempt <= pending'.value.nextAttempt
  }

  predicate TurnAdvances(a: TurnRecord, b: TurnRecord) {
    && a.userItem == b.userItem && a.config == b.config && a.provider == b.provider && a.fallbacks == b.fallbacks && a.agent == b.agent
    && (a.completed || a.cancelled ==> b == a)
  }

  /** A recorded attempt only ever gains its cost. */
  predicate AttemptAdvances(a: Attempt, b: Attempt) {
    b == a || (a.cost.None? && b == a.(cost := b.cost))
  }

  /** Only these events touch a Turn's record. */
  predicate TouchesTurns(e: Event) {
    e.TurnAdmitted? || e.OutputPrepared? || e.TurnCompleted? || e.TurnCancelled?
  }

  lemma TurnsUntouched(s: RuntimeData, e: Event)
    requires Apply(s, e).Ok? && !TouchesTurns(e)
    ensures Apply(s, e).value.turns == s.turns
  {
    hide InputValid, SelectionMatches, FallbacksValid, ReasonValid, WindowsValid, FrozenMatches, ExpectedCost, Context.ValidateAgainst, AttemptOf;
  }

  lemma ApplyTurnsAdvance(s: RuntimeData, e: Event)
    requires PartPending(s) && PartTurns(s) && Apply(s, e).Ok?
    ensures TurnsAdvance(s.turns, Apply(s, e).value.turns)
  {
    hide InputValid, SelectionMatches, FallbacksValid, ReasonValid, WindowsValid, FrozenMatches, ExpectedCost, Context.ValidateAgainst, AttemptOf, TurnsKept, PhaseKept, ActiveCandidate;
    if TouchesTurns(e) {
      if !e.TurnAdmitted? {
        OpenIsLive(s, e.turn);
      }
    } else {
      TurnsUntouched(s, e);
      hide Apply;
    }
  }

  lemma ApplyUsageAdvances(s: RuntimeData, e: Event)
    requires Apply(s, e).Ok?
    ensures UsageAdvances(s.usage, Apply(s, e).value.usage)
  {
    hide InputValid, SelectionMatches, FallbacksValid, ReasonValid, WindowsValid, FrozenMatches, ExpectedCost, Context.ValidateAgainst, AttemptOf;
  }

  lemma ApplyItemsAdvance(s: RuntimeData, e: Event)
    requires Apply(s, e).Ok?
    ensures s.items <= Apply(s, e).value.items && s.acknowledged <= Apply(s, e).value.acknowledged
  {
    hide InputValid, SelectionMatches, FallbacksValid, ReasonValid, WindowsValid, FrozenMatches, ExpectedCost, Context.ValidateAgainst, AttemptOf;
  }

  lemma ApplySnapshotsAdvance(s: RuntimeData, e: Event)
    requires Apply(s, e).Ok?
    ensures SnapshotsAdvance(s, Apply(s, e).value)
  {
    hide InputValid, SelectionMatches, FallbacksValid, ReasonValid, WindowsValid, FrozenMatches, ExpectedCost, Context.ValidateAgainst, AttemptOf;
  }

  lemma ApplyPendingAdvances(s: RuntimeData, e: Event)
    requires Apply(s, e).Ok?
    ensures PendingAdvances(s.pending, Apply(s, e).value.pending)
  {
    hide InputValid, SelectionMatches, FallbacksValid, ReasonValid, WindowsValid, FrozenMatches, ExpectedCost, Context.ValidateAgainst, AttemptOf;
  }

  lemma ApplyAdvances(s: RuntimeData, e: Event)
    requires Kept(s) && Apply(s, e).Ok?
    ensures Advances(s, Apply(s, e).value)
  {
    ApplyTurnsAdvance(s, e);
    ApplyUsageAdvances(s, e);
    ApplyItemsAdvance(s, e);
    ApplySnapshotsAdvance(s, e);
    ApplyPendingAdvances(s, e);
    hide Apply, SnapshotsAdvance, TurnsAdvance, UsageAdvances, PendingAdvances;
  }

  lemma CandidateStays(s: RuntimeData, e: Event)
    requires Apply(s, e).Ok? && !e.FallbackRequested? && s.pending.Some? && Apply(s, e).value.pending.Some?
    ensures var p, q := s.pending.value, Apply(s, e).value.pending.value;
            q.turn == p.turn && q.fallbackIndex == p.fallbackIndex && q.config == p.config && q.provider == p.provider
  {
    hide InputValid, SelectionMatches, FallbacksValid, ReasonValid, WindowsValid, FrozenMatches, ExpectedCost, Context.ValidateAgainst, AttemptOf;
  }

  /** The fallback index moves only by one, only on a fallback request, only off a retryable block by the Provider. */
  lemma FallbackProgress(s: RuntimeData, e: Event)
    requires Kept(s) && Apply(s, e).Ok? && s.pending.Some? && Apply(s, e).value.pending.Some?
    ensures var p, q := s.pending.value, Apply(s, e).value.pending.value;
            && q.turn == p.turn && q.turn in Apply(s, e).value.turns
            && ((q.fallbackIndex == p.fallbackIndex && q.config == p.config && q.provider == p.provider)
                || (&& e.FallbackRequested? && q.fallbackIndex == p.fallbackIndex + 1 && p.phase.Blocked?
                    && p.origin == Some(FromProvider) && Retryable(p.stage) && q.phase.Admitted?))
            && q.fallbackIndex <= |Apply(s, e).value.turns[q.turn].fallbacks|
  {
    KeptActive(s);
    ApplyTurnsAdvance(s, e);
    assert TurnAdvances(s.turns[s.pending.value.turn], Apply(s, e).value.turns[s.pending.value.turn]);
    hide Kept, TurnsAdvance;
    if e.FallbackRequested? {
    } else {
      CandidateStays(s, e);
      hide Apply;
    }
  }

  lemma KeptActive(s: RuntimeData)
    requires Kept(s) && s.pending.Some?
    ensures PartPending(s) && PartTurns(s) && s.pending.value.turn in s.turns
    ensures s.pending.value.fallbackIndex <= |s.turns[s.pending.value.turn].fallbacks|
  {
    hide PartTurns, PartItems, PartAttempts, PartCosts, PhaseKept;
  }

  // ---------- identifiers ----------

  /** Every identifier in use is below the next one. */
  ghost predicate Numbered(s: RuntimeData) {
    && (forall c <- s.configs :: c < s.nextConfig) && (forall p <- s.providers :: p < s.nextProvider)
    && (forall d <- s.acknowledged :: d < s.nextDelivery)
    && (s.pending.Some? && s.pending.value.prepared.Some? ==> s.pending.value.prepared.value.delivery < s.nextDelivery)
  }

  lemma NumberedKeeps(s: RuntimeData, e: Event)
    requires Numbered(s) && Apply(s, e).Ok?
    ensures Numbered(Apply(s, e).value)
  {
    hide InputValid, SelectionMatches, FallbacksValid, ReasonValid, WindowsValid, FrozenMatches, ExpectedCost, Context.ValidateAgainst, AttemptOf;
  }

  lemma {:induction false} NumberedAll(s: RuntimeData, events: seq<Event>)
    requires Numbered(s) && ApplyAll(s, events).Ok?
    ensures Numbered(ApplyAll(s, events).value)
    decreases |events|
  {
    hide Numbered, Apply;
    if |events| > 0 {
      NumberedKeeps(s, events[0]);
      NumberedAll(Apply(s, events[0]).value, events[1..]);
    }
  }
}
