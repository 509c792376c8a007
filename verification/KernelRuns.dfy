/**
 Whole runs of the kernel: whatever operations, failed writes, crashes and
 reopens there are, memory is the replay of the ledger, Turns live one life
 each, and the context a pending Turn needs is never lost.
 */
module KernelRuns {
  import opened Prelude
  import opened Journal
  import opened KernelModel
  import opened KernelInvariant
  import opened KernelPlan
  import Context
  import UsageModel

  // ---------- order of items and availability of context ----------

  predicate ContextOk(checkpoint: Option<Checkpoint>, history: seq<Item>) {
    || |history| == 0
    || (if checkpoint.Some? then Context.Materialize(checkpoint.value, history).Ok?
        else Context.RequestFromItems(Context.Head(0, 0), history).Ok?)
  }

  lemma HeadIrrelevant(s: RuntimeData, head: Context.Head, history: seq<Item>)
    ensures ContextFor(s, head, history).Ok? <==> ContextOk(s.checkpoint, history)
  {
    hide Context.Materialize, Context.Advance, Context.Visible, Context.ProjectAll;
  }

  /** The published checkpoint agrees with some leading items. */
  ghost predicate CheckpointGood(checkpoint: Option<Checkpoint>, items: seq<Item>) {
    checkpoint.Some? ==> exists n: nat :: AgreesTo(checkpoint.value, items, n)
  }

  ghost predicate AgreesTo(checkpoint: Checkpoint, items: seq<Item>, n: nat) {
    n <= |items| && Context.ValidateAgainst(checkpoint, items[..n]).Ok?
  }

  /** Until its output is prepared, the pending Turn's user item is the latest, and the context before it is available. */
  predicate ContextReady(s: RuntimeData) {
    s.pending.Some? && !s.pending.value.phase.Prepared? ==>
      && |s.items| > 0 && s.pending.value.turn in s.turns
      && s.items[|s.items| - 1].id == s.turns[s.pending.value.turn].userItem
      && ContextOk(s.checkpoint, s.items[..|s.items| - 1])
  }

  predicate AssistantAbove(s: RuntimeData) {
    s.pending.Some? && s.pending.value.phase.Streaming? && s.pending.value.assistantItem.Some? ==>
      forall i :: 0 <= i < |s.items| ==> s.items[i].id < s.pending.value.assistantItem.value
  }

  ghost predicate Orderly(s: RuntimeData) {
    Context.Increasing(s.items) && AssistantAbove(s) && CheckpointGood(s.checkpoint, s.items) && ContextReady(s)
  }

  /** What the driver sees to when it names new items. */
  predicate LiveEvent(s: RuntimeData, e: Event) {
    && (e.TurnAdmitted? ==> e.userItem == s.nextItem && ContextOk(s.checkpoint, s.items))
    && (e.AssistantStarted? ==> e.item == s.nextItem)
  }

  lemma IncreasingAppend(items: seq<Item>, item: Item)
    requires Context.Increasing(items) && forall i :: 0 <= i < |items| ==> items[i].id < item.id
    ensures Context.Increasing(items + [item])
  {
  }

  lemma CheckpointLater(checkpoint: Option<Checkpoint>, items: seq<Item>, more: seq<Item>)
    requires CheckpointGood(checkpoint, items)
    ensures CheckpointGood(checkpoint, items + more)
  {
    hide Context.ValidateAgainst;
    if checkpoint.Some? {
      var n: nat :| AgreesTo(checkpoint.value, items, n);
      assert (items + more)[..n] == items[..n];
      assert AgreesTo(checkpoint.value, items + more, n);
    }
  }

  lemma AdmissionOrderly(s: RuntimeData, e: Event)
    requires PartItems(s) && Orderly(s) && e.TurnAdmitted? && LiveEvent(s, e) && ApplyAdmission(s, e).Ok?
    ensures Orderly(ApplyAdmission(s, e).value)
  {
    hide InputValid, SelectionMatches, FallbacksValid, ContextOk, CheckpointGood, Context.Increasing;
    var t := ApplyAdmission(s, e).value;
    IncreasingAppend(s.items, t.items[|s.items|]);
    CheckpointLater(s.checkpoint, s.items, [t.items[|s.items|]]);
    assert t.items[..|t.items| - 1] == s.items;
  }

  lemma PreparedOrderly(s: RuntimeData, e: Event)
    requires Orderly(s) && e.OutputPrepared? && ApplyPrepared(s, e).Ok?
    ensures Orderly(ApplyPrepared(s, e).value)
  {
    hide ContextOk, CheckpointGood, Context.Increasing;
    var t := ApplyPrepared(s, e).value;
    IncreasingAppend(s.items, t.items[|s.items|]);
    CheckpointLater(s.checkpoint, s.items, [t.items[|s.items|]]);
  }

  lemma CheckpointOrderly(s: RuntimeData, checkpoint: Checkpoint)
    requires Orderly(s) && ApplyCheckpoint(s, checkpoint).Ok?
    ensures Orderly(ApplyCheckpoint(s, checkpoint).value)
  {
    hide ContextOk, Context.Increasing, Context.ValidateAgainst;
    assert s.items[..|s.items|] == s.items;
    assert AgreesTo(checkpoint, s.items, |s.items|);
  }

  /** Events that neither add items nor change the checkpoint. */
  predicate KeepsItems(e: Event) {
    !e.TurnAdmitted? && !e.OutputPrepared? && !e.CheckpointPublished?
  }

  lemma ItemsKeptBy(s: RuntimeData, e: Event)
    requires Apply(s, e).Ok? && KeepsItems(e)
    ensures var t := Apply(s, e).value; t.items == s.items && t.checkpoint == s.checkpoint
    ensures !e.AssistantStarted? ==> Apply(s, e).value.nextItem == s.nextItem
  {
    hide ReasonValid, WindowsValid, FrozenMatches, ExpectedCost, AttemptOf;
  }

  /** Where the pending Turn of such an event came from. */
  lemma PendingKeptBy(s: RuntimeData, e: Event)
    requires PartPending(s) && Apply(s, e).Ok? && KeepsItems(e) && Apply(s, e).value.pending.Some?
    ensures var t := Apply(s, e).value;
            && s.pending.Some? && t.pending.value.turn == s.pending.value.turn
            && (t.pending.value.phase.Prepared? <==> s.pending.value.phase.Prepared?)
            && s.pending.value.turn in s.turns && t.turns == s.turns
            && (t.pending.value.phase.Streaming? && !e.AssistantStarted? ==>
                  s.pending.value.phase.Streaming? && t.pending.value.assistantItem == s.pending.value.assistantItem)
            && (e.AssistantStarted? ==> t.pending.value.assistantItem == Some(e.item))
  {
    hide ReasonValid, WindowsValid, FrozenMatches, ExpectedCost, AttemptOf, ActiveCandidate;
  }

  lemma KeepsItemsOrderly(s: RuntimeData, e: Event)
    requires PartPending(s) && Orderly(s) && LiveEvent(s, e) && Apply(s, e).Ok? && KeepsItems(e) && BelowNext(s)
    ensures Orderly(Apply(s, e).value)
  {
    ItemsKeptBy(s, e);
    if Apply(s, e).value.pending.Some? {
      PendingKeptBy(s, e);
    }
    hide Apply, ContextOk, CheckpointGood, Context.Increasing;
  }

  predicate BelowNext(s: RuntimeData) {
    forall i :: 0 <= i < |s.items| ==> s.items[i].id < s.nextItem
  }

  lemma KeptBelow(s: RuntimeData)
    requires Kept(s)
    ensures PartPending(s) && PartItems(s) && BelowNext(s)
  {
    hide PartPending, PartTurns, PartAttempts, PartCosts;
  }

  lemma AppliesBy(s: RuntimeData, e: Event)
    requires Apply(s, e).Ok?
    ensures e.TurnAdmitted? ==> Apply(s, e) == ApplyAdmission(s, e)
    ensures e.OutputPrepared? ==> Apply(s, e) == ApplyPrepared(s, e)
    ensures e.CheckpointPublished? ==> Apply(s, e) == ApplyCheckpoint(s, e.checkpoint)
  {
    hide ApplyAdmission, ApplyPrepared, ApplyCheckpoint;
  }

  lemma OrderlyKeeps(s: RuntimeData, e: Event)
    requires Kept(s) && Orderly(s) && LiveEvent(s, e) && Apply(s, e).Ok?
    ensures Orderly(Apply(s, e).value)
  {
    hide Kept, Orderly, LiveEvent, Apply, PartPending, PartItems, BelowNext, ApplyAdmission, ApplyPrepared, ApplyCheckpoint;
    KeptBelow(s);
    AppliesBy(s, e);
    if e.TurnAdmitted? {
      AdmissionOrderly(s, e);
    } else if e.OutputPrepared? {
      PreparedOrderly(s, e);
    } else if e.CheckpointPublished? {
      CheckpointOrderly(s, e.checkpoint);
    } else {
      KeepsItemsOrderly(s, e);
    }
  }

  // ---------- planned transactions name items in order ----------

  ghost predicate LiveAll(s: RuntimeData, events: seq<Event>)
    decreases |events|
  {
    |events| == 0 || (LiveEvent(s, events[0]) && (Apply(s, events[0]).Ok? ==> LiveAll(Apply(s, events[0]).value, events[1..])))
  }

  lemma {:induction false} OrderlyAll(s: RuntimeData, events: seq<Event>)
    requires Kept(s) && AssistantNew(s) && Orderly(s) && LiveAll(s, events) && ApplyAll(s, events).Ok?
    ensures Kept(ApplyAll(s, events).value) && AssistantNew(ApplyAll(s, events).value) && Orderly(ApplyAll(s, events).value)
    decreases |events|
  {
    hide Kept, AssistantNew, Orderly, Apply, LiveEvent;
    if |events| > 0 {
      ApplyKeeps(s, events[0]);
      OrderlyKeeps(s, events[0]);
      OrderlyAll(Apply(s, events[0]).value, events[1..]);
    }
  }

  predicate NamesNothing(events: seq<Event>) {
    forall i :: 0 <= i < |events| ==> !events[i].TurnAdmitted? && !events[i].AssistantStarted?
  }

  lemma {:induction false} NamesNothingLive(s: RuntimeData, events: seq<Event>)
    requires NamesNothing(events)
    ensures LiveAll(s, events)
    decreases |events|
  {
    hide Apply, ContextOk;
    if |events| > 0 && Apply(s, events[0]).Ok? {
      NamesNothingLive(Apply(s, events[0]).value, events[1..]);
    }
  }

  predicate Quiet(events: seq<Event>) {
    forall i :: 0 <= i < |events| ==> KeepsItems(events[i]) && !events[i].AssistantStarted?
  }

  /** One naming event after quiet ones and before others that name nothing. */
  lemma {:induction false} LiveSplit(s: RuntimeData, before: seq<Event>, e: Event, after: seq<Event>)
    requires Quiet(before) && NamesNothing(after) && LiveEvent(s, e)
    ensures LiveAll(s, before + [e] + after)
    decreases |before|
  {
    hide Apply, ContextOk;
    var all := before + [e] + after;
    if |before| == 0 {
      assert all[0] == e && all[1..] == after;
      if Apply(s, e).Ok? {
        NamesNothingLive(Apply(s, e).value, after);
      }
    } else {
      assert all[0] == before[0] && all[1..] == before[1..] + [e] + after;
      if Apply(s, before[0]).Ok? {
        ItemsKeptBy(s, before[0]);
        LiveSplit(Apply(s, before[0]).value, before[1..], e, after);
      }
    }
  }

  lemma {:induction false} SnapshotsQuiet(s: RuntimeData, a: Admission, i: nat)
    requires i <= |a.fallbacks| + 1 && s.nextConfig + |a.fallbacks| <= U64_MAX && s.nextProvider + |a.fallbacks| <= U64_MAX
    ensures Quiet(SnapshotEvents(s, a, i))
    decreases |a.fallbacks| + 1 - i
  {
    if i <= |a.fallbacks| {
      SnapshotsQuiet(s, a, i + 1);
    }
  }

  lemma AdmitLive(s: RuntimeData, head: Context.Head, a: Admission)
    requires PlanAdmit(s, head, a).Ok?
    ensures LiveAll(s, PlanAdmit(s, head, a).value) && !exists e <- PlanAdmit(s, head, a).value :: e.CheckpointPublished?
  {
    hide InputValid, SelectionMatches, SnapshotEvents, LiveAll, ContextFor, ContextOk, SelectionFits;
    HeadIrrelevant(s, head, s.items);
    SnapshotsQuiet(s, a, 0);
    var before := (if s.thread.None? then [ThreadCreated(s.nextThread)] else []) + SnapshotEvents(s, a, 0);
    LiveSplit(s, before, Admitting(s, a), []);
    assert before + [Admitting(s, a)] + [] == AdmissionEvents(s, a);
  }

  lemma FinishQuiet(s: RuntimeData, turn: Id, attempt: U32, now: int, outcome: Outcome, usage: Option<UsageRecord>, inside: set<int>)
    ensures var plan := FinishEvents(s, turn, attempt, now, outcome, usage, inside); plan.Ok? ==> Quiet(plan.value)
  {
    hide WindowsInside, ExpectedCost, AttemptOf, FreezeCost;
  }

  lemma PrepareLive(s: RuntimeData, turn: Id, attempt: U32, now: int, deltas: seq<string>, digest: nat,
                    usageRecords: seq<UsageRecord>, current: UsageRecord, inside: set<int>)
    ensures var plan := PlanPrepare(s, turn, attempt, now, deltas, digest, usageRecords, current, inside);
            plan.Ok? ==> LiveAll(s, plan.value) && !exists e <- plan.value :: e.CheckpointPublished?
  {
    hide FinishEvents, LiveAll, BoundedReason, Joined;
    FinishQuiet(s, turn, attempt, now, UsageModel.Succeeded, Some(current), inside);
    var plan := PlanPrepare(s, turn, attempt, now, deltas, digest, usageRecords, current, inside);
    var finish := FinishEvents(s, turn, attempt, now, UsageModel.Succeeded, Some(current), inside);
    if plan.Ok? {
      if |plan.value| == |finish.value| + 1 {
        NamesNothingLive(s, plan.value);
      } else {
        var after := DeltaEvents(turn, s.nextItem, deltas) + [OutputPrepared(turn, s.nextItem, s.nextDelivery, Joined(deltas), digest, usageRecords)];
        LiveSplit(s, finish.value, AssistantStarted(turn, s.nextItem), after);
        assert plan.value == finish.value + [AssistantStarted(turn, s.nextItem)] + after;
      }
    }
  }

  /** Every planned transaction names items in order, and a checkpoint it holds is alone and bound to the head. */
  lemma PlansLive(s: RuntimeData, head: Context.Head, step: Step)
    requires PlanStep(s, head, step).Ok?
    ensures LiveAll(s, PlanStep(s, head, step).value) && CheckpointBound(PlanStep(s, head, step).value, head)
  {
    hide LiveAll, FinishEvents, BoundedReason;
    match step
    case Admit(admission) =>
      hide PlanAdmit;
      AdmitLive(s, head, admission);
    case Prepare(turn, attempt, now, deltas, digest, usageRecords, current, inside) =>
      hide PlanPrepare;
      PrepareLive(s, turn, attempt, now, deltas, digest, usageRecords, current, inside);
    case Begin(turn, now, inside) =>
      if s.pending.Some? && s.pending.value.open.Some? {
        FinishQuiet(s, turn, s.pending.value.open.value.attempt, now, UsageModel.Interrupted, None, inside);
      }
      NamesNothingLive(s, PlanStep(s, head, step).value);
    case Finish(turn, attempt, now, outcome, usage, inside) =>
      FinishQuiet(s, turn, attempt, now, outcome, usage, inside);
      NamesNothingLive(s, PlanStep(s, head, step).value);
    case FinishAndBlock(turn, attempt, now, outcome, usage, inside, reason, stage) =>
      FinishQuiet(s, turn, attempt, now, outcome, usage, inside);
      NamesNothingLive(s, PlanStep(s, head, step).value);
    case _ =>
      NamesNothingLive(s, PlanStep(s, head, step).value);
  }

  // ---------- the invariant of every run ----------

  ghost predicate Good(s: RuntimeData) {
    Kept(s) && AssistantNew(s) && Orderly(s) && Numbered(s) && (s == EMPTY || Quiescent(s))
  }

  lemma CommitGood(s: RuntimeData, events: seq<Event>)
    requires Good(s) && LiveAll(s, events) && Commit(s, events).Ok?
    ensures Good(Commit(s, events).value)
  {
    hide Kept, AssistantNew, Orderly, Numbered, Quiescent, LiveAll;
    OrderlyAll(s, events);
    NumberedAll(s, events);
  }

  lemma EmptyGood()
    ensures Good(EMPTY)
  {
    EmptyKept();
    hide Kept;
  }

  ghost predicate GoodThroughout(txns: seq<Transaction>) {
    HeadFits(txns) && forall k :: 0 <= k <= |txns| ==> GoodAt(txns, k)
  }

  ghost predicate GoodAt(txns: seq<Transaction>, k: nat)
    requires k <= |txns|
  {
    HeadFits(txns[..k]) && Replay(txns[..k]).Ok? && Good(Replay(txns[..k]).value)
  }

  ghost predicate Safe(w: World) {
    && w.synced <= |w.txns| && GoodThroughout(w.txns)
    && (w.memory.Some? ==> Good(w.memory.value.state))
    && (w.memory.Some? && !w.memory.value.poisoned ==> Replay(w.txns) == Ok(w.memory.value.state))
  }

  lemma ReplayMore(txns: seq<Transaction>, txn: Transaction)
    requires HeadFits(txns + [txn])
    ensures HeadFits(txns)
    ensures Replay(txns).Ok? ==> Replay(txns + [txn]) == ReplayTransaction(Replay(txns).value, LedgerHead(txns), txn)
  {
    hide ReplayTransaction;
    HeadFitsBefore(txns + [txn]);
    assert (txns + [txn])[..|txns|] == txns;
  }

  lemma GoodMore(txns: seq<Transaction>, txn: Transaction)
    requires GoodThroughout(txns) && HeadFits(txns + [txn]) && Replay(txns + [txn]).Ok? && Good(Replay(txns + [txn]).value)
    ensures GoodThroughout(txns + [txn])
  {
    hide Good, Replay, HeadFits;
    var more := txns + [txn];
    forall k | 0 <= k <= |more|
      ensures GoodAt(more, k)
    {
      if k <= |txns| {
        assert more[..k] == txns[..k];
        assert GoodAt(txns, k);
      } else {
        assert more[..k] == more;
      }
    }
  }

  lemma GoodPrefix(txns: seq<Transaction>, k: nat)
    requires GoodThroughout(txns) && k <= |txns|
    ensures GoodThroughout(txns[..k])
  {
    hide Good, Replay, HeadFits;
    assert GoodAt(txns, k);
    forall j | 0 <= j <= k
      ensures GoodAt(txns[..k], j)
    {
      assert txns[..k][..j] == txns[..j];
      assert GoodAt(txns, j);
    }
  }

  lemma GoodWhole(txns: seq<Transaction>)
    requires GoodThroughout(txns)
    ensures HeadFits(txns) && Replay(txns).Ok? && Good(Replay(txns).value)
  {
    hide Good, Replay, HeadFits;
    assert txns[..|txns|] == txns;
    assert GoodAt(txns, |txns|);
  }

  lemma CommitSafe(w: World, m: Memory, events: seq<Event>, write: WriteOutcome)
    requires Safe(w) && w.memory == Some(m) && LiveAll(m.state, events) && HeadFits(w.txns) && CheckpointBound(events, LedgerHead(w.txns))
    ensures Safe(CommitTo(w, m, events, write))
  {
    hide Good, Commit, LiveAll, Replay, HeadFits, GoodThroughout, CheckpointBound;
    if Commit(m.state, events).Ok? && !m.poisoned && !write.Refused? && HeadFits(w.txns + [events]) {
      CommitGood(m.state, events);
      ReplayMore(w.txns, events);
      GoodMore(w.txns, events);
    }
  }

  lemma MoveSafe(w: World, move: Move)
    requires Safe(w)
    ensures Safe(Perform(w, move))
  {
    hide Good, Commit, LiveAll, Replay, HeadFits, GoodThroughout, CheckpointBound, PlanStep, CommitTo;
    match move
    case Act(step, write) =>
      if w.memory.Some? && HeadFits(w.txns) {
        var m := w.memory.value;
        var plan := PlanStep(m.state, LedgerHead(w.txns), step);
        if plan.Ok? {
          PlansLive(m.state, LedgerHead(w.txns), step);
          CommitSafe(w, m, plan.value, write);
        }
      }
    case Crash(kept) => GoodPrefix(w.txns, Surviving(|w.txns|, w.synced, kept));
    case Open => GoodWhole(w.txns);
  }

  lemma {:induction false} RunSafe(moves: seq<Move>)
    ensures Safe(Run(NEW_WORLD, moves))
    decreases |moves|
  {
    hide Safe, Perform;
    if |moves| == 0 {
      NewWorldSafe();
    } else {
      RunSafe(moves[..|moves| - 1]);
      MoveSafe(Run(NEW_WORLD, moves[..|moves| - 1]), moves[|moves| - 1]);
    }
  }

  lemma NewWorldSafe()
    ensures Safe(NEW_WORLD)
  {
    EmptyGood();
    hide Good;
    var none: seq<Transaction> := [];
    assert none[..0] == none;
    assert GoodAt(none, 0);
  }

  // ---------- what every run promises ----------

  /** Replay is live: every ledger a run leaves replays, an unpoisoned kernel remembers exactly that replay, and a
      closed one reopens to it. */
  lemma ReplayIsLive(moves: seq<Move>)
    ensures var w := Run(NEW_WORLD, moves);
            && HeadFits(w.txns) && Replay(w.txns).Ok?
            && (w.memory.Some? && !w.memory.value.poisoned ==> w.memory.value.state == Replay(w.txns).value)
            && (w.memory.None? ==> Perform(w, Open).memory == Some(Memory(Replay(w.txns).value, false)))
  {
    hide Run, Replay, HeadFits, GoodThroughout, Good;
    RunSafe(moves);
    GoodWhole(Run(NEW_WORLD, moves).txns);
  }

  lemma MemoryGood(moves: seq<Move>)
    ensures var w := Run(NEW_WORLD, moves); w.memory.Some? ==> Good(w.memory.value.state)
  {
    hide Run, Replay, HeadFits, GoodThroughout, Good;
    RunSafe(moves);
  }

  /** One life for each Turn. */
  ghost predicate OneLife(s: RuntimeData, turn: Id)
    requires turn in s.turns
  {
    var record := s.turns[turn];
    var pending := s.pending.Some? && s.pending.value.turn == turn;
    && (pending || record.completed || record.cancelled)
    && !(pending && record.completed) && !(pending && record.cancelled) && !(record.completed && record.cancelled)
    && (record.completed ==> record.delivery.Some? && record.delivery.value in s.acknowledged)
    && Sequential(Numbers(s.usage, turn))
    && (pending ==> |Numbers(s.usage, turn)| == FinishedAttempts(s.pending.value))
    && (pending && s.pending.value.open.Some? ==> s.pending.value.open.value.attempt == |Numbers(s.usage, turn)| + 1)
  }

  lemma GoodTurn(s: RuntimeData, turn: Id)
    requires Good(s) && turn in s.turns
    ensures OneLife(s, turn)
  {
    hide Orderly, Quiescent, AssistantNew, Numbered, ItemsKept, CostsKept, ActiveCandidate, Numbers;
    assert TurnKept(turn, s.turns[turn], s.configs.Keys, s.providers.Keys, s.items, OpenTurn(s.pending), s.acknowledged);
  }

  /** At rest in every run: each Turn is exactly one of pending, completed and cancelled; a completed one's delivery was
      acknowledged; its attempts are numbered from one without gaps with at most one open after them; and every recorded
      attempt is priced by recomputation from a candidate frozen for its Turn. */
  lemma TurnsLiveOnce(moves: seq<Move>)
    ensures var w := Run(NEW_WORLD, moves);
            w.memory.Some? ==>
              var s := w.memory.value.state;
              && (forall turn <- s.turns :: OneLife(s, turn))
              && (forall i :: 0 <= i < |s.usage| ==> Priced(s.usage[i], s.turns, s.configs, s.providers))
  {
    hide Run, Good, OneLife, Priced;
    MemoryGood(moves);
    var w := Run(NEW_WORLD, moves);
    if w.memory.Some? {
      var s := w.memory.value.state;
      forall turn <- s.turns
        ensures OneLife(s, turn)
      {
        GoodTurn(s, turn);
      }
      GoodPriced(s);
    }
  }

  lemma GoodPriced(s: RuntimeData)
    requires Good(s)
    ensures forall i :: 0 <= i < |s.usage| ==> Priced(s.usage[i], s.turns, s.configs, s.providers)
  {
    hide Orderly, AssistantNew, PartPending, PartTurns, PartItems, PartAttempts, Priced, MadeBy, TurnComplete, SnapshotCount;
  }

  /** In every run the snapshots a pending Turn works with are those of the frozen candidate at its fallback index. */
  lemma ActiveIsCandidate(moves: seq<Move>)
    ensures var w := Run(NEW_WORLD, moves);
            w.memory.Some? && w.memory.value.state.pending.Some? ==>
              var s, p := w.memory.value.state, w.memory.value.state.pending.value;
              && p.turn in s.turns && p.fallbackIndex <= |s.turns[p.turn].fallbacks|
              && p.config == CandidateConfig(s.turns[p.turn], p.fallbackIndex) && p.config in s.configs
              && p.provider == CandidateProvider(s.turns[p.turn], p.fallbackIndex) && p.provider in s.providers
  {
    hide Run, Good;
    MemoryGood(moves);
    var w := Run(NEW_WORLD, moves);
    if w.memory.Some? && w.memory.value.state.pending.Some? {
      GoodCandidate(w.memory.value.state);
    }
  }

  lemma GoodCandidate(s: RuntimeData)
    requires Good(s) && s.pending.Some?
    ensures var p := s.pending.value;
            && p.turn in s.turns && p.fallbackIndex <= |s.turns[p.turn].fallbacks|
            && p.config == CandidateConfig(s.turns[p.turn], p.fallbackIndex) && p.config in s.configs
            && p.provider == CandidateProvider(s.turns[p.turn], p.fallbackIndex) && p.provider in s.providers
  {
    hide Orderly, Quiescent, AssistantNew, ItemsKept, CostsKept, AttemptsKept, PhaseKept;
    var p := s.pending.value;
    assert TurnKept(p.turn, s.turns[p.turn], s.configs.Keys, s.providers.Keys, s.items, OpenTurn(s.pending), s.acknowledged);
  }

  /** Items rise strictly in every run, and the context an unprepared Turn works with is always available: the checkpoint,
      however old, still agrees with the history before the Turn's user item. */
  lemma ContextNeverLost(moves: seq<Move>, head: Context.Head)
    ensures var w := Run(NEW_WORLD, moves);
            w.memory.Some? ==>
              var s := w.memory.value.state;
              && Context.Increasing(s.items)
              && (s.pending.Some? && !s.pending.value.phase.Prepared? ==>
                    && |s.items| > 0 && s.pending.value.turn in s.turns && s.items[|s.items| - 1].id == s.turns[s.pending.value.turn].userItem
                    && ContextFor(s, head, s.items[..|s.items| - 1]).Ok?)
  {
    hide Run, Good, ContextFor, ContextOk, Context.Increasing;
    MemoryGood(moves);
    var w := Run(NEW_WORLD, moves);
    if w.memory.Some? {
      var s := w.memory.value.state;
      GoodOrderly(s);
      if |s.items| > 0 {
        HeadIrrelevant(s, head, s.items[..|s.items| - 1]);
      }
    }
  }

  lemma GoodOrderly(s: RuntimeData)
    requires Good(s)
    ensures Orderly(s)
  {
    hide Kept, Orderly, Quiescent;
  }

  /** Before a new Turn the context can be refused for size only: too many items or too many visible bytes, never
      because a checkpoint no longer matches. */
  lemma ContextRefusedForSizeOnly(moves: seq<Move>, head: Context.Head)
    ensures var w := Run(NEW_WORLD, moves);
            w.memory.Some? ==>
              var s := w.memory.value.state;
              match ContextFor(s, head, s.items)
              case Ok(_) => true
              case Err(error) => error.TooManyItems? || error.ViewTooLarge?
  {
    hide Run, Good;
    MemoryGood(moves);
    var w := Run(NEW_WORLD, moves);
    if w.memory.Some? {
      GoodOrderly(w.memory.value.state);
      OrderlyContext(w.memory.value.state, head);
    }
  }

  lemma OrderlyContext(s: RuntimeData, head: Context.Head)
    requires Orderly(s)
    ensures match ContextFor(s, head, s.items)
            case Ok(_) => true
            case Err(error) => error.TooManyItems? || error.ViewTooLarge?
  {
    hide Context.Materialize, Context.ValidateAgainst, ContextOk, ContextReady, AssistantAbove;
    if s.checkpoint.Some? {
      var n: nat :| AgreesTo(s.checkpoint.value, s.items, n);
      assert s.items[..n] + s.items[n..] == s.items;
      Context.MaterializeStable(s.checkpoint.value, s.items[..n], s.items[n..]);
    } else {
      RisingViewErrors(head, s.items);
    }
  }

  lemma RisingViewErrors(head: Context.Head, items: seq<Item>)
    requires Context.Increasing(items)
    ensures match Context.RequestFromItems(head, items)
            case Ok(_) => true
            case Err(error) => error.TooManyItems? || error.ViewTooLarge?
  {
    hide Context.Visible, Context.ProjectAll;
    AdvanceErrors(items, |items|);
  }

  lemma {:induction false} AdvanceErrors(items: seq<Item>, i: nat)
    requires Context.Increasing(items) && i <= |items|
    ensures match Context.Advance(items, i)
            case Ok(p) => p.last == if i == 0 then 0 else items[i - 1].id
            case Err(error) => error.ViewTooLarge?
    decreases i
  {
    if i > 0 {
      AdvanceErrors(items, i - 1);
    }
  }

  // ---------- nothing durable is undone ----------

  /** The part of advancing that carries over any number of transactions. */
  ghost predicate Grows(s: RuntimeData, t: RuntimeData) {
    && s.items <= t.items && s.acknowledged <= t.acknowledged && SnapshotsAdvance(s, t) && TurnsAdvance(s.turns, t.turns)
    && UsageAdvances(s.usage, t.usage)
  }

  lemma TurnsChain(a: map<Id, TurnRecord>, b: map<Id, TurnRecord>, c: map<Id, TurnRecord>)
    requires TurnsAdvance(a, b) && TurnsAdvance(b, c)
    ensures TurnsAdvance(a, c)
  {
    forall k <- a
      ensures k in c && TurnAdvances(a[k], c[k])
    {
      assert k in b && TurnAdvances(a[k], b[k]) && TurnAdvances(b[k], c[k]);
    }
  }

  lemma UsageChain(a: seq<Attempt>, b: seq<Attempt>, c: seq<Attempt>)
    requires UsageAdvances(a, b) && UsageAdvances(b, c)
    ensures UsageAdvances(a, c)
  {
    forall i | 0 <= i < |a|
      ensures AttemptAdvances(a[i], c[i])
    {
      assert AttemptAdvances(a[i], b[i]) && AttemptAdvances(b[i], c[i]);
    }
  }

  lemma GrowsChain(a: RuntimeData, b: RuntimeData, c: RuntimeData)
    requires Grows(a, b) && Grows(b, c)
    ensures Grows(a, c)
  {
    TurnsChain(a.turns, b.turns, c.turns);
    UsageChain(a.usage, b.usage, c.usage);
    SnapshotsChain(a, b, c);
    hide TurnsAdvance, UsageAdvances, SnapshotsAdvance;
  }

  lemma SnapshotsChain(a: RuntimeData, b: RuntimeData, c: RuntimeData)
    requires SnapshotsAdvance(a, b) && SnapshotsAdvance(b, c)
    ensures SnapshotsAdvance(a, c)
  {
  }

  lemma GrowsSame(s: RuntimeData)
    ensures Grows(s, s)
  {
  }

  lemma {:induction false} ApplyAllGrows(s: RuntimeData, events: seq<Event>)
    requires Kept(s) && AssistantNew(s) && ApplyAll(s, events).Ok?
    ensures Grows(s, ApplyAll(s, events).value)
    decreases |events|
  {
    hide Kept, AssistantNew, Apply, SnapshotsAdvance, TurnsAdvance, UsageAdvances, PendingAdvances;
    if |events| == 0 {
      GrowsSame(s);
    } else {
      var next := Apply(s, events[0]).value;
      ApplyAdvances(s, events[0]);
      ApplyKeeps(s, events[0]);
      ApplyAllGrows(next, events[1..]);
      GrowsChain(s, next, ApplyAll(s, events).value);
    }
  }

  lemma CommitGrows(s: RuntimeData, head: Context.Head, txn: Transaction)
    requires Good(s) && ReplayTransaction(s, head, txn).Ok?
    ensures Grows(s, ReplayTransaction(s, head, txn).value)
  {
    hide Kept, AssistantNew, Orderly, Quiescent, Grows, CheckpointBound;
    ApplyAllGrows(s, txn);
  }

  /** Every later state of a ledger keeps what an earlier one had: items, acknowledgements, snapshots, attempts, plans,
      and the records of completed and cancelled Turns. */
  lemma {:induction false} ReplayGrows(txns: seq<Transaction>, k: nat)
    requires GoodThroughout(txns) && k <= |txns|
    ensures HeadFits(txns) && Replay(txns).Ok? && HeadFits(txns[..k]) && Replay(txns[..k]).Ok?
    ensures Grows(Replay(txns[..k]).value, Replay(txns).value)
    decreases |txns|
  {
    hide Good, ReplayTransaction, Grows, GoodThroughout;
    GoodWhole(txns);
    if k == |txns| {
      assert txns[..k] == txns;
      GrowsSame(Replay(txns).value);
    } else {
      var before := txns[..|txns| - 1];
      GoodPrefix(txns, |txns| - 1);
      GoodWhole(before);
      ReplayGrows(before, k);
      assert before[..k] == txns[..k];
      CommitGrows(Replay(before).value, LedgerHead(before), txns[|txns| - 1]);
      GrowsChain(Replay(txns[..k]).value, Replay(before).value, Replay(txns).value);
    }
  }

  ghost predicate Extends(w: World, v: World) {
    w.synced <= |w.txns| && v.synced <= |v.txns| && w.txns[..w.synced] <= v.txns[..v.synced]
  }

  lemma MoveExtends(w: World, move: Move)
    requires w.synced <= |w.txns|
    ensures Extends(w, Perform(w, move))
  {
    hide Commit, PlanStep, HeadFits, Replay;
    match move
    case Act(step, write) =>
      if w.memory.Some? && HeadFits(w.txns) {
        var plan := PlanStep(w.memory.value.state, LedgerHead(w.txns), step);
        if plan.Ok? {
          assert (w.txns + [plan.value])[..w.synced] == w.txns[..w.synced];
          assert (w.txns + [plan.value])[..|w.txns| + 1] == w.txns + [plan.value];
        }
      }
    case Crash(kept) =>
      assert w.txns[..Surviving(|w.txns|, w.synced, kept)][..w.synced] == w.txns[..w.synced];
    case Open =>
  }

  lemma {:induction false} RunExtends(w: World, moves: seq<Move>)
    requires w.synced <= |w.txns|
    ensures Extends(w, Run(w, moves))
    decreases |moves|
  {
    hide Perform;
    if |moves| > 0 {
      RunExtends(w, moves[..|moves| - 1]);
      MoveExtends(Run(w, moves[..|moves| - 1]), moves[|moves| - 1]);
    }
  }

  lemma {:induction false} RunsJoin(w: World, first: seq<Move>, second: seq<Move>)
    ensures Run(w, first + second) == Run(Run(w, first), second)
    decreases |second|
  {
    hide Perform;
    if |second| == 0 {
      assert first + second == first;
    } else {
      RunsJoin(w, first, second[..|second| - 1]);
      assert (first + second)[..|first + second| - 1] == first + second[..|second| - 1];
    }
  }

  /** Whatever a run made durable, every later point of it still has: items, acknowledgements, attempts, plans, and
      completed and cancelled Turns exactly as they were. */
  lemma DurableForever(before: seq<Move>, after: seq<Move>)
    ensures var w, v := Run(NEW_WORLD, before), Run(NEW_WORLD, before + after);
            && w.synced <= |w.txns| && HeadFits(w.txns[..w.synced]) && Replay(w.txns[..w.synced]).Ok?
            && HeadFits(v.txns) && Replay(v.txns).Ok?
            && Grows(Replay(w.txns[..w.synced]).value, Replay(v.txns).value)
            && (v.memory.Some? && !v.memory.value.poisoned ==> Grows(Replay(w.txns[..w.synced]).value, v.memory.value.state))
  {
    hide Run, Replay, HeadFits, GoodThroughout, Good, Grows;
    var w, v := Run(NEW_WORLD, before), Run(NEW_WORLD, before + after);
    RunSafe(before);
    RunSafe(before + after);
    RunsJoin(NEW_WORLD, before, after);
    RunExtends(w, after);
    assert w.txns[..w.synced] == v.txns[..w.synced];
    ReplayGrows(v.txns, w.synced);
  }
}
