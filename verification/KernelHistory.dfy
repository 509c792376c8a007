/**
 What every log of a run looks like, and what its admissions leave true of the
 state: attempts are priced where they are finished, configurations stay as
 they were frozen, and a checkpoint can always be taken at the head.
 */
module KernelHistory {
  import opened Prelude
  import opened KernelModel
  import opened KernelInvariant
  import opened KernelPlan
  import opened KernelRuns
  import opened KernelAccepted
  import opened KernelRuntime
  import Context

  // ---------- every attempt is priced where it is finished ----------

  /** The cost of exactly that finished attempt. */
  predicate CostOf(finished: Event, costed: Event) {
    finished.AttemptFinished? && costed.AttemptCosted? && costed.turn == finished.turn && costed.attempt == finished.attempt
  }

  /** Each finish is directly followed by its cost, and each cost directly preceded by its finish. */
  ghost predicate Paired(events: seq<Event>) {
    && (forall i :: 0 <= i < |events| && events[i].AttemptFinished? ==> i + 1 < |events| && CostOf(events[i], events[i + 1]))
    && (forall i :: 0 <= i < |events| && events[i].AttemptCosted? ==> i > 0 && CostOf(events[i - 1], events[i]))
  }

  lemma DebtAfter(s: RuntimeData, e: Event)
    requires Apply(s, e).Ok?
    ensures s.pendingCost.Some? ==> e.AttemptCosted? && s.pendingCost == Some((e.turn, e.attempt))
    ensures e.AttemptCosted? ==> s.pendingCost == Some((e.turn, e.attempt))
    ensures Apply(s, e).value.pendingCost
            == if e.AttemptFinished? then Some((e.turn, e.attempt)) else if e.AttemptCosted? then None else s.pendingCost
  {
    hide InputValid, SelectionMatches, FallbacksValid, ReasonValid, WindowsValid, FrozenMatches, ExpectedCost, Context.ValidateAgainst,
         AttemptOf, ObserveId, ItemText, Recorded, CleanlyBlocked;
  }

  lemma PairedOther(first: Event, rest: seq<Event>)
    requires !first.AttemptFinished? && !first.AttemptCosted? && Paired(rest)
    ensures Paired([first] + rest)
  {
    var all := [first] + rest;
    assert forall i :: 0 < i < |all| ==> all[i] == rest[i - 1];
  }

  lemma PairedFinish(first: Event, second: Event, rest: seq<Event>)
    requires CostOf(first, second) && Paired(rest)
    ensures Paired([first, second] + rest)
  {
    var all := [first, second] + rest;
    assert all[0] == first && all[1] == second;
    assert forall i :: 1 < i < |all| ==> all[i] == rest[i - 2];
  }

  lemma {:induction false} SettledIsPaired(s: RuntimeData, events: seq<Event>)
    requires s.pendingCost.None? && ApplyAll(s, events).Ok? && ApplyAll(s, events).value.pendingCost.None?
    ensures Paired(events)
    decreases |events|
  {
    hide Apply, Paired, CostOf;
    if |events| == 0 {
      NonePaired();
    } else {
      var next := Apply(s, events[0]).value;
      DebtAfter(s, events[0]);
      if events[0].AttemptFinished? {
        assert |events| > 1;
        assert events[1..][0] == events[1] && events[1..][1..] == events[2..];
        DebtAfter(next, events[1]);
        SettledIsPaired(Apply(next, events[1]).value, events[2..]);
        PaidFor(events[0], events[1]);
        PairedFinish(events[0], events[1], events[2..]);
        assert [events[0], events[1]] + events[2..] == events;
      } else {
        SettledIsPaired(next, events[1..]);
        PairedOther(events[0], events[1..]);
        assert [events[0]] + events[1..] == events;
      }
    }
  }

  lemma NonePaired()
    ensures Paired([])
  {
  }

  lemma PaidFor(finished: Event, costed: Event)
    requires finished.AttemptFinished? && costed.AttemptCosted? && (costed.turn, costed.attempt) == (finished.turn, finished.attempt)
    ensures CostOf(finished, costed)
  {
  }

  lemma CommitPaired(s: RuntimeData, head: Context.Head, txn: Transaction)
    requires Good(s) && ReplayTransaction(s, head, txn).Ok?
    ensures Paired(txn)
  {
    assert s.pendingCost.None?;
    hide Kept, TurnComplete, ApplyAll, Paired, Orderly, CheckpointBound;
    SettledIsPaired(s, txn);
  }

  /** In the log of every run each finished attempt is directly followed by its cost, and nothing else is ever priced. */
  lemma AttemptsPricedAtOnce(moves: seq<Move>)
    ensures forall txn <- Run(NEW_WORLD, moves).txns :: Paired(txn)
  {
    hide Run, Replay, HeadFits, Good, Paired, ReplayTransaction;
    RunSafe(moves);
    var txns := Run(NEW_WORLD, moves).txns;
    forall txn <- txns
      ensures Paired(txn)
    {
      var k :| 0 <= k < |txns| && txns[k] == txn;
      assert GoodAt(txns, k) && GoodAt(txns, k + 1);
      assert txns[..k] + [txn] == txns[..k + 1];
      ReplayMore(txns[..k], txn);
      CommitPaired(Replay(txns[..k]).value, LedgerHead(txns[..k]), txn);
    }
  }

  // ---------- configurations stay as they were frozen ----------

  predicate SaneEvent(e: Event) {
    e.ConfigFrozen? ==> Sane(e.epoch)
  }

  predicate SaneEvents(events: seq<Event>) {
    forall e <- events :: SaneEvent(e)
  }

  /** Configurations handed to an admission are as freezing makes them. */
  predicate SaneMove(move: Move) {
    move.Act? && move.step.Admit? ==> Sane(move.step.admission.config) && forall c <- move.step.admission.fallbacks :: Sane(c.config)
  }

  lemma SaneApply(s: RuntimeData, e: Event)
    requires SaneConfigs(s) && SaneEvent(e) && Apply(s, e).Ok?
    ensures SaneConfigs(Apply(s, e).value)
  {
    hide Sane, InputValid, SelectionMatches, FallbacksValid, ReasonValid, WindowsValid, FrozenMatches, ExpectedCost, Context.ValidateAgainst,
         AttemptOf, ObserveId, ItemText, Recorded, CleanlyBlocked;
  }

  lemma {:induction false} SaneApplyAll(s: RuntimeData, events: seq<Event>)
    requires SaneConfigs(s) && SaneEvents(events) && ApplyAll(s, events).Ok?
    ensures SaneConfigs(ApplyAll(s, events).value)
    decreases |events|
  {
    hide Apply, SaneConfigs, SaneEvent;
    if |events| > 0 {
      SaneApply(s, events[0]);
      SaneApplyAll(Apply(s, events[0]).value, events[1..]);
    }
  }

  lemma SaneJoin(a: seq<Event>, b: seq<Event>)
    requires SaneEvents(a) && SaneEvents(b)
    ensures SaneEvents(a + b)
  {
    hide SaneEvent;
  }

  lemma {:induction false} SaneSnapshots(s: RuntimeData, a: Admission, i: nat)
    requires i <= |a.fallbacks| + 1 && s.nextConfig + |a.fallbacks| <= U64_MAX && s.nextProvider + |a.fallbacks| <= U64_MAX
    requires Sane(a.config) && forall c <- a.fallbacks :: Sane(c.config)
    ensures SaneEvents(SnapshotEvents(s, a, i))
    decreases |a.fallbacks| + 1 - i
  {
    hide Sane;
    if i <= |a.fallbacks| {
      SaneSnapshots(s, a, i + 1);
      var config := if i == 0 then a.config else a.fallbacks[i - 1].config;
      var provider := if i == 0 then a.provider else a.fallbacks[i - 1].provider;
      assert Sane(config);
      SaneJoin([ConfigFrozen(s.nextConfig + i, config), ProviderFrozen(s.nextProvider + i, provider)], SnapshotEvents(s, a, i + 1));
    }
  }

  predicate FreezesNothing(events: seq<Event>) {
    forall i :: 0 <= i < |events| ==> !events[i].ConfigFrozen?
  }

  lemma PlansFreezeNothing(s: RuntimeData, head: Context.Head, step: Step)
    requires PlanStep(s, head, step).Ok? && !step.Admit?
    ensures FreezesNothing(PlanStep(s, head, step).value)
  {
    hide BoundedReason, Joined, ExpectedCost, AttemptOf, WindowsInside, FreezeCost, RequireExecutable;
  }

  lemma SanePlan(s: RuntimeData, head: Context.Head, move: Move)
    requires move.Act? && SaneMove(move) && PlanStep(s, head, move.step).Ok?
    ensures SaneEvents(PlanStep(s, head, move.step).value)
  {
    hide Sane;
    if move.step.Admit? {
      hide SnapshotEvents, InputValid, ContextFor, SelectionFits, SelectionMatches;
      var a := move.step.admission;
      SaneSnapshots(s, a, 0);
      var thread := if s.thread.None? then [ThreadCreated(s.nextThread)] else [];
      SaneJoin(thread, SnapshotEvents(s, a, 0));
      SaneJoin(thread + SnapshotEvents(s, a, 0), [Admitting(s, a)]);
    } else {
      hide PlanStep;
      PlansFreezeNothing(s, head, move.step);
    }
  }

  ghost predicate SaneWorld(w: World) {
    && (forall txn <- w.txns :: SaneEvents(txn))
    && (w.memory.Some? ==> SaneConfigs(w.memory.value.state))
  }

  lemma {:induction false} SaneReplay(txns: seq<Transaction>)
    requires HeadFits(txns) && Replay(txns).Ok? && forall txn <- txns :: SaneEvents(txn)
    ensures SaneConfigs(Replay(txns).value)
    decreases |txns|
  {
    hide SaneEvents, ApplyAll, Quiescent, CheckpointBound, Sane;
    if |txns| > 0 {
      HeadFitsBefore(txns);
      SaneReplay(txns[..|txns| - 1]);
      SaneApplyAll(Replay(txns[..|txns| - 1]).value, txns[|txns| - 1]);
    }
  }

  lemma MoveSane(w: World, move: Move)
    requires SaneWorld(w) && SaneMove(move)
    ensures SaneWorld(Perform(w, move))
  {
    hide SaneEvents, ApplyAll, Quiescent, PlanStep, SaneMove, Replay, HeadFits, SaneConfigs;
    match move
    case Act(step, write) =>
      if w.memory.Some? && HeadFits(w.txns) {
        var m := w.memory.value;
        var plan := PlanStep(m.state, LedgerHead(w.txns), step);
        if plan.Ok? && ApplyAll(m.state, plan.value).Ok? {
          SanePlan(m.state, LedgerHead(w.txns), move);
          SaneApplyAll(m.state, plan.value);
        }
      }
    case Crash(kept) =>
    case Open =>
      if w.memory.None? && HeadFits(w.txns) && Replay(w.txns).Ok? {
        SaneReplay(w.txns);
      }
  }

  /** A run whose admissions bring configurations as freezing makes them only ever holds such configurations, in its log
      and in memory. */
  lemma {:induction false} RunStaysSane(moves: seq<Move>)
    requires forall move <- moves :: SaneMove(move)
    ensures SaneWorld(Run(NEW_WORLD, moves))
    decreases |moves|
  {
    hide SaneMove, Perform;
    if |moves| > 0 {
      RunStaysSane(moves[..|moves| - 1]);
      hide SaneWorld;
      MoveSane(Run(NEW_WORLD, moves[..|moves| - 1]), moves[|moves| - 1]);
    }
  }

  // ---------- checkpoints at the head ----------

  lemma {:induction false} HeadWhole(txns: seq<Transaction>)
    requires HeadFits(txns) && forall i :: 0 <= i < |txns| ==> |txns[i]| > 0
    ensures Context.HeadOf(Context.RangeOf(LedgerHead(txns))) == LedgerHead(txns)
  {
    HeadCounts(txns);
    if |txns| > 0 {
      TotalSplits(txns);
    }
  }

  lemma EmptyRests()
    ensures Quiescent(EMPTY)
  {
  }

  /** In every run, between Turns and with at most 4096 items recorded, a checkpoint prepared under any policy and
      published at once commits, and is then the state's checkpoint. */
  lemma RunCheckpoints(moves: seq<Move>, policy: Context.Policy)
    requires Context.ValidPolicy(policy)
    ensures var w := Run(NEW_WORLD, moves);
            HeadFits(w.txns)
            && (w.memory.Some? && !w.memory.value.poisoned && w.memory.value.state.pending.None?
                && |w.memory.value.state.items| <= Context.MAX_CONTEXT_VIEW_ITEMS ==>
                  var s, head := w.memory.value.state, LedgerHead(w.txns);
                  var draft := Context.ReducedFromItems(head, s.items, policy);
                  && draft.Ok? && PlanStep(s, head, PublishCheckpoint(draft.value)) == Ok([CheckpointPublished(draft.value)])
                  && Commit(s, [CheckpointPublished(draft.value)]) == Ok(s.(checkpoint := Some(draft.value))))
  {
    hide Run, Replay, HeadFits, Context.ReducedFromItems, PlanStep, Commit, Quiescent, Kept, Orderly, Numbered, AssistantNew;
    ReplayIsLive(moves);
    RunWritesEvents(moves);
    MemoryGood(moves);
    EmptyRests();
    var w := Run(NEW_WORLD, moves);
    HeadWhole(w.txns);
    if w.memory.Some? && w.memory.value.state.pending.None? {
      CheckpointAccepted(w.memory.value.state, LedgerHead(w.txns), policy, LedgerHead(w.txns));
    }
  }
}
