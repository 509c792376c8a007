/**
 The kernel feeds the usage projection: over every run each attempt it
 finishes is recorded and each cost it settles is evaluated, neither is ever
 refused, and every cached rollup is the fold over the attempts of the state.
 */
module KernelUsage {
  import opened Prelude
  import opened KernelModel
  import opened KernelPlan
  import opened KernelRuns
  import opened KernelAccepted
  import opened KernelRuntime
  import opened KernelHistory
  import opened UsageProjection
  import Context

  // ---------- what one event does to the attempts ----------

  lemma {:induction false} ResolvedIsNamed(windows: seq<Window>, id: nat)
    requires WindowNamed(windows, id)
    ensures exists i :: 0 <= i < |windows| && windows[i].id == id && windows[i].value == ResolveWindow(windows, id)
  {
    if windows[0].id != id {
      var k :| 0 <= k < |windows| && windows[k].id == id;
      assert windows[1..][k - 1] == windows[k];
      ResolvedIsNamed(windows[1..], id);
      var i :| 0 <= i < |windows| - 1 && windows[1..][i].id == id && windows[1..][i].value == ResolveWindow(windows[1..], id);
      assert windows[i + 1].id == id;
    }
  }

  lemma ResolvedApart(config: Config, ids: seq<nat>, i: nat, j: nat)
    requires Sane(config) && WindowsValid(config, ids) && i < j < |ids|
    ensures ResolveWindow(config.windows, ids[i]) != ResolveWindow(config.windows, ids[j])
  {
    assert WindowNamed(config.windows, ids[i]) && WindowNamed(config.windows, ids[j]);
    ResolvedIsNamed(config.windows, ids[i]);
    ResolvedIsNamed(config.windows, ids[j]);
    var a :| 0 <= a < |config.windows| && config.windows[a].id == ids[i] && config.windows[a].value == ResolveWindow(config.windows, ids[i]);
    var b :| 0 <= b < |config.windows| && config.windows[b].id == ids[j] && config.windows[b].value == ResolveWindow(config.windows, ids[j]);
    assert a != b;
  }

  /** A finished attempt is one more, under a name not used before, not priced, each of its windows once. */
  lemma FinishRecords(s: RuntimeData, e: Event)
    requires SaneConfigs(s) && e.AttemptFinished? && Apply(s, e).Ok?
    ensures s.pending.Some? && s.pending.value.open.Some? && s.thread.Some? && s.pending.value.turn == e.turn && e.turn in s.turns
    ensures s.pending.value.config in s.configs && s.pending.value.provider in s.providers
    ensures var a := AttemptOf(s, s.pending.value, s.pending.value.open.value, e);
            && Apply(s, e).value.usage == s.usage + [a] && a.cost.None? && DistinctWindows(a)
            && (forall i :: 0 <= i < |s.usage| ==> !Named(s.usage[i], a.turn, a.attempt))
  {
    hide Sane, WindowsValid, ResolveWindow;
    var a := AttemptOf(s, s.pending.value, s.pending.value.open.value, e);
    var config := s.configs[s.pending.value.config];
    forall i, j | 0 <= i < j < |a.windows|
      ensures a.windows[i] != a.windows[j]
    {
      ResolvedApart(config, e.windows, i, j);
    }
  }

  /** A settled cost is the recomputed one, of an attempt recorded and not yet priced. */
  lemma CostEvaluates(s: RuntimeData, e: Event)
    requires e.AttemptCosted? && Apply(s, e).Ok?
    ensures s.pending.Some? && s.pending.value.config in s.configs && Recorded(s.usage, e.turn, e.attempt)
    ensures var i := IndexOf(s.usage, e.turn, e.attempt);
            && s.usage[i].cost.None? && Named(s.usage[i], e.turn, e.attempt)
            && Apply(s, e).value.usage
               == s.usage[i := s.usage[i].(cost := Some(ExpectedCost(s.configs[s.pending.value.config], s.usage[i])))]
  {
    hide ExpectedCost, FrozenMatches;
  }

  lemma OthersLeave(s: RuntimeData, e: Event)
    requires !e.AttemptFinished? && !e.AttemptCosted? && Apply(s, e).Ok?
    ensures Apply(s, e).value.usage == s.usage
  {
    hide InputValid, SelectionMatches, FallbacksValid, ReasonValid, Context.ValidateAgainst, ObserveId, ItemText, CleanlyBlocked, ItemExists;
  }

  // ---------- the projection follows the state ----------

  /** What applying an event asks of the projection; it never refuses. */
  method Feed(projection: Projection, s: RuntimeData, e: Event)
    requires projection.Valid() && projection.attempts == s.usage && |s.usage| <= U64_MAX
    requires SaneConfigs(s) && Apply(s, e).Ok?
    modifies projection
    ensures projection.Valid() && projection.attempts == Apply(s, e).value.usage && |projection.attempts| <= |s.usage| + 1
  {
    hide Apply, Named, DistinctWindows, AttemptOf, ExpectedCost, SaneConfigs;
    if e.AttemptFinished? {
      FinishRecords(s, e);
      var recorded := projection.Record(AttemptOf(s, s.pending.value, s.pending.value.open.value, e));
    } else if e.AttemptCosted? {
      CostEvaluates(s, e);
      ghost var i := IndexOf(s.usage, e.turn, e.attempt);
      assert Named(projection.attempts[i], e.turn, e.attempt);
      var found := IndexOf(s.usage, e.turn, e.attempt);
      var evaluated := projection.RecordCostEvaluation(e.turn, e.attempt, ExpectedCost(s.configs[s.pending.value.config], s.usage[found]));
    } else {
      OthersLeave(s, e);
    }
  }

  /** One transaction, event by event. */
  method FeedTransaction(projection: Projection, s: RuntimeData, events: seq<Event>) returns (t: RuntimeData)
    requires projection.Valid() && projection.attempts == s.usage && |s.usage| + |events| <= U64_MAX
    requires SaneConfigs(s) && SaneEvents(events) && ApplyAll(s, events).Ok?
    modifies projection
    ensures t == ApplyAll(s, events).value && SaneConfigs(t)
    ensures projection.Valid() && projection.attempts == t.usage && |t.usage| <= |s.usage| + |events|
  {
    hide Apply, SaneConfigs, SaneEvent;
    t := s;
    assert events[0..] == events;
    for i := 0 to |events|
      invariant ApplyAll(t, events[i..]) == ApplyAll(s, events) && SaneConfigs(t)
      invariant projection.Valid() && projection.attempts == t.usage && |t.usage| <= |s.usage| + i
    {
      assert events[i..][0] == events[i] && events[i..][1..] == events[i + 1..];
      assert events[i] in events;
      Feed(projection, t, events[i]);
      SaneApply(t, events[i]);
      t := Apply(t, events[i]).value;
    }
  }

  lemma {:induction false} TotalPrefix(txns: seq<Transaction>, i: nat)
    requires i < |txns|
    ensures TotalEvents(txns[..i]) + |txns[i]| == TotalEvents(txns[..i + 1]) <= TotalEvents(txns)
    decreases |txns|
  {
    assert txns[..i] + [txns[i]] == txns[..i + 1];
    TotalMore(txns[..i], txns[i]);
    if i + 1 < |txns| {
      var init := txns[..|txns| - 1];
      TotalPrefix(init, i);
      TotalMore(init, txns[|txns| - 1]);
      assert init + [txns[|txns| - 1]] == txns && init[..i + 1] == txns[..i + 1];
    } else {
      assert txns[..i + 1] == txns;
    }
  }

  /** The projection of a whole log: every attempt of the replayed state recorded and priced, and no call refused. */
  method FeedLog(txns: seq<Transaction>) returns (projection: Projection)
    requires HeadFits(txns) && GoodThroughout(txns) && forall txn <- txns :: SaneEvents(txn)
    ensures fresh(projection) && projection.Valid()
    ensures Replay(txns).Ok? && projection.attempts == Replay(txns).value.usage
  {
    hide ApplyAll, SaneConfigs, SaneEvents, Replay, HeadFits, GoodThroughout, TotalEvents;
    HeadCounts(txns);
    HeadBounded(txns);
    projection := new Projection();
    var s := EMPTY;
    EmptySane();
    EmptyReplay(txns);
    for i := 0 to |txns|
      invariant fresh(projection) && projection.Valid() && projection.attempts == s.usage && SaneConfigs(s)
      invariant |s.usage| <= TotalEvents(txns[..i]) && HeadFits(txns[..i]) && Replay(txns[..i]) == Ok(s)
    {
      NextReplay(txns, i);
      assert txns[i] in txns;
      s := FeedTransaction(projection, s, txns[i]);
    }
    assert txns[..|txns|] == txns;
  }

  lemma NextReplay(txns: seq<Transaction>, i: nat)
    requires GoodThroughout(txns) && i < |txns| && HeadFits(txns[..i]) && Replay(txns[..i]).Ok?
    ensures HeadFits(txns[..i + 1]) && ApplyAll(Replay(txns[..i]).value, txns[i]).Ok?
    ensures Replay(txns[..i + 1]) == ApplyAll(Replay(txns[..i]).value, txns[i])
    ensures TotalEvents(txns[..i]) + |txns[i]| == TotalEvents(txns[..i + 1]) <= TotalEvents(txns)
  {
    hide ApplyAll, Replay, HeadFits, Good, ReplayTransaction, TotalEvents;
    assert GoodAt(txns, i + 1);
    assert txns[..i] + [txns[i]] == txns[..i + 1];
    ReplayMore(txns[..i], txns[i]);
    ReplayApplies(Replay(txns[..i]).value, LedgerHead(txns[..i]), txns[i]);
    TotalPrefix(txns, i);
  }

  lemma HeadBounded(txns: seq<Transaction>)
    requires HeadFits(txns)
    ensures HeadAfter(txns).1 <= U64_MAX
  {
  }

  lemma EmptySane()
    ensures SaneConfigs(EMPTY)
  {
  }

  lemma EmptyReplay(txns: seq<Transaction>)
    ensures HeadFits(txns[..0]) && Replay(txns[..0]) == Ok(EMPTY) && TotalEvents(txns[..0]) == 0
  {
    assert txns[..0] == [];
  }

  lemma ReplayApplies(s: RuntimeData, head: Context.Head, txn: Transaction)
    requires ReplayTransaction(s, head, txn).Ok?
    ensures ApplyAll(s, txn) == ReplayTransaction(s, head, txn)
  {
    hide ApplyAll, Quiescent, CheckpointBound;
  }

  /** Over every run of sane admissions the log feeds a projection to the attempts memory holds, with every cache the fold
      over them: total, thread, turn, agent, window and instant. */
  method ProjectRun(ghost moves: seq<Move>, w: World) returns (projection: Projection)
    requires w == Run(NEW_WORLD, moves) && forall move <- moves :: SaneMove(move)
    ensures fresh(projection) && projection.Valid()
    ensures w.memory.Some? && !w.memory.value.poisoned ==> projection.attempts == w.memory.value.state.usage
  {
    hide Run, Replay, HeadFits, GoodThroughout, Good, SaneMove, SaneEvents, SaneConfigs;
    RunSafe(moves);
    RunStaysSane(moves);
    ReplayIsLive(moves);
    projection := FeedLog(w.txns);
  }
}
