/**
 The driver's plans are never refused by the state: from any state a run
 reaches, what an operation plans also commits, and does what it says.
 */
module KernelAccepted {
  import opened Prelude
  import opened Strings
  import opened KernelModel
  import opened KernelInvariant
  import opened KernelPlan
  import opened KernelRuns
  import Context
  import UsageModel

  // ---------- staying at rest ----------

  lemma {:induction false} CountSame(turns: map<Id, TurnRecord>, turns': map<Id, TurnRecord>, bound: nat)
    requires bound <= U64_MAX
    requires turns.Keys == turns'.Keys && forall k <- turns :: turns'[k].fallbacks == turns[k].fallbacks
    ensures SnapshotCount(turns', bound) == SnapshotCount(turns, bound)
    decreases bound
  {
    if bound > 1 {
      CountSame(turns, turns', bound - 1);
    }
  }

  /** A state that keeps the invariant and the snapshots of one at rest is itself at rest, unless it is mid-way. */
  lemma StaysQuiescent(s: RuntimeData, t: RuntimeData)
    requires Quiescent(s) && Kept(t)
    requires t.configs == s.configs && t.providers == s.providers && t.nextTurn == s.nextTurn && t.thread == s.thread
    requires t.turns.Keys == s.turns.Keys && forall k <- s.turns :: t.turns[k].fallbacks == s.turns[k].fallbacks
    requires !(t.pending.Some? && t.pending.value.phase.Streaming?) && t.pendingCost.None?
    ensures Quiescent(t)
  {
    CountSame(s.turns, t.turns, s.nextTurn);
    assert t.turns == map[] <==> s.turns == map[] by {
      assert t.turns == map[] <==> t.turns.Keys == {};
      assert s.turns == map[] <==> s.turns.Keys == {};
    }
    forall turn <- t.turns
      ensures TurnComplete(t, turn)
    {
      KeptTurnComplete(t, turn);
    }
    hide Kept, TurnComplete, SnapshotCount;
  }

  lemma KeptTurnComplete(t: RuntimeData, turn: Id)
    requires Kept(t) && turn in t.turns
    ensures TurnComplete(t, turn)
  {
    hide PartItems, PartAttempts, PartCosts, PartPending;
    assert TurnKept(turn, t.turns[turn], t.configs.Keys, t.providers.Keys, t.items, OpenTurn(t.pending), t.acknowledged);
  }

  lemma ApplyOne(s: RuntimeData, e: Event)
    ensures ApplyAll(s, [e]) == Apply(s, e)
  {
    hide Apply;
    assert [e][1..] == [];
    if Apply(s, e).Ok? {
      assert ApplyAll(Apply(s, e).value, []) == Ok(Apply(s, e).value);
    }
  }

  lemma ApplyTwo(s: RuntimeData, e: Event, f: Event)
    ensures ApplyAll(s, [e, f]) == if Apply(s, e).Ok? then Apply(Apply(s, e).value, f) else Apply(s, e)
  {
    hide Apply;
    assert [e, f][0] == e && [e, f][1..] == [f];
    if Apply(s, e).Ok? {
      ApplyOne(Apply(s, e).value, f);
    }
  }

  /** A state a run can leave at rest. */
  ghost predicate Resting(s: RuntimeData) {
    Good(s) && Quiescent(s)
  }

  lemma RestingFacts(s: RuntimeData)
    requires Resting(s) && s.pending.Some?
    ensures PendingKept(s.pending, s.turns, s.acknowledged) && s.pendingCost.None?
    ensures s.pending.value.turn in s.turns
            && !s.turns[s.pending.value.turn].completed && !s.turns[s.pending.value.turn].cancelled
  {
    hide Orderly, AssistantNew, PartItems, PartAttempts, PartCosts, SnapshotCount, TurnComplete;
    OpenIsLive(s, s.pending.value.turn);
  }

  lemma CommitOne(s: RuntimeData, e: Event)
    requires Resting(s) && Apply(s, e).Ok? && (e.RetryRequested? || e.FallbackRequested? || e.TurnCancelled? || e.TurnBlocked? || e.AttemptStarted?)
    ensures Commit(s, [e]) == Apply(s, e)
  {
    ApplyOne(s, e);
    SameSnapshots(s, e);
    ApplyKeeps(s, e);
    StaysQuiescent(s, Apply(s, e).value);
    hide Apply, Quiescent, Kept, AssistantNew;
  }

  lemma SameSnapshots(s: RuntimeData, e: Event)
    requires Resting(s) && Apply(s, e).Ok? && (e.RetryRequested? || e.FallbackRequested? || e.TurnCancelled? || e.TurnBlocked? || e.AttemptStarted?)
    ensures var t := Apply(s, e).value;
            && t.configs == s.configs && t.providers == s.providers && t.nextTurn == s.nextTurn && t.thread == s.thread
            && t.turns.Keys == s.turns.Keys && (forall k <- s.turns :: t.turns[k].fallbacks == s.turns[k].fallbacks)
            && !(t.pending.Some? && t.pending.value.phase.Streaming?) && t.pendingCost.None?
    ensures Kept(s) && AssistantNew(s) && Quiescent(s)
  {
    hide Kept, Orderly, AssistantNew, SnapshotCount, TurnComplete, ReasonValid;
  }

  // ---------- blocked Turns ----------

  lemma BlockedIsClean(s: RuntimeData)
    requires Resting(s) && s.pending.Some? && ProviderBlocked(s.pending.value)
    ensures CleanlyBlocked(s.pending.value)
  {
    RestingFacts(s);
    hide Resting;
  }

  /** An advance is planned exactly when a candidate is left behind a retryable Provider block of the right agent's
      Turn; it then commits and activates precisely the next frozen candidate. */
  lemma FallbackAccepted(s: RuntimeData, agent: Option<Id>, turn: Id)
    requires Resting(s) && turn in s.turns && RequireExecutable(s, turn).Ok?
    requires s.pending.Some? ==> s.pending.value.fallbackIndex < U32_MAX
    ensures var plan := PlanFallback(s, agent, turn);
            && plan.Ok?
            && (plan.value != [] <==>
                  && s.pending.Some? && s.pending.value.turn == turn && s.turns[turn].agent == agent
                  && ProviderBlocked(s.pending.value) && Retryable(s.pending.value.stage)
                  && s.pending.value.fallbackIndex < |s.turns[turn].fallbacks|)
            && (plan.value != [] ==>
                  && s.pending.Some? && s.pending.value.fallbackIndex < |s.turns[turn].fallbacks|
                  && var next := s.turns[turn].fallbacks[s.pending.value.fallbackIndex];
                  && Commit(s, plan.value)
                     == Ok(s.(pending := Some(Unblocked(s.pending.value).(config := next.config, provider := next.provider,
                                                                         fallbackIndex := s.pending.value.fallbackIndex + 1)))))
  {
    hide Quiescent, Good;
    if s.pending.Some? && s.pending.value.turn == turn {
      RestingFacts(s);
      var plan := PlanFallback(s, agent, turn);
      if plan.value != [] {
        BlockedIsClean(s);
        CommitOne(s, plan.value[0]);
        assert plan.value == [plan.value[0]];
      }
    }
    hide Commit;
  }

  /** A retry request by the Turn's agent after a retryable Provider block always commits and re-admits the same candidate. */
  lemma RetryAccepted(s: RuntimeData, agent: Option<Id>, turn: Id)
    requires Resting(s) && PlanRetry(s, agent, turn).Ok?
    ensures s.pending.Some? && s.pending.value.turn == turn
    ensures Commit(s, PlanRetry(s, agent, turn).value) == Ok(s.(pending := Some(Unblocked(s.pending.value))))
  {
    hide Quiescent, Good;
    RestingFacts(s);
    BlockedIsClean(s);
    CommitOne(s, RetryRequested(turn));
    hide Commit;
  }

  /** Cancelling a Turn its Provider blocked always commits, and ends it without output. */
  lemma CancelAccepted(s: RuntimeData, agent: Option<Id>, turn: Id)
    requires Resting(s) && PlanCancel(s, agent, turn).Ok? && PlanCancel(s, agent, turn).value != []
    ensures turn in s.turns
    ensures Commit(s, PlanCancel(s, agent, turn).value)
            == Ok(s.(turns := s.turns[turn := s.turns[turn].(cancelled := true)], pending := None))
  {
    hide Quiescent, Good;
    RestingFacts(s);
    BlockedIsClean(s);
    CommitOne(s, TurnCancelled(turn));
    hide Commit;
  }

  // ---------- acknowledgement ----------

  lemma AcknowledgeApplies(s: RuntimeData, delivery: Id)
    requires Resting(s) && PlanAcknowledge(s, delivery).Ok? && PlanAcknowledge(s, delivery).value != []
    ensures s.pending.Some? && s.pending.value.turn in s.turns && delivery !in s.acknowledged
    ensures var turn := s.pending.value.turn;
            ApplyAll(s, PlanAcknowledge(s, delivery).value)
            == Ok(s.(turns := s.turns[turn := s.turns[turn].(completed := true)], pending := None, acknowledged := s.acknowledged + {delivery}))
  {
    hide Quiescent, Good, ActiveCandidate;
    RestingFacts(s);
    var turn := s.pending.value.turn;
    ApplyTwo(s, OutputAcknowledged(turn, delivery), TurnCompleted(turn));
  }

  /** Acknowledging a prepared delivery always commits: the Turn is completed with it, and asking again writes nothing. */
  lemma AcknowledgeAccepted(s: RuntimeData, delivery: Id)
    requires Resting(s) && PlanAcknowledge(s, delivery).Ok? && PlanAcknowledge(s, delivery).value != []
    ensures s.pending.Some? && s.pending.value.turn in s.turns
    ensures var turn := s.pending.value.turn;
            var t := s.(turns := s.turns[turn := s.turns[turn].(completed := true)], pending := None, acknowledged := s.acknowledged + {delivery});
            Commit(s, PlanAcknowledge(s, delivery).value) == Ok(t) && PlanAcknowledge(t, delivery) == Ok([])
  {
    hide Resting, Quiescent, PlanAcknowledge, Kept, Commit, Apply, ApplyAll;
    AcknowledgeApplies(s, delivery);
    var turn := s.pending.value.turn;
    var t := s.(turns := s.turns[turn := s.turns[turn].(completed := true)], pending := None, acknowledged := s.acknowledged + {delivery});
    AppliedKept(s, PlanAcknowledge(s, delivery).value);
    StaysQuiescent(s, t);
    CommitBecause(s, PlanAcknowledge(s, delivery).value, t);
    AcknowledgedTwice(t, delivery);
  }

  lemma AppliedKept(s: RuntimeData, events: seq<Event>)
    requires Resting(s) && ApplyAll(s, events).Ok?
    ensures Kept(ApplyAll(s, events).value) && Quiescent(s) && s.pendingCost.None?
  {
    hide Kept, AssistantNew, Orderly, SnapshotCount, TurnComplete, ApplyAll;
    ApplyAllKeeps(s, events);
  }

  lemma CommitBecause(s: RuntimeData, events: seq<Event>, t: RuntimeData)
    requires ApplyAll(s, events) == Ok(t) && Quiescent(t)
    ensures Commit(s, events) == Ok(t)
  {
    hide ApplyAll, Quiescent;
  }

  lemma AcknowledgedTwice(t: RuntimeData, delivery: Id)
    requires delivery in t.acknowledged
    ensures PlanAcknowledge(t, delivery) == Ok([])
  {
  }

  // ---------- reasons ----------

  lemma {:induction false} CleanedFits(reason: string, room: nat)
    ensures Utf8Length(Cleaned(reason, room)) <= room && !HasControl(Cleaned(reason, room))
    decreases |reason|
  {
    if |reason| > 0 {
      var c := if IsControl(reason[0]) then ' ' else reason[0];
      if CharBytes(c) <= room {
        CleanedFits(reason[1..], room - CharBytes(c));
        var rest := Cleaned(reason[1..], room - CharBytes(c));
        Utf8Adds([c], rest);
        assert [c][..0] == "" && Utf8Length([c]) == CharBytes(c);
        assert forall i :: 0 <= i < |rest| ==> !IsControl(rest[i]);
      }
    }
  }

  /** Whatever a Provider's failure says, the bounded reason is one the state accepts. */
  lemma BoundedReasonValid(reason: string)
    ensures ReasonValid(BoundedReason(reason))
  {
    CleanedFits(reason, MAX_BLOCK_REASON_BYTES);
    FallbackReasonValid();
    hide Cleaned, Utf8Length;
  }

  lemma FallbackReasonValid()
    ensures ReasonValid("provider failure")
  {
    var s := "provider failure";
    assert !IsSpace(s[0]);
    assert forall i :: 0 <= i < |s| ==> !IsControl(s[i]);
    AsciiLength(s);
  }

  lemma {:induction false} AsciiLength(s: string)
    requires forall i :: 0 <= i < |s| ==> (s[i] as int) < 0x80
    ensures Utf8Length(s) == |s|
    decreases |s|
  {
    if |s| > 0 {
      AsciiLength(s[..|s| - 1]);
    }
  }

  // ---------- attempts ----------

  /** What freezing a configuration guarantees of it; a window's rules include its name. */
  predicate Sane(config: Config) {
    && 0 < config.maxOutputBytes <= MAX_INPUT_BYTES
    && (forall i, j :: 0 <= i < j < |config.windows| ==> config.windows[i].id != config.windows[j].id)
    && (forall i, j :: 0 <= i < j < |config.windows| ==> config.windows[i].value != config.windows[j].value)
  }

  predicate SaneConfigs(s: RuntimeData) {
    forall c <- s.configs :: Sane(s.configs[c])
  }

  lemma {:induction false} InsideNamed(windows: seq<Window>, inside: set<int>)
    requires forall i, j :: 0 <= i < j < |windows| ==> windows[i].id != windows[j].id
    ensures AllNamed(windows, WindowsInside(windows, inside)) && DistinctNames(WindowsInside(windows, inside))
    decreases |windows|
  {
    if |windows| > 0 {
      var rest := WindowsInside(windows[1..], inside);
      InsideNamed(windows[1..], inside);
      forall i | 0 <= i < |rest|
        ensures WindowNamed(windows, rest[i]) && rest[i] != windows[0].id
      {
        NamedLater(windows, rest[i]);
      }
      assert WindowNamed(windows, windows[0].id);
      if windows[0].value in inside {
        assert WindowsInside(windows, inside) == [windows[0].id] + rest;
      } else {
        assert WindowsInside(windows, inside) == rest;
      }
    }
  }

  lemma NamedLater(windows: seq<Window>, id: nat)
    requires |windows| > 0 && WindowNamed(windows[1..], id)
    requires forall i, j :: 0 <= i < j < |windows| ==> windows[i].id != windows[j].id
    ensures WindowNamed(windows, id) && id != windows[0].id
  {
    var k :| 0 <= k < |windows[1..]| && windows[1..][k].id == id;
    assert windows[k + 1].id == id;
  }

  /** The open attempt's number is not yet recorded. */
  lemma OpenNotRecorded(s: RuntimeData)
    requires PartPending(s) && PartAttempts(s) && s.pending.Some? && s.pending.value.open.Some?
    ensures !Recorded(s.usage, s.pending.value.turn, s.pending.value.open.value.attempt) && s.pending.value.open.value.attempt > 0
  {
    hide ActiveCandidate, Numbers;
    var p := s.pending.value;
    if Recorded(s.usage, p.turn, p.open.value.attempt) {
      var i := IndexOf(s.usage, p.turn, p.open.value.attempt);
      NumberAt(s.usage, i, p.turn);
    }
  }

  /** The attempt a finish records, with its price. */
  function FinishedAttempt(s: RuntimeData, now: int, outcome: Outcome, usage: Option<UsageRecord>, inside: set<int>): Attempt
    requires s.pending.Some? && s.pending.value.open.Some? && s.thread.Some? && s.pending.value.turn in s.turns
    requires s.pending.value.config in s.configs && s.pending.value.provider in s.providers
  {
    var p := s.pending.value;
    var completed := if now < p.open.value.startedAt then p.open.value.startedAt else now;
    AttemptOf(s, p, p.open.value, AttemptFinished(p.turn, p.open.value.attempt, completed, outcome, usage,
                                                  WindowsInside(s.configs[p.config].windows, inside)))
  }

  function AfterFinish(s: RuntimeData, now: int, outcome: Outcome, usage: Option<UsageRecord>, inside: set<int>): RuntimeData
    requires s.pending.Some? && s.pending.value.open.Some? && s.thread.Some? && s.pending.value.turn in s.turns
    requires s.pending.value.config in s.configs && s.pending.value.provider in s.providers
  {
    var a := FinishedAttempt(s, now, outcome, usage, inside);
    s.(usage := s.usage + [a.(cost := Some(ExpectedCost(s.configs[s.pending.value.config], a)))],
       pending := Some(s.pending.value.(open := None)))
  }

  lemma FinishApplies(s: RuntimeData, turn: Id, attempt: U32, now: int, outcome: Outcome, usage: Option<UsageRecord>, inside: set<int>)
    requires Kept(s) && s.pendingCost.None? && SaneConfigs(s) && FinishEvents(s, turn, attempt, now, outcome, usage, inside).Ok?
    requires outcome.Succeeded? == usage.Some?
    ensures s.pending.Some? && s.pending.value.open.Some? && s.thread.Some? && s.pending.value.turn in s.turns
    ensures s.pending.value.config in s.configs && s.pending.value.provider in s.providers
    ensures ApplyAll(s, FinishEvents(s, turn, attempt, now, outcome, usage, inside).value) == Ok(AfterFinish(s, now, outcome, usage, inside))
  {
    hide Kept, PartTurns, PartItems, PartCosts, ExpectedCost, ResolveWindow, SaneConfigs, FrozenMatches, FreezeCost, WindowsInside, Recorded, IndexOf;
    var plan := FinishEvents(s, turn, attempt, now, outcome, usage, inside).value;
    var finished, costed := plan[0], plan[1];
    FinishRecords(s, turn, attempt, now, outcome, usage, inside);
    ApplyTwo(s, finished, costed);
    CostRecords(s, turn, attempt, now, outcome, usage, inside);
  }

  lemma KeptParts(s: RuntimeData)
    requires Kept(s)
    ensures PartPending(s) && PartAttempts(s)
  {
    hide PartPending, PartAttempts, PartTurns, PartItems, PartCosts;
  }

  lemma SaneActive(s: RuntimeData, inside: set<int>)
    requires SaneConfigs(s) && s.pending.Some? && s.pending.value.config in s.configs
    ensures WindowsValid(s.configs[s.pending.value.config], WindowsInside(s.configs[s.pending.value.config].windows, inside))
  {
    assert Sane(s.configs[s.pending.value.config]);
    InsideNamed(s.configs[s.pending.value.config].windows, inside);
    hide WindowsInside;
  }

  lemma FinishRecords(s: RuntimeData, turn: Id, attempt: U32, now: int, outcome: Outcome, usage: Option<UsageRecord>, inside: set<int>)
    requires Kept(s) && s.pendingCost.None? && SaneConfigs(s) && FinishEvents(s, turn, attempt, now, outcome, usage, inside).Ok?
    requires outcome.Succeeded? == usage.Some?
    ensures s.pending.Some? && s.pending.value.open.Some? && s.thread.Some? && s.pending.value.turn in s.turns
    ensures s.pending.value.config in s.configs && s.pending.value.provider in s.providers
    ensures Apply(s, FinishEvents(s, turn, attempt, now, outcome, usage, inside).value[0])
            == Ok(s.(usage := s.usage + [FinishedAttempt(s, now, outcome, usage, inside)], pending := Some(s.pending.value.(open := None)),
                     pendingCost := Some((turn, attempt))))
  {
    hide Kept, ExpectedCost, ResolveWindow, SaneConfigs, FreezeCost, WindowsInside, WindowsValid, PendingKept, AttemptsKept, Recorded;
    KeptParts(s);
    OpenNotRecorded(s);
    SaneActive(s, inside);
  }

  lemma {:induction false} LastFound(usage: seq<Attempt>, a: Attempt, turn: Id)
    requires a.turn == turn && !Recorded(usage, turn, a.attempt)
    ensures Recorded(usage + [a], turn, a.attempt) && IndexOf(usage + [a], turn, a.attempt) == |usage|
    decreases |usage|
  {
    assert (usage + [a])[|usage|] == a;
    if |usage| > 0 {
      assert !(usage[0].turn == turn && usage[0].attempt == a.attempt);
      NotRecordedLater(usage, turn, a.attempt);
      LastFound(usage[1..], a, turn);
      assert (usage + [a])[1..] == usage[1..] + [a];
    }
  }

  lemma NotRecordedLater(usage: seq<Attempt>, turn: Id, attempt: U32)
    requires |usage| > 0 && !Recorded(usage, turn, attempt)
    ensures !Recorded(usage[1..], turn, attempt)
  {
    assert forall i :: 0 <= i < |usage[1..]| ==> usage[1..][i] == usage[i + 1];
  }

  lemma FinishShape(s: RuntimeData, turn: Id, attempt: U32, now: int, outcome: Outcome, usage: Option<UsageRecord>, inside: set<int>)
    requires FinishEvents(s, turn, attempt, now, outcome, usage, inside).Ok?
    requires s.pending.Some? && s.pending.value.open.Some? && s.thread.Some? && s.pending.value.turn in s.turns
    requires s.pending.value.config in s.configs && s.pending.value.provider in s.providers
    ensures var a := FinishedAttempt(s, now, outcome, usage, inside);
            && s.pending.value.turn == turn && s.pending.value.open.value.attempt == attempt
            && a.turn == turn && a.attempt == attempt && a.cost.None? && a.startedAt.Some?
            && FinishEvents(s, turn, attempt, now, outcome, usage, inside).value[1]
               == AttemptCosted(turn, attempt, FreezeCost(ExpectedCost(s.configs[s.pending.value.config], a)))
  {
    hide ExpectedCost, FreezeCost, WindowsInside, ResolveWindow;
  }

  lemma CostRecords(s: RuntimeData, turn: Id, attempt: U32, now: int, outcome: Outcome, usage: Option<UsageRecord>, inside: set<int>)
    requires Kept(s) && s.pendingCost.None? && FinishEvents(s, turn, attempt, now, outcome, usage, inside).Ok?
    requires s.pending.Some? && s.pending.value.open.Some? && s.thread.Some? && s.pending.value.turn in s.turns
    requires s.pending.value.config in s.configs && s.pending.value.provider in s.providers
    ensures var middle := s.(usage := s.usage + [FinishedAttempt(s, now, outcome, usage, inside)],
                             pending := Some(s.pending.value.(open := None)), pendingCost := Some((turn, attempt)));
            Apply(middle, FinishEvents(s, turn, attempt, now, outcome, usage, inside).value[1]) == Ok(AfterFinish(s, now, outcome, usage, inside))
  {
    hide Kept, ExpectedCost, FinishEvents, FinishedAttempt, FreezeCost, FrozenMatches, PartPending, PartAttempts, Recorded, IndexOf;
    KeptParts(s);
    OpenNotRecorded(s);
    FinishShape(s, turn, attempt, now, outcome, usage, inside);
    var a := FinishedAttempt(s, now, outcome, usage, inside);
    LastFound(s.usage, a, turn);
    var expected := ExpectedCost(s.configs[s.pending.value.config], a);
    assert FrozenMatches(FreezeCost(expected), expected);
    assert (s.usage + [a])[|s.usage|] == a;
    assert (s.usage + [a])[|s.usage| := a.(cost := Some(expected))] == s.usage + [a.(cost := Some(expected))];
  }

  lemma {:induction false} ApplyAllJoin(s: RuntimeData, first: seq<Event>, second: seq<Event>)
    requires ApplyAll(s, first).Ok?
    ensures ApplyAll(s, first + second) == ApplyAll(ApplyAll(s, first).value, second)
    decreases |first|
  {
    hide Apply;
    if |first| == 0 {
      assert first + second == second;
    } else {
      assert (first + second)[0] == first[0] && (first + second)[1..] == first[1..] + second;
      ApplyAllJoin(Apply(s, first[0]).value, first[1..], second);
    }
  }

  lemma BlockApplies(s: RuntimeData, turn: Id, reason: string, stage: Option<Stage>)
    requires s.pending.Some? && s.pending.value.turn == turn && s.pending.value.phase.Admitted? && s.pending.value.open.None?
    requires s.pendingCost.None? && ReasonValid(reason)
    ensures Apply(s, TurnBlocked(turn, reason, FromProvider, stage))
            == Ok(s.(pending := Some(s.pending.value.(phase := Blocked, reason := Some(reason), origin := Some(FromProvider), stage := stage))))
  {
    hide ReasonValid;
  }

  /** Finishing an attempt and blocking its Turn always commits. */
  lemma FinishAndBlockAccepted(s: RuntimeData, turn: Id, attempt: U32, now: int, outcome: Outcome, usage: Option<UsageRecord>, inside: set<int>,
                               reason: string, stage: Option<Stage>)
    requires Resting(s) && SaneConfigs(s) && PlanFinishAndBlock(s, turn, attempt, now, outcome, usage, inside, reason, stage).Ok?
    requires outcome.Succeeded? == usage.Some?
    ensures Commit(s, PlanFinishAndBlock(s, turn, attempt, now, outcome, usage, inside, reason, stage).value).Ok?
    ensures var t := Commit(s, PlanFinishAndBlock(s, turn, attempt, now, outcome, usage, inside, reason, stage).value).value;
            && t.pending.Some? && s.pending.Some? && t.turns == s.turns && t.configs == s.configs && |t.usage| == |s.usage| + 1
            && t.pending.value.turn == turn && t.pending.value.fallbackIndex == s.pending.value.fallbackIndex
            && t.pending.value.config == s.pending.value.config
            && t.pending.value.phase.Blocked? && t.pending.value.origin == Some(FromProvider) && t.pending.value.stage == stage
  {
    hide FinishEvents, BoundedReason, Resting, SaneConfigs, ExpectedCost, Quiescent, ReasonValid, FinishedAttempt;
    RestingKept(s);
    FinishApplies(s, turn, attempt, now, outcome, usage, inside);
    var finish := FinishEvents(s, turn, attempt, now, outcome, usage, inside).value;
    var middle := AfterFinish(s, now, outcome, usage, inside);
    FinishPhase(s, turn, attempt, now, outcome, usage, inside);
    BoundedReasonValid(reason);
    var blocked := TurnBlocked(turn, BoundedReason(reason), FromProvider, stage);
    ApplyAllJoin(s, finish, [blocked]);
    ApplyOne(middle, blocked);
    BlockApplies(middle, turn, BoundedReason(reason), stage);
    hide Apply, ApplyAll;
    var t := Apply(middle, blocked).value;
    AppliedKept(s, finish + [blocked]);
    hide Kept, Commit;
    StaysQuiescent(s, t);
    CommitBecause(s, finish + [blocked], t);
  }

  lemma RestingKept(s: RuntimeData)
    requires Resting(s)
    ensures Kept(s) && Quiescent(s) && s.pendingCost.None?
  {
    hide Kept, AssistantNew, Orderly, Numbered, SnapshotCount, TurnComplete;
  }

  lemma FinishPhase(s: RuntimeData, turn: Id, attempt: U32, now: int, outcome: Outcome, usage: Option<UsageRecord>, inside: set<int>)
    requires FinishEvents(s, turn, attempt, now, outcome, usage, inside).Ok?
    ensures s.pending.Some? && s.pending.value.turn == turn && s.pending.value.phase.Admitted?
  {
    hide ExpectedCost, AttemptOf, WindowsInside, FreezeCost;
  }

  /** Beginning an attempt always commits while numbers are left; one left open by a crash is first recorded as interrupted. */
  lemma BeginAccepted(s: RuntimeData, turn: Id, now: int, inside: set<int>)
    requires Resting(s) && SaneConfigs(s) && PlanBegin(s, turn, now, inside).Ok?
    requires s.pending.Some? ==> s.pending.value.nextAttempt < U32_MAX
    ensures s.pending.Some? && Commit(s, PlanBegin(s, turn, now, inside).value).Ok?
    ensures var t := Commit(s, PlanBegin(s, turn, now, inside).value).value;
            && t.turns == s.turns && t.configs == s.configs && t.pending.Some?
            && t.pending.value == s.pending.value.(nextAttempt := s.pending.value.nextAttempt + 1,
                                                   open := Some(OpenAttempt(s.pending.value.nextAttempt, now)))
            && |t.usage| == |s.usage| + if s.pending.value.open.Some? then 1 else 0
  {
    hide FinishEvents, Resting, SaneConfigs, ExpectedCost, Quiescent, FinishedAttempt;
    RestingKept(s);
    var p := s.pending.value;
    var started := AttemptStarted(turn, p.nextAttempt, now);
    var before: seq<Event> := [];
    var middle := s;
    if p.open.Some? {
      FinishApplies(s, turn, p.open.value.attempt, now, UsageModel.Interrupted, None, inside);
      before := FinishEvents(s, turn, p.open.value.attempt, now, UsageModel.Interrupted, None, inside).value;
      middle := AfterFinish(s, now, UsageModel.Interrupted, None, inside);
    }
    assert PlanBegin(s, turn, now, inside).value == before + [started];
    ApplyAllJoin(s, before, [started]);
    ApplyOne(middle, started);
    StartApplies(s, middle, turn, now);
    AppliedKept(s, before + [started]);
    hide Kept, Commit, PlanBegin;
    StaysQuiescent(s, Apply(middle, started).value);
    CommitBecause(s, before + [started], Apply(middle, started).value);
  }

  lemma StartApplies(s: RuntimeData, middle: RuntimeData, turn: Id, now: int)
    requires Kept(s) && s.pending.Some? && s.pending.value.turn == turn && s.pending.value.phase.Admitted? && s.pending.value.nextAttempt < U32_MAX
    requires middle.pendingCost.None? && middle.pending == Some(s.pending.value.(open := None))
    ensures Apply(middle, AttemptStarted(turn, s.pending.value.nextAttempt, now))
            == Ok(middle.(pending := Some(s.pending.value.(nextAttempt := s.pending.value.nextAttempt + 1,
                                                           open := Some(OpenAttempt(s.pending.value.nextAttempt, now))))))
  {
    hide PartTurns, PartItems, PartCosts, PartAttempts, ActiveCandidate;
  }

  // ---------- checkpoints ----------

  lemma CheckpointApplies(s: RuntimeData, checkpoint: Checkpoint)
    requires Resting(s) && s.pending.None? && Context.ValidateAgainst(checkpoint, s.items).Ok?
    ensures ApplyAll(s, [CheckpointPublished(checkpoint)]) == Ok(s.(checkpoint := Some(checkpoint)))
    ensures Quiescent(s.(checkpoint := Some(checkpoint)))
  {
    ApplyOne(s, CheckpointPublished(checkpoint));
    AppliedKept(s, [CheckpointPublished(checkpoint)]);
    hide Kept, TurnComplete, SnapshotCount, Context.ValidateAgainst, ApplyAll;
    StaysQuiescent(s, s.(checkpoint := Some(checkpoint)));
  }

  lemma RisingItems(s: RuntimeData)
    requires Resting(s)
    ensures Context.Increasing(s.items)
  {
    GoodOrderly(s);
    hide Resting;
  }

  /** Between Turns a checkpoint can be prepared exactly while there are at most 4096 items, and one prepared at the
      head always commits: only the checkpoint changes. Published at any other head it is refused as stale. */
  lemma CheckpointAccepted(s: RuntimeData, head: Context.Head, policy: Context.Policy, now: Context.Head)
    requires Resting(s) && s.pending.None? && Context.ValidPolicy(policy) && Context.HeadOf(Context.RangeOf(head)) == head
    ensures var draft := Context.ReducedFromItems(head, s.items, policy);
            && (draft.Ok? <==> |s.items| <= Context.MAX_CONTEXT_VIEW_ITEMS)
            && (draft.Ok? ==>
                  && Commit(s, [CheckpointPublished(draft.value)]) == Ok(s.(checkpoint := Some(draft.value)))
                  && PlanStep(s, now, PublishCheckpoint(draft.value))
                     == if now == head then Ok([CheckpointPublished(draft.value)]) else Err(StaleCheckpoint))
  {
    hide Context.RecentStart, Context.FromStored, Context.ReducedFromItems, Context.Increasing, Context.Bytes, Context.Tokens, Context.RefTokens,
         Context.ValidateAgainst, Resting, Quiescent, ApplyAll, Commit;
    RisingItems(s);
    Context.ReductionAccepted(head, s.items, policy);
    var draft := Context.ReducedFromItems(head, s.items, policy);
    if draft.Ok? {
      Context.ReductionValidates(head, s.items, policy);
      CheckpointApplies(s, draft.value);
      CommitBecause(s, [CheckpointPublished(draft.value)], s.(checkpoint := Some(draft.value)));
    }
  }
}
