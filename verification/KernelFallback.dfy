/**
 Executing a Turn with fallbacks: admitted with every candidate frozen, then
 driven through the plan, every candidate at most once and in order, until one
 answers or none may be tried.
 */
module KernelFallback {
  import opened Prelude
  import opened Journal
  import opened KernelModel
  import opened KernelInvariant
  import opened KernelPlan
  import opened KernelRuns
  import opened KernelAccepted
  import opened KernelAdmission
  import opened KernelAnswer
  import opened KernelHistory
  import opened KernelRuntime
  import Context
  import UsageModel

  /** A Provider's frozen side, as it reports it. */
  datatype ProviderRuntime = ProviderRuntime(snapshot: nat, dialect: Option<nat>)

  /** How a Provider answered one request. */
  datatype Answer = Events(events: seq<ProviderEvent>, digest: nat) | Unavailable(reason: string, stage: Option<Stage>)

  /** One candidate's try: the instants, the windows holding them, the answer, and how each write ended. */
  datatype Try = Try(startedAt: int, finishedAt: int, inside: set<int>, answer: Answer, begin: WriteOutcome, finish: WriteOutcome, advance: WriteOutcome)

  datatype Driven =
    | Prepared | ProviderFailed | Mismatched | Unready(error: KernelError) | Rejected(fault: Fault) | ToolRefused | PlanInvalid | NotAdmitted
    | OtherFailure

  // ---------- before a Provider is asked ----------

  predicate LatestItem(items: seq<Item>, id: Id) {
    |items| > 0 && items[|items| - 1].id == id && forall i :: 0 <= i < |items| - 1 ==> items[i].id != id
  }

  /** The request context of the pending Turn, or why there is none. */
  function PendingContext(s: RuntimeData, head: Context.Head): Result<Option<Context.RequestView>, KernelError> {
    if s.pending.None? || !s.pending.value.phase.Admitted? then Err(Busy)
    else
      var p := s.pending.value;
      if p.config !in s.configs || p.provider !in s.providers || s.thread.None? || p.turn !in s.turns then Err(Corrupt)
      else if !LatestItem(s.items, s.turns[p.turn].userItem) then Err(Corrupt)
      else if !s.configs[p.config].canonical then Err(UnsupportedContextMode)
      else
        match ContextFor(s, head, s.items[..|s.items| - 1])
        case Ok(context) => Ok(context)
        case Err(error) => Err(ContextError(error))
  }

  predicate Matches(runtime: ProviderRuntime, epoch: Provider) {
    runtime.snapshot == epoch.snapshot && runtime.dialect == epoch.dialect
  }

  /** The only thing an admitted Turn's context can want for is an executable configuration. */
  lemma ContextReadiness(s: RuntimeData, head: Context.Head)
    requires Resting(s) && s.pending.Some? && s.pending.value.phase.Admitted?
    ensures s.pending.value.config in s.configs && s.pending.value.provider in s.providers
    ensures PendingContext(s, head).Ok? <==> s.configs[s.pending.value.config].canonical
  {
    GoodCandidate(s);
    GoodOrderly(s);
    assert s.thread.Some?;
    hide Resting;
    HeadIrrelevant(s, head, s.items[..|s.items| - 1]);
    hide ContextFor, ContextOk;
    assert LatestItem(s.items, s.turns[s.pending.value.turn].userItem);
  }

  // ---------- what the driver may rely on between operations ----------

  ghost predicate Working(k: RuntimeKernel)
    reads k, k.state, k.ledger
  {
    Resting(k.state.View()) && SaneConfigs(k.state.View()) && HeadFits(k.ledger.txns)
  }

  lemma CommitResting(s: RuntimeData, head: Context.Head, move: Move)
    requires Resting(s) && SaneConfigs(s) && move.Act? && SaneMove(move)
    requires PlanStep(s, head, move.step).Ok? && Commit(s, PlanStep(s, head, move.step).value).Ok?
    ensures var t := Commit(s, PlanStep(s, head, move.step).value).value; Resting(t) && SaneConfigs(t) && SnapshotsAdvance(s, t)
  {
    PlansLive(s, head, move.step);
    SanePlan(s, head, move);
    var events := PlanStep(s, head, move.step).value;
    CommitAdvances(s, events);
    hide Good, Quiescent, PlanStep, LiveAll, ApplyAll, SaneMove, SaneConfigs, SaneEvents;
    CommitGood(s, events);
    SaneApplyAll(s, events);
  }

  lemma CommitAdvances(s: RuntimeData, events: seq<Event>)
    requires Resting(s) && Commit(s, events).Ok?
    ensures SnapshotsAdvance(s, Commit(s, events).value)
  {
    hide Kept, AssistantNew, Orderly, Numbered, Quiescent, ApplyAll, SnapshotsAdvance, TurnsAdvance, UsageAdvances;
    ApplyAllGrows(s, events);
  }

  /** One operation; on success its plan is committed. */
  method Operate(k: RuntimeKernel, step: Step, write: WriteOutcome) returns (ok: bool)
    requires Working(k) && SaneMove(Act(step, write))
    modifies k, k.ledger
    ensures Working(k) && SnapshotsAdvance(old(k.state.View()), k.state.View())
    ensures ok ==> var plan := PlanStep(old(k.state.View()), LedgerHead(old(k.ledger.txns)), step);
                   && plan.Ok? && plan.value != [] && Commit(old(k.state.View()), plan.value) == Ok(k.state.View())
    ensures !ok ==> k.state.View() == old(k.state.View())
  {
    hide Resting, SaneConfigs, PlanStep, Commit, HeadFits, SaneMove;
    var plan := PlanStep(k.state.View(), LedgerHead(k.ledger.txns), step);
    if plan.Err? || plan.value == [] {
      return false;
    }
    ghost var s, head := k.state.View(), LedgerHead(k.ledger.txns);
    ok := k.CommitEvents(plan.value, write);
    if ok {
      CommitResting(s, head, Act(step, write));
    }
  }

  // ---------- one candidate ----------

  /** The pending Turn at a candidate, ready to be driven. */
  ghost predicate Driving(s: RuntimeData, turn: Id, index: nat) {
    && s.pending.Some? && s.pending.value.turn == turn && turn in s.turns && s.pending.value.phase.Admitted?
    && s.pending.value.fallbackIndex == index && s.pending.value.nextAttempt < U32_MAX
  }

  /** The same Turn, blocked by the Provider with that stage after one more attempt. */
  ghost predicate BlockedAt(s: RuntimeData, t: RuntimeData, turn: Id, stage: Option<Stage>) {
    && t.pending.Some? && t.pending.value.turn == turn && turn in t.turns && t.turns == s.turns && s.pending.Some?
    && t.pending.value.fallbackIndex == s.pending.value.fallbackIndex
    && t.pending.value.phase.Blocked? && t.pending.value.origin == Some(FromProvider) && t.pending.value.stage == stage
    && t.pending.value.nextAttempt == s.pending.value.nextAttempt + 1
  }

  lemma BlockKeepsAttempts(s: RuntimeData, turn: Id, attempt: U32, now: int, outcome: Outcome, usage: Option<UsageRecord>, inside: set<int>,
                           reason: string, stage: Option<Stage>)
    requires Resting(s) && SaneConfigs(s) && PlanFinishAndBlock(s, turn, attempt, now, outcome, usage, inside, reason, stage).Ok?
    requires outcome.Succeeded? == usage.Some?
    ensures Commit(s, PlanFinishAndBlock(s, turn, attempt, now, outcome, usage, inside, reason, stage).value).Ok?
    ensures s.pending.Some?
    ensures var t := Commit(s, PlanFinishAndBlock(s, turn, attempt, now, outcome, usage, inside, reason, stage).value).value;
            t.pending.Some? && t.pending.value.nextAttempt == s.pending.value.nextAttempt
  {
    hide FinishEvents, BoundedReason, Resting, SaneConfigs, ExpectedCost, Quiescent, ReasonValid, FinishedAttempt;
    RestingKept(s);
    FinishApplies(s, turn, attempt, now, outcome, usage, inside);
    FinishAndBlockAccepted(s, turn, attempt, now, outcome, usage, inside, reason, stage);
    var finish := FinishEvents(s, turn, attempt, now, outcome, usage, inside).value;
    var blocked := TurnBlocked(turn, BoundedReason(reason), FromProvider, stage);
    ApplyAllJoin(s, finish, [blocked]);
    ApplyOne(AfterFinish(s, now, outcome, usage, inside), blocked);
    hide ApplyAll;
  }

  lemma BegunAs(s: RuntimeData, turn: Id, now: int, inside: set<int>, head: Context.Head)
    requires Resting(s) && SaneConfigs(s) && s.pending.Some? && s.pending.value.nextAttempt < U32_MAX
    requires PlanStep(s, head, Begin(turn, now, inside)).Ok?
    ensures Commit(s, PlanStep(s, head, Begin(turn, now, inside)).value).Ok?
    ensures var t := Commit(s, PlanStep(s, head, Begin(turn, now, inside)).value).value;
            && t.turns == s.turns && t.pending.Some?
            && t.pending.value == s.pending.value.(nextAttempt := s.pending.value.nextAttempt + 1,
                                                   open := Some(OpenAttempt(s.pending.value.nextAttempt, now)))
  {
    hide Resting, SaneConfigs, Commit, PlanBegin;
    BeginAccepted(s, turn, now, inside);
  }

  lemma BlockedAs(s: RuntimeData, step: Step, head: Context.Head)
    requires Resting(s) && SaneConfigs(s) && step.FinishAndBlock? && step.outcome.Succeeded? == step.usage.Some?
    requires PlanStep(s, head, step).Ok?
    ensures Commit(s, PlanStep(s, head, step).value).Ok?
    ensures s.pending.Some?
    ensures var t := Commit(s, PlanStep(s, head, step).value).value;
            && t.pending.Some? && t.turns == s.turns
            && t.pending.value.turn == step.turn && t.pending.value.fallbackIndex == s.pending.value.fallbackIndex
            && t.pending.value.phase.Blocked? && t.pending.value.origin == Some(FromProvider) && t.pending.value.stage == step.stage
            && t.pending.value.nextAttempt == s.pending.value.nextAttempt
  {
    hide Resting, SaneConfigs, Commit, PlanFinishAndBlock;
    FinishAndBlockAccepted(s, step.turn, step.attempt, step.now, step.outcome, step.usage, step.inside, step.reason, step.stage);
    BlockKeepsAttempts(s, step.turn, step.attempt, step.now, step.outcome, step.usage, step.inside, step.reason, step.stage);
  }

  /** Finishing the open attempt and blocking the Turn. */
  method BlockOpen(k: RuntimeKernel, step: Step, write: WriteOutcome) returns (ok: bool)
    requires Working(k) && step.FinishAndBlock? && step.outcome.Succeeded? == step.usage.Some?
    modifies k, k.ledger
    ensures Working(k) && SnapshotsAdvance(old(k.state.View()), k.state.View())
    ensures ok ==> var s, t := old(k.state.View()), k.state.View();
                   && s.pending.Some? && t.pending.Some? && t.turns == s.turns
                   && t.pending.value.turn == step.turn && t.pending.value.fallbackIndex == s.pending.value.fallbackIndex
                   && t.pending.value.phase.Blocked? && t.pending.value.origin == Some(FromProvider) && t.pending.value.stage == step.stage
                   && t.pending.value.nextAttempt == s.pending.value.nextAttempt
  {
    hide Resting, SaneConfigs, PlanStep, Commit, HeadFits;
    ghost var s, head := k.state.View(), LedgerHead(k.ledger.txns);
    ok := Operate(k, step, write);
    if ok {
      BlockedAs(s, step, head);
    }
  }

  /** One candidate's try. A missing context or another Provider ends it before anything is written; otherwise the attempt
      is begun, and finished with the output, with the Provider's failure, with the fault of its events, or with the Tool
      call this interface cannot serve. */
  method DrivePending(k: RuntimeKernel, runtime: ProviderRuntime, turn: Id, index: nat, t: Try) returns (r: Driven)
    requires Working(k) && Driving(k.state.View(), turn, index)
    requires k.state.pending.value.config in k.state.configs && k.state.pending.value.provider in k.state.providers
    modifies k, k.ledger
    ensures Working(k) && SnapshotsAdvance(old(k.state.View()), k.state.View())
    ensures r.Unready? <==> PendingContext(old(k.state.View()), LedgerHead(old(k.ledger.txns))).Err?
    ensures r.Mismatched? <==> && PendingContext(old(k.state.View()), LedgerHead(old(k.ledger.txns))).Ok?
                               && !Matches(runtime, old(k.state.providers[k.state.pending.value.provider]))
    ensures r.Unready? || r.Mismatched? ==> k.state.View() == old(k.state.View())
    ensures r.ProviderFailed? ==> t.answer.Unavailable? && BlockedAt(old(k.state.View()), k.state.View(), turn, t.answer.stage)
    ensures var limit := old(k.state.configs[k.state.pending.value.config]).maxOutputBytes;
            && (r.Rejected? ==> && t.answer.Events? && Interpret(t.answer.events, limit) == Err(r.fault)
                                && BlockedAt(old(k.state.View()), k.state.View(), turn, None))
            && (r.ToolRefused? ==> && t.answer.Events? && Interpret(t.answer.events, limit).Ok? && Interpret(t.answer.events, limit).value.ToolCall?
                                   && BlockedAt(old(k.state.View()), k.state.View(), turn, None))
            && (r.Prepared? ==> && t.answer.Events? && Interpret(t.answer.events, limit).Ok? && Interpret(t.answer.events, limit).value.Output?
                                && k.state.pending.Some? && k.state.pending.value.phase.Prepared?)
    ensures !r.PlanInvalid? && !r.NotAdmitted?
  {
    hide Resting, SaneConfigs, Quiescent, Commit, PlanStep, HeadFits, PendingContext, Interpret;
    ghost var s := k.state.View();
    var context := PendingContext(k.state.View(), LedgerHead(k.ledger.txns));
    if context.Err? {
      return Unready(context.error);
    }
    if !Matches(runtime, k.state.providers[k.state.pending.value.provider]) {
      return Mismatched;
    }
    var limit := k.state.configs[k.state.pending.value.config].maxOutputBytes;
    var attempt := k.state.pending.value.nextAttempt;
    var begun := Operate(k, Begin(turn, t.startedAt, t.inside), t.begin);
    if !begun {
      return OtherFailure;
    }
    ghost var middle := k.state.View();
    BegunAs(s, turn, t.startedAt, t.inside, LedgerHead(old(k.ledger.txns)));
    if t.answer.Unavailable? {
      var done := BlockOpen(k, FinishAndBlock(turn, attempt, t.finishedAt, UsageModel.Failed, None, t.inside, t.answer.reason, t.answer.stage),
                            t.finish);
      Chained(s, middle, k.state.View());
      return if done then ProviderFailed else OtherFailure;
    }
    var answered := Validate(t.answer.events, limit);
    if answered.Err? {
      var done := BlockOpen(k, FinishAndBlock(turn, attempt, t.finishedAt, UsageModel.Failed, None, t.inside, Wording(answered.error), None),
                            t.finish);
      Chained(s, middle, k.state.View());
      return if done then Rejected(answered.error) else OtherFailure;
    }
    if answered.value.ToolCall? {
      var done := BlockOpen(k, FinishAndBlock(turn, attempt, t.finishedAt, UsageModel.Succeeded, Some(answered.value.usage), t.inside,
                                              "Provider requested an unavailable Tool", None), t.finish);
      Chained(s, middle, k.state.View());
      return if done then ToolRefused else OtherFailure;
    }
    var usage := answered.value.usage;
    var done := Operate(k, Prepare(turn, attempt, t.finishedAt, answered.value.deltas, t.answer.digest, [usage], usage, t.inside), t.finish);
    Chained(s, middle, k.state.View());
    return if done && k.state.pending.Some? && k.state.pending.value.phase.Prepared? then Driven.Prepared else OtherFailure;
  }

  lemma Chained(a: RuntimeData, b: RuntimeData, c: RuntimeData)
    requires SnapshotsAdvance(a, b) && SnapshotsAdvance(b, c)
    ensures SnapshotsAdvance(a, c)
  {
  }

  lemma AdvancedAs(s: RuntimeData, agent: Option<Id>, turn: Id, head: Context.Head)
    requires Resting(s) && turn in s.turns && RequireExecutable(s, turn).Ok? && s.pending.Some? && s.pending.value.fallbackIndex < U32_MAX
    requires s.turns[turn].agent == agent && s.pending.value.turn == turn
    ensures PlanStep(s, head, AdvanceFallback(agent, turn)).Ok?
    ensures PlanStep(s, head, AdvanceFallback(agent, turn)).value != [] <==>
              ProviderBlocked(s.pending.value) && Retryable(s.pending.value.stage) && s.pending.value.fallbackIndex < |s.turns[turn].fallbacks|
    ensures PlanStep(s, head, AdvanceFallback(agent, turn)).value != [] ==>
              && Commit(s, PlanStep(s, head, AdvanceFallback(agent, turn)).value).Ok?
              && var t := Commit(s, PlanStep(s, head, AdvanceFallback(agent, turn)).value).value;
              && t.turns == s.turns && t.pending.Some? && t.pending.value.turn == turn && t.pending.value.phase.Admitted?
              && t.pending.value.fallbackIndex == s.pending.value.fallbackIndex + 1 && t.pending.value.nextAttempt == s.pending.value.nextAttempt
  {
    hide Resting, Commit, PlanFallback;
    FallbackAccepted(s, agent, turn);
  }

  // ---------- the frozen plan and the Providers given for it ----------

  /** The plan's candidate at `j` is executable and frozen as the Provider given for it reports itself. */
  ghost predicate ServedAt(s: RuntimeData, record: TurnRecord, runtimes: seq<ProviderRuntime>, j: nat)
    requires j < |runtimes| == |record.fallbacks| + 1
  {
    && CandidateConfig(record, j) in s.configs && s.configs[CandidateConfig(record, j)].canonical
    && CandidateProvider(record, j) in s.providers && Matches(runtimes[j], s.providers[CandidateProvider(record, j)])
  }

  ghost predicate Served(s: RuntimeData, turn: Id, runtimes: seq<ProviderRuntime>) {
    turn in s.turns && |runtimes| == |s.turns[turn].fallbacks| + 1 && forall j: nat :: j < |runtimes| ==> ServedAt(s, s.turns[turn], runtimes, j)
  }

  lemma ServedLater(s: RuntimeData, t: RuntimeData, turn: Id, runtimes: seq<ProviderRuntime>)
    requires Served(s, turn, runtimes) && t.turns == s.turns && SnapshotsAdvance(s, t)
    ensures Served(t, turn, runtimes)
  {
    forall j: nat | j < |runtimes|
      ensures ServedAt(t, t.turns[turn], runtimes, j)
    {
      assert ServedAt(s, s.turns[turn], runtimes, j);
    }
  }

  /** The active pair is the candidate's at the fallback index, so its context exists and its Provider is the one given. */
  lemma ServedActive(s: RuntimeData, turn: Id, runtimes: seq<ProviderRuntime>, index: nat, head: Context.Head)
    requires Resting(s) && Served(s, turn, runtimes) && Driving(s, turn, index)
    ensures index < |runtimes| && PendingContext(s, head).Ok?
    ensures s.pending.value.config in s.configs && s.pending.value.provider in s.providers
    ensures Matches(runtimes[index], s.providers[s.pending.value.provider])
  {
    GoodCandidate(s);
    ContextReadiness(s, head);
    hide Resting, PendingContext;
    assert ServedAt(s, s.turns[turn], runtimes, index);
  }

  lemma ServedExecutable(s: RuntimeData, turn: Id, runtimes: seq<ProviderRuntime>)
    requires Resting(s) && Served(s, turn, runtimes) && s.pending.Some? && s.pending.value.turn == turn
    ensures RequireExecutable(s, turn).Ok?
  {
    GoodCandidate(s);
    hide Resting;
    assert ServedAt(s, s.turns[turn], runtimes, s.pending.value.fallbackIndex);
  }

  // ---------- admission ----------

  /** The candidates as an admission takes them: the first is the primary. */
  function PlanOf(candidates: seq<Candidate>, agent: Option<Id>, input: string, digest: nat): Admission
    requires |candidates| > 0
  {
    Admission(candidates[0].config, candidates[0].provider, Some(candidates[0].selection), candidates[1..], agent, input, digest, false)
  }

  lemma PlanOfCandidates(candidates: seq<Candidate>, agent: Option<Id>, input: string, digest: nat, j: nat)
    requires j < |candidates|
    ensures CandidateConfigOf(PlanOf(candidates, agent, input, digest), j) == candidates[j].config
    ensures CandidateProviderOf(PlanOf(candidates, agent, input, digest), j) == candidates[j].provider
  {
  }

  lemma AdmittedCanonical(s: RuntimeData, head: Context.Head, a: Admission, j: nat)
    requires PlanAdmit(s, head, a).Ok? && j <= |a.fallbacks|
    ensures CandidateConfigOf(a, j).canonical
  {
    hide InputValid, ContextFor, SelectionFits, SelectionMatches, AdmissionEvents;
  }

  /** Right after admission the Turn is at its primary candidate and every candidate is served. */
  lemma AdmittedServed(s: RuntimeData, head: Context.Head, a: Admission, runtimes: seq<ProviderRuntime>)
    requires Resting(s) && PlanStep(s, head, Admit(a)).Ok? && Commit(s, PlanStep(s, head, Admit(a)).value).Ok?
    requires |runtimes| == |a.fallbacks| + 1 && forall j: nat :: j <= |a.fallbacks| ==> Matches(runtimes[j], CandidateProviderOf(a, j))
    ensures var t := Commit(s, PlanStep(s, head, Admit(a)).value).value;
            && Driving(t, s.nextTurn, 0) && t.pending.value.nextAttempt == 1 && t.turns[s.nextTurn].agent == a.agent
            && |t.turns[s.nextTurn].fallbacks| == |a.fallbacks| < MAX_FALLBACK_CANDIDATES && Served(t, s.nextTurn, runtimes)
  {
    hide Resting, PlanAdmit, Commit, IdsLeft, InputValid, CandidateConfigOf, CandidateProviderOf, CandidateConfig, CandidateProvider;
    AdmitAccepted(s, head, a);
    var t := Commit(s, PlanAdmit(s, head, a).value).value;
    var record := t.turns[s.nextTurn];
    forall j: nat | j < |runtimes|
      ensures ServedAt(t, record, runtimes, j)
    {
      assert HoldsCandidate(t, a, s.nextConfig, s.nextProvider, j);
      AdmittedCanonical(s, head, a, j);
    }
  }

  /** Candidates and Providers are compared pair by pair before anything is admitted. */
  method CheckPlan(candidates: seq<Candidate>, runtimes: seq<ProviderRuntime>) returns (r: Driven)
    ensures r.PlanInvalid? <==> |candidates| == 0 || |candidates| > MAX_FALLBACK_CANDIDATES || |candidates| != |runtimes|
    ensures r.Mismatched? <==> && 0 < |candidates| <= MAX_FALLBACK_CANDIDATES && |candidates| == |runtimes|
                               && exists j :: 0 <= j < |candidates| && !Matches(runtimes[j], candidates[j].provider)
    ensures r.PlanInvalid? || r.Mismatched? || r.Prepared?
  {
    if |candidates| == 0 || |candidates| > MAX_FALLBACK_CANDIDATES || |candidates| != |runtimes| {
      return PlanInvalid;
    }
    for j := 0 to |candidates|
      invariant forall i :: 0 <= i < j ==> Matches(runtimes[i], candidates[i].provider)
    {
      if !Matches(runtimes[j], candidates[j].provider) {
        return Mismatched;
      }
    }
    return Driven.Prepared;
  }

  // ---------- the loop ----------

  /** The Turn stands at a candidate of its served plan, each earlier candidate having taken one attempt. */
  ghost predicate OnPlan(s: RuntimeData, turn: Id, agent: Option<Id>, runtimes: seq<ProviderRuntime>, index: nat) {
    && Driving(s, turn, index) && s.pending.value.nextAttempt == index + 1 && s.turns[turn].agent == agent
    && |s.turns[turn].fallbacks| + 1 == |runtimes| <= MAX_FALLBACK_CANDIDATES && Served(s, turn, runtimes)
  }

  /** Once its Provider has failed, the Turn may advance exactly when the failure allows it and a candidate is left. */
  lemma AdvanceReady(s: RuntimeData, t: RuntimeData, head: Context.Head, turn: Id, agent: Option<Id>, runtimes: seq<ProviderRuntime>,
                     index: nat, stage: Option<Stage>)
    requires OnPlan(s, turn, agent, runtimes, index) && BlockedAt(s, t, turn, stage) && SnapshotsAdvance(s, t) && Resting(t)
    ensures PlanStep(t, head, AdvanceFallback(agent, turn)).Ok?
    ensures PlanStep(t, head, AdvanceFallback(agent, turn)).value != [] <==> Retryable(stage) && index + 1 < |runtimes|
    ensures PlanStep(t, head, AdvanceFallback(agent, turn)).value != [] ==>
              && Commit(t, PlanStep(t, head, AdvanceFallback(agent, turn)).value).Ok?
              && var u := Commit(t, PlanStep(t, head, AdvanceFallback(agent, turn)).value).value;
              && (SnapshotsAdvance(t, u) ==> OnPlan(u, turn, agent, runtimes, index + 1))
  {
    hide Resting, Commit, PlanStep, Served, SnapshotsAdvance, RequireExecutable;
    ServedLater(s, t, turn, runtimes);
    ServedExecutable(t, turn, runtimes);
    AdvancedAs(t, agent, turn, head);
    if PlanStep(t, head, AdvanceFallback(agent, turn)).value != [] {
      var u := Commit(t, PlanStep(t, head, AdvanceFallback(agent, turn)).value).value;
      if SnapshotsAdvance(t, u) {
        ServedLater(t, u, turn, runtimes);
      }
    }
  }

  /** The candidates are frozen: on success the Turn stands at the first of them. */
  method AdmitPlan(k: RuntimeKernel, candidates: seq<Candidate>, runtimes: seq<ProviderRuntime>, agent: Option<Id>,
                   input: string, digest: nat, write: WriteOutcome) returns (ok: bool)
    requires Working(k) && 0 < |candidates| == |runtimes| <= MAX_FALLBACK_CANDIDATES && forall c <- candidates :: Sane(c.config)
    requires forall j :: 0 <= j < |candidates| ==> Matches(runtimes[j], candidates[j].provider)
    modifies k, k.ledger
    ensures Working(k)
    ensures ok ==> OnPlan(k.state.View(), old(k.state.nextTurn), agent, runtimes, 0)
    ensures !ok ==> k.state.View() == old(k.state.View())
  {
    hide Resting, SaneConfigs, Commit, PlanStep, HeadFits, Sane, Served, SnapshotsAdvance, Matches, CandidateConfigOf, CandidateProviderOf;
    var admission := PlanOf(candidates, agent, input, digest);
    ghost var before, head := k.state.View(), LedgerHead(k.ledger.txns);
    assert SaneMove(Act(Admit(admission), write)) by {
      assert forall c <- candidates[1..] :: c in candidates;
    }
    hide SaneMove;
    ok := Operate(k, Admit(admission), write);
    if ok {
      forall j: nat | j <= |admission.fallbacks|
        ensures Matches(runtimes[j], CandidateProviderOf(admission, j))
      {
        PlanOfCandidates(candidates, agent, input, digest, j);
      }
      AdmittedServed(before, head, admission, runtimes);
    }
  }

  /** One candidate of the plan. `Advanced` moves on; anything else ends the operation. */
  method TryCandidate(k: RuntimeKernel, turn: Id, agent: Option<Id>, runtimes: seq<ProviderRuntime>, index: nat, t: Try)
    returns (r: Driven, advanced: bool)
    requires Working(k) && OnPlan(k.state.View(), turn, agent, runtimes, index) && index < |runtimes|
    modifies k, k.ledger
    ensures Working(k)
    ensures advanced ==> && t.answer.Unavailable? && Retryable(t.answer.stage) && index + 1 < |runtimes|
                         && OnPlan(k.state.View(), turn, agent, runtimes, index + 1)
    ensures !r.Unready? && !r.Mismatched? && !r.PlanInvalid? && !r.NotAdmitted?
    ensures !advanced && r.Prepared? ==> t.answer.Events? && k.state.pending.Some? && k.state.pending.value.phase.Prepared?
    ensures !advanced && (r.Rejected? || r.ToolRefused?) ==> t.answer.Events?
    ensures !advanced && (r.ProviderFailed? || r.Rejected? || r.ToolRefused?) ==>
              k.state.pending.Some? && k.state.pending.value.phase.Blocked? && k.state.pending.value.fallbackIndex == index
    ensures !advanced && r.ProviderFailed? ==> t.answer.Unavailable? && (index + 1 == |runtimes| || !Retryable(t.answer.stage))
  {
    hide Resting, SaneConfigs, Commit, PlanStep, HeadFits, PendingContext, Served, SnapshotsAdvance, Matches;
    ghost var s := k.state.View();
    ServedActive(s, turn, runtimes, index, LedgerHead(k.ledger.txns));
    r := DrivePending(k, runtimes[index], turn, index, t);
    if !r.ProviderFailed? {
      return r, false;
    }
    AdvanceReady(s, k.state.View(), LedgerHead(k.ledger.txns), turn, agent, runtimes, index, t.answer.stage);
    var plan := PlanStep(k.state.View(), LedgerHead(k.ledger.txns), AdvanceFallback(agent, turn));
    if plan.value == [] {
      return r, false;
    }
    advanced := Operate(k, AdvanceFallback(agent, turn), t.advance);
    if !advanced {
      r := OtherFailure;
    }
  }

  /** The whole operation: the plan is checked and admitted, then tried candidate by candidate. It ends; every candidate is
      driven at most once, in order; the local index always equals the durable one, so a Provider is always there for it.
      Once admitted neither the context nor a Provider's identity can stand in the way, and a Provider's failure is
      reported only when no candidate is left or the failure does not allow another. */
  method ExecuteWithFallbacks(k: RuntimeKernel, candidates: seq<Candidate>, runtimes: seq<ProviderRuntime>, agent: Option<Id>,
                              input: string, digest: nat, admit: WriteOutcome, tries: seq<Try>) returns (r: Driven, tried: nat)
    requires Working(k) && |tries| == |candidates| && forall c <- candidates :: Sane(c.config)
    modifies k, k.ledger
    ensures Working(k) && tried <= |tries|
    ensures tried == 0 <==> r.PlanInvalid? || r.Mismatched? || r.NotAdmitted?
    ensures tried == 0 ==> k.state.View() == old(k.state.View())
    ensures r.PlanInvalid? <==> |candidates| == 0 || |candidates| > MAX_FALLBACK_CANDIDATES || |candidates| != |runtimes|
    ensures r.Mismatched? <==> && 0 < |candidates| <= MAX_FALLBACK_CANDIDATES && |candidates| == |runtimes|
                               && exists j :: 0 <= j < |candidates| && !Matches(runtimes[j], candidates[j].provider)
    ensures !r.Unready?
    ensures forall i :: 0 <= i < tried - 1 ==> tries[i].answer.Unavailable? && Retryable(tries[i].answer.stage)
    ensures r.Prepared? ==> tries[tried - 1].answer.Events? && k.state.pending.Some? && k.state.pending.value.phase.Prepared?
    ensures r.Rejected? || r.ToolRefused? ==> tries[tried - 1].answer.Events?
    ensures r.ProviderFailed? || r.Rejected? || r.ToolRefused? ==>
              && k.state.pending.Some? && k.state.pending.value.phase.Blocked? && k.state.pending.value.fallbackIndex == tried - 1
    ensures r.ProviderFailed? ==>
              && tries[tried - 1].answer.Unavailable? && (tried == |tries| || !Retryable(tries[tried - 1].answer.stage))
  {
    hide Resting, SaneConfigs, HeadFits, Sane, OnPlan, Matches;
    r := CheckPlan(candidates, runtimes);
    if !r.Prepared? {
      return r, 0;
    }
    var turn := k.state.nextTurn;
    var admitted := AdmitPlan(k, candidates, runtimes, agent, input, digest, admit);
    if !admitted {
      return NotAdmitted, 0;
    }
    tried := 0;
    while true
      invariant Working(k) && tried < |tries| == |runtimes| && OnPlan(k.state.View(), turn, agent, runtimes, tried)
      invariant forall i :: 0 <= i < tried ==> tries[i].answer.Unavailable? && Retryable(tries[i].answer.stage)
      decreases |tries| - tried
    {
      var advanced;
      r, advanced := TryCandidate(k, turn, agent, runtimes, tried, tries[tried]);
      tried := tried + 1;
      if !advanced {
        return;
      }
    }
  }
}
