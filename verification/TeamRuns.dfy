/**
 What one request does, when it is carried out, and that every runtime reached
 from an empty one stays live.
 */
module TeamRuns {
  import opened Prelude
  import opened TeamModel
  import opened TeamPlan
  import opened TeamInvariant
  import opened TeamSchedule
  import opened TeamCommands
  import opened TeamGrowth
  import opened TeamDispatch

  // ---------- the events of a transaction replay to its candidate ----------

  lemma PlannedTrace(start: TeamData, p: Progress, event: EventKind, limit: nat)
    requires ApplyAll(start, p.events, limit) == Ok(p.data) && ApplyPlanned(p, event, limit).Ok?
    ensures var q := ApplyPlanned(p, event, limit).value; ApplyAll(start, q.events, limit) == Ok(q.data)
  {
    hide Apply;
    ApplyAllAppend(start, p.events, event, limit);
  }

  lemma ResolveTrace(start: TeamData, p: Progress, task: TaskId, limit: nat)
    requires ApplyAll(start, p.events, limit) == Ok(p.data) && ResolvePending(p, task, limit).Ok?
    ensures var q := ResolvePending(p, task, limit).value; ApplyAll(start, q.events, limit) == Ok(q.data)
  {
    hide ApplyPlanned, ApplyAll, FirstFailedDependency, DependenciesSucceeded;
    var blocking := FirstFailedDependency(p.data, task).value;
    if blocking.Some? {
      var blocked := ApplyPlanned(p, TaskBlocked(task, blocking.value), limit).value;
      PlannedTrace(start, p, TaskBlocked(task, blocking.value), limit);
      PlannedTrace(start, blocked, AgentBlockedBy(OwnerOf(blocked.data, task).value, blocking.value), limit);
    } else if DependenciesSucceeded(p.data, task).value {
      PlannedTrace(start, p, TaskReady(task), limit);
    }
  }

  lemma {:induction false} ResolveAllTrace(start: TeamData, p: Progress, ids: seq<TaskId>, limit: nat)
    requires ApplyAll(start, p.events, limit) == Ok(p.data) && ResolveAll(p, ids, limit).Ok?
    ensures var q := ResolveAll(p, ids, limit).value; ApplyAll(start, q.events, limit) == Ok(q.data)
    decreases |ids|
  {
    hide ResolvePending, ApplyAll;
    if ids != [] {
      ResolveTrace(start, p, ids[0], limit);
      ResolveAllTrace(start, ResolvePending(p, ids[0], limit).value, ids[1..], limit);
    }
  }

  lemma {:induction false} ActivateTrace(start: TeamData, p: Progress, limit: nat)
    requires ApplyAll(start, p.events, limit) == Ok(p.data) && Activate(p, limit).Ok?
    ensures var q := Activate(p, limit).value; ApplyAll(start, q.events, limit) == Ok(q.data)
    decreases ReadyTasks(p.data.tasks)
  {
    hide ApplyPlanned, ApplyAll, ActiveCount;
    if ActiveCount(p.data) < limit && ReadyTasks(p.data.tasks) != {} {
      StartOneConsumesReady(p, limit);
      var task := Least(ReadyTasks(p.data.tasks));
      var owner := OwnerOf(p.data, task).value;
      PlannedTrace(start, p, AgentActivated(owner), limit);
      PlannedTrace(start, ApplyPlanned(p, AgentActivated(owner), limit).value, TaskStarted(task), limit);
      ActivateTrace(start, StartOne(p, limit).value, limit);
    }
  }

  /** Everything the scheduler changes it also writes down. */
  lemma ReconcileTrace(start: TeamData, p: Progress, limit: nat)
    requires ApplyAll(start, p.events, limit) == Ok(p.data) && Reconcile(p, limit).Ok?
    ensures var q := Reconcile(p, limit).value; ApplyAll(start, q.events, limit) == Ok(q.data)
  {
    hide ApplyAll, ResolveAll, Activate;
    var ids := PendingTasks(p.data.tasks, MaxId(p.data.tasks.Keys));
    ResolveAllTrace(start, p, ids, limit);
    ActivateTrace(start, ResolveAll(p, ids, limit).value, limit);
  }

  // ---------- one request ----------

  ghost predicate HasRoom(t: Team, kinds: seq<EventKind>) {
    |kinds| <= U32_MAX && |t.log| + |kinds| <= U64_MAX
  }

  /** The candidate state and the events a planned, fitting request leads to. */
  function Outcome(t: Team, request: Request): Scheduled {
    var base :- BaseEvents(t, request);
    var planned :- ApplyAll(t.data, base, t.limit);
    Reconcile(Progress(planned, base), t.limit)
  }

  lemma SoundCounted(d: TeamData, limit: nat)
    requires Sound(d, limit)
    ensures NextIdentifier(d.tasks.Keys) == Ok(|d.tasks| + 1) && NextIdentifier(d.agents.Keys) == Ok(|d.agents| + 1)
    ensures NextIdentifier(MessageIds(d.messages)) == Ok(|d.messages| + 1)
  {
    hide Tree, DependenciesEarlier, DependencySafe, Validated, LiveChain, CompletionMatches;
    NextIsFresh(d.tasks.Keys, |d.tasks|);
    NextIsFresh(d.agents.Keys, |d.agents|);
    MessageIdsNumbered(d.messages);
    NextIsFresh(MessageIds(d.messages), |d.messages|);
  }

  lemma OutcomeSettled(t: Team, base: seq<EventKind>)
    requires Accepted(t.data, base, t.limit)
    ensures var planned := ApplyAll(t.data, base, t.limit).value;
            var q := Reconcile(Progress(planned, base), t.limit);
            && q.Ok? && Sound(q.value.data, t.limit) && Quiescent(q.value.data, t.limit)
            && OnlySchedulerEvents(base, q.value.events)
            && ApplyAll(t.data, q.value.events, t.limit) == Ok(q.value.data)
  {
    hide Sound, Quiescent, Reconcile, ApplyAll;
    var planned := ApplyAll(t.data, base, t.limit).value;
    SoundOwned(planned, t.limit);
    ReconcileReachesQuiescence(Progress(planned, base), t.limit);
    ReconcileKeepsSound(Progress(planned, base), t.limit);
    ReconcileTrace(t.data, Progress(planned, base), t.limit);
  }

  lemma BaseAccepted(t: Team, request: Request)
    requires Live(t) && BaseEvents(t, request).Ok?
    ensures Fits(t, request) ==> Accepted(t.data, BaseEvents(t, request).value, t.limit)
    ensures !Fits(t, request) ==> ApplyAll(t.data, BaseEvents(t, request).value, t.limit).Err?
    ensures BaseEvents(t, request).value != []
  {
    hide Sound, Quiescent, Accepted, ApplyAll, PlanCommand;
    match request
    case Dispatch(command) =>
      CommandAccepted(t, command);
      PlanMarked(t, command);
    case DispatchOperation(operation, command) => OperationAccepted(t, operation, command);
    case Acknowledge(operation) => AcknowledgementAccepted(t, operation);
  }

  lemma DispatchFraming(t: Team, command: Command, all: seq<EventKind>, first: nat)
    requires PlanCommand(t, command).Ok? && OnlySchedulerEvents(PlanCommand(t, command).value, all)
    requires |all| <= U32_MAX && first + |all| <= U64_MAX + 1
    ensures OperationFraming(Frame(all, first, t.nextTransaction))
  {
    hide PlanCommand;
    PlanMarked(t, command);
    UnmarkedExtends(PlanCommand(t, command).value, all);
    PlainFraming(all, first, t.nextTransaction);
  }

  lemma OperationKeepsMark(marker: EventKind, plan: seq<EventKind>, k: nat)
    requires marker.OperationCommitted? && MarkedAt(plan, k)
    ensures MarkedAt([marker] + plan, k + 1)
  {
    assert forall i | 1 <= i <= |plan| :: ([marker] + plan)[i] == plan[i - 1];
  }

  lemma CommittedOperationFraming(t: Team, operation: OperationId, command: Command, all: seq<EventKind>, first: nat)
    requires PlanCommand(t, command).Ok?
    requires OnlySchedulerEvents([OperationCommitted(operation, t.nextTransaction)] + PlanCommand(t, command).value, all)
    requires |all| <= U32_MAX && first + |all| <= U64_MAX + 1
    ensures OperationFraming(Frame(all, first, t.nextTransaction))
  {
    hide PlanCommand, OperationFraming;
    var plan := PlanCommand(t, command).value;
    var marker := OperationCommitted(operation, t.nextTransaction);
    PlanMarked(t, command);
    var k := if MarkedAt(plan, 0) then 0 else 1;
    OperationKeepsMark(marker, plan, k);
    MarkedExtends([marker] + plan, all, k + 1);
    assert all[0] == marker;
    assert forall i | 1 <= i <= |plan| :: all[i] == plan[i - 1];
    CommittedFraming(all, first, t.nextTransaction, k + 1);
  }

  lemma ApplySingle(d: TeamData, event: EventKind, limit: nat)
    ensures ApplyAll(d, [event], limit) == Apply(d, event, limit)
  {
    hide Apply;
    assert [event][1..] == [];
    match Apply(d, event, limit)
    case Ok(next) => assert ApplyAll(next, [], limit) == Ok(next);
    case Err(_) =>
  }

  lemma AcknowledgedOnlyJournal(d: TeamData, event: EventKind, limit: nat)
    requires event.OperationAcknowledged? && Apply(d, event, limit).Ok?
    ensures Apply(d, event, limit).value.tasks == d.tasks && Apply(d, event, limit).value.agents == d.agents
  {
  }

  lemma SameQuiescent(d: TeamData, e: TeamData, limit: nat)
    requires Quiescent(d, limit) && d.tasks == e.tasks && d.agents == e.agents
    ensures Quiescent(e, limit)
  {
    assert forall x | x in e.tasks :: Settled(d, x) ==> Settled(e, x);
  }

  /** An acknowledgement is alone in its transaction: on a quiescent state the scheduler adds nothing. */
  lemma AcknowledgedAlone(t: Team, operation: OperationId)
    requires Live(t) && Fits(t, Acknowledge(operation)) && BaseEvents(t, Acknowledge(operation)).Ok?
    ensures Outcome(t, Acknowledge(operation)).Ok?
    ensures Outcome(t, Acknowledge(operation)).value.events == BaseEvents(t, Acknowledge(operation)).value
  {
    hide Sound, Quiescent, Reconcile, Apply, ApplyAll;
    var base := BaseEvents(t, Acknowledge(operation)).value;
    AcknowledgementAccepted(t, operation);
    ApplySingle(t.data, base[0], t.limit);
    AcknowledgedOnlyJournal(t.data, base[0], t.limit);
    var planned := ApplyAll(t.data, base, t.limit).value;
    SameQuiescent(t.data, planned, t.limit);
    QuiescentIsFixed(planned, base, t.limit);
  }

  lemma AcknowledgedFraming(t: Team, operation: OperationId, first: nat)
    requires Journaled(t) && BaseEvents(t, Acknowledge(operation)).Ok? && first <= U64_MAX
    ensures OperationFraming(Frame(BaseEvents(t, Acknowledge(operation)).value, first, t.nextTransaction))
  {
    var events := Frame(BaseEvents(t, Acknowledge(operation)).value, first, t.nextTransaction);
    CountNone(events, IsCommitMarker);
  }

  lemma OutcomeFraming(t: Team, request: Request, first: nat)
    requires Live(t) && BaseEvents(t, request).Ok? && Fits(t, request) && Outcome(t, request).Ok?
    requires OnlySchedulerEvents(BaseEvents(t, request).value, Outcome(t, request).value.events)
    requires |Outcome(t, request).value.events| <= U32_MAX && first + |Outcome(t, request).value.events| <= U64_MAX + 1
    ensures OperationFraming(Frame(Outcome(t, request).value.events, first, t.nextTransaction))
  {
    var all := Outcome(t, request).value.events;
    match request
    case Dispatch(command) =>
      DispatchFraming(t, command, all, first);
    case DispatchOperation(operation, command) =>
      CommittedOperationFraming(t, operation, command, all, first);
    case Acknowledge(operation) =>
      AcknowledgedAlone(t, operation);
      AcknowledgedFraming(t, operation, first);
  }

  lemma NextCounters(t: Team, request: Request, next: Team)
    requires Perform(t, request) == Ok(next)
    ensures Counted(next) && next.nextTransaction == t.nextTransaction + 1 && StoredIdentifier(t.nextTransaction)
    ensures next.limit == t.limit
  {
    hide BaseEvents, ApplyAll, Reconcile, Validated, Quiescent, NextIdentifier, OperationFraming;
  }

  lemma {:induction false} EventsKeepJournal(d: TeamData, events: seq<EventKind>, limit: nat, bound: nat)
    requires ApplyAll(d, events, limit).Ok?
    requires forall o | o in d.operations :: 1 <= d.operations[o].transaction < bound
    requires forall i | 0 <= i < |events| && events[i].OperationCommitted? :: events[i].transaction < bound
    ensures forall o | o in ApplyAll(d, events, limit).value.operations ::
              1 <= ApplyAll(d, events, limit).value.operations[o].transaction < bound
    decreases |events|
  {
    if events != [] {
      EventKeepsJournal(d, events[0], limit, bound);
      hide Apply;
      assert forall i | 0 <= i < |events| - 1 :: events[1..][i] == events[i + 1];
      EventsKeepJournal(Apply(d, events[0], limit).value, events[1..], limit, bound);
    }
  }

  lemma EventKeepsJournal(d: TeamData, event: EventKind, limit: nat, bound: nat)
    requires Apply(d, event, limit).Ok?
    requires forall o | o in d.operations :: 1 <= d.operations[o].transaction < bound
    requires event.OperationCommitted? ==> event.transaction < bound
    ensures forall o | o in Apply(d, event, limit).value.operations ::
              1 <= Apply(d, event, limit).value.operations[o].transaction < bound
  {
    if !event.OperationCommitted? && !event.OperationAcknowledged? {
      OperationsUntouched(d, event, limit);
    }
  }

  lemma OperationsUntouched(d: TeamData, event: EventKind, limit: nat)
    requires Apply(d, event, limit).Ok? && !event.OperationCommitted? && !event.OperationAcknowledged?
    ensures Apply(d, event, limit).value.operations == d.operations
  {
  }

  lemma OutcomeJournal(t: Team, request: Request)
    requires Journaled(t) && BaseEvents(t, request).Ok? && Accepted(t.data, BaseEvents(t, request).value, t.limit)
    ensures Outcome(t, request).Ok?
    ensures forall o | o in Outcome(t, request).value.data.operations ::
              1 <= Outcome(t, request).value.data.operations[o].transaction < t.nextTransaction + 1
  {
    hide Sound, Quiescent, Reconcile, ApplyAll, BaseEvents;
    OutcomeSettled(t, BaseEvents(t, request).value);
    var q := Outcome(t, request).value;
    forall i | 0 <= i < |q.events| && q.events[i].OperationCommitted?
      ensures q.events[i].transaction < t.nextTransaction + 1
    {
      CommitMarkersCurrent(t, request, i);
    }
    hide Outcome, Accepted, OnlySchedulerEvents;
    EventsKeepJournal(t.data, q.events, t.limit, t.nextTransaction + 1);
  }

  lemma CommitMarkersCurrent(t: Team, request: Request, i: nat)
    requires BaseEvents(t, request).Ok? && Outcome(t, request).Ok?
    requires OnlySchedulerEvents(BaseEvents(t, request).value, Outcome(t, request).value.events)
    requires i < |Outcome(t, request).value.events| && Outcome(t, request).value.events[i].OperationCommitted?
    ensures Outcome(t, request).value.events[i].transaction == t.nextTransaction
  {
    hide PlanCommand, Reconcile, ApplyAll;
    var base := BaseEvents(t, request).value;
    assert i < |base| && Outcome(t, request).value.events[i] == base[i];
    match request
    case Dispatch(command) => PlanMarked(t, command);
    case DispatchOperation(_, command) => PlanMarked(t, command);
    case Acknowledge(_) =>
  }

  lemma PreparedOutcome(t: Team, base: seq<EventKind>, q: Progress)
    requires ApplyAll(t.data, base, t.limit).Ok?
    requires Reconcile(Progress(ApplyAll(t.data, base, t.limit).value, base), t.limit) == Ok(q)
    requires Sound(q.data, t.limit) && Quiescent(q.data, t.limit) && q.events != []
    requires HasRoom(t, q.events) ==> OperationFraming(Frame(q.events, |t.log| + 1, t.nextTransaction))
    requires t.nextTransaction < U64_MAX
    ensures var prepared := PrepareEvents(t, t.nextTransaction, base);
            && (prepared.Ok? <==> HasRoom(t, q.events))
            && (prepared.Ok? ==>
                  prepared.value.candidate == q.data
                  && prepared.value.events == Frame(q.events, |t.log| + 1, t.nextTransaction))
  {
    hide Quiescent, Validated, Reconcile, ApplyAll, NextIdentifier, OperationFraming, Shape, DependencySafe, LiveChain, CompletionMatches, Sound;
    SoundCounted(q.data, t.limit);
    SoundValidated(q.data, t.limit);
  }

  lemma SoundValidated(d: TeamData, limit: nat)
    requires Sound(d, limit)
    ensures Validated(d, limit)
  {
  }

  lemma PerformUnfolds(t: Team, request: Request)
    requires BaseEvents(t, request).Ok?
    ensures var prepared := PrepareEvents(t, t.nextTransaction, BaseEvents(t, request).value);
            && (Perform(t, request).Ok? <==> StoredIdentifier(t.nextTransaction) && prepared.Ok?)
            && (Perform(t, request).Ok? ==> Perform(t, request).value == Publish(t, prepared.value))
  {
    hide PrepareEvents, BaseEvents;
  }

  lemma RefusedByState(t: Team, base: seq<EventKind>)
    requires ApplyAll(t.data, base, t.limit).Err?
    ensures PrepareEvents(t, t.nextTransaction, base).Err?
  {
    hide ApplyAll;
  }

  /** The scheduler and the checks never refuse a request that was planned: a live runtime
      carries it out exactly when it fits the journal and identifiers remain. */
  lemma PerformDecided(t: Team, request: Request)
    requires Live(t) && BaseEvents(t, request).Ok?
    ensures Perform(t, request).Ok? <==>
              StoredIdentifier(t.nextTransaction) && Fits(t, request)
              && Outcome(t, request).Ok? && HasRoom(t, Outcome(t, request).value.events)
    ensures Fits(t, request) ==> Outcome(t, request).Ok?
    ensures Perform(t, request).Ok? ==>
              (var q := Outcome(t, request).value;
               Perform(t, request).value.data == q.data
               && Perform(t, request).value.log == t.log + Frame(q.events, |t.log| + 1, t.nextTransaction))
  {
    hide Live, Sound, Quiescent, Reconcile, ApplyAll, OperationFraming, BaseEvents, Fits, PrepareEvents, Perform;
    var base := BaseEvents(t, request).value;
    BaseAccepted(t, request);
    PerformUnfolds(t, request);
    if Fits(t, request) {
      OutcomeSettled(t, base);
      var q := Outcome(t, request).value;
      if HasRoom(t, q.events) {
        OutcomeFraming(t, request, |t.log| + 1);
      }
      if StoredIdentifier(t.nextTransaction) {
        PreparedOutcome(t, base, q);
      }
    } else {
      RefusedByState(t, base);
    }
  }

  /** Every request, carried out or refused, leaves the runtime live. */
  lemma PerformKeepsLive(t: Team, request: Request)
    requires Live(t) && Perform(t, request).Ok?
    ensures Live(Perform(t, request).value)
  {
    var next := Perform(t, request).value;
    assert BaseEvents(t, request).Ok? by {
      hide PrepareEvents;
    }
    PerformDecided(t, request);
    NextCounters(t, request, next);
    BaseAccepted(t, request);
    OutcomeSettled(t, BaseEvents(t, request).value);
    OutcomeJournal(t, request);
    hide Perform, Sound, Quiescent, Outcome, BaseEvents, Counted, Fits;
  }

  lemma NewTeamLive(limit: nat, authority: nat)
    ensures Live(NewTeam(limit, authority))
  {
    EmptyTeamShape();
    var t := NewTeam(limit, authority);
    assert ActiveAgents(t.data.agents) == {};
    assert ReadyTasks(t.data.tasks) == {};
    ContiguousMax({}, 0);
    assert MessageIds([]) == {};
  }

  /** Every runtime reached from an empty one is live. */
  lemma {:induction false} RunStaysLive(t: Team, requests: seq<Request>)
    requires Live(t)
    ensures Live(Run(t, requests)) && Run(t, requests).limit == t.limit
    decreases |requests|
  {
    hide Live, Perform;
    if requests != [] {
      match Perform(t, requests[0])
      case Ok(next) =>
        PerformKeepsLive(t, requests[0]);
        NextCounters(t, requests[0], next);
        RunStaysLive(next, requests[1..]);
      case Err(_) => RunStaysLive(t, requests[1..]);
    }
  }
}
