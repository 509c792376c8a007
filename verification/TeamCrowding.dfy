/**
 Why acknowledging after recovery needs its condition: a run whose operation
 can be acknowledged where it was made, and cannot be right after recovery
 under a larger limit.
 */
module TeamCrowding {
  import opened Prelude
  import opened TeamModel
  import opened TeamPlan
  import opened TeamDispatch
  import opened TeamRuns
  import opened TeamRecovery
  import opened TeamSchedule

  const LABEL: Text := RawText.Text(1, 1, 1)
  const SPEC := TaskSpec(LABEL, {LABEL}, [])
  const WHOLE := Budget(2, 2)
  const PART := Budget(1, 1)

  /** A root is admitted as an operation; then it delegates while the only Active slot is its own. */
  function CrowdingRequests(authority: nat): seq<Request> {
    [DispatchOperation(1, AdmitRoot(SPEC, WHOLE, {})), Dispatch(Delegate(Session(1, authority), SPEC, PART, {}, None))]
  }

  function RootTask(status: TaskStatus): Task {
    Task(SPEC, Some(1), status, None)
  }

  function RootAgent(status: AgentStatus, reserved: Budget): Agent {
    Agent(None, 1, status, WHOLE, reserved, {}, None)
  }

  const OPERATIONS: map<OperationId, Operation> := map[1 := Operation(1, None)]

  function RootAlone(task: TaskStatus, agent: AgentStatus): TeamData {
    TeamData(Some(1), map[1 := RootTask(task)], map[1 := RootAgent(agent, NO_BUDGET)], [], OPERATIONS)
  }

  function WithChild(task: TaskStatus): TeamData {
    TeamData(Some(1), map[1 := RootTask(Running), 2 := Task(SPEC, Some(2), task, None)],
             map[1 := RootAgent(Active, PART), 2 := Agent(Some(1), 2, Dormant, PART, NO_BUDGET, {}, None)], [], OPERATIONS)
  }

  const ADMISSION: seq<EventKind> :=
    [OperationCommitted(1, 1), TaskCreated(1, SPEC), AgentCreated(1, 1, None, WHOLE, {}, None), TaskOwnerAssigned(1, 1)]

  const DELEGATION: seq<EventKind> :=
    [TaskCreated(2, SPEC), AgentCreated(2, 2, Some(1), PART, {}, None), TaskOwnerAssigned(2, 2), DelegationGranted(1, 2)]

  lemma FirstIds()
    ensures MaxId({}) == 0 && MaxId({1}) == 1 && MaxId({1, 2}) == 2
  {
    ContiguousMax({}, 0);
    ContiguousMax({1}, 1);
    ContiguousMax({1, 2}, 2);
  }

  lemma SpecValid(d: TeamData)
    ensures ValidateStoredSpec(SPEC) == Ok(()) && ValidateTaskSpec(d, SPEC) == Ok(SPEC)
  {
    assert {LABEL} == {} + {LABEL};
    assert |{LABEL}| == 1;
    assert Sort([]) == [];
  }

  // ---------- the admission ----------

  lemma RootPlanned()
    ensures ApplyAll(EMPTY_TEAM, ADMISSION, 1) == Ok(RootAlone(Pending, Dormant))
  {
    FirstIds();
    SpecValid(EMPTY_TEAM);
    var a := EMPTY_TEAM.(operations := OPERATIONS);
    var b := a.(tasks := map[1 := Task(SPEC, None, Pending, None)]);
    var c := b.(root := Some(1), agents := map[1 := RootAgent(Dormant, NO_BUDGET)]);
    assert EMPTY_TEAM.operations.Keys == {} && a.tasks.Keys == {} && b.agents.Keys == {};
    assert Apply(EMPTY_TEAM, ADMISSION[0], 1) == Ok(a);
    assert Apply(a, ADMISSION[1], 1) == Ok(b);
    assert Apply(b, ADMISSION[2], 1) == Ok(c);
    assert c.tasks[1 := RootTask(Pending)] == RootAlone(Pending, Dormant).tasks;
    assert Apply(c, ADMISSION[3], 1) == Ok(RootAlone(Pending, Dormant));
    hide Apply;
    FourSteps(EMPTY_TEAM, a, b, c, RootAlone(Pending, Dormant), ADMISSION, 1);
  }

  lemma FourSteps(d: TeamData, a: TeamData, b: TeamData, c: TeamData, e: TeamData, events: seq<EventKind>, limit: nat)
    requires |events| == 4 && Apply(d, events[0], limit) == Ok(a) && Apply(a, events[1], limit) == Ok(b)
    requires Apply(b, events[2], limit) == Ok(c) && Apply(c, events[3], limit) == Ok(e)
    ensures ApplyAll(d, events, limit) == Ok(e)
  {
    hide Apply;
    assert ApplyAll(c, events[3..], limit) == Ok(e) by {
      assert events[3..][0] == events[3] && events[3..][1..] == [];
    }
    assert ApplyAll(b, events[2..], limit) == Ok(e) by {
      assert events[2..][0] == events[2] && events[2..][1..] == events[3..];
    }
    assert ApplyAll(a, events[1..], limit) == Ok(e) by {
      assert events[1..][0] == events[1] && events[1..][1..] == events[2..];
    }
  }

  lemma RootResolved(events: seq<EventKind>)
    ensures ResolvePending(Progress(RootAlone(Pending, Dormant), events), 1, 1)
            == Ok(Progress(RootAlone(Ready, Dormant), events + [TaskReady(1)]))
  {
    var d := RootAlone(Pending, Dormant);
    assert FirstFailedDependency(d, 1) == Ok(None) && DependenciesSucceeded(d, 1) == Ok(true);
    assert d.tasks[1 := RootTask(Ready)] == RootAlone(Ready, Dormant).tasks;
  }

  lemma RootStarted(events: seq<EventKind>)
    ensures Activate(Progress(RootAlone(Ready, Dormant), events), 1)
            == Ok(Progress(RootAlone(Running, Active), events + [AgentActivated(1), TaskStarted(1)]))
  {
    var d, m, e := RootAlone(Ready, Dormant), RootAlone(Ready, Active), RootAlone(Running, Active);
    assert ReadyTasks(d.tasks) == {1};
    assert ActiveAgents(d.agents) == {} && ActiveAgents(e.agents) == {1};
    assert d.agents[1 := RootAgent(Active, NO_BUDGET)] == m.agents && m.tasks[1 := RootTask(Running)] == e.tasks;
    assert Apply(d, AgentActivated(1), 1) == Ok(m);
    assert Apply(m, TaskStarted(1), 1) == Ok(e);
    hide Apply;
    assert (events + [AgentActivated(1)]) + [TaskStarted(1)] == events + [AgentActivated(1), TaskStarted(1)];
    assert StartOne(Progress(d, events), 1) == Ok(Progress(e, events + [AgentActivated(1), TaskStarted(1)]));
  }

  lemma RootScheduled()
    ensures Reconcile(Progress(RootAlone(Pending, Dormant), ADMISSION), 1)
            == Ok(Progress(RootAlone(Running, Active), ADMISSION + [TaskReady(1)] + [AgentActivated(1), TaskStarted(1)]))
  {
    FirstIds();
    var d := RootAlone(Pending, Dormant);
    assert d.tasks.Keys == {1};
    assert PendingTasks(d.tasks, 1) == [1];
    RootResolved(ADMISSION);
    RootStarted(ADMISSION + [TaskReady(1)]);
    hide ResolvePending, Activate;
    assert [1 as TaskId][1..] == [];
    assert ResolveAll(Progress(d, ADMISSION), [1], 1) == Ok(Progress(RootAlone(Ready, Dormant), ADMISSION + [TaskReady(1)]));
  }

  lemma RootAdmitted(authority: nat)
    ensures Outcome(NewTeam(1, authority), CrowdingRequests(authority)[0])
            == Ok(Progress(RootAlone(Running, Active), ADMISSION + [TaskReady(1)] + [AgentActivated(1), TaskStarted(1)]))
    ensures BaseEvents(NewTeam(1, authority), CrowdingRequests(authority)[0]) == Ok(ADMISSION)
  {
    SpecValid(EMPTY_TEAM);
    assert [OperationCommitted(1, 1)] + ADMISSION[1..] == ADMISSION;
    assert PlanRoot(NewTeam(1, authority), SPEC, WHOLE, {}) == Ok(ADMISSION[1..]);
    RootPlanned();
    RootScheduled();
    hide ApplyAll, Reconcile, PlanRoot;
  }

  // ---------- the delegation ----------

  lemma ChildPlanned()
    ensures ApplyAll(RootAlone(Running, Active), DELEGATION, 1) == Ok(WithChild(Pending))
  {
    FirstIds();
    var d := RootAlone(Running, Active);
    SpecValid(d);
    var child := Task(SPEC, None, Pending, None);
    var a := d.(tasks := map[1 := RootTask(Running), 2 := child]);
    var b := a.(agents := map[1 := RootAgent(Active, NO_BUDGET), 2 := Agent(Some(1), 2, Dormant, PART, NO_BUDGET, {}, None)]);
    var c := b.(tasks := WithChild(Pending).tasks);
    assert d.tasks.Keys == {1} && d.agents.Keys == {1};
    assert d.tasks[2 := child] == a.tasks;
    assert Apply(d, DELEGATION[0], 1) == Ok(a);
    assert AncestorDependency(a.agents, 1, [], a.agents.Keys) == Ok(None);
    assert a.agents[2 := b.agents[2]] == b.agents;
    assert Apply(a, DELEGATION[1], 1) == Ok(b);
    assert b.tasks[2 := Task(SPEC, Some(2), Pending, None)] == c.tasks;
    assert Apply(b, DELEGATION[2], 1) == Ok(c);
    assert c.agents[1 := RootAgent(Active, PART)] == WithChild(Pending).agents;
    assert Apply(c, DELEGATION[3], 1) == Ok(WithChild(Pending));
    hide Apply;
    FourSteps(d, a, b, c, WithChild(Pending), DELEGATION, 1);
  }

  lemma ChildScheduled()
    ensures Reconcile(Progress(WithChild(Pending), DELEGATION), 1) == Ok(Progress(WithChild(Ready), DELEGATION + [TaskReady(2)]))
  {
    FirstIds();
    var d, e := WithChild(Pending), WithChild(Ready);
    assert d.tasks.Keys == {1, 2};
    assert PendingTasks(d.tasks, 1) == [] && PendingTasks(d.tasks, 2) == [2];
    assert FirstFailedDependency(d, 2) == Ok(None) && DependenciesSucceeded(d, 2) == Ok(true);
    assert d.tasks[2 := e.tasks[2]] == e.tasks;
    assert ResolvePending(Progress(d, DELEGATION), 2, 1) == Ok(Progress(e, DELEGATION + [TaskReady(2)]));
    assert ActiveAgents(e.agents) == {1};
    assert Activate(Progress(e, DELEGATION + [TaskReady(2)]), 1) == Ok(Progress(e, DELEGATION + [TaskReady(2)]));
    hide ResolvePending, Activate;
    assert [2 as TaskId][1..] == [];
    assert ResolveAll(Progress(d, DELEGATION), [2], 1) == Ok(Progress(e, DELEGATION + [TaskReady(2)]));
  }

  lemma ChildDelegated(t: Team)
    requires t.data == RootAlone(Running, Active) && t.limit == 1 && t.nextTask == 2 && t.nextAgent == 2
    ensures BaseEvents(t, CrowdingRequests(t.authority)[1]) == Ok(DELEGATION)
    ensures Outcome(t, CrowdingRequests(t.authority)[1]) == Ok(Progress(WithChild(Ready), DELEGATION + [TaskReady(2)]))
  {
    SpecValid(t.data);
    assert AncestorDependency(t.data.agents, 1, [], t.data.agents.Keys) == Ok(None);
    assert PlanDelegation(t, 1, SPEC, PART, {}, None) == Ok(DELEGATION);
    ChildPlanned();
    ChildScheduled();
    hide ApplyAll, Reconcile, PlanDelegation;
  }

  // ---------- the run ----------

  lemma FirstFits(authority: nat)
    ensures Fits(NewTeam(1, authority), CrowdingRequests(authority)[0])
  {
    assert EMPTY_TEAM.operations.Keys == {};
    FirstIds();
  }

  lemma FirstStep(authority: nat)
    ensures var t := NewTeam(1, authority); Live(t) && Perform(t, CrowdingRequests(authority)[0]).Ok?
    ensures var t := Perform(NewTeam(1, authority), CrowdingRequests(authority)[0]).value;
            && Live(t) && t.data == RootAlone(Running, Active) && t.limit == 1 && t.authority == authority && |t.log| == 7
            && t.nextTransaction == 2 && t.nextTask == 2 && t.nextAgent == 2
  {
    var start, request := NewTeam(1, authority), CrowdingRequests(authority)[0];
    NewTeamLive(1, authority);
    RootAdmitted(authority);
    FirstFits(authority);
    FirstIds();
    assert RootAlone(Running, Active).tasks.Keys == {1} && RootAlone(Running, Active).agents.Keys == {1};
    hide Live, Outcome, BaseEvents, Fits, CrowdingRequests;
    PerformDecided(start, request);
    PerformKeepsLive(start, request);
    NextCounters(start, request, Perform(start, request).value);
    PublishKeeps(start, request);
    hide Perform;
  }

  lemma PublishKeeps(t: Team, request: Request)
    requires Perform(t, request).Ok?
    ensures Perform(t, request).value.limit == t.limit && Perform(t, request).value.authority == t.authority
  {
    hide BaseEvents, PrepareEvents;
  }

  lemma DispatchFits(t: Team, request: Request)
    requires request.Dispatch?
    ensures Fits(t, request)
  {
  }

  lemma SecondStep(t: Team)
    requires Live(t) && t.data == RootAlone(Running, Active) && t.limit == 1 && |t.log| == 7
    requires t.nextTransaction == 2 && t.nextTask == 2 && t.nextAgent == 2
    ensures Perform(t, CrowdingRequests(t.authority)[1]).Ok?
    ensures var next := Perform(t, CrowdingRequests(t.authority)[1]).value;
            && Live(next) && next.data == WithChild(Ready) && next.limit == 1 && |next.log| == 12 && next.nextTransaction == 3
  {
    hide Live, Outcome, BaseEvents, RootAlone, WithChild, Fits;
    var request := CrowdingRequests(t.authority)[1];
    ChildDelegated(t);
    assert Fits(t, request) by {
      DispatchFits(t, request);
    }
    PerformDecided(t, request);
    PerformKeepsLive(t, request);
    NextCounters(t, request, Perform(t, request).value);
    PublishKeeps(t, request);
    hide Perform;
  }

  /** The run ends with a ready child waiting for the only slot, and the root's operation not yet acknowledged. */
  lemma CrowdedRun(authority: nat)
    ensures var t := Run(NewTeam(1, authority), CrowdingRequests(authority));
            Live(t) && t.data == WithChild(Ready) && t.limit == 1 && |t.log| == 12 && t.nextTransaction == 3
  {
    hide Live, Perform, RootAlone, WithChild;
    FirstStep(authority);
    var requests, start := CrowdingRequests(authority), NewTeam(1, authority);
    var middle := Perform(start, requests[0]).value;
    SecondStep(middle);
    assert requests[1..] == [requests[1]] && requests[1..][1..] == [];
    assert Run(start, requests) == Run(middle, requests[1..]);
    var last := Perform(middle, requests[1]).value;
    assert Run(middle, requests[1..]) == Run(last, []);
  }

  lemma CrowdedFacts(t: Team)
    requires t.data == WithChild(Ready)
    ensures Fits(t, Acknowledge(1)) && ActiveCount(t.data) == 1 && 2 in ReadyTasks(t.data.tasks)
  {
    assert ActiveAgents(t.data.agents) == {1};
  }

  lemma MovedLive(t: Team, authority: nat)
    requires Live(t)
    ensures Live(t.(authority := authority))
    ensures Fits(t, Acknowledge(1)) ==> Fits(t.(authority := authority), Acknowledge(1))
  {
    hide Sound, Quiescent;
  }

  /** The condition is needed: where it was made the operation of this run can be acknowledged; recovered under one
      Active slot more, it cannot, although recovery succeeds and rebuilds the same state. */
  lemma CrowdedOut(authority: nat, newAuthority: nat)
    ensures var t := Run(NewTeam(1, authority), CrowdingRequests(authority));
            && Perform(t, Acknowledge(1)).Ok?
            && Recover(2, newAuthority, t.log) == Ok(t.(limit := 2, authority := newAuthority))
            && Perform(t.(limit := 2, authority := newAuthority), Acknowledge(1)).Err?
  {
    var t := Run(NewTeam(1, authority), CrowdingRequests(authority));
    CrowdedRun(authority);
    CrowdedFacts(t);
    RecoverRebuildsRun(1, authority, CrowdingRequests(authority), 2, newAuthority);
    var moved := t.(authority := newAuthority);
    MovedLive(t, newAuthority);
    hide Live, Fits, Perform, Recover, Run, WithChild, CrowdingRequests;
    assert t.(limit := 1) == t;
    AcknowledgeAfterRecovery(t, 1, 1);
    AcknowledgeAfterRecovery(moved, 2, 1);
  }
}
