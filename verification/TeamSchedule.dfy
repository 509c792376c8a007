/**
 The scheduler as a fixpoint: from any sound state one pass always succeeds,
 keeps the state sound, leaves it quiescent, and does nothing the second time.
 */
module TeamSchedule {
  import opened Prelude
  import opened TeamModel
  import opened TeamInvariant

  /** Every live child has a running parent, hence so has its whole ancestry. */
  ghost predicate LiveChain(agents: map<AgentId, Agent>) {
    forall c | c in agents && !agents[c].status.Terminal() && agents[c].parent.Some? ::
      agents[c].parent.value in agents && agents[c].parent.value != c && agents[agents[c].parent.value].status == Active
  }

  /** A capsule is stored exactly for the tasks that succeeded. */
  ghost predicate CompletionMatches(tasks: map<TaskId, Task>) {
    forall t | t in tasks :: tasks[t].completion.Some? <==> tasks[t].status.Succeeded?
  }

  /** What holds of a state before scheduling; `Quiescent` is added by the scheduler. */
  ghost predicate Sound(d: TeamData, limit: nat) {
    && Shape(d)
    && DependencySafe(d.tasks)
    && Validated(d, limit)
    && LiveChain(d.agents)
    && CompletionMatches(d.tasks)
  }

  // ---------- changing one task together with its owner ----------

  function Move(d: TeamData, t: TaskId, status: TaskStatus, completion: Option<Capsule>, a: AgentId, agentStatus: AgentStatus): TeamData
    requires t in d.tasks && a in d.agents
  {
    SetAgentStatus(PutTask(d, t, d.tasks[t].(status := status, completion := completion)), a, agentStatus)
  }

  /** The conditions under which a paired status change keeps a state sound. */
  ghost predicate MoveAllowed(d: TeamData, limit: nat, t: TaskId, status: TaskStatus, completion: Option<Capsule>, a: AgentId, agentStatus: AgentStatus) {
    && t in d.tasks && d.tasks[t].owner == Some(a) && a in d.agents && d.agents[a].task == t
    && PairedStatus(status, agentStatus)
    && !d.tasks[t].status.Succeeded?
    && (NeedsDependencies(status) ==> DependenciesHold(d.tasks, d.tasks[t].spec.dependencies))
    && (completion.Some? <==> status.Succeeded?)
    && (agentStatus == Active ==> d.agents[a].status == Active || ActiveCount(d) < limit)
    && (agentStatus != Active ==> !HasLiveChild(d.agents, a))
    && (!agentStatus.Terminal() && d.agents[a].parent.Some? ==>
          d.agents[a].parent.value in d.agents && d.agents[a].parent.value != a
          && d.agents[d.agents[a].parent.value].status == Active)
  }

  lemma {:induction false} ChildSumFrame(before: map<AgentId, Agent>, after: map<AgentId, Agent>, parent: AgentId, upTo: nat, axis: Axis)
    requires forall a | 1 <= a <= upTo :: a in before <==> a in after
    requires forall a | a in before && a in after :: before[a].parent == after[a].parent && before[a].budget == after[a].budget
    ensures ChildSum(before, parent, upTo, axis) == ChildSum(after, parent, upTo, axis)
  {
    if upTo != 0 {
      ChildSumFrame(before, after, parent, upTo - 1, axis);
    }
  }

  lemma StatusKeepsActive(agents: map<AgentId, Agent>, a: AgentId, agent: Agent)
    requires a in agents
    ensures agent.status == Active || agents[a].status != Active ==>
              |ActiveAgents(agents[a := agent])| >= |ActiveAgents(agents)|
    ensures agent.status == agents[a].status ==> ActiveAgents(agents[a := agent]) == ActiveAgents(agents)
    ensures |ActiveAgents(agents[a := agent])|
            <= |ActiveAgents(agents)| + if agent.status == Active && agents[a].status != Active then 1 else 0
  {
    var before, after := ActiveAgents(agents), ActiveAgents(agents[a := agent]);
    assert forall x | x != a :: x in before <==> x in after;
    assert a in before <==> agents[a].status == Active;
    assert a in after <==> agent.status == Active;
    if a in before && a !in after {
      assert after == before - {a};
    } else if a !in before && a in after {
      assert after == before + {a};
    } else {
      assert after == before;
    }
  }

  lemma MoveKeepsOwned(d: TeamData, t: TaskId, status: TaskStatus, completion: Option<Capsule>, a: AgentId, agentStatus: AgentStatus)
    requires Owned(d) && t in d.tasks && d.tasks[t].owner == Some(a) && a in d.agents && d.agents[a].task == t
    requires PairedStatus(status, agentStatus)
    ensures Owned(Move(d, t, status, completion, a, agentStatus))
  {
    var e := Move(d, t, status, completion, a, agentStatus);
    forall x | x in e.tasks
      ensures TaskOwned(e, x)
    {
      assert TaskOwned(d, x);
    }
    forall x | x in e.agents
      ensures AgentOwns(e, x)
    {
      assert AgentOwns(d, x);
    }
  }

  lemma StatusKeepsLiveChain(agents: map<AgentId, Agent>, a: AgentId, status: AgentStatus)
    requires LiveChain(agents) && a in agents
    requires status != Active ==> !HasLiveChild(agents, a)
    requires !status.Terminal() && agents[a].parent.Some? ==>
               agents[a].parent.value in agents && agents[a].parent.value != a
               && agents[agents[a].parent.value].status == Active
    ensures LiveChain(agents[a := agents[a].(status := status)])
  {
    var after := agents[a := agents[a].(status := status)];
    forall c | c in after && !after[c].status.Terminal() && after[c].parent.Some?
      ensures after[c].parent.value in after && after[c].parent.value != c && after[after[c].parent.value].status == Active
    {
      if c != a {
        assert !agents[c].status.Terminal() && agents[c].parent.Some?;
        assert agents[c].parent == Some(a) ==> HasLiveChild(agents, a);
      }
    }
  }

  /** With a live chain, no finished agent has unfinished children. */
  lemma AgentsStaySound(before: map<AgentId, Agent>, after: map<AgentId, Agent>, a: AgentId)
    requires before.Keys == after.Keys && LiveChain(after) && a in after && AgentSound(before, a)
    requires forall x | x in before ::
               before[x].parent == after[x].parent && before[x].budget == after[x].budget && before[x].reserved == after[x].reserved
    ensures AgentSound(after, a)
  {
    assert forall x :: x in before.Keys <==> x in after.Keys;
    ChildSumFrame(before, after, a, MaxId(before.Keys), TOKENS);
    ChildSumFrame(before, after, a, MaxId(before.Keys), CALLS);
  }

  lemma StatusKeepsAgentsSound(agents: map<AgentId, Agent>, a: AgentId, status: AgentStatus)
    requires a in agents && (forall x | x in agents :: AgentSound(agents, x))
    requires LiveChain(agents[a := agents[a].(status := status)])
    ensures var after := agents[a := agents[a].(status := status)]; forall x | x in after :: AgentSound(after, x)
  {
    var after := agents[a := agents[a].(status := status)];
    assert after.Keys == agents.Keys;
    forall x | x in after
      ensures AgentSound(after, x)
    {
      AgentsStaySound(agents, after, x);
    }
  }

  lemma MoveKeepsValidated(d: TeamData, limit: nat, t: TaskId, status: TaskStatus, completion: Option<Capsule>, a: AgentId, agentStatus: AgentStatus)
    requires Validated(d, limit) && LiveChain(d.agents) && MoveAllowed(d, limit, t, status, completion, a, agentStatus)
    ensures Validated(Move(d, t, status, completion, a, agentStatus), limit)
    ensures LiveChain(Move(d, t, status, completion, a, agentStatus).agents)
  {
    MoveKeepsOwned(d, t, status, completion, a, agentStatus);
    StatusKeepsLiveChain(d.agents, a, agentStatus);
    StatusKeepsAgentsSound(d.agents, a, agentStatus);
    StatusKeepsActive(d.agents, a, d.agents[a].(status := agentStatus));
  }

  lemma MoveSameShape(d: TeamData, t: TaskId, status: TaskStatus, completion: Option<Capsule>, a: AgentId, agentStatus: AgentStatus)
    requires t in d.tasks && a in d.agents
    ensures SameShape(d, Move(d, t, status, completion, a, agentStatus))
  {
    var e := Move(d, t, status, completion, a, agentStatus);
    assert d.tasks.Keys == e.tasks.Keys && d.agents.Keys == e.agents.Keys;
  }

  lemma MoveKeepsShape(d: TeamData, t: TaskId, status: TaskStatus, completion: Option<Capsule>, a: AgentId, agentStatus: AgentStatus)
    requires Shape(d) && t in d.tasks && a in d.agents
    ensures Shape(Move(d, t, status, completion, a, agentStatus))
  {
    MoveSameShape(d, t, status, completion, a, agentStatus);
    SameShapeKeeps(d, Move(d, t, status, completion, a, agentStatus));
  }

  lemma MoveKeepsCompletion(d: TeamData, t: TaskId, status: TaskStatus, completion: Option<Capsule>, a: AgentId, agentStatus: AgentStatus)
    requires CompletionMatches(d.tasks) && t in d.tasks && a in d.agents && (completion.Some? <==> status.Succeeded?)
    ensures CompletionMatches(Move(d, t, status, completion, a, agentStatus).tasks)
  {
  }

  lemma MoveKeepsDependencies(d: TeamData, t: TaskId, status: TaskStatus, completion: Option<Capsule>, a: AgentId, agentStatus: AgentStatus)
    requires DependencySafe(d.tasks) && t in d.tasks && a in d.agents && !d.tasks[t].status.Succeeded?
    requires NeedsDependencies(status) ==> DependenciesHold(d.tasks, d.tasks[t].spec.dependencies)
    ensures DependencySafe(Move(d, t, status, completion, a, agentStatus).tasks)
    ensures SuccessKept(d.tasks, Move(d, t, status, completion, a, agentStatus).tasks)
  {
    StatusKeepsDependencySafe(d.tasks, t, d.tasks[t].(status := status, completion := completion));
  }

  lemma MoveKeepsSound(d: TeamData, limit: nat, t: TaskId, status: TaskStatus, completion: Option<Capsule>, a: AgentId, agentStatus: AgentStatus)
    requires Sound(d, limit) && MoveAllowed(d, limit, t, status, completion, a, agentStatus)
    ensures Sound(Move(d, t, status, completion, a, agentStatus), limit)
    ensures SuccessKept(d.tasks, Move(d, t, status, completion, a, agentStatus).tasks)
  {
    MoveKeepsValidated(d, limit, t, status, completion, a, agentStatus);
    MoveKeepsShape(d, t, status, completion, a, agentStatus);
    MoveKeepsDependencies(d, t, status, completion, a, agentStatus);
    MoveKeepsCompletion(d, t, status, completion, a, agentStatus);
  }

  // ---------- settling pending tasks ----------

  /** All the scheduler relies on: owned, paired tasks with earlier dependencies. */
  ghost predicate Schedulable(d: TeamData) {
    Owned(d) && DependenciesEarlier(d.tasks)
  }

  predicate SchedulerEvent(kind: EventKind) {
    kind.TaskReady? || kind.TaskBlocked? || kind.AgentBlockedBy? || kind.AgentActivated? || kind.TaskStarted?
  }

  ghost predicate OnlySchedulerEvents(before: seq<EventKind>, after: seq<EventKind>) {
    before <= after && forall i | |before| <= i < |after| :: SchedulerEvent(after[i])
  }

  predicate SameVerdict(before: TaskStatus, after: TaskStatus) {
    before.BlocksDependents() == after.BlocksDependents() && before.Succeeded? == after.Succeeded?
  }

  lemma {:induction false} VerdictFrame(before: map<TaskId, Task>, after: map<TaskId, Task>, dependencies: seq<TaskId>)
    requires forall dep | dep in dependencies :: dep in before && dep in after && SameVerdict(before[dep].status, after[dep].status)
    ensures AllSucceeded(before, dependencies) == AllSucceeded(after, dependencies)
    ensures FirstBlocking(before, dependencies) == FirstBlocking(after, dependencies)
  {
    if dependencies != [] {
      VerdictFrame(before, after, dependencies[1..]);
    }
  }

  lemma SettledFrame(d: TeamData, e: TeamData, t: TaskId)
    requires DependenciesEarlier(d.tasks) && d.tasks.Keys == e.tasks.Keys && t in d.tasks && Settled(d, t)
    requires d.tasks[t] == e.tasks[t]
    requires forall dep | dep in d.tasks && dep < t :: SameVerdict(d.tasks[dep].status, e.tasks[dep].status)
    ensures Settled(e, t)
  {
    VerdictFrame(d.tasks, e.tasks, d.tasks[t].spec.dependencies);
  }

  /** The status a pending task should take, given its dependencies. */
  function Decision(tasks: map<TaskId, Task>, t: TaskId): (decision: TaskStatus)
    requires t in tasks && forall dep | dep in tasks[t].spec.dependencies :: dep in tasks
    ensures decision.Pending? || decision.Ready? || decision.Blocked?
  {
    FirstBlockingMeans(tasks, tasks[t].spec.dependencies);
    AllSucceededMeans(tasks, tasks[t].spec.dependencies);
    var blocking := FirstBlocking(tasks, tasks[t].spec.dependencies).value;
    if blocking.Some? then Blocked(blocking.value)
    else if AllSucceeded(tasks, tasks[t].spec.dependencies).value then Ready
    else Pending
  }

  function PairedAgent(decision: TaskStatus): AgentStatus {
    if decision.Blocked? then AgentBlocked else Dormant
  }

  function DecisionEvents(t: TaskId, a: AgentId, decision: TaskStatus): seq<EventKind> {
    match decision
    case Blocked(b) => [TaskBlocked(t, b), AgentBlockedBy(a, b)]
    case Ready => [TaskReady(t)]
    case _ => []
  }

  /** A pending task of a schedulable state: who owns it, and that it can be decided. */
  ghost predicate Undecided(d: TeamData, t: TaskId) {
    && t in d.tasks && d.tasks[t].status.Pending? && TaskOwned(d, t)
    && forall dep | dep in d.tasks[t].spec.dependencies :: dep in d.tasks && dep < t
  }

  function Resolved(d: TeamData, t: TaskId): TeamData
    requires Undecided(d, t)
  {
    var decision := Decision(d.tasks, t);
    Move(d, t, decision, d.tasks[t].completion, d.tasks[t].owner.value, PairedAgent(decision))
  }

  lemma IdleMove(d: TeamData, t: TaskId, a: AgentId)
    requires t in d.tasks && a in d.agents
    ensures Move(d, t, d.tasks[t].status, d.tasks[t].completion, a, d.agents[a].status) == d
    ensures forall status, completion ::
              Move(d, t, status, completion, a, d.agents[a].status)
              == PutTask(d, t, d.tasks[t].(status := status, completion := completion))
  {
    assert d.agents[a := d.agents[a]] == d.agents;
    assert d.tasks[t := d.tasks[t]] == d.tasks;
  }

  lemma BlockBoth(d: TeamData, t: TaskId, b: TaskId, limit: nat)
    requires t in d.tasks && d.tasks[t].status.Pending? && TaskOwned(d, t)
    requires b in d.tasks && d.tasks[b].status.BlocksDependents() && b in d.tasks[t].spec.dependencies
    ensures Apply(d, TaskBlocked(t, b), limit) == Ok(SetTaskStatus(d, t, Blocked(b)))
    ensures OwnerOf(SetTaskStatus(d, t, Blocked(b)), t) == Ok(d.tasks[t].owner.value)
    ensures Apply(SetTaskStatus(d, t, Blocked(b)), AgentBlockedBy(d.tasks[t].owner.value, b), limit)
            == Ok(Move(d, t, Blocked(b), d.tasks[t].completion, d.tasks[t].owner.value, AgentBlocked))
  {
  }

  /** Settling one task is exactly its decision, carried out on the task and its owner together. */
  lemma ResolveOne(p: Progress, t: TaskId, limit: nat)
    requires Undecided(p.data, t)
    ensures ResolvePending(p, t, limit)
            == Ok(Progress(Resolved(p.data, t),
                           p.events + DecisionEvents(t, p.data.tasks[t].owner.value, Decision(p.data.tasks, t))))
  {
    var d := p.data;
    var a := d.tasks[t].owner.value;
    FirstBlockingMeans(d.tasks, d.tasks[t].spec.dependencies);
    AllSucceededMeans(d.tasks, d.tasks[t].spec.dependencies);
    IdleMove(d, t, a);
    var decision := Decision(d.tasks, t);
    if decision.Blocked? {
      BlockBoth(d, t, decision.blocker, limit);
      assert p.events + [TaskBlocked(t, decision.blocker)] + [AgentBlockedBy(a, decision.blocker)]
          == p.events + [TaskBlocked(t, decision.blocker), AgentBlockedBy(a, decision.blocker)];
    } else if decision.Ready? {
      assert Apply(d, TaskReady(t), limit) == Ok(SetTaskStatus(d, t, Ready));
    } else {
      assert p.events + [] == p.events;
    }
  }

  lemma ResolvedSchedulable(d: TeamData, t: TaskId)
    requires Schedulable(d) && Undecided(d, t)
    ensures Schedulable(Resolved(d, t)) && ActiveAgents(Resolved(d, t).agents) == ActiveAgents(d.agents)
  {
    hide Settled, Decision;
    var a := d.tasks[t].owner.value;
    MoveKeepsOwned(d, t, Decision(d.tasks, t), d.tasks[t].completion, a, PairedAgent(Decision(d.tasks, t)));
    var e := Resolved(d, t);
    forall x, dep | x in e.tasks && dep in e.tasks[x].spec.dependencies
      ensures dep in e.tasks && dep < x
    {
      assert x in d.tasks && dep in d.tasks[x].spec.dependencies;
    }
  }

  lemma ResolvedSettled(d: TeamData, t: TaskId)
    requires Schedulable(d) && Undecided(d, t)
    ensures Settled(Resolved(d, t), t)
    ensures Resolved(d, t).tasks[t].status.Pending? ==> Resolved(d, t) == d
  {
    FirstBlockingMeans(d.tasks, d.tasks[t].spec.dependencies);
    AllSucceededMeans(d.tasks, d.tasks[t].spec.dependencies);
    IdleMove(d, t, d.tasks[t].owner.value);
  }

  lemma ResolvedAllowed(d: TeamData, t: TaskId, limit: nat)
    requires Undecided(d, t) && LiveChain(d.agents) && CompletionMatches(d.tasks)
    ensures MoveAllowed(d, limit, t, Decision(d.tasks, t), d.tasks[t].completion,
                        d.tasks[t].owner.value, PairedAgent(Decision(d.tasks, t)))
  {
    AllSucceededMeans(d.tasks, d.tasks[t].spec.dependencies);
    NoLiveChildOfDormant(d.agents, d.tasks[t].owner.value);
  }

  lemma ResolvedSound(d: TeamData, t: TaskId, limit: nat)
    requires Sound(d, limit) && Undecided(d, t)
    ensures Sound(Resolved(d, t), limit)
  {
    ResolvedAllowed(d, t, limit);
    MoveKeepsSound(d, limit, t, Decision(d.tasks, t), d.tasks[t].completion,
                   d.tasks[t].owner.value, PairedAgent(Decision(d.tasks, t)));
  }

  lemma NoLiveChildOfDormant(agents: map<AgentId, Agent>, a: AgentId)
    requires LiveChain(agents) && a in agents && agents[a].status != Active
    ensures !HasLiveChild(agents, a)
  {
  }

  ghost predicate Ascending(ids: seq<TaskId>) {
    forall i, j | 0 <= i < j < |ids| :: ids[i] < ids[j]
  }

  ghost predicate AllPending(d: TeamData, ids: seq<TaskId>) {
    forall t | t in ids :: t in d.tasks && d.tasks[t].status.Pending?
  }

  /** Effect of the ascending pass: listed tasks are settled, everything else is untouched. */
  ghost predicate PassEffect(d: TeamData, e: TeamData, ids: seq<TaskId>) {
    && d.tasks.Keys == e.tasks.Keys
    && (forall t | t in d.tasks && t !in ids :: e.tasks[t] == d.tasks[t])
    && (forall t | t in ids && t in e.tasks :: Settled(e, t))
    && ActiveAgents(e.agents) == ActiveAgents(d.agents)
  }

  lemma Deciding(d: TeamData, t: TaskId)
    requires Schedulable(d) && t in d.tasks && d.tasks[t].status.Pending?
    ensures Undecided(d, t)
  {
    assert TaskOwned(d, t);
  }

  lemma PassComposes(d: TeamData, mid: TeamData, e: TeamData, ids: seq<TaskId>)
    requires ids != [] && Ascending(ids) && DependenciesEarlier(mid.tasks)
    requires PassEffect(d, mid, [ids[0]]) && PassEffect(mid, e, ids[1..])
    ensures PassEffect(d, e, ids)
  {
    var t := ids[0];
    assert t in [t];
    assert forall x :: x in ids <==> x == t || x in ids[1..];
    assert forall x | x in ids[1..] :: t < x;
    if t in e.tasks {
      assert t in d.tasks.Keys;
      SettledFrame(mid, e, t);
    }
  }

  lemma ResolvedEffect(d: TeamData, t: TaskId)
    requires Schedulable(d) && Undecided(d, t)
    ensures PassEffect(d, Resolved(d, t), [t])
  {
    ResolvedSchedulable(d, t);
    ResolvedSettled(d, t);
    assert Resolved(d, t).tasks.Keys == d.tasks.Keys;
  }

  lemma {:induction false} ResolveAllSettles(p: Progress, ids: seq<TaskId>, limit: nat)
    requires Schedulable(p.data) && Ascending(ids) && AllPending(p.data, ids)
    ensures ResolveAll(p, ids, limit).Ok?
    ensures Schedulable(ResolveAll(p, ids, limit).value.data)
    ensures PassEffect(p.data, ResolveAll(p, ids, limit).value.data, ids)
    decreases |ids|
  {
    if ids != [] {
      var t := ids[0];
      assert t in ids && forall x | x in ids[1..] :: x in ids && t < x;
      Deciding(p.data, t);
      ResolveOne(p, t, limit);
      ResolvedSchedulable(p.data, t);
      ResolveAllSettles(ResolvePending(p, t, limit).value, ids[1..], limit);
      ResolvedEffect(p.data, t);
      PassComposes(p.data, Resolved(p.data, t), ResolveAll(p, ids, limit).value.data, ids);
    }
  }

  lemma SoundSchedulable(d: TeamData, limit: nat)
    requires Sound(d, limit)
    ensures Schedulable(d)
  {
  }

  lemma ResolveOneSound(p: Progress, t: TaskId, limit: nat)
    requires Sound(p.data, limit) && t in p.data.tasks && p.data.tasks[t].status.Pending?
    ensures ResolvePending(p, t, limit).Ok?
    ensures var e := ResolvePending(p, t, limit).value.data;
            Sound(e, limit) && forall x | x in p.data.tasks && x != t :: x in e.tasks && e.tasks[x] == p.data.tasks[x]
  {
    hide Sound, Schedulable, ResolvePending;
    SoundSchedulable(p.data, limit);
    Deciding(p.data, t);
    ResolveOne(p, t, limit);
    ResolvedSound(p.data, t, limit);
  }

  lemma {:induction false} ResolveAllSound(p: Progress, ids: seq<TaskId>, limit: nat)
    requires Sound(p.data, limit) && Ascending(ids) && AllPending(p.data, ids)
    requires ResolveAll(p, ids, limit).Ok?
    ensures Sound(ResolveAll(p, ids, limit).value.data, limit)
    decreases |ids|
  {
    hide Sound, ResolvePending;
    if ids != [] {
      assert ids[0] in ids && forall x | x in ids[1..] :: x in ids && ids[0] < x;
      ResolveOneSound(p, ids[0], limit);
      ResolveAllSound(ResolvePending(p, ids[0], limit).value, ids[1..], limit);
    }
  }

  lemma {:induction false} ResolveAllEvents(p: Progress, ids: seq<TaskId>, limit: nat)
    requires ResolveAll(p, ids, limit).Ok?
    ensures OnlySchedulerEvents(p.events, ResolveAll(p, ids, limit).value.events)
    decreases |ids|
  {
    if ids != [] {
      ResolveAllEvents(ResolvePending(p, ids[0], limit).value, ids[1..], limit);
    }
  }

  lemma {:induction false} PendingTasksExact(tasks: map<TaskId, Task>, upTo: nat)
    ensures Ascending(PendingTasks(tasks, upTo))
    ensures forall t :: t in PendingTasks(tasks, upTo) <==> t in tasks && 1 <= t <= upTo && tasks[t].status.Pending?
  {
    if upTo != 0 {
      PendingTasksExact(tasks, upTo - 1);
      var shorter := PendingTasks(tasks, upTo - 1);
      forall i | 0 <= i < |shorter|
        ensures shorter[i] < upTo
      {
        assert shorter[i] in shorter;
      }
    }
  }

  lemma FirstPassSettles(p: Progress, limit: nat)
    requires Schedulable(p.data) && forall t | t in p.data.tasks :: t >= 1
    ensures var settled := ResolveAll(p, PendingTasks(p.data.tasks, MaxId(p.data.tasks.Keys)), limit);
            && settled.Ok? && Schedulable(settled.value.data)
            && settled.value.data.tasks.Keys == p.data.tasks.Keys
            && (forall t | t in settled.value.data.tasks :: Settled(settled.value.data, t))
            && (Sound(p.data, limit) ==> Sound(settled.value.data, limit))
            && OnlySchedulerEvents(p.events, settled.value.events)
  {
    var ids := PendingTasks(p.data.tasks, MaxId(p.data.tasks.Keys));
    PendingTasksExact(p.data.tasks, MaxId(p.data.tasks.Keys));
    assert forall t | t in p.data.tasks :: t in p.data.tasks.Keys;
    ResolveAllSettles(p, ids, limit);
    ResolveAllEvents(p, ids, limit);
    if Sound(p.data, limit) {
      ResolveAllSound(p, ids, limit);
    }
    var e := ResolveAll(p, ids, limit).value.data;
    forall t | t in e.tasks
      ensures Settled(e, t)
    {
      assert t in p.data.tasks.Keys;
    }
  }

  // ---------- filling active slots ----------

  ghost predicate AllSettled(d: TeamData) {
    forall t | t in d.tasks :: Settled(d, t)
  }

  function Started(d: TeamData, t: TaskId): TeamData
    requires t in d.tasks && d.tasks[t].owner.Some? && d.tasks[t].owner.value in d.agents
  {
    Move(d, t, Running, d.tasks[t].completion, d.tasks[t].owner.value, Active)
  }

  /** A ready task whose dormant owner can be activated. */
  ghost predicate Startable(d: TeamData, t: TaskId) {
    t in d.tasks && d.tasks[t].status.Ready? && TaskOwned(d, t)
  }

  lemma StartBoth(d: TeamData, t: TaskId, limit: nat)
    requires Startable(d, t) && ActiveCount(d) < limit
    ensures var a := d.tasks[t].owner.value;
            && Apply(d, AgentActivated(a), limit) == Ok(SetAgentStatus(d, a, Active))
            && Apply(SetAgentStatus(d, a, Active), TaskStarted(t), limit) == Ok(Started(d, t))
  {
    hide ActiveCount;
    var a := d.tasks[t].owner.value;
    var mid := SetAgentStatus(d, a, Active);
    assert mid.tasks == d.tasks && mid.agents[a].status == Active;
    assert Apply(mid, TaskStarted(t), limit) == Ok(SetTaskStatus(mid, t, Running));
  }

  lemma StartOneEffect(p: Progress, limit: nat)
    requires Schedulable(p.data) && ReadyTasks(p.data.tasks) != {} && ActiveCount(p.data) < limit
    ensures var t := Least(ReadyTasks(p.data.tasks));
            && Startable(p.data, t)
            && StartOne(p, limit) == Ok(Progress(Started(p.data, t),
                                                 p.events + [AgentActivated(p.data.tasks[t].owner.value), TaskStarted(t)]))
  {
    var t := Least(ReadyTasks(p.data.tasks));
    assert TaskOwned(p.data, t);
    var a := p.data.tasks[t].owner.value;
    StartBoth(p.data, t, limit);
    hide Apply;
    assert p.events + [AgentActivated(a)] + [TaskStarted(t)] == p.events + [AgentActivated(a), TaskStarted(t)];
  }

  lemma StartedSchedulable(d: TeamData, t: TaskId)
    requires Schedulable(d) && Startable(d, t)
    ensures Schedulable(Started(d, t))
  {
    MoveKeepsOwned(d, t, Running, d.tasks[t].completion, d.tasks[t].owner.value, Active);
    var e := Started(d, t);
    forall x, dep | x in e.tasks && dep in e.tasks[x].spec.dependencies
      ensures dep in e.tasks && dep < x
    {
      assert x in d.tasks && dep in d.tasks[x].spec.dependencies;
    }
  }

  lemma StartedSettled(d: TeamData, t: TaskId)
    requires Schedulable(d) && AllSettled(d) && Startable(d, t)
    ensures AllSettled(Started(d, t))
  {
    var e := Started(d, t);
    assert e.tasks.Keys == d.tasks.Keys;
    forall x | x in e.tasks
      ensures Settled(e, x)
    {
      if x != t {
        assert Settled(d, x);
        SettledFrame(d, e, x);
      }
    }
  }

  lemma StartedAllowed(d: TeamData, t: TaskId, limit: nat)
    requires Startable(d, t) && ActiveCount(d) < limit
    requires DependencySafe(d.tasks) && LiveChain(d.agents) && CompletionMatches(d.tasks)
    ensures MoveAllowed(d, limit, t, Running, d.tasks[t].completion, d.tasks[t].owner.value, Active)
  {
  }

  lemma StartedSound(d: TeamData, t: TaskId, limit: nat)
    requires Sound(d, limit) && Startable(d, t) && ActiveCount(d) < limit
    ensures Sound(Started(d, t), limit)
  {
    StartedAllowed(d, t, limit);
    MoveKeepsSound(d, limit, t, Running, d.tasks[t].completion, d.tasks[t].owner.value, Active);
  }

  /** Lower identifiers are started first: whatever stays Ready comes after all that was started. */
  ghost predicate StartedInOrder(before: map<TaskId, Task>, after: map<TaskId, Task>) {
    && before.Keys == after.Keys
    && (forall t | t in before && after[t] != before[t] :: before[t].status.Ready? && after[t].status.Running?)
    && (forall s, r | s in before && r in before && after[s] != before[s] && after[r].status.Ready? :: s < r)
  }

  lemma StartedInOrderStep(before: map<TaskId, Task>, t: TaskId, task: Task, after: map<TaskId, Task>)
    requires t in before && before[t].status.Ready? && task.status.Running?
    requires forall r | r in before && before[r].status.Ready? :: t <= r
    requires StartedInOrder(before[t := task], after)
    ensures StartedInOrder(before, after)
  {
    var mid := before[t := task];
    assert mid.Keys == before.Keys;
    assert t in mid && after[t] == mid[t];
    forall s, r | s in before && r in before && after[s] != before[s] && after[r].status.Ready?
      ensures s < r
    {
      assert r in mid && after[r] == mid[r] && r != t;
      if s != t {
        assert s in mid && mid[s] == before[s];
      }
    }
  }

  lemma NothingStarted(tasks: map<TaskId, Task>)
    ensures StartedInOrder(tasks, tasks)
  {
  }

  lemma {:induction false} ActivateSettles(p: Progress, limit: nat)
    requires Schedulable(p.data) && AllSettled(p.data)
    ensures Activate(p, limit).Ok?
    ensures var q := Activate(p, limit).value;
            && AllSettled(q.data)
            && (ActiveCount(q.data) < limit ==> ReadyTasks(q.data.tasks) == {})
            && StartedInOrder(p.data.tasks, q.data.tasks)
            && OnlySchedulerEvents(p.events, q.events)
    decreases ReadyTasks(p.data.tasks)
  {
    hide AllSettled, Schedulable, StartOne, StartedInOrder;
    if ActiveCount(p.data) < limit && ReadyTasks(p.data.tasks) != {} {
      StartOneEffect(p, limit);
      var t := Least(ReadyTasks(p.data.tasks));
      StartedSchedulable(p.data, t);
      StartedSettled(p.data, t);
      StartOneConsumesReady(p, limit);
      ActivateSettles(StartOne(p, limit).value, limit);
      assert forall r | r in p.data.tasks && p.data.tasks[r].status.Ready? :: r in ReadyTasks(p.data.tasks);
      StartedInOrderStep(p.data.tasks, t, Started(p.data, t).tasks[t], Activate(p, limit).value.data.tasks);
    } else {
      NothingStarted(p.data.tasks);
    }
  }

  lemma StartOneSound(p: Progress, limit: nat)
    requires Sound(p.data, limit) && ReadyTasks(p.data.tasks) != {} && ActiveCount(p.data) < limit
    ensures StartOne(p, limit).Ok? && Sound(StartOne(p, limit).value.data, limit)
  {
    hide StartOne, Sound;
    SoundOwned(p.data, limit);
    StartOneEffect(p, limit);
    StartedSound(p.data, Least(ReadyTasks(p.data.tasks)), limit);
  }

  lemma SoundOwned(d: TeamData, limit: nat)
    requires Sound(d, limit)
    ensures Owned(d) && Schedulable(d) && forall t | t in d.tasks :: t >= 1
  {
    assert forall t | t in d.tasks :: t in d.tasks.Keys;
  }

  lemma {:induction false} ActivateSound(p: Progress, limit: nat)
    requires Sound(p.data, limit) && Activate(p, limit).Ok?
    ensures Sound(Activate(p, limit).value.data, limit)
    decreases ReadyTasks(p.data.tasks)
  {
    hide StartOne, Sound;
    if ActiveCount(p.data) < limit && ReadyTasks(p.data.tasks) != {} {
      StartOneSound(p, limit);
      StartOneConsumesReady(p, limit);
      ActivateSound(StartOne(p, limit).value, limit);
    }
  }

  // ---------- the fixpoint ----------

  lemma {:induction false} SettledPassIdle(p: Progress, ids: seq<TaskId>, limit: nat)
    requires AllSettled(p.data) && AllPending(p.data, ids)
    ensures ResolveAll(p, ids, limit) == Ok(p)
    decreases |ids|
  {
    if ids != [] {
      assert ids[0] in ids && Settled(p.data, ids[0]);
      assert forall t | t in ids[1..] :: t in ids;
      SettledPassIdle(p, ids[1..], limit);
    }
  }

  /** Scheduling a quiescent state changes nothing and emits nothing. */
  lemma QuiescentIsFixed(d: TeamData, events: seq<EventKind>, limit: nat)
    requires Quiescent(d, limit)
    ensures Reconcile(Progress(d, events), limit) == Ok(Progress(d, events))
  {
    hide Settled;
    PendingTasksExact(d.tasks, MaxId(d.tasks.Keys));
    SettledPassIdle(Progress(d, events), PendingTasks(d.tasks, MaxId(d.tasks.Keys)), limit);
  }

  /** One pass from any owned, paired state with earlier dependencies succeeds and
      reaches quiescence; tasks left waiting for a slot come after every task it started. */
  lemma ReconcileReachesQuiescence(p: Progress, limit: nat)
    requires Schedulable(p.data) && forall t | t in p.data.tasks :: t >= 1
    ensures Reconcile(p, limit).Ok?
    ensures var q := Reconcile(p, limit).value;
            && Quiescent(q.data, limit)
            && Reconcile(q, limit) == Ok(q)
            && q.data.tasks.Keys == p.data.tasks.Keys
            && OnlySchedulerEvents(p.events, q.events)
            && (forall s, r | s in p.data.tasks && r in p.data.tasks ::
                  q.data.tasks[s].status.Running? && !p.data.tasks[s].status.Running? && q.data.tasks[r].status.Ready? ==> s < r)
  {
    hide Settled, Schedulable, ResolveAll, Activate;
    FirstPassSettles(p, limit);
    var ids := PendingTasks(p.data.tasks, MaxId(p.data.tasks.Keys));
    PendingTasksExact(p.data.tasks, MaxId(p.data.tasks.Keys));
    var settled := ResolveAll(p, ids, limit).value;
    assert AllSettled(settled.data);
    ActivateSettles(settled, limit);
    var q := Reconcile(p, limit).value;
    assert Quiescent(q.data, limit);
    QuiescentIsFixed(q.data, q.events, limit);
    FirstPassStartsNone(p, ids, limit);
    assert Progress(q.data, q.events) == q;
  }

  lemma FirstPassStartsNone(p: Progress, ids: seq<TaskId>, limit: nat)
    requires Schedulable(p.data) && Ascending(ids) && AllPending(p.data, ids) && ResolveAll(p, ids, limit).Ok?
    ensures var e := ResolveAll(p, ids, limit).value.data;
            forall t | t in p.data.tasks && t in e.tasks && e.tasks[t].status.Running? :: p.data.tasks[t].status.Running?
    decreases |ids|
  {
    hide Settled, Schedulable;
    if ids != [] {
      assert ids[0] in ids && forall x | x in ids[1..] :: x in ids && ids[0] < x;
      Deciding(p.data, ids[0]);
      ResolveOne(p, ids[0], limit);
      ResolvedSchedulable(p.data, ids[0]);
      FirstPassStartsNone(ResolvePending(p, ids[0], limit).value, ids[1..], limit);
    }
  }

  lemma ReconcileKeepsSound(p: Progress, limit: nat)
    requires Sound(p.data, limit) && Reconcile(p, limit).Ok?
    ensures Sound(Reconcile(p, limit).value.data, limit)
  {
    hide Sound, Settled;
    SoundOwned(p.data, limit);
    FirstPassSettles(p, limit);
    ActivateSound(ResolveAll(p, PendingTasks(p.data.tasks, MaxId(p.data.tasks.Keys)), limit).value, limit);
  }
}
