/** Admitting a root and delegating: the commands that add a task with its agent. */
module TeamGrowth {
  import opened Prelude
  import opened TeamModel
  import opened TeamPlan
  import opened TeamInvariant
  import opened TeamSchedule
  import opened TeamCommands

  /** A newcomer: the task and agent identifiers and everything stored with them. */
  datatype Newcomer = Newcomer(task: TaskId, spec: TaskSpec, agent: AgentId, parent: Option<AgentId>, budget: Budget,
                               capabilities: set<Capability>, preset: Option<Preset>)

  function NewAgent(n: Newcomer): Agent {
    Agent(n.parent, n.task, Dormant, n.budget, NO_BUDGET, n.capabilities, n.preset)
  }

  function Added(d: TeamData, n: Newcomer): TeamData {
    TeamData(if n.parent.None? then Some(n.agent) else d.root,
             d.tasks[n.task := Task(n.spec, Some(n.agent), Pending, None)],
             d.agents[n.agent := NewAgent(n)], d.messages, d.operations)
  }

  /** The parent's reservation grows by the child's budget. */
  function Reserve(agents: map<AgentId, Agent>, p: AgentId, budget: Budget): map<AgentId, Agent>
    requires p in agents && CheckedAdd(agents[p].reserved, budget).Some?
  {
    agents[p := agents[p].(reserved := CheckedAdd(agents[p].reserved, budget).value)]
  }

  ghost predicate Fresh(d: TeamData, n: Newcomer) {
    && |d.tasks| + 1 == n.task < U64_MAX && |d.agents| + 1 == n.agent < U64_MAX
    && Contiguous(d.tasks.Keys, |d.tasks|) && Contiguous(d.agents.Keys, |d.agents|)
  }

  lemma FreshMeans(d: TeamData, n: Newcomer)
    requires Fresh(d, n)
    ensures n.task !in d.tasks && n.agent !in d.agents
    ensures NextIdentifier(d.tasks.Keys) == Ok(n.task) && NextIdentifier(d.agents.Keys) == Ok(n.agent)
    ensures MaxId(d.agents.Keys) == n.agent - 1 && MaxId(d.agents[n.agent := NewAgent(n)].Keys) == n.agent
    ensures forall a | a in d.agents :: 1 <= a < n.agent
  {
    NextIsFresh(d.tasks.Keys, |d.tasks|);
    NextIsFresh(d.agents.Keys, |d.agents|);
    assert n.task !in d.tasks.Keys && n.agent !in d.agents.Keys;
    assert forall a | a in d.agents :: a in d.agents.Keys;
    AddNext(d.agents, n.agent, NewAgent(n));
    ContiguousMax(d.agents[n.agent := NewAgent(n)].Keys, n.agent);
    ContiguousMax(d.agents.Keys, n.agent - 1);
  }

  // ---------- the planned events, one by one ----------

  ghost predicate Plantable(d: TeamData, n: Newcomer) {
    && Fresh(d, n)
    && ValidateStoredSpec(n.spec).Ok? && (forall dep | dep in n.spec.dependencies :: dep in d.tasks)
    && ValidateBudget(n.budget).Ok? && ValidateCapabilities(n.capabilities).Ok? && ValidatePreset(n.preset).Ok?
    && match n.parent
       case None => d.root.None? && n.spec.dependencies == []
       case Some(p) =>
         && p in d.agents && d.agents[p].status == Active && d.agents[p].task in d.tasks
         && n.spec.scope <= d.tasks[d.agents[p].task].spec.scope && n.capabilities <= d.agents[p].capabilities
         && AncestorDependency(d.agents, p, n.spec.dependencies, d.agents.Keys) == Ok(None)
  }

  lemma AddEvents(d: TeamData, n: Newcomer, limit: nat)
    requires Plantable(d, n)
    ensures ApplyAll(d, [TaskCreated(n.task, n.spec),
                         AgentCreated(n.agent, n.task, n.parent, n.budget, n.capabilities, n.preset),
                         TaskOwnerAssigned(n.task, n.agent)], limit) == Ok(Added(d, n))
  {
    hide ValidateStoredSpec, ValidateBudget, ValidateCapabilities, ValidatePreset, AncestorDependency, MaxId;
    FreshMeans(d, n);
    hide Fresh, NextIdentifier;
    var d1 := PutTask(d, n.task, Task(n.spec, None, Pending, None));
    assert Apply(d, TaskCreated(n.task, n.spec), limit) == Ok(d1);
    var d2 := PutAgent(if n.parent.None? then d1.(root := Some(n.agent)) else d1, n.agent, NewAgent(n));
    AgentCreatedOk(d, d1, n, limit);
    var d3 := PutTask(d2, n.task, d2.tasks[n.task].(owner := Some(n.agent)));
    assert Apply(d2, TaskOwnerAssigned(n.task, n.agent), limit) == Ok(d3);
    assert d3.tasks == Added(d, n).tasks;
    ApplyThree(d, TaskCreated(n.task, n.spec),
               AgentCreated(n.agent, n.task, n.parent, n.budget, n.capabilities, n.preset),
               TaskOwnerAssigned(n.task, n.agent), limit);
  }

  lemma AgentCreatedOk(d: TeamData, d1: TeamData, n: Newcomer, limit: nat)
    requires Plantable(d, n) && d1 == PutTask(d, n.task, Task(n.spec, None, Pending, None))
    ensures Apply(d1, AgentCreated(n.agent, n.task, n.parent, n.budget, n.capabilities, n.preset), limit)
            == Ok(PutAgent(if n.parent.None? then d1.(root := Some(n.agent)) else d1, n.agent, NewAgent(n)))
  {
    hide ValidateStoredSpec, ValidateBudget, ValidateCapabilities, ValidatePreset, AncestorDependency, MaxId;
    FreshMeans(d, n);
    hide Fresh, NextIdentifier;
    assert n.task in d1.tasks && d1.agents == d.agents;
    assert CheckParent(d1, d1.tasks[n.task], n.parent, n.capabilities) == Ok(()) by {
      if n.parent.Some? {
        assert d1.tasks[d.agents[n.parent.value].task] == d.tasks[d.agents[n.parent.value].task];
      }
    }
  }

  lemma GrantEvent(d: TeamData, n: Newcomer, limit: nat)
    requires n.parent.Some? && n.parent.value in d.agents && n.parent.value != n.agent
    requires d.agents[n.parent.value].status == Active
    requires var r := CheckedAdd(d.agents[n.parent.value].reserved, n.budget);
             r.Some? && d.agents[n.parent.value].budget.Contains(r.value)
    ensures var e := Added(d, n);
            Apply(e, DelegationGranted(n.parent.value, n.agent), limit) == Ok(e.(agents := Reserve(e.agents, n.parent.value, n.budget)))
  {
  }

  // ---------- soundness of the grown state ----------

  lemma {:induction false} NoChildYet(agents: map<AgentId, Agent>, parent: AgentId, upTo: nat, axis: Axis)
    requires forall a | a in agents && 1 <= a <= upTo :: agents[a].parent != Some(parent)
    ensures ChildSum(agents, parent, upTo, axis) == 0
  {
    if upTo != 0 {
      NoChildYet(agents, parent, upTo - 1, axis);
    }
  }

  /** Adding agent `id` adds its budget to its parent's children and to nobody else's. */
  lemma ChildSumGrows(before: map<AgentId, Agent>, after: map<AgentId, Agent>, id: AgentId, parent: AgentId, axis: Axis)
    requires id >= 1 && id in after && forall a | 1 <= a < id :: a in before <==> a in after
    requires forall a | a in before && a in after && a != id ::
               before[a].parent == after[a].parent && before[a].budget == after[a].budget
    requires id !in before
    ensures ChildSum(after, parent, id, axis)
            == ChildSum(before, parent, id - 1, axis) + if after[id].parent == Some(parent) then axis(after[id].budget) else 0
  {
    ChildSumFrame(before, after, parent, id - 1, axis);
  }

  lemma AddedOwned(d: TeamData, n: Newcomer)
    requires Owned(d) && n.task !in d.tasks && n.agent !in d.agents
    ensures Owned(Added(d, n))
  {
    var e := Added(d, n);
    forall t | t in e.tasks
      ensures TaskOwned(e, t)
    {
      if t != n.task {
        assert TaskOwned(d, t);
      }
    }
    forall a | a in e.agents
      ensures AgentOwns(e, a)
    {
      if a != n.agent {
        assert AgentOwns(d, a);
      }
    }
  }

  lemma ReserveKeepsOwned(d: TeamData, p: AgentId, budget: Budget)
    requires Owned(d) && p in d.agents && CheckedAdd(d.agents[p].reserved, budget).Some?
    ensures Owned(d.(agents := Reserve(d.agents, p, budget)))
  {
    var e := d.(agents := Reserve(d.agents, p, budget));
    forall t | t in e.tasks
      ensures TaskOwned(e, t)
    {
      assert TaskOwned(d, t);
    }
    forall a | a in e.agents
      ensures AgentOwns(e, a)
    {
      assert AgentOwns(d, a);
    }
  }

  /** The agents after a newcomer joined and, below a parent, was granted its budget. */
  function GrownAgents(agents: map<AgentId, Agent>, n: Newcomer): map<AgentId, Agent>
    requires n.parent.Some? ==> n.parent.value in agents && n.parent.value != n.agent
                                && CheckedAdd(agents[n.parent.value].reserved, n.budget).Some?
  {
    var added := agents[n.agent := NewAgent(n)];
    if n.parent.None? then added else Reserve(added, n.parent.value, n.budget)
  }

  ghost predicate Affordable(agents: map<AgentId, Agent>, n: Newcomer) {
    n.parent.Some? ==>
      && n.parent.value in agents && n.parent.value != n.agent && agents[n.parent.value].status == Active
      && CheckedAdd(agents[n.parent.value].reserved, n.budget).Some?
      && agents[n.parent.value].budget.Contains(CheckedAdd(agents[n.parent.value].reserved, n.budget).value)
  }

  lemma GrownLiveChain(agents: map<AgentId, Agent>, n: Newcomer)
    requires LiveChain(agents) && n.agent !in agents && Affordable(agents, n)
    requires forall a | a in agents :: agents[a].parent != Some(n.agent)
    ensures LiveChain(GrownAgents(agents, n))
  {
  }

  lemma GrownActive(agents: map<AgentId, Agent>, n: Newcomer)
    requires n.agent !in agents && Affordable(agents, n)
    ensures ActiveAgents(GrownAgents(agents, n)) == ActiveAgents(agents)
  {
  }

  /** One agent's reservation still equals what its children hold. */
  lemma GrownBalanced(agents: map<AgentId, Agent>, n: Newcomer, a: AgentId)
    requires Affordable(agents, n) && n.agent !in agents && n.agent >= 1
    requires forall x | x in agents :: 1 <= x < n.agent && agents[x].parent != Some(n.agent)
    requires MaxId(agents.Keys) == n.agent - 1 && MaxId(GrownAgents(agents, n).Keys) == n.agent
    requires n.parent != Some(n.agent)
    requires a == n.agent || (a in agents && BudgetsBalanced(agents, a))
    ensures a in GrownAgents(agents, n) && BudgetsBalanced(GrownAgents(agents, n), a)
  {
    hide MaxId;
    var after := GrownAgents(agents, n);
    assert after.Keys == agents.Keys + {n.agent};
    if a == n.agent {
      NoChildYet(after, a, n.agent, TOKENS);
      NoChildYet(after, a, n.agent, CALLS);
    } else {
      ChildSumGrows(agents, after, n.agent, a, TOKENS);
      ChildSumGrows(agents, after, n.agent, a, CALLS);
    }
  }

  lemma GrownAgentsSound(agents: map<AgentId, Agent>, n: Newcomer)
    requires Affordable(agents, n) && n.agent !in agents && n.agent >= 1
    requires forall x | x in agents :: 1 <= x < n.agent && agents[x].parent != Some(n.agent)
    requires MaxId(agents.Keys) == n.agent - 1 && MaxId(GrownAgents(agents, n).Keys) == n.agent
    requires LiveChain(agents) && forall x | x in agents :: AgentSound(agents, x)
    ensures forall x | x in GrownAgents(agents, n) :: AgentSound(GrownAgents(agents, n), x)
  {
    var after := GrownAgents(agents, n);
    GrownLiveChain(agents, n);
    forall x | x in after
      ensures AgentSound(after, x)
    {
      hide BudgetsBalanced, MaxId;
      assert x != n.agent ==> AgentSound(agents, x);
      GrownBalanced(agents, n, x);
    }
  }

  function Grown(d: TeamData, n: Newcomer): TeamData
    requires n.parent.Some? ==> n.parent.value in d.agents && n.parent.value != n.agent
                                && CheckedAdd(d.agents[n.parent.value].reserved, n.budget).Some?
  {
    Added(d, n).(agents := GrownAgents(d.agents, n))
  }

  lemma NoParentIsNew(d: TeamData, n: Newcomer)
    requires Shape(d) && Fresh(d, n)
    ensures forall a | a in d.agents :: 1 <= a < n.agent && d.agents[a].parent != Some(n.agent)
    ensures n.parent.Some? && n.parent.value in d.agents ==> n.parent.value != n.agent
  {
    hide Numbered, DependenciesEarlier;
    FreshMeans(d, n);
    forall a | a in d.agents
      ensures d.agents[a].parent != Some(n.agent)
    {
      assert TreeNode(d, a);
    }
  }

  lemma GrownKeys(d: TeamData, n: Newcomer)
    requires Fresh(d, n) && Affordable(d.agents, n)
    ensures MaxId(GrownAgents(d.agents, n).Keys) == n.agent
  {
    FreshMeans(d, n);
    hide Fresh;
    assert GrownAgents(d.agents, n).Keys == d.agents[n.agent := NewAgent(n)].Keys;
  }

  lemma GrownOwned(d: TeamData, n: Newcomer)
    requires Owned(d) && n.task !in d.tasks && n.agent !in d.agents && Affordable(d.agents, n)
    ensures Owned(Grown(d, n))
  {
    AddedOwned(d, n);
    if n.parent.Some? {
      ReserveKeepsOwned(Added(d, n), n.parent.value, n.budget);
    }
  }

  lemma GrownParts(d: TeamData, n: Newcomer)
    requires Shape(d) && Owned(d) && LiveChain(d.agents) && (forall a | a in d.agents :: AgentSound(d.agents, a))
    requires Fresh(d, n) && Affordable(d.agents, n)
    ensures Owned(Grown(d, n)) && LiveChain(Grown(d, n).agents)
    ensures ActiveAgents(Grown(d, n).agents) == ActiveAgents(d.agents)
    ensures var e := Grown(d, n); forall a | a in e.agents :: AgentSound(e.agents, a)
  {
    NoParentIsNew(d, n);
    FreshMeans(d, n);
    GrownKeys(d, n);
    hide Shape, Fresh, AgentSound, MaxId;
    GrownOwned(d, n);
    GrownLiveChain(d.agents, n);
    GrownActive(d.agents, n);
    hide Owned;
    GrownAgentsSound(d.agents, n);
  }

  lemma GrownValidated(d: TeamData, n: Newcomer, limit: nat)
    requires Sound(d, limit) && Fresh(d, n) && Affordable(d.agents, n)
    ensures Validated(Grown(d, n), limit) && LiveChain(Grown(d, n).agents) && CompletionMatches(Grown(d, n).tasks)
  {
    hide Shape, DependencySafe, AgentSound, Fresh, Owned, LiveChain;
    GrownParts(d, n);
    assert n.agent in Grown(d, n).agents && forall a | a in d.agents :: a in Grown(d, n).agents;
    assert Grown(d, n).operations == d.operations;
  }

  lemma GrownSound(d: TeamData, n: Newcomer, events: seq<EventKind>, limit: nat)
    requires Sound(d, limit) && Fresh(d, n) && Affordable(d.agents, n)
    requires ApplyAll(d, events, limit) == Ok(Grown(d, n))
    ensures Accepted(d, events, limit)
  {
    GrownValidated(d, n, limit);
    hide Validated, LiveChain, CompletionMatches, Shape, DependencySafe, ApplyAll, Fresh, Affordable;
    EventsKeepSafety(d, events, limit);
  }

  /** The next identifiers a live runtime hands out are the ones its state expects. */
  ghost predicate Counted(t: Team) {
    && NextIdentifier(t.data.tasks.Keys) == Ok(t.nextTask)
    && NextIdentifier(t.data.agents.Keys) == Ok(t.nextAgent)
    && NextIdentifier(MessageIds(t.data.messages)) == Ok(t.nextMessage)
  }

  lemma CountedFresh(t: Team, n: Newcomer)
    requires Shape(t.data) && Counted(t) && n.task == t.nextTask < U64_MAX && n.agent == t.nextAgent < U64_MAX
    ensures Fresh(t.data, n)
  {
    hide Tree, DependenciesEarlier;
    NextIsFresh(t.data.tasks.Keys, |t.data.tasks|);
    NextIsFresh(t.data.agents.Keys, |t.data.agents|);
  }

  function NewcomerOf(t: Team, task: TaskSpec, parent: Option<AgentId>, budget: Budget, capabilities: set<Capability>, preset: Option<Preset>): Newcomer
    requires ValidateTaskSpec(t.data, task).Ok?
  {
    Newcomer(t.nextTask, ValidateTaskSpec(t.data, task).value, t.nextAgent, parent, budget, capabilities, preset)
  }

  lemma RootAccepted(t: Team, task: TaskSpec, budget: Budget, capabilities: set<Capability>)
    requires Sound(t.data, t.limit) && Counted(t) && PlanRoot(t, task, budget, capabilities).Ok?
    ensures Accepted(t.data, PlanRoot(t, task, budget, capabilities).value, t.limit)
  {
    hide Sound, Counted, ValidateTaskSpec, ValidateCapabilities, ValidateStoredSpec, Shape, Fresh;
    var n := NewcomerOf(t, task, None, budget, capabilities, None);
    SoundShape(t.data, t.limit);
    CountedFresh(t, n);
    PlannedSpecStorable(t.data, task);
    AddEvents(t.data, n, t.limit);
    assert Added(t.data, n) == Grown(t.data, n);
    GrownSound(t.data, n, PlanRoot(t, task, budget, capabilities).value, t.limit);
  }

  lemma SoundShape(d: TeamData, limit: nat)
    requires Sound(d, limit)
    ensures Shape(d)
  {
  }

  lemma RemainingAffordable(d: TeamData, n: Newcomer)
    requires n.parent.Some? && n.parent.value in d.agents && n.parent.value != n.agent && d.agents[n.parent.value].status == Active
    requires var p := d.agents[n.parent.value];
             p.budget.Contains(p.reserved) && n.budget.tokens <= p.budget.tokens - p.reserved.tokens
             && n.budget.calls <= p.budget.calls - p.reserved.calls
    ensures Affordable(d.agents, n)
  {
  }

  lemma GrantedGrown(d: TeamData, n: Newcomer, base: seq<EventKind>, limit: nat)
    requires n.parent.Some? && Affordable(d.agents, n) && n.agent !in d.agents
    requires ApplyAll(d, base, limit) == Ok(Added(d, n))
    ensures ApplyAll(d, base + [DelegationGranted(n.parent.value, n.agent)], limit) == Ok(Grown(d, n))
  {
    GrantEvent(d, n, limit);
    ApplyAllAppend(d, base, DelegationGranted(n.parent.value, n.agent), limit);
    assert Reserve(Added(d, n).agents, n.parent.value, n.budget) == GrownAgents(d.agents, n);
  }

  lemma {:induction false} ApplyAllAppend(d: TeamData, events: seq<EventKind>, last: EventKind, limit: nat)
    requires ApplyAll(d, events, limit).Ok?
    ensures ApplyAll(d, events + [last], limit) == Apply(ApplyAll(d, events, limit).value, last, limit)
    decreases |events|
  {
    hide Apply;
    if events == [] {
      assert ([last])[1..] == [];
    } else {
      assert (events + [last])[1..] == events[1..] + [last];
      ApplyAllAppend(Apply(d, events[0], limit).value, events[1..], last, limit);
    }
  }

  lemma DelegationAccepted(t: Team, parent: AgentId, task: TaskSpec, budget: Budget, capabilities: set<Capability>, preset: Option<Preset>)
    requires Sound(t.data, t.limit) && Counted(t) && PlanDelegation(t, parent, task, budget, capabilities, preset).Ok?
    ensures Accepted(t.data, PlanDelegation(t, parent, task, budget, capabilities, preset).value, t.limit)
  {
    hide Sound, Counted, ValidateTaskSpec, ValidateCapabilities, ValidatePreset, ValidateStoredSpec, Shape, Fresh, AncestorDependency;
    var n := NewcomerOf(t, task, Some(parent), budget, capabilities, preset);
    SoundShape(t.data, t.limit);
    CountedFresh(t, n);
    FreshMeans(t.data, n);
    PlannedSpecStorable(t.data, task);
    DelegationPlantable(t, parent, task, budget, capabilities, preset);
    RemainingAffordable(t.data, n);
    AddEvents(t.data, n, t.limit);
    var base := [TaskCreated(n.task, n.spec),
                 AgentCreated(n.agent, n.task, n.parent, n.budget, n.capabilities, n.preset),
                 TaskOwnerAssigned(n.task, n.agent)];
    GrantedGrown(t.data, n, base, t.limit);
    assert base + [DelegationGranted(parent, n.agent)] == PlanDelegation(t, parent, task, budget, capabilities, preset).value;
    GrownSound(t.data, n, PlanDelegation(t, parent, task, budget, capabilities, preset).value, t.limit);
  }

  lemma DelegationPlantable(t: Team, parent: AgentId, task: TaskSpec, budget: Budget, capabilities: set<Capability>, preset: Option<Preset>)
    requires PlanDelegation(t, parent, task, budget, capabilities, preset).Ok?
    requires ValidateStoredSpec(ValidateTaskSpec(t.data, task).value).Ok?
    requires forall dep | dep in ValidateTaskSpec(t.data, task).value.dependencies :: dep in t.data.tasks
    requires Fresh(t.data, NewcomerOf(t, task, Some(parent), budget, capabilities, preset))
    ensures Plantable(t.data, NewcomerOf(t, task, Some(parent), budget, capabilities, preset))
  {
    hide ValidateTaskSpec, ValidateCapabilities, ValidatePreset, ValidateStoredSpec, Fresh;
    var spec := ValidateTaskSpec(t.data, task).value;
    var cycle := AncestorDependency(t.data.agents, parent, spec.dependencies, t.data.agents.Keys);
    assert cycle == Ok(None);
  }

  lemma MessageApplies(t: Team, from: AgentId, recipient: Recipient, body: Text)
    requires Counted(t) && PlanMessage(t, from, recipient, body).Ok?
    ensures Apply(t.data, MessageSent(t.nextMessage, from, recipient, body), t.limit)
            == Ok(t.data.(messages := t.data.messages + [Message(t.nextMessage, from, recipient, body)]))
  {
    assert t.nextMessage !in MessageIds(t.data.messages);
  }

  lemma MessageKeeps(d: TeamData, message: Message, limit: nat)
    requires Sound(d, limit)
    ensures var e := d.(messages := d.messages + [message]);
            Validated(e, limit) && LiveChain(e.agents) && CompletionMatches(e.tasks)
  {
    hide Shape, DependencySafe;
    ExtendMessages(d, message, limit);
  }

  lemma MessageAccepted(t: Team, from: AgentId, recipient: Recipient, body: Text)
    requires Sound(t.data, t.limit) && Counted(t) && PlanMessage(t, from, recipient, body).Ok?
    ensures Accepted(t.data, PlanMessage(t, from, recipient, body).value, t.limit)
  {
    var event := MessageSent(t.nextMessage, from, recipient, body);
    MessageApplies(t, from, recipient, body);
    PlannedMessage(t, from, recipient, body);
    MessageKeeps(t.data, Message(t.nextMessage, from, recipient, body), t.limit);
    SoundShape(t.data, t.limit);
    hide Apply, Shape, DependencySafe, Counted, PlanMessage, Validated, LiveChain, CompletionMatches;
    ApplyFirst(t.data, event, [], t.limit);
    assert [event] + [] == [event];
    EventsKeepSafety(t.data, [event], t.limit);
  }

  lemma PlannedMessage(t: Team, from: AgentId, recipient: Recipient, body: Text)
    requires PlanMessage(t, from, recipient, body).Ok?
    ensures PlanMessage(t, from, recipient, body).value == [MessageSent(t.nextMessage, from, recipient, body)]
  {
  }

  lemma ExtendMessages(d: TeamData, message: Message, limit: nat)
    requires Validated(d, limit)
    ensures Validated(d.(messages := d.messages + [message]), limit)
  {
    SameOwned(d, d.(messages := d.messages + [message]));
  }

  lemma SameOwned(d: TeamData, e: TeamData)
    requires Owned(d) && d.tasks == e.tasks && d.agents == e.agents
    ensures Owned(e)
  {
    assert forall t | t in e.tasks :: TaskOwned(d, t) ==> TaskOwned(e, t);
    assert forall a | a in e.agents :: AgentOwns(d, a) ==> AgentOwns(e, a);
  }
}
