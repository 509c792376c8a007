/**
 What every event keeps, whatever log it comes from, and the stronger
 invariant that holds between the transactions of a live runtime.
 */
module TeamInvariant {
  import opened Prelude
  import opened TeamModel

  // ---------- shape: identifiers, dependencies, delegation tree ----------

  ghost predicate MessagesNumbered(messages: seq<Message>) {
    |messages| < U64_MAX && forall i | 0 <= i < |messages| :: messages[i].id == i + 1
  }

  ghost predicate Numbered(d: TeamData) {
    && |d.tasks| < U64_MAX && Contiguous(d.tasks.Keys, |d.tasks|)
    && |d.agents| < U64_MAX && Contiguous(d.agents.Keys, |d.agents|)
    && |d.operations| < U64_MAX && Contiguous(d.operations.Keys, |d.operations|)
    && MessagesNumbered(d.messages)
  }

  ghost predicate DependenciesEarlier(tasks: map<TaskId, Task>) {
    forall t, dep | t in tasks && dep in tasks[t].spec.dependencies :: dep in tasks && dep < t
  }

  ghost predicate Narrower(d: TeamData, child: AgentId, parent: AgentId)
    requires child in d.agents && parent in d.agents
  {
    && d.agents[child].capabilities <= d.agents[parent].capabilities
    && d.agents[child].task in d.tasks && d.agents[parent].task in d.tasks
    && d.tasks[d.agents[child].task].spec.scope <= d.tasks[d.agents[parent].task].spec.scope
  }

  ghost predicate TreeNode(d: TeamData, a: AgentId)
    requires a in d.agents
  {
    && d.agents[a].task in d.tasks
    && (d.agents[a].parent.None? <==> d.root == Some(a))
    && (d.agents[a].parent.Some? ==>
          d.agents[a].parent.value in d.agents && d.agents[a].parent.value < a && Narrower(d, a, d.agents[a].parent.value))
  }

  ghost predicate Tree(d: TeamData) {
    && (d.root.Some? ==> d.root.value in d.agents)
    && forall a | a in d.agents :: TreeNode(d, a)
  }

  ghost predicate Shape(d: TeamData) {
    Numbered(d) && DependenciesEarlier(d.tasks) && Tree(d)
  }

  /** Statuses that can only be reached once every dependency has succeeded. */
  predicate NeedsDependencies(status: TaskStatus) {
    status.Ready? || status.Running? || status.Failed? || status.Succeeded?
  }

  ghost predicate DependenciesHold(tasks: map<TaskId, Task>, dependencies: seq<TaskId>) {
    forall dep | dep in dependencies :: dep in tasks && tasks[dep].status.Succeeded?
  }

  ghost predicate DependencySafe(tasks: map<TaskId, Task>) {
    forall t | t in tasks && NeedsDependencies(tasks[t].status) :: DependenciesHold(tasks, tasks[t].spec.dependencies)
  }

  ghost predicate SuccessKept(before: map<TaskId, Task>, after: map<TaskId, Task>) {
    forall t | t in before && before[t].status.Succeeded? :: t in after && after[t].status.Succeeded?
  }

  lemma {:induction false} AllSucceededMeans(tasks: map<TaskId, Task>, dependencies: seq<TaskId>)
    ensures AllSucceeded(tasks, dependencies) == Ok(true) <==> DependenciesHold(tasks, dependencies)
    ensures (forall dep | dep in dependencies :: dep in tasks) <==> AllSucceeded(tasks, dependencies).Ok?
  {
    if dependencies != [] {
      AllSucceededMeans(tasks, dependencies[1..]);
      assert forall dep :: dep in dependencies <==> dep == dependencies[0] || dep in dependencies[1..];
    }
  }

  lemma {:induction false} FirstBlockingMeans(tasks: map<TaskId, Task>, dependencies: seq<TaskId>)
    requires forall dep | dep in dependencies :: dep in tasks
    ensures FirstBlocking(tasks, dependencies).Ok?
    ensures FirstBlocking(tasks, dependencies).value.None?
            <==> forall dep | dep in dependencies :: !tasks[dep].status.BlocksDependents()
    ensures var first := FirstBlocking(tasks, dependencies).value;
            first.Some? ==> first.value in dependencies && tasks[first.value].status.BlocksDependents()
  {
    if dependencies != [] {
      FirstBlockingMeans(tasks, dependencies[1..]);
      assert forall dep :: dep in dependencies <==> dep == dependencies[0] || dep in dependencies[1..];
    }
  }

  lemma NextIsFresh(ids: set<U64>, n: nat)
    requires Contiguous(ids, n) && n < U64_MAX
    ensures NextIdentifier(ids) == Ok(n + 1)
  {
    ContiguousMax(ids, n);
  }

  lemma MessageIdsNumbered(messages: seq<Message>)
    requires MessagesNumbered(messages)
    ensures Contiguous(MessageIds(messages), |messages|)
  {
    forall i: nat
      ensures i in MessageIds(messages) <==> 1 <= i <= |messages|
    {
      if 1 <= i <= |messages| {
        assert messages[i - 1].id == i;
      }
    }
  }

  /** Counting up: a contiguous key set stays contiguous when its successor is added. */
  lemma AddNext<V>(m: map<U64, V>, id: U64, v: V)
    requires Contiguous(m.Keys, |m|) && id == |m| + 1
    ensures |m[id := v]| == |m| + 1 && Contiguous(m[id := v].Keys, |m| + 1)
  {
    assert id !in m.Keys;
    assert m[id := v].Keys == m.Keys + {id};
  }

  /** Replacing the record under an existing key keeps the keys. */
  lemma Replace<V>(m: map<U64, V>, id: U64, v: V)
    requires id in m
    ensures m[id := v].Keys == m.Keys && |m[id := v]| == |m|
  {
    assert m[id := v].Keys == m.Keys;
  }

  /** Only statuses, owners, completions, reservations and journal entries differ. */
  ghost predicate SameShape(d: TeamData, e: TeamData) {
    && d.tasks.Keys == e.tasks.Keys && d.agents.Keys == e.agents.Keys && d.root == e.root
    && (forall t | t in d.tasks :: d.tasks[t].spec == e.tasks[t].spec)
    && (forall a | a in d.agents ::
          d.agents[a].parent == e.agents[a].parent && d.agents[a].task == e.agents[a].task
          && d.agents[a].capabilities == e.agents[a].capabilities && d.agents[a].budget == e.agents[a].budget)
  }

  lemma SameShapeKeepsTree(d: TeamData, e: TeamData)
    requires Tree(d) && SameShape(d, e)
    ensures Tree(e)
  {
    forall a | a in e.agents
      ensures TreeNode(e, a)
    {
      assert TreeNode(d, a);
    }
  }

  lemma SameShapeKeeps(d: TeamData, e: TeamData)
    requires Shape(d) && SameShape(d, e)
    requires d.operations == e.operations && d.messages == e.messages
    ensures Shape(e)
  {
    SameShapeKeepsTree(d, e);
    assert |d.tasks.Keys| == |e.tasks.Keys| && |d.agents.Keys| == |e.agents.Keys|;
  }

  lemma TreeOfNewTask(d: TeamData, id: TaskId, task: Task)
    requires Tree(d) && id !in d.tasks
    ensures Tree(PutTask(d, id, task))
  {
    forall a | a in d.agents
      ensures TreeNode(PutTask(d, id, task), a)
    {
      assert TreeNode(d, a);
    }
  }

  lemma ShapeOfNewTask(d: TeamData, id: TaskId, task: Task)
    requires Shape(d) && id == |d.tasks| + 1 && id < U64_MAX
    requires forall dep | dep in task.spec.dependencies :: dep in d.tasks
    ensures Shape(PutTask(d, id, task))
  {
    AddNext(d.tasks, id, task);
    assert id !in d.tasks.Keys;
    TreeOfNewTask(d, id, task);
  }

  lemma TreeOfNewAgent(d: TeamData, id: AgentId, agent: Agent, root: Option<AgentId>)
    requires Tree(d) && id !in d.agents && forall a | a in d.agents :: a < id
    requires agent.task in d.tasks
    requires match agent.parent
             case None => d.root.None? && root == Some(id)
             case Some(p) =>
               p in d.agents && root == d.root && agent.capabilities <= d.agents[p].capabilities
               && d.agents[p].task in d.tasks && d.tasks[agent.task].spec.scope <= d.tasks[d.agents[p].task].spec.scope
    ensures Tree(PutAgent(d, id, agent).(root := root))
  {
    var e := PutAgent(d, id, agent).(root := root);
    assert e.tasks == d.tasks && e.agents == d.agents[id := agent];
    forall a | a in d.agents
      ensures TreeNode(e, a)
    {
      assert TreeNode(d, a) && a != id;
      assert d.root == Some(a) <==> root == Some(a);
      if d.agents[a].parent.Some? {
        var p := d.agents[a].parent.value;
        assert Narrower(d, a, p) && p != id;
      }
    }
    assert TreeNode(e, id);
  }

  lemma ShapeOfNewAgent(d: TeamData, id: AgentId, agent: Agent, root: Option<AgentId>)
    requires Shape(d) && id == |d.agents| + 1 && id < U64_MAX
    requires agent.task in d.tasks
    requires match agent.parent
             case None => d.root.None? && root == Some(id)
             case Some(p) =>
               p in d.agents && root == d.root && agent.capabilities <= d.agents[p].capabilities
               && d.agents[p].task in d.tasks && d.tasks[agent.task].spec.scope <= d.tasks[d.agents[p].task].spec.scope
    ensures Shape(PutAgent(d, id, agent).(root := root))
  {
    AddNext(d.agents, id, agent);
    assert id !in d.agents.Keys && forall a | a in d.agents.Keys :: a < id;
    TreeOfNewAgent(d, id, agent, root);
  }

  lemma ShapeOfAgentCreated(d: TeamData, event: EventKind)
    requires event.AgentCreated? && Shape(d) && Apply(d, event, 0).Ok?
    ensures Shape(Apply(d, event, 0).value)
  {
    NextIsFresh(d.agents.Keys, |d.agents|);
    var e := Apply(d, event, 0).value;
    ShapeOfNewAgent(d, event.agent, e.agents[event.agent], e.root);
    assert e == PutAgent(d, event.agent, e.agents[event.agent]).(root := e.root);
  }

  lemma ShapeOfOperations(d: TeamData, operations: map<OperationId, Operation>)
    requires Shape(d) && |operations| < U64_MAX && Contiguous(operations.Keys, |operations|)
    ensures Shape(d.(operations := operations))
  {
    SameShapeKeepsTree(d, d.(operations := operations));
  }

  lemma ShapeOfMessage(d: TeamData, message: Message)
    requires Shape(d) && message.id == |d.messages| + 1 && message.id < U64_MAX
    ensures Shape(d.(messages := d.messages + [message]))
  {
    SameShapeKeepsTree(d, d.(messages := d.messages + [message]));
  }

  lemma ShapeOfCommitted(d: TeamData, operation: OperationId, transaction: TransactionId)
    requires Shape(d) && ApplyOperationCommitted(d, operation, transaction).Ok?
    ensures Shape(ApplyOperationCommitted(d, operation, transaction).value)
  {
    NextIsFresh(d.operations.Keys, |d.operations|);
    AddNext(d.operations, operation, Operation(transaction, None));
    ShapeOfOperations(d, d.operations[operation := Operation(transaction, None)]);
  }

  lemma ShapeOfAcknowledged(d: TeamData, operation: OperationId, record: Operation)
    requires Shape(d) && operation in d.operations
    ensures Shape(d.(operations := d.operations[operation := record]))
  {
    Replace(d.operations, operation, record);
    ShapeOfOperations(d, d.operations[operation := record]);
  }

  lemma MessageSentEffect(d: TeamData, message: MessageId, from: AgentId, recipient: Recipient, body: Text)
    requires ApplyMessageSent(d, message, from, recipient, body).Ok?
    ensures message < U64_MAX && NextIdentifier(MessageIds(d.messages)) == Ok(message)
    ensures ApplyMessageSent(d, message, from, recipient, body).value
            == d.(messages := d.messages + [Message(message, from, recipient, body)])
  {
  }

  lemma ShapeOfMessageSent(d: TeamData, message: MessageId, from: AgentId, recipient: Recipient, body: Text)
    requires Shape(d) && ApplyMessageSent(d, message, from, recipient, body).Ok?
    ensures Shape(ApplyMessageSent(d, message, from, recipient, body).value)
  {
    MessageSentEffect(d, message, from, recipient, body);
    assert message == |d.messages| + 1 by {
      MessageIdsNumbered(d.messages);
      NextIsFresh(MessageIds(d.messages), |d.messages|);
    }
    ShapeOfMessage(d, Message(message, from, recipient, body));
  }

  /** One task record changes, its specification stays. */
  lemma TaskChangeSameShape(d: TeamData, id: TaskId, task: Task)
    requires id in d.tasks && task.spec == d.tasks[id].spec
    ensures SameShape(d, PutTask(d, id, task))
  {
  }

  lemma AgentChangeSameShape(d: TeamData, id: AgentId, agent: Agent)
    requires id in d.agents && agent.parent == d.agents[id].parent && agent.task == d.agents[id].task
    requires agent.capabilities == d.agents[id].capabilities && agent.budget == d.agents[id].budget
    ensures SameShape(d, PutAgent(d, id, agent))
  {
  }

  predicate TaskEvent(event: EventKind) {
    event.TaskOwnerAssigned? || event.TaskReady? || event.TaskStarted? || event.CapsuleSubmitted? || event.TaskDone?
    || event.TaskFailure? || event.TaskCancellation? || event.TaskBlocked? || event.TaskRetryRequested?
  }

  function ChangedAgent(event: EventKind): AgentId
    requires !TaskEvent(event) && !event.TaskCreated? && !event.AgentCreated? && !event.MessageSent?
             && !event.OperationCommitted? && !event.OperationAcknowledged?
  {
    if event.DelegationGranted? then event.grantor else event.agent
  }

  lemma TaskEventEffect(d: TeamData, event: EventKind, limit: nat)
    requires TaskEvent(event) && Apply(d, event, limit).Ok?
    ensures event.task in d.tasks && event.task in Apply(d, event, limit).value.tasks
    ensures Apply(d, event, limit).value == PutTask(d, event.task, Apply(d, event, limit).value.tasks[event.task])
    ensures Apply(d, event, limit).value.tasks[event.task].spec == d.tasks[event.task].spec
  {
  }

  lemma AgentEventEffect(d: TeamData, event: EventKind, limit: nat)
    requires !TaskEvent(event) && !event.TaskCreated? && !event.AgentCreated? && !event.MessageSent?
             && !event.OperationCommitted? && !event.OperationAcknowledged?
    requires Apply(d, event, limit).Ok?
    ensures var a := ChangedAgent(event);
            a in d.agents && a in Apply(d, event, limit).value.agents
            && Apply(d, event, limit).value == PutAgent(d, a, Apply(d, event, limit).value.agents[a])
            && AgentChange(d.agents[a], Apply(d, event, limit).value.agents[a])
  {
  }

  predicate AgentChange(before: Agent, after: Agent) {
    after.parent == before.parent && after.task == before.task && after.capabilities == before.capabilities
    && after.budget == before.budget
  }

  /** Every event that can be applied keeps identifiers gapless, dependencies
      earlier than their dependents, and the delegation tree narrowing. */
  lemma ApplyKeepsShape(d: TeamData, event: EventKind, limit: nat)
    requires Shape(d) && Apply(d, event, limit).Ok?
    ensures Shape(Apply(d, event, limit).value)
  {
    if event.TaskCreated? {
      NextIsFresh(d.tasks.Keys, |d.tasks|);
      ShapeOfNewTask(d, event.task, Task(event.spec, None, Pending, None));
    } else if event.AgentCreated? {
      ShapeOfAgentCreated(d, event);
    } else if event.MessageSent? {
      ShapeOfMessageSent(d, event.message, event.from, event.recipient, event.body);
    } else if event.OperationCommitted? {
      ShapeOfCommitted(d, event.operation, event.transaction);
    } else if event.OperationAcknowledged? {
      ShapeOfAcknowledged(d, event.operation, Apply(d, event, limit).value.operations[event.operation]);
    } else if TaskEvent(event) {
      var e := Apply(d, event, limit).value;
      TaskEventEffect(d, event, limit);
      TaskChangeSameShape(d, event.task, e.tasks[event.task]);
      SameShapeKeeps(d, e);
    } else {
      var e := Apply(d, event, limit).value;
      AgentEventEffect(d, event, limit);
      AgentChangeSameShape(d, ChangedAgent(event), e.agents[ChangedAgent(event)]);
      SameShapeKeeps(d, e);
    }
  }

  // ---------- dependency safety ----------

  lemma StatusKeepsDependencySafe(tasks: map<TaskId, Task>, id: TaskId, task: Task)
    requires DependencySafe(tasks) && id in tasks && task.spec == tasks[id].spec
    requires tasks[id].status.Succeeded? ==> task.status.Succeeded?
    requires NeedsDependencies(task.status) ==> DependenciesHold(tasks, task.spec.dependencies)
    ensures DependencySafe(tasks[id := task]) && SuccessKept(tasks, tasks[id := task])
  {
    var after := tasks[id := task];
    forall t | t in after && NeedsDependencies(after[t].status)
      ensures DependenciesHold(after, after[t].spec.dependencies)
    {
      assert DependenciesHold(tasks, after[t].spec.dependencies);
    }
  }

  lemma TaskEventRespectsDependencies(d: TeamData, event: EventKind, limit: nat)
    requires TaskEvent(event) && DependencySafe(d.tasks) && Apply(d, event, limit).Ok?
    requires event.task in d.tasks && event.task in Apply(d, event, limit).value.tasks
    ensures var before, after := d.tasks[event.task], Apply(d, event, limit).value.tasks[event.task];
            && (before.status.Succeeded? ==> after.status.Succeeded?)
            && (NeedsDependencies(after.status) ==> DependenciesHold(d.tasks, before.spec.dependencies))
  {
    AllSucceededMeans(d.tasks, d.tasks[event.task].spec.dependencies);
    assert NeedsDependencies(d.tasks[event.task].status) ==> DependenciesHold(d.tasks, d.tasks[event.task].spec.dependencies);
  }

  lemma NewTaskKeepsDependencySafe(tasks: map<TaskId, Task>, id: TaskId, task: Task)
    requires DependencySafe(tasks) && id !in tasks && task.status.Pending?
    ensures DependencySafe(tasks[id := task]) && SuccessKept(tasks, tasks[id := task])
  {
    var after := tasks[id := task];
    forall t | t in after && NeedsDependencies(after[t].status)
      ensures DependenciesHold(after, after[t].spec.dependencies)
    {
      assert DependenciesHold(tasks, tasks[t].spec.dependencies);
    }
  }

  lemma OtherEventsKeepTasks(d: TeamData, event: EventKind, limit: nat)
    requires !TaskEvent(event) && !event.TaskCreated? && Apply(d, event, limit).Ok?
    ensures Apply(d, event, limit).value.tasks == d.tasks
  {
  }

  /** One event never leaves Succeeded and never runs ahead of a dependency. */
  lemma ApplyKeepsDependencySafe(d: TeamData, event: EventKind, limit: nat)
    requires DependencySafe(d.tasks) && Apply(d, event, limit).Ok?
    ensures DependencySafe(Apply(d, event, limit).value.tasks)
    ensures SuccessKept(d.tasks, Apply(d, event, limit).value.tasks)
  {
    if event.TaskCreated? {
      NewTaskKeepsDependencySafe(d.tasks, event.task, Task(event.spec, None, Pending, None));
    } else if TaskEvent(event) {
      TaskEventEffect(d, event, limit);
      TaskEventRespectsDependencies(d, event, limit);
      StatusKeepsDependencySafe(d.tasks, event.task, Apply(d, event, limit).value.tasks[event.task]);
    } else {
      OtherEventsKeepTasks(d, event, limit);
    }
  }

  /** Over any log prefix: shape and dependency safety hold, and no success is undone. */
  lemma {:induction false} EventsKeepSafety(d: TeamData, events: seq<EventKind>, limit: nat)
    requires Shape(d) && DependencySafe(d.tasks) && ApplyAll(d, events, limit).Ok?
    ensures Shape(ApplyAll(d, events, limit).value)
    ensures DependencySafe(ApplyAll(d, events, limit).value.tasks)
    ensures SuccessKept(d.tasks, ApplyAll(d, events, limit).value.tasks)
    decreases |events|
  {
    if events != [] {
      ApplyKeepsShape(d, events[0], limit);
      ApplyKeepsDependencySafe(d, events[0], limit);
      EventsKeepSafety(Apply(d, events[0], limit).value, events[1..], limit);
    }
  }

  lemma EmptyTeamShape()
    ensures Shape(EMPTY_TEAM) && DependencySafe(EMPTY_TEAM.tasks)
  {
  }
}
