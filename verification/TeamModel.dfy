/**
 Agent Team policy as values: the state, the events, one event's effect, the
 scheduler pass, and the checks made before a transaction is published.
 The mutable classes of TeamRuntime.dfy are proved against these functions.
 */
module TeamModel {
  import opened Prelude

  const MAX_MESSAGE_BYTES: nat := 64 * 1024
  const MAX_REASON_BYTES: nat := 8 * 1024
  const MAX_CAPSULE_BYTES: nat := 256 * 1024
  const MAX_TASK_TITLE_BYTES: nat := 1024
  const MAX_SCOPE_LABEL_BYTES: nat := 256
  const MAX_SCOPE_LABELS: nat := 64
  const MAX_TOOL_NAME_BYTES: nat := 256
  const MAX_CAPABILITIES: nat := 64
  const MAX_TASK_DEPENDENCIES: nat := 256
  const MAX_CAPSULE_ENTRIES: nat := 1024

  type TaskId = U64
  type AgentId = U64
  type MessageId = U64
  type OperationId = U64
  type TransactionId = U64

  /** A string seen only through what the policy inspects: an opaque token, its
      byte length, and the byte length left after trimming. */
  datatype RawText = Text(token: nat, bytes: nat, core: nat) {
    predicate Blank() { core == 0 }

    predicate Trimmed() { core == bytes }
  }

  type Text = t: RawText | t.core <= t.bytes witness RawText.Text(0, 0, 0)

  function Trim(t: Text): Text {
    RawText.Text(t.token, t.core, t.core)
  }

  datatype Capability = WorkspaceRead | WorkspaceWrite | Process | Network | Tool(name: Text)

  datatype Budget = Budget(tokens: U64, calls: U32) {
    predicate Contains(child: Budget) {
      child.tokens <= tokens && child.calls <= calls
    }
  }

  const NO_BUDGET := Budget(0, 0)

  function CheckedAdd(a: Budget, b: Budget): Option<Budget> {
    if a.tokens + b.tokens > U64_MAX || a.calls + b.calls > U32_MAX then None
    else Some(Budget(a.tokens + b.tokens, a.calls + b.calls))
  }

  datatype TaskSpec = TaskSpec(title: Text, scope: set<Text>, dependencies: seq<TaskId>)

  /** The seven evidence lists are kept as one list of entries. */
  datatype Capsule = Capsule(outcome: Text, entries: seq<Text>)

  datatype Preset = Preset(token: nat, wellFormed: bool)

  datatype AgentStatus = Dormant | Active | AgentBlocked | AgentSucceeded | AgentFailed | AgentCancelled {
    predicate Terminal() { AgentSucceeded? || AgentFailed? || AgentCancelled? }
  }

  datatype TaskStatus = Pending | Ready | Running | Blocked(blocker: TaskId) | Succeeded | Failed(reason: Text) | Cancelled(reason: Text) {
    predicate Terminal() { Succeeded? || Failed? || Cancelled? }

    predicate BlocksDependents() { Blocked? || Failed? || Cancelled? }
  }

  datatype Task = Task(spec: TaskSpec, owner: Option<AgentId>, status: TaskStatus, completion: Option<Capsule>)

  datatype Agent = Agent(
    parent: Option<AgentId>, task: TaskId, status: AgentStatus,
    budget: Budget, reserved: Budget, capabilities: set<Capability>, preset: Option<Preset>)

  datatype Recipient = ToAgent(agent: AgentId) | ToTeam

  datatype Message = Message(id: MessageId, from: AgentId, recipient: Recipient, body: Text)

  datatype Operation = Operation(transaction: TransactionId, acknowledgement: Option<TransactionId>)

  datatype TeamData = TeamData(
    root: Option<AgentId>, tasks: map<TaskId, Task>, agents: map<AgentId, Agent>,
    messages: seq<Message>, operations: map<OperationId, Operation>)

  const EMPTY_TEAM := TeamData(None, map[], map[], [], map[])

  datatype EventKind =
    | TaskCreated(task: TaskId, spec: TaskSpec)
    | AgentCreated(agent: AgentId, task: TaskId, parent: Option<AgentId>, budget: Budget,
                   capabilities: set<Capability>, preset: Option<Preset>)
    | TaskOwnerAssigned(task: TaskId, agent: AgentId)
    | DelegationGranted(grantor: AgentId, child: AgentId)
    | TaskReady(task: TaskId)
    | AgentActivated(agent: AgentId)
    | TaskStarted(task: TaskId)
    | MessageSent(message: MessageId, from: AgentId, recipient: Recipient, body: Text)
    | CapsuleSubmitted(task: TaskId, agent: AgentId, capsule: Capsule)
    | TaskDone(task: TaskId)
    | AgentDone(agent: AgentId)
    | TaskFailure(task: TaskId, reason: Text)
    | AgentFailure(agent: AgentId)
    | TaskCancellation(task: TaskId, reason: Text)
    | AgentCancellation(agent: AgentId)
    | TaskBlocked(task: TaskId, blockedBy: TaskId)
    | AgentBlockedBy(agent: AgentId, blockedBy: TaskId)
    | TaskRetryRequested(task: TaskId)
    | AgentRetryRequested(requester: AgentId, agent: AgentId)
    | OperationCommitted(operation: OperationId, transaction: TransactionId)
    | OperationAcknowledged(operation: OperationId, committed: TransactionId, acknowledgement: TransactionId)

  datatype TeamEvent = TeamEvent(sequence: U64, transaction: TransactionId, index: U32, count: U32, kind: EventKind)

  datatype TeamError =
    | InvalidActiveAgentLimit | RootAlreadyAdmitted | RootDependenciesNotAllowed
    | InvalidTaskTitle | TaskTitleTooLarge | InvalidScope | ScopeLabelTooLarge | TooManyScopeLabels
    | InvalidCapability | InvalidModelPreset | ToolNameTooLarge | TooManyCapabilities | InvalidBudget
    | TooManyDependencies | DuplicateDependency(task: TaskId) | DependencyCycle(dependency: TaskId)
    | UnknownTask(task: TaskId) | UnknownAgent(agent: AgentId) | InvalidAgentSession(agent: AgentId)
    | AgentNotActive(agent: AgentId) | ScopeExpansion(parent: AgentId) | CapabilityExpansion(parent: AgentId)
    | BudgetExpansion(parent: AgentId) | InvalidMessage | MessageTooLarge | InvalidCompletionCapsule
    | CompletionCapsuleTooLarge | TooManyCompletionCapsuleEntries | InvalidReason | ReasonTooLarge
    | OutstandingChildren(parent: AgentId) | InvalidTransition(agent: AgentId, status: AgentStatus)
    | UnknownOperation(operation: OperationId) | IdentifierExhausted | InvariantViolation

  type Check = Result<(), TeamError>

  function Require(condition: bool, error: TeamError): Check {
    if condition then Ok(()) else Err(error)
  }

  // ---------- text, budget and identifier checks ----------

  function ValidateScope(scope: set<Text>): Check {
    if |scope| > MAX_SCOPE_LABELS then Err(TooManyScopeLabels)
    else if exists tag <- scope :: tag.Blank() || !tag.Trimmed() then Err(InvalidScope)
    else Require(forall tag <- scope :: tag.bytes <= MAX_SCOPE_LABEL_BYTES, ScopeLabelTooLarge)
  }

  function ValidateCapabilities(capabilities: set<Capability>): Check {
    if |capabilities| > MAX_CAPABILITIES then Err(TooManyCapabilities)
    else if exists c <- capabilities :: c.Tool? && (c.name.Blank() || !c.name.Trimmed()) then Err(InvalidCapability)
    else Require(forall c <- capabilities :: c.Tool? ==> c.name.bytes <= MAX_TOOL_NAME_BYTES, ToolNameTooLarge)
  }

  function ValidateBudget(budget: Budget): Check {
    Require(budget.tokens != 0, InvalidBudget)
  }

  function ValidateReason(reason: Text): Check {
    if reason.Blank() then Err(InvalidReason) else Require(reason.bytes <= MAX_REASON_BYTES, ReasonTooLarge)
  }

  function EntryBytes(entries: seq<Text>): nat {
    if entries == [] then 0 else entries[0].bytes + EntryBytes(entries[1..])
  }

  function ValidateCapsule(capsule: Capsule): Check {
    if capsule.outcome.Blank() then Err(InvalidCompletionCapsule)
    else if capsule.outcome.bytes + EntryBytes(capsule.entries) > MAX_CAPSULE_BYTES then Err(CompletionCapsuleTooLarge)
    else Require(|capsule.entries| <= MAX_CAPSULE_ENTRIES, TooManyCompletionCapsuleEntries)
  }

  function ValidatePreset(preset: Option<Preset>): Check {
    Require(preset.Some? ==> preset.value.wellFormed, InvalidModelPreset)
  }

  predicate StoredIdentifier(value: U64) { value != 0 && value != U64_MAX }

  function ValidateIdentifier(value: U64): Check {
    Require(StoredIdentifier(value), InvariantViolation)
  }

  function FreshIdentifier(value: U64): Result<U64, TeamError> {
    if StoredIdentifier(value) then Ok(value) else Err(InvariantViolation)
  }

  /** One above the largest identifier in use. */
  function NextIdentifier(ids: set<U64>): Result<U64, TeamError> {
    if MaxId(ids) == U64_MAX then Err(IdentifierExhausted) else Ok(MaxId(ids) + 1)
  }

  function MessageIds(messages: seq<Message>): set<U64> {
    set m <- messages :: m.id
  }

  /** First neighbouring pair out of strictly ascending order, as the stored
      form and the sorted planned form both check it. */
  function ValidateOrder(dependencies: seq<TaskId>): Check {
    if |dependencies| < 2 then Ok(())
    else if dependencies[0] == dependencies[1] then Err(DuplicateDependency(dependencies[0]))
    else if dependencies[0] > dependencies[1] then Err(InvariantViolation)
    else ValidateOrder(dependencies[1..])
  }

  function ValidateStoredSpec(spec: TaskSpec): Check {
    if spec.title.Blank() || !spec.title.Trimmed() then Err(InvalidTaskTitle)
    else if spec.title.bytes > MAX_TASK_TITLE_BYTES then Err(TaskTitleTooLarge)
    else
      var _ :- ValidateScope(spec.scope);
      if |spec.dependencies| > MAX_TASK_DEPENDENCIES then Err(TooManyDependencies)
      else ValidateOrder(spec.dependencies)
  }

  // ---------- queries ----------

  function ActiveAgents(agents: map<AgentId, Agent>): set<AgentId> {
    set a <- agents.Keys | agents[a].status == Active
  }

  function ActiveCount(d: TeamData): nat {
    |ActiveAgents(d.agents)|
  }

  function AllSucceeded(tasks: map<TaskId, Task>, dependencies: seq<TaskId>): Result<bool, TeamError> {
    if dependencies == [] then Ok(true)
    else if dependencies[0] !in tasks then Err(UnknownTask(dependencies[0]))
    else
      var rest :- AllSucceeded(tasks, dependencies[1..]);
      Ok(tasks[dependencies[0]].status.Succeeded? && rest)
  }

  function DependenciesSucceeded(d: TeamData, task: TaskId): Result<bool, TeamError> {
    if task !in d.tasks then Err(UnknownTask(task)) else AllSucceeded(d.tasks, d.tasks[task].spec.dependencies)
  }

  function FirstBlocking(tasks: map<TaskId, Task>, dependencies: seq<TaskId>): Result<Option<TaskId>, TeamError> {
    if dependencies == [] then Ok(None)
    else if dependencies[0] !in tasks then Err(UnknownTask(dependencies[0]))
    else if tasks[dependencies[0]].status.BlocksDependents() then Ok(Some(dependencies[0]))
    else FirstBlocking(tasks, dependencies[1..])
  }

  function FirstFailedDependency(d: TeamData, task: TaskId): Result<Option<TaskId>, TeamError> {
    if task !in d.tasks then Err(UnknownTask(task)) else FirstBlocking(d.tasks, d.tasks[task].spec.dependencies)
  }

  /** Walks the parent chain; the walk can only revisit an agent when the parent
      links are cyclic, which `unvisited` cuts off for arbitrary data. */
  function AncestorDependency(agents: map<AgentId, Agent>, agent: AgentId, dependencies: seq<TaskId>, unvisited: set<AgentId>)
    : Result<Option<TaskId>, TeamError>
    decreases unvisited
  {
    if agent !in agents then Err(UnknownAgent(agent))
    else if agent !in unvisited then Err(InvariantViolation)
    else if agents[agent].task in dependencies then Ok(Some(agents[agent].task))
    else if agents[agent].parent.None? then Ok(None)
    else AncestorDependency(agents, agents[agent].parent.value, dependencies, unvisited - {agent})
  }

  // ---------- one event ----------

  function PutTask(d: TeamData, id: TaskId, task: Task): TeamData {
    d.(tasks := d.tasks[id := task])
  }

  function PutAgent(d: TeamData, id: AgentId, agent: Agent): TeamData {
    d.(agents := d.agents[id := agent])
  }

  function SetTaskStatus(d: TeamData, id: TaskId, status: TaskStatus): TeamData
    requires id in d.tasks
  {
    PutTask(d, id, d.tasks[id].(status := status))
  }

  function SetAgentStatus(d: TeamData, id: AgentId, status: AgentStatus): TeamData
    requires id in d.agents
  {
    PutAgent(d, id, d.agents[id].(status := status))
  }

  function FindTask(d: TeamData, id: TaskId): Result<Task, TeamError> {
    if id in d.tasks then Ok(d.tasks[id]) else Err(UnknownTask(id))
  }

  function FindAgent(d: TeamData, id: AgentId): Result<Agent, TeamError> {
    if id in d.agents then Ok(d.agents[id]) else Err(UnknownAgent(id))
  }

  type Applied = Result<TeamData, TeamError>

  function ApplyTaskCreated(d: TeamData, task: TaskId, spec: TaskSpec): Applied {
    var _ :- ValidateIdentifier(task);
    var expected :- NextIdentifier(d.tasks.Keys);
    var _ :- Require(task == expected, InvariantViolation);
    var _ :- Require(task !in d.tasks, InvariantViolation);
    var _ :- ValidateStoredSpec(spec);
    var _ :- Require(forall dep <- spec.dependencies :: dep in d.tasks, InvariantViolation);
    Ok(PutTask(d, task, Task(spec, None, Pending, None)))
  }

  function CheckParent(d: TeamData, task: Task, parent: Option<AgentId>, capabilities: set<Capability>): Check {
    match parent
    case None =>
      var _ :- Require(d.root.None?, RootAlreadyAdmitted);
      Require(task.spec.dependencies == [], RootDependenciesNotAllowed)
    case Some(p) =>
      var parentAgent :- FindAgent(d, p);
      var _ :- Require(parentAgent.status == Active, InvariantViolation);
      var parentTask :- FindTask(d, parentAgent.task);
      var _ :- Require(task.spec.scope <= parentTask.spec.scope, ScopeExpansion(p));
      var _ :- Require(capabilities <= parentAgent.capabilities, CapabilityExpansion(p));
      var cycle :- AncestorDependency(d.agents, p, task.spec.dependencies, d.agents.Keys);
      if cycle.Some? then Err(DependencyCycle(cycle.value)) else Ok(())
  }

  function ApplyAgentCreated(d: TeamData, agent: AgentId, task: TaskId, parent: Option<AgentId>, budget: Budget,
                             capabilities: set<Capability>, preset: Option<Preset>): Applied
  {
    var _ :- ValidateIdentifier(agent);
    var expected :- NextIdentifier(d.agents.Keys);
    var _ :- Require(agent == expected, InvariantViolation);
    var _ :- Require(agent !in d.agents, InvariantViolation);
    var record :- FindTask(d, task);
    var _ :- Require(record.owner.None?, InvariantViolation);
    var _ :- ValidateBudget(budget);
    var _ :- ValidateCapabilities(capabilities);
    var _ :- ValidatePreset(preset);
    var _ :- CheckParent(d, record, parent, capabilities);
    var rooted := if parent.None? then d.(root := Some(agent)) else d;
    Ok(PutAgent(rooted, agent, Agent(parent, task, Dormant, budget, NO_BUDGET, capabilities, preset)))
  }

  function ApplyTaskOwnerAssigned(d: TeamData, task: TaskId, agent: AgentId): Applied {
    var owner :- FindAgent(d, agent);
    var _ :- Require(owner.task == task, InvariantViolation);
    var record :- FindTask(d, task);
    var _ :- Require(record.owner.None?, InvariantViolation);
    Ok(PutTask(d, task, record.(owner := Some(agent))))
  }

  function ApplyDelegationGranted(d: TeamData, parent: AgentId, child: AgentId): Applied {
    var childRecord :- FindAgent(d, child);
    var _ :- Require(childRecord.parent == Some(parent), InvariantViolation);
    var parentRecord :- FindAgent(d, parent);
    var _ :- Require(parentRecord.status == Active, AgentNotActive(parent));
    match CheckedAdd(parentRecord.reserved, childRecord.budget)
    case None => Err(BudgetExpansion(parent))
    case Some(reserved) =>
      if parentRecord.budget.Contains(reserved) then Ok(PutAgent(d, parent, parentRecord.(reserved := reserved)))
      else Err(BudgetExpansion(parent))
  }

  function ApplyTaskReady(d: TeamData, task: TaskId): Applied {
    var ready :- DependenciesSucceeded(d, task);
    var record :- FindTask(d, task);
    var _ :- Require(record.status.Pending? && ready, InvariantViolation);
    Ok(SetTaskStatus(d, task, Ready))
  }

  function ApplyAgentActivated(d: TeamData, agent: AgentId, limit: nat): Applied {
    var _ :- Require(ActiveCount(d) < limit, InvariantViolation);
    var record :- FindAgent(d, agent);
    var _ :- Require(record.status == Dormant, InvariantViolation);
    var task :- FindTask(d, record.task);
    var _ :- Require(task.status.Ready? && task.owner == Some(agent), InvariantViolation);
    Ok(SetAgentStatus(d, agent, Active))
  }

  function ApplyTaskStarted(d: TeamData, task: TaskId): Applied {
    var record :- FindTask(d, task);
    var _ :- Require(record.status.Ready?, InvariantViolation);
    var _ :- Require(record.owner.Some?, InvariantViolation);
    var owner :- FindAgent(d, record.owner.value);
    var _ :- Require(owner.status == Active, InvariantViolation);
    Ok(SetTaskStatus(d, task, Running))
  }

  function ApplyMessageSent(d: TeamData, message: MessageId, from: AgentId, recipient: Recipient, body: Text): Applied {
    var _ :- ValidateIdentifier(message);
    var expected :- NextIdentifier(MessageIds(d.messages));
    var _ :- Require(message == expected, InvariantViolation);
    var sender :- FindAgent(d, from);
    var _ :- Require(sender.status == Active, AgentNotActive(from));
    var _ :- Require(!body.Blank() && body.bytes <= MAX_MESSAGE_BYTES, InvalidMessage);
    var _ :- Require(message !in MessageIds(d.messages), InvariantViolation);
    var _ :- match recipient
             case ToTeam => Check.Ok(())
             case ToAgent(target) =>
               var record :- FindAgent(d, target);
               Require(!record.status.Terminal(), InvariantViolation);
    Ok(d.(messages := d.messages + [Message(message, from, recipient, body)]))
  }

  function ApplyCapsuleSubmitted(d: TeamData, task: TaskId, agent: AgentId, capsule: Capsule): Applied {
    var _ :- ValidateCapsule(capsule);
    var record :- FindTask(d, task);
    var _ :- Require(record.status.Running? && record.owner == Some(agent) && record.completion.None?, InvariantViolation);
    var owner :- FindAgent(d, agent);
    var _ :- Require(owner.status == Active, AgentNotActive(agent));
    Ok(PutTask(d, task, record.(completion := Some(capsule))))
  }

  function ApplyTaskDone(d: TeamData, task: TaskId): Applied {
    var record :- FindTask(d, task);
    var _ :- Require(record.status.Running? && record.completion.Some?, InvariantViolation);
    Ok(SetTaskStatus(d, task, Succeeded))
  }

  function ApplyAgentDone(d: TeamData, agent: AgentId): Applied {
    var record :- FindAgent(d, agent);
    var _ :- Require(record.status == Active, AgentNotActive(agent));
    var task :- FindTask(d, record.task);
    var _ :- Require(task.status.Succeeded?, InvariantViolation);
    Ok(SetAgentStatus(d, agent, AgentSucceeded))
  }

  function ApplyTaskFailure(d: TeamData, task: TaskId, reason: Text): Applied {
    var _ :- ValidateReason(reason);
    var record :- FindTask(d, task);
    var _ :- Require(record.status.Running?, InvariantViolation);
    Ok(SetTaskStatus(d, task, Failed(reason)))
  }

  function ApplyAgentFailure(d: TeamData, agent: AgentId): Applied {
    var record :- FindAgent(d, agent);
    var _ :- Require(record.status == Active, AgentNotActive(agent));
    var task :- FindTask(d, record.task);
    var _ :- Require(task.status.Failed?, InvariantViolation);
    Ok(SetAgentStatus(d, agent, AgentFailed))
  }

  function ApplyTaskCancellation(d: TeamData, task: TaskId, reason: Text): Applied {
    var _ :- ValidateReason(reason);
    var record :- FindTask(d, task);
    var _ :- Require(!record.status.Terminal(), InvariantViolation);
    Ok(SetTaskStatus(d, task, Cancelled(reason)))
  }

  function ApplyAgentCancellation(d: TeamData, agent: AgentId): Applied {
    var record :- FindAgent(d, agent);
    var _ :- Require(!record.status.Terminal(), InvariantViolation);
    var task :- FindTask(d, record.task);
    var _ :- Require(task.status.Cancelled?, InvariantViolation);
    Ok(SetAgentStatus(d, agent, AgentCancelled))
  }

  function ApplyTaskBlocked(d: TeamData, task: TaskId, blockedBy: TaskId): Applied {
    var blocker :- FindTask(d, blockedBy);
    var _ :- Require(blocker.status.BlocksDependents(), InvariantViolation);
    var record :- FindTask(d, task);
    var _ :- Require((record.status.Pending? || record.status.Ready?) && blockedBy in record.spec.dependencies, InvariantViolation);
    Ok(SetTaskStatus(d, task, Blocked(blockedBy)))
  }

  function ApplyAgentBlocked(d: TeamData, agent: AgentId, blockedBy: TaskId): Applied {
    var record :- FindAgent(d, agent);
    var _ :- Require(record.status == Dormant, InvariantViolation);
    var task :- FindTask(d, record.task);
    var _ :- Require(task.status == Blocked(blockedBy), InvariantViolation);
    Ok(SetAgentStatus(d, agent, AgentBlocked))
  }

  function ApplyTaskRetry(d: TeamData, task: TaskId): Applied {
    var record :- FindTask(d, task);
    var _ :- Require(record.status.BlocksDependents(), InvariantViolation);
    Ok(PutTask(d, task, record.(status := Pending, completion := None)))
  }

  function ApplyAgentRetry(d: TeamData, requester: AgentId, agent: AgentId): Applied {
    var requesterRecord :- FindAgent(d, requester);
    var _ :- Require(requesterRecord.status == Active, AgentNotActive(requester));
    var record :- FindAgent(d, agent);
    var _ :- Require(record.parent == Some(requester)
                     && (record.status.AgentBlocked? || record.status.AgentFailed? || record.status.AgentCancelled?), InvariantViolation);
    Ok(SetAgentStatus(d, agent, Dormant))
  }

  function ApplyOperationCommitted(d: TeamData, operation: OperationId, transaction: TransactionId): Applied {
    var _ :- ValidateIdentifier(operation);
    var _ :- ValidateIdentifier(transaction);
    var expected :- NextIdentifier(d.operations.Keys);
    var _ :- Require(operation == expected, InvariantViolation);
    var _ :- Require(operation !in d.operations, InvariantViolation);
    Ok(d.(operations := d.operations[operation := Operation(transaction, None)]))
  }

  function ApplyOperationAcknowledged(d: TeamData, operation: OperationId, committed: TransactionId, acknowledgement: TransactionId): Applied {
    var _ :- ValidateIdentifier(operation);
    var _ :- ValidateIdentifier(committed);
    var _ :- ValidateIdentifier(acknowledgement);
    var _ :- Require(operation in d.operations, UnknownOperation(operation));
    var record := d.operations[operation];
    var _ :- Require(record.transaction == committed, InvariantViolation);
    var _ :- Require(record.acknowledgement.None?, InvariantViolation);
    Ok(d.(operations := d.operations[operation := record.(acknowledgement := Some(acknowledgement))]))
  }

  /** The effect of one event, or the reason it cannot be replayed. */
  function Apply(d: TeamData, event: EventKind, limit: nat): Applied {
    match event
    case TaskCreated(task, spec) => ApplyTaskCreated(d, task, spec)
    case AgentCreated(agent, task, parent, budget, capabilities, preset) =>
      ApplyAgentCreated(d, agent, task, parent, budget, capabilities, preset)
    case TaskOwnerAssigned(task, agent) => ApplyTaskOwnerAssigned(d, task, agent)
    case DelegationGranted(grantor, child) => ApplyDelegationGranted(d, grantor, child)
    case TaskReady(task) => ApplyTaskReady(d, task)
    case AgentActivated(agent) => ApplyAgentActivated(d, agent, limit)
    case TaskStarted(task) => ApplyTaskStarted(d, task)
    case MessageSent(message, from, recipient, body) => ApplyMessageSent(d, message, from, recipient, body)
    case CapsuleSubmitted(task, agent, capsule) => ApplyCapsuleSubmitted(d, task, agent, capsule)
    case TaskDone(task) => ApplyTaskDone(d, task)
    case AgentDone(agent) => ApplyAgentDone(d, agent)
    case TaskFailure(task, reason) => ApplyTaskFailure(d, task, reason)
    case AgentFailure(agent) => ApplyAgentFailure(d, agent)
    case TaskCancellation(task, reason) => ApplyTaskCancellation(d, task, reason)
    case AgentCancellation(agent) => ApplyAgentCancellation(d, agent)
    case TaskBlocked(task, blockedBy) => ApplyTaskBlocked(d, task, blockedBy)
    case AgentBlockedBy(agent, blockedBy) => ApplyAgentBlocked(d, agent, blockedBy)
    case TaskRetryRequested(task) => ApplyTaskRetry(d, task)
    case AgentRetryRequested(requester, agent) => ApplyAgentRetry(d, requester, agent)
    case OperationCommitted(operation, transaction) => ApplyOperationCommitted(d, operation, transaction)
    case OperationAcknowledged(operation, committed, acknowledgement) =>
      ApplyOperationAcknowledged(d, operation, committed, acknowledgement)
  }

  function ApplyAll(d: TeamData, events: seq<EventKind>, limit: nat): Applied
    decreases |events|
  {
    if events == [] then Ok(d)
    else
      var next :- Apply(d, events[0], limit);
      ApplyAll(next, events[1..], limit)
  }

  // ---------- the scheduler pass ----------

  datatype Progress = Progress(data: TeamData, events: seq<EventKind>)

  type Scheduled = Result<Progress, TeamError>

  function ApplyPlanned(p: Progress, event: EventKind, limit: nat): Scheduled {
    var next :- Apply(p.data, event, limit);
    Ok(Progress(next, p.events + [event]))
  }

  /** Pending tasks with identifier at most `upTo`, in ascending order. */
  function PendingTasks(tasks: map<TaskId, Task>, upTo: nat): seq<TaskId> {
    if upTo == 0 then []
    else
      PendingTasks(tasks, upTo - 1)
      + if upTo in tasks && tasks[upTo].status.Pending? then [upTo as TaskId] else []
  }

  function ResolvePending(p: Progress, task: TaskId, limit: nat): Scheduled {
    var blocking :- FirstFailedDependency(p.data, task);
    if blocking.Some? then
      var blocked :- ApplyPlanned(p, TaskBlocked(task, blocking.value), limit);
      var owner :- OwnerOf(blocked.data, task);
      ApplyPlanned(blocked, AgentBlockedBy(owner, blocking.value), limit)
    else
      var ready :- DependenciesSucceeded(p.data, task);
      if ready then ApplyPlanned(p, TaskReady(task), limit) else Ok(p)
  }

  function OwnerOf(d: TeamData, task: TaskId): Result<AgentId, TeamError> {
    if task in d.tasks && d.tasks[task].owner.Some? then Ok(d.tasks[task].owner.value) else Err(InvariantViolation)
  }

  function ResolveAll(p: Progress, pending: seq<TaskId>, limit: nat): Scheduled
    decreases |pending|
  {
    if pending == [] then Ok(p)
    else
      var next :- ResolvePending(p, pending[0], limit);
      ResolveAll(next, pending[1..], limit)
  }

  function ReadyTasks(tasks: map<TaskId, Task>): set<TaskId> {
    set t <- tasks.Keys | tasks[t].status.Ready?
  }

  function Least(ids: set<TaskId>): (m: TaskId)
    requires ids != {}
    ensures m in ids && forall i <- ids :: m <= i
  {
    LeastExists(ids);
    var m :| m in ids && forall i <- ids :: m <= i;
    m
  }

  function StartOne(p: Progress, limit: nat): Scheduled
    requires ReadyTasks(p.data.tasks) != {}
  {
    var task := Least(ReadyTasks(p.data.tasks));
    var owner :- OwnerOf(p.data, task);
    var activated :- ApplyPlanned(p, AgentActivated(owner), limit);
    ApplyPlanned(activated, TaskStarted(task), limit)
  }

  lemma StartOneConsumesReady(p: Progress, limit: nat)
    requires ReadyTasks(p.data.tasks) != {} && StartOne(p, limit).Ok?
    ensures ReadyTasks(StartOne(p, limit).value.data.tasks) < ReadyTasks(p.data.tasks)
  {
    var task := Least(ReadyTasks(p.data.tasks));
    var after := StartOne(p, limit).value.data;
    assert task !in ReadyTasks(after.tasks) && task in ReadyTasks(p.data.tasks);
  }

  function Activate(p: Progress, limit: nat): Scheduled
    decreases ReadyTasks(p.data.tasks)
  {
    if ActiveCount(p.data) >= limit || ReadyTasks(p.data.tasks) == {} then Ok(p)
    else
      var next :- StartOne(p, limit);
      StartOneConsumesReady(p, limit);
      Activate(next, limit)
  }

  /** Settles every pending task once in ascending order, then fills free Active slots. */
  function Reconcile(p: Progress, limit: nat): Scheduled {
    var settled :- ResolveAll(p, PendingTasks(p.data.tasks, MaxId(p.data.tasks.Keys)), limit);
    Activate(settled, limit)
  }

  // ---------- checks on a candidate state ----------

  predicate PairedStatus(task: TaskStatus, agent: AgentStatus) {
    match task
    case Pending => agent == Dormant
    case Ready => agent == Dormant
    case Running => agent == Active
    case Blocked(_) => agent == AgentBlocked
    case Succeeded => agent == AgentSucceeded
    case Failed(_) => agent == AgentFailed
    case Cancelled(_) => agent == AgentCancelled
  }

  predicate TaskOwned(d: TeamData, t: TaskId)
    requires t in d.tasks
  {
    && d.tasks[t].owner.Some?
    && d.tasks[t].owner.value in d.agents
    && d.agents[d.tasks[t].owner.value].task == t
    && PairedStatus(d.tasks[t].status, d.agents[d.tasks[t].owner.value].status)
  }

  predicate AgentOwns(d: TeamData, a: AgentId)
    requires a in d.agents
  {
    d.agents[a].task in d.tasks && d.tasks[d.agents[a].task].owner == Some(a)
  }

  predicate Owned(d: TeamData) {
    (forall t <- d.tasks.Keys :: TaskOwned(d, t)) && (forall a <- d.agents.Keys :: AgentOwns(d, a))
  }

  /** One axis of a budget, so that sums are defined once for both axes. */
  type Axis = Budget -> nat

  const TOKENS: Axis := (b: Budget) => b.tokens
  const CALLS: Axis := (b: Budget) => b.calls

  /** Budget units handed to the children of `parent` among agents 1..upTo. */
  function ChildSum(agents: map<AgentId, Agent>, parent: AgentId, upTo: nat, axis: Axis): nat {
    if upTo == 0 then 0
    else
      ChildSum(agents, parent, upTo - 1, axis)
      + if upTo in agents && agents[upTo].parent == Some(parent) then axis(agents[upTo].budget) else 0
  }

  predicate BudgetsBalanced(agents: map<AgentId, Agent>, a: AgentId)
    requires a in agents
  {
    && agents[a].budget.Contains(agents[a].reserved)
    && agents[a].reserved.tokens == ChildSum(agents, a, MaxId(agents.Keys), TOKENS)
    && agents[a].reserved.calls == ChildSum(agents, a, MaxId(agents.Keys), CALLS)
  }

  predicate HasLiveChild(agents: map<AgentId, Agent>, parent: AgentId) {
    exists c <- agents.Keys :: agents[c].parent == Some(parent) && !agents[c].status.Terminal()
  }

  predicate AgentSound(agents: map<AgentId, Agent>, a: AgentId)
    requires a in agents
  {
    && (agents[a].parent.Some? ==> agents[a].parent.value in agents)
    && BudgetsBalanced(agents, a)
    && (agents[a].status.Terminal() ==> !HasLiveChild(agents, a))
  }

  predicate OperationsSound(d: TeamData) {
    && (forall o: nat | 1 <= o <= |d.operations| :: o in d.operations)
    && (forall o <- d.operations.Keys :: d.operations[o].acknowledgement.Some?
          ==> d.operations[o].transaction < d.operations[o].acknowledgement.value)
  }

  /** Everything `validate` demands of a candidate. */
  predicate Validated(d: TeamData, limit: nat) {
    && ActiveCount(d) <= limit
    && (d.root.Some? ==> d.root.value in d.agents)
    && OperationsSound(d)
    && Owned(d)
    && (forall a <- d.agents.Keys :: AgentSound(d.agents, a))
  }

  predicate Settled(d: TeamData, t: TaskId)
    requires t in d.tasks
  {
    d.tasks[t].status.Pending? ==>
      FirstFailedDependency(d, t) == Ok(None) && DependenciesSucceeded(d, t) == Ok(false)
  }

  /** Everything `validate_quiescent` demands of a candidate. */
  predicate Quiescent(d: TeamData, limit: nat) {
    && (forall t <- d.tasks.Keys :: Settled(d, t))
    && (ActiveCount(d) < limit ==> ReadyTasks(d.tasks) == {})
  }
}
