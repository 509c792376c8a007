/**
 Commands, planning, preparing and publishing transactions, and rebuilding a
 runtime from its event log, as functions on values.
 */
module TeamPlan {
  import opened Prelude
  import opened TeamModel
  import Sorting

  datatype Session = Session(agent: AgentId, authority: nat)

  datatype Command =
    | AdmitRoot(task: TaskSpec, budget: Budget, capabilities: set<Capability>)
    | Delegate(parent: Session, task: TaskSpec, budget: Budget, capabilities: set<Capability>, preset: Option<Preset>)
    | SendMessage(from: Session, recipient: Recipient, body: Text)
    | Complete(agent: Session, capsule: Capsule)
    | Fail(agent: Session, reason: Text)
    | Cancel(agent: Session, reason: Text)
    | Retry(requester: Session, target: AgentId)

  /** A live runtime: its limit, process-local authority, folded state, log and next identifiers. */
  datatype Team = Team(
    limit: nat, authority: nat, data: TeamData, log: seq<TeamEvent>,
    nextTask: U64, nextAgent: U64, nextMessage: U64, nextTransaction: U64)

  function NewTeam(limit: nat, authority: nat): Team {
    Team(limit, authority, EMPTY_TEAM, [], 1, 1, 1, 1)
  }

  type Plan = Result<seq<EventKind>, TeamError>

  // ---------- planning ----------

  function ByNumber(): TaskId -> int {
    (id: TaskId) => id
  }

  function Sort(ids: seq<TaskId>): seq<TaskId> {
    Sorting.Sort(ByNumber(), ids)
  }

  function DuplicateIn(sorted: seq<TaskId>): Option<TaskId> {
    if |sorted| < 2 then None
    else if sorted[0] == sorted[1] then Some(sorted[0])
    else DuplicateIn(sorted[1..])
  }

  function FirstUnknown(d: TeamData, ids: seq<TaskId>): Option<TaskId> {
    if ids == [] then None else if ids[0] !in d.tasks then Some(ids[0]) else FirstUnknown(d, ids[1..])
  }

  /** Normalizes a task for storage: trimmed title, sorted dependencies. */
  function ValidateTaskSpec(d: TeamData, spec: TaskSpec): Result<TaskSpec, TeamError> {
    var title := Trim(spec.title);
    if title.Blank() then Err(InvalidTaskTitle)
    else if title.bytes > MAX_TASK_TITLE_BYTES then Err(TaskTitleTooLarge)
    else
      var _ :- ValidateScope(spec.scope);
      if |spec.dependencies| > MAX_TASK_DEPENDENCIES then Err(TooManyDependencies)
      else
        var sorted := Sort(spec.dependencies);
        if DuplicateIn(sorted).Some? then Err(DuplicateDependency(DuplicateIn(sorted).value))
        else if FirstUnknown(d, sorted).Some? then Err(UnknownTask(FirstUnknown(d, sorted).value))
        else Ok(TaskSpec(title, spec.scope, sorted))
  }

  function Authenticate(t: Team, session: Session): Result<AgentId, TeamError> {
    if session.authority != t.authority then Err(InvalidAgentSession(session.agent))
    else if session.agent !in t.data.agents then Err(UnknownAgent(session.agent))
    else Ok(session.agent)
  }

  function RequireActive(d: TeamData, agent: AgentId): Result<Agent, TeamError> {
    var record :- FindAgent(d, agent);
    if record.status == Active then Ok(record) else Err(AgentNotActive(agent))
  }

  function RequireNoLiveChild(d: TeamData, agent: AgentId): Check {
    Require(!HasLiveChild(d.agents, agent), OutstandingChildren(agent))
  }

  function PlanRoot(t: Team, task: TaskSpec, budget: Budget, capabilities: set<Capability>): Plan {
    var _ :- Require(t.data.root.None?, RootAlreadyAdmitted);
    var spec :- ValidateTaskSpec(t.data, task);
    var _ :- Require(spec.dependencies == [], RootDependenciesNotAllowed);
    var _ :- ValidateBudget(budget);
    var _ :- ValidateCapabilities(capabilities);
    var taskId :- FreshIdentifier(t.nextTask);
    var agentId :- FreshIdentifier(t.nextAgent);
    Ok([TaskCreated(taskId, spec),
        AgentCreated(agentId, taskId, None, budget, capabilities, None),
        TaskOwnerAssigned(taskId, agentId)])
  }

  function PlanDelegation(t: Team, parent: AgentId, task: TaskSpec, budget: Budget,
                          capabilities: set<Capability>, preset: Option<Preset>): Plan
  {
    var parentAgent :- RequireActive(t.data, parent);
    var parentTask :- FindTask(t.data, parentAgent.task);
    var spec :- ValidateTaskSpec(t.data, task);
    var cycle :- AncestorDependency(t.data.agents, parent, spec.dependencies, t.data.agents.Keys);
    var _ :- Require(cycle.None?, if cycle.Some? then DependencyCycle(cycle.value) else InvariantViolation);
    var _ :- Require(spec.scope <= parentTask.spec.scope, ScopeExpansion(parent));
    var _ :- ValidateCapabilities(capabilities);
    var _ :- ValidatePreset(preset);
    var _ :- Require(capabilities <= parentAgent.capabilities, CapabilityExpansion(parent));
    var _ :- ValidateBudget(budget);
    var _ :- Require(parentAgent.budget.Contains(parentAgent.reserved), InvariantViolation);
    var _ :- Require(budget.tokens <= parentAgent.budget.tokens - parentAgent.reserved.tokens
                     && budget.calls <= parentAgent.budget.calls - parentAgent.reserved.calls, BudgetExpansion(parent));
    var taskId :- FreshIdentifier(t.nextTask);
    var agentId :- FreshIdentifier(t.nextAgent);
    Ok([TaskCreated(taskId, spec),
        AgentCreated(agentId, taskId, Some(parent), budget, capabilities, preset),
        TaskOwnerAssigned(taskId, agentId),
        DelegationGranted(parent, agentId)])
  }

  function PlanMessage(t: Team, from: AgentId, recipient: Recipient, body: Text): Plan {
    var _ :- RequireActive(t.data, from);
    var _ :- Require(!body.Blank(), InvalidMessage);
    var _ :- Require(body.bytes <= MAX_MESSAGE_BYTES, MessageTooLarge);
    var _ :- match recipient
             case ToTeam => Check.Ok(())
             case ToAgent(target) =>
               var record :- FindAgent(t.data, target);
               Require(!record.status.Terminal(), InvalidTransition(target, record.status));
    var message :- FreshIdentifier(t.nextMessage);
    Ok([MessageSent(message, from, recipient, body)])
  }

  function PlanCompletion(t: Team, agent: AgentId, capsule: Capsule): Plan {
    var record :- RequireActive(t.data, agent);
    var _ :- RequireNoLiveChild(t.data, agent);
    var _ :- ValidateCapsule(capsule);
    Ok([CapsuleSubmitted(record.task, agent, capsule), TaskDone(record.task), AgentDone(agent)])
  }

  function PlanFailure(t: Team, agent: AgentId, reason: Text): Plan {
    var record :- RequireActive(t.data, agent);
    var _ :- RequireNoLiveChild(t.data, agent);
    var _ :- ValidateReason(reason);
    Ok([TaskFailure(record.task, reason), AgentFailure(agent)])
  }

  function PlanCancellation(t: Team, agent: AgentId, reason: Text): Plan {
    var record :- FindAgent(t.data, agent);
    var _ :- Require(!record.status.Terminal(), InvalidTransition(agent, record.status));
    var _ :- RequireNoLiveChild(t.data, agent);
    var _ :- ValidateReason(reason);
    Ok([TaskCancellation(record.task, reason), AgentCancellation(agent)])
  }

  function PlanRetry(t: Team, requester: AgentId, agent: AgentId): Plan {
    var _ :- RequireActive(t.data, requester);
    var target :- FindAgent(t.data, agent);
    var _ :- Require(target.parent == Some(requester), InvalidTransition(agent, target.status));
    var _ :- Require(target.status.AgentBlocked? || target.status.AgentFailed? || target.status.AgentCancelled?,
                     InvalidTransition(agent, target.status));
    var blocking :- FirstFailedDependency(t.data, target.task);
    var _ :- Require(blocking.None?, InvalidTransition(agent, target.status));
    var _ :- RequireNoLiveChild(t.data, agent);
    Ok([TaskRetryRequested(target.task), AgentRetryRequested(requester, agent)])
  }

  function PlanCommand(t: Team, command: Command): Plan {
    match command
    case AdmitRoot(task, budget, capabilities) => PlanRoot(t, task, budget, capabilities)
    case Delegate(session, task, budget, capabilities, preset) =>
      var parent :- Authenticate(t, session);
      PlanDelegation(t, parent, task, budget, capabilities, preset)
    case SendMessage(session, recipient, body) =>
      var from :- Authenticate(t, session);
      PlanMessage(t, from, recipient, body)
    case Complete(session, capsule) =>
      var agent :- Authenticate(t, session);
      PlanCompletion(t, agent, capsule)
    case Fail(session, reason) =>
      var agent :- Authenticate(t, session);
      PlanFailure(t, agent, reason)
    case Cancel(session, reason) =>
      var agent :- Authenticate(t, session);
      PlanCancellation(t, agent, reason)
    case Retry(session, target) =>
      var requester :- Authenticate(t, session);
      PlanRetry(t, requester, target)
  }

  // ---------- framing ----------

  /** Events that say which command a transaction carried. */
  predicate CommandMarker(kind: EventKind) {
    kind.AgentCreated? || kind.MessageSent? || kind.CapsuleSubmitted? || kind.TaskFailure?
    || kind.TaskCancellation? || kind.AgentRetryRequested?
  }

  function CountKinds(events: seq<TeamEvent>, p: EventKind -> bool): nat {
    if events == [] then 0 else (if p(events[0].kind) then 1 else 0) + CountKinds(events[1..], p)
  }

  const IsCommitMarker: EventKind -> bool := (kind: EventKind) => kind.OperationCommitted?
  const IsAckMarker: EventKind -> bool := (kind: EventKind) => kind.OperationAcknowledged?
  const IsCommandMarker: EventKind -> bool := (kind: EventKind) => CommandMarker(kind)

  predicate CommitMarkerFits(events: seq<TeamEvent>) {
    forall i | 0 <= i < |events| && events[i].kind.OperationCommitted? ::
      events[i].index == 0 && events[i].kind.transaction == events[i].transaction
  }

  predicate AckMarkerFits(events: seq<TeamEvent>) {
    forall i | 0 <= i < |events| && events[i].kind.OperationAcknowledged? ::
      events[i].kind.acknowledgement == events[i].transaction
      && events[i].kind.committed < events[i].kind.acknowledgement
  }

  /** Journal framing of operations inside one transaction. */
  predicate OperationFraming(events: seq<TeamEvent>) {
    if CountKinds(events, IsCommitMarker) > 0 then
      CountKinds(events, IsCommitMarker) == 1 && CountKinds(events, IsAckMarker) == 0
      && CommitMarkerFits(events) && CountKinds(events, IsCommandMarker) == 1
    else if CountKinds(events, IsAckMarker) > 0 then
      |events| == 1 && AckMarkerFits(events)
    else true
  }

  function Frame(kinds: seq<EventKind>, first: nat, transaction: TransactionId): (events: seq<TeamEvent>)
    requires |kinds| <= U32_MAX && first + |kinds| <= U64_MAX + 1
    ensures |events| == |kinds|
  {
    seq(|kinds|, i requires 0 <= i < |kinds| => TeamEvent(first + i, transaction, i, |kinds|, kinds[i]))
  }

  datatype Prepared = Prepared(
    candidate: TeamData, events: seq<TeamEvent>, nextTransaction: U64, nextTask: U64, nextAgent: U64, nextMessage: U64)

  /** Applies the planned events to a copy, schedules, checks and frames the result. */
  function PrepareEvents(t: Team, transaction: TransactionId, base: seq<EventKind>): Result<Prepared, TeamError> {
    var planned :- ApplyAll(t.data, base, t.limit);
    var scheduled :- Reconcile(Progress(planned, base), t.limit);
    var _ :- Require(Validated(scheduled.data, t.limit), InvariantViolation);
    var _ :- Require(Quiescent(scheduled.data, t.limit), InvariantViolation);
    var kinds := scheduled.events;
    var _ :- Require(|kinds| <= U32_MAX, IdentifierExhausted);
    var _ :- Require(|t.log| + 1 <= U64_MAX && |t.log| + (if kinds == [] then 1 else |kinds|) <= U64_MAX, IdentifierExhausted);
    var events := Frame(kinds, |t.log| + 1, transaction);
    var _ :- Require(OperationFraming(events), InvariantViolation);
    var _ :- Require(t.nextTransaction < U64_MAX, IdentifierExhausted);
    var nextTask :- NextIdentifier(scheduled.data.tasks.Keys);
    var nextAgent :- NextIdentifier(scheduled.data.agents.Keys);
    var nextMessage :- NextIdentifier(MessageIds(scheduled.data.messages));
    Ok(Prepared(scheduled.data, events, t.nextTransaction + 1, nextTask, nextAgent, nextMessage))
  }

  function Publish(t: Team, p: Prepared): Team {
    t.(data := p.candidate, log := t.log + p.events, nextTask := p.nextTask, nextAgent := p.nextAgent,
       nextMessage := p.nextMessage, nextTransaction := p.nextTransaction)
  }

  /** What a driver of the runtime can ask for. */
  datatype Request =
    | Dispatch(command: Command)
    | DispatchOperation(operation: OperationId, command: Command)
    | Acknowledge(operation: OperationId)

  /** The events a request contributes before scheduling. */
  function BaseEvents(t: Team, request: Request): Plan {
    match request
    case Dispatch(command) => PlanCommand(t, command)
    case DispatchOperation(operation, command) =>
      var transaction :- FreshIdentifier(t.nextTransaction);
      var events :- PlanCommand(t, command);
      Ok([OperationCommitted(operation, transaction)] + events)
    case Acknowledge(operation) =>
      var _ :- Require(operation in t.data.operations, UnknownOperation(operation));
      var transaction :- FreshIdentifier(t.nextTransaction);
      Ok([OperationAcknowledged(operation, t.data.operations[operation].transaction, transaction)])
  }

  function Perform(t: Team, request: Request): Result<Team, TeamError> {
    var base :- BaseEvents(t, request);
    var transaction :- FreshIdentifier(t.nextTransaction);
    var prepared :- PrepareEvents(t, transaction, base);
    Ok(Publish(t, prepared))
  }

  /** A whole run: refused requests leave the runtime as it was. */
  function Run(t: Team, requests: seq<Request>): Team
    decreases |requests|
  {
    if requests == [] then t
    else Run(match Perform(t, requests[0]) case Ok(next) => next case Err(_) => t, requests[1..])
  }

  // ---------- recovery ----------

  datatype RecoveryError =
    | InvalidLimit
    | SequenceMismatch(expected: nat, actual: nat)
    | TransactionMismatch(expectedTransaction: nat, actualTransaction: nat)
    | InvalidTransactionPosition(transaction: TransactionId)
    | InvalidTransactionSize(transaction: TransactionId)
    | IncompleteTransaction(transaction: TransactionId)
    | InvalidEvent(sequence: nat, source: TeamError)

  /** Where a replay stands between two transactions. */
  datatype Replay = Replay(data: TeamData, cursor: nat, sequence: U64, transaction: U64, activeLimit: nat)

  const REPLAY_START := Replay(EMPTY_TEAM, 0, 1, 1, 1)

  type Replayed = Result<Replay, RecoveryError>

  /** Replays the events of one frame in order, checking each one's position. */
  function ReplayFrame(d: TeamData, frame: seq<TeamEvent>, offset: nat, r: Replay, limit: nat): Result<TeamData, RecoveryError>
    requires offset <= |frame|
    decreases |frame| - offset
  {
    if offset == |frame| then Ok(d)
    else
      var event := frame[offset];
      if r.sequence + offset > U64_MAX then Err(InvalidEvent(event.sequence, IdentifierExhausted))
      else if event.sequence != r.sequence + offset then Err(SequenceMismatch(r.sequence + offset, event.sequence))
      else if event.transaction != frame[0].transaction then
        Err(TransactionMismatch(frame[0].transaction, event.transaction))
      else if event.index != offset then Err(InvalidTransactionPosition(frame[0].transaction))
      else if event.count != frame[0].count then Err(InvalidTransactionSize(frame[0].transaction))
      else
        match Apply(d, event.kind, limit)
        case Err(source) => Err(InvalidEvent(event.sequence, source))
        case Ok(next) => ReplayFrame(next, frame, offset + 1, r, limit)
  }

  function Max(a: nat, b: nat): nat { if a < b then b else a }

  /** Replays the next transaction of the log. */
  function ReplayNext(r: Replay, events: seq<TeamEvent>, limit: nat): Replayed
    requires r.cursor < |events|
  {
    var first := events[r.cursor];
    if first.sequence != r.sequence then Err(SequenceMismatch(r.sequence, first.sequence))
    else if first.transaction != r.transaction then Err(TransactionMismatch(r.transaction, first.transaction))
    else if first.index != 0 then Err(InvalidTransactionPosition(first.transaction))
    else if first.count == 0 then Err(InvalidTransactionSize(first.transaction))
    else if |events| - r.cursor < first.count then Err(IncompleteTransaction(first.transaction))
    else
      var frame := events[r.cursor..r.cursor + first.count];
      if !OperationFraming(frame) then Err(InvalidEvent(first.sequence, InvariantViolation))
      else
        var candidate :- ReplayFrame(r.data, frame, 0, r, limit);
        var lastSequence := frame[|frame| - 1].sequence;
        if !Validated(candidate, limit) then Err(InvalidEvent(lastSequence, InvariantViolation))
        else
          var activeLimit := Max(r.activeLimit, ActiveCount(candidate));
          if !Quiescent(candidate, activeLimit) then Err(InvalidEvent(lastSequence, InvariantViolation))
          else if r.sequence + first.count > U64_MAX || r.transaction == U64_MAX then
            Err(InvalidEvent(first.sequence, IdentifierExhausted))
          else Ok(Replay(candidate, r.cursor + first.count, r.sequence + first.count, r.transaction + 1, activeLimit))
  }

  function ReplayAll(r: Replay, events: seq<TeamEvent>, limit: nat): Replayed
    requires r.cursor <= |events|
    decreases |events| - r.cursor
  {
    if r.cursor == |events| then Ok(r)
    else
      var next :- ReplayNext(r, events, limit);
      ReplayAll(next, events, limit)
  }

  /** Rebuilds a runtime from a log under a possibly different Active limit. */
  function Recover(limit: nat, authority: nat, events: seq<TeamEvent>): Result<Team, RecoveryError> {
    if limit == 0 then Err(InvalidLimit)
    else
      var r :- ReplayAll(REPLAY_START, events, limit);
      var lastSequence := if events == [] then 0 else events[|events| - 1].sequence;
      match (NextIdentifier(r.data.tasks.Keys), NextIdentifier(r.data.agents.Keys), NextIdentifier(MessageIds(r.data.messages)))
      case (Ok(nextTask), Ok(nextAgent), Ok(nextMessage)) =>
        Ok(Team(limit, authority, r.data, events, nextTask, nextAgent, nextMessage, r.transaction))
      case (_, _, _) => Err(InvalidEvent(lastSequence, IdentifierExhausted))
  }
}
