/**
 The Team runtime as it runs: a state folded in place event by event, a
 scheduler that loops until nothing can move, transactions prepared on a copy
 and published at once, and a replay loop over a flat event log.
 */
module TeamRuntime {
  import opened Prelude
  import opened TeamModel
  import opened TeamPlan

  class TeamState {
    var root: Option<AgentId>
    var tasks: map<TaskId, Task>
    var agents: map<AgentId, Agent>
    var messages: seq<Message>
    var operations: map<OperationId, Operation>

    function View(): TeamData
      reads this
    {
      TeamData(root, tasks, agents, messages, operations)
    }

    /** A copy of a state to try a transaction on. */
    constructor Clone(d: TeamData)
      ensures View() == d
    {
      root, tasks, agents, messages, operations := d.root, d.tasks, d.agents, d.messages, d.operations;
    }

    method PutTask(id: TaskId, task: Task)
      modifies this
      ensures View() == TeamModel.PutTask(old(View()), id, task)
    {
      tasks := tasks[id := task];
    }

    method PutAgent(id: AgentId, agent: Agent)
      modifies this
      ensures View() == TeamModel.PutAgent(old(View()), id, agent)
    {
      agents := agents[id := agent];
    }

    /** Whether `r` and the new state are what the event's effect on `before` demands. */
    ghost predicate Realizes(effect: Applied, r: Check)
      reads this
    {
      match effect
      case Ok(after) => r.Ok? && View() == after
      case Err(error) => r == Err(error)
    }

    /** Creations: new tasks, agents, messages and journal entries. */
    method ApplyCreation(event: EventKind) returns (r: Check)
      requires event.TaskCreated? || event.AgentCreated? || event.MessageSent? || event.OperationCommitted? || event.OperationAcknowledged?
      modifies this
      ensures Realizes(TeamModel.Apply(old(View()), event, 0), r)
    {
      match event {
        case TaskCreated(task, spec) =>
          var _ :- ValidateIdentifier(task);
          var expected :- NextIdentifier(tasks.Keys);
          var _ :- Require(task == expected, InvariantViolation);
          var _ :- Require(task !in tasks, InvariantViolation);
          var _ :- ValidateStoredSpec(spec);
          var _ :- Require(forall dep <- spec.dependencies :: dep in tasks, InvariantViolation);
          PutTask(task, Task(spec, None, Pending, None));
        case AgentCreated(agent, task, parent, budget, capabilities, preset) =>
          var _ :- ValidateIdentifier(agent);
          var expected :- NextIdentifier(agents.Keys);
          var _ :- Require(agent == expected, InvariantViolation);
          var _ :- Require(agent !in agents, InvariantViolation);
          var record :- FindTask(View(), task);
          var _ :- Require(record.owner.None?, InvariantViolation);
          var _ :- ValidateBudget(budget);
          var _ :- ValidateCapabilities(capabilities);
          var _ :- ValidatePreset(preset);
          var _ :- CheckParent(View(), record, parent, capabilities);
          if parent.None? {
            root := Some(agent);
          }
          PutAgent(agent, Agent(parent, task, Dormant, budget, NO_BUDGET, capabilities, preset));
        case MessageSent(message, from, recipient, body) =>
          var after :- ApplyMessageSent(View(), message, from, recipient, body);
          messages := messages + [Message(message, from, recipient, body)];
        case OperationCommitted(operation, transaction) =>
          var _ :- ValidateIdentifier(operation);
          var _ :- ValidateIdentifier(transaction);
          var expected :- NextIdentifier(operations.Keys);
          var _ :- Require(operation == expected, InvariantViolation);
          var _ :- Require(operation !in operations, InvariantViolation);
          operations := operations[operation := Operation(transaction, None)];
        case OperationAcknowledged(operation, committed, acknowledgement) =>
          var _ :- ValidateIdentifier(operation);
          var _ :- ValidateIdentifier(committed);
          var _ :- ValidateIdentifier(acknowledgement);
          var _ :- Require(operation in operations, UnknownOperation(operation));
          var record := operations[operation];
          var _ :- Require(record.transaction == committed, InvariantViolation);
          var _ :- Require(record.acknowledgement.None?, InvariantViolation);
          operations := operations[operation := record.(acknowledgement := Some(acknowledgement))];
      }
      r := Ok(());
    }

    /** Transitions of one task record. */
    method ApplyToTask(event: EventKind) returns (r: Check)
      requires event.TaskOwnerAssigned? || event.TaskReady? || event.TaskStarted? || event.CapsuleSubmitted? || event.TaskDone?
               || event.TaskFailure? || event.TaskCancellation? || event.TaskBlocked? || event.TaskRetryRequested?
      modifies this
      ensures Realizes(TeamModel.Apply(old(View()), event, 0), r)
    {
      match event {
        case TaskOwnerAssigned(task, agent) =>
          var owner :- FindAgent(View(), agent);
          var _ :- Require(owner.task == task, InvariantViolation);
          var record :- FindTask(View(), task);
          var _ :- Require(record.owner.None?, InvariantViolation);
          PutTask(task, record.(owner := Some(agent)));
        case TaskReady(task) =>
          var ready :- DependenciesSucceeded(View(), task);
          var record :- FindTask(View(), task);
          var _ :- Require(record.status.Pending? && ready, InvariantViolation);
          PutTask(task, record.(status := Ready));
        case TaskStarted(task) =>
          var record :- FindTask(View(), task);
          var _ :- Require(record.status.Ready?, InvariantViolation);
          var _ :- Require(record.owner.Some?, InvariantViolation);
          var owner :- FindAgent(View(), record.owner.value);
          var _ :- Require(owner.status == Active, InvariantViolation);
          PutTask(task, record.(status := Running));
        case CapsuleSubmitted(task, agent, capsule) =>
          var _ :- ValidateCapsule(capsule);
          var record :- FindTask(View(), task);
          var _ :- Require(record.status.Running? && record.owner == Some(agent) && record.completion.None?, InvariantViolation);
          var owner :- FindAgent(View(), agent);
          var _ :- Require(owner.status == Active, AgentNotActive(agent));
          PutTask(task, record.(completion := Some(capsule)));
        case TaskDone(task) =>
          var record :- FindTask(View(), task);
          var _ :- Require(record.status.Running? && record.completion.Some?, InvariantViolation);
          PutTask(task, record.(status := Succeeded));
        case TaskFailure(task, reason) =>
          var _ :- ValidateReason(reason);
          var record :- FindTask(View(), task);
          var _ :- Require(record.status.Running?, InvariantViolation);
          PutTask(task, record.(status := Failed(reason)));
        case TaskCancellation(task, reason) =>
          var _ :- ValidateReason(reason);
          var record :- FindTask(View(), task);
          var _ :- Require(!record.status.Terminal(), InvariantViolation);
          PutTask(task, record.(status := Cancelled(reason)));
        case TaskBlocked(task, blockedBy) =>
          var blocker :- FindTask(View(), blockedBy);
          var _ :- Require(blocker.status.BlocksDependents(), InvariantViolation);
          var record :- FindTask(View(), task);
          var _ :- Require((record.status.Pending? || record.status.Ready?) && blockedBy in record.spec.dependencies, InvariantViolation);
          PutTask(task, record.(status := Blocked(blockedBy)));
        case TaskRetryRequested(task) =>
          var record :- FindTask(View(), task);
          var _ :- Require(record.status.BlocksDependents(), InvariantViolation);
          PutTask(task, record.(status := Pending, completion := None));
      }
      r := Ok(());
    }

    /** Transitions of one agent record. */
    method ApplyToAgent(event: EventKind, limit: nat) returns (r: Check)
      requires event.DelegationGranted? || event.AgentActivated? || event.AgentDone? || event.AgentFailure?
               || event.AgentCancellation? || event.AgentBlockedBy? || event.AgentRetryRequested?
      modifies this
      ensures Realizes(TeamModel.Apply(old(View()), event, limit), r)
    {
      match event {
        case DelegationGranted(parent, child) =>
          var childRecord :- FindAgent(View(), child);
          var _ :- Require(childRecord.parent == Some(parent), InvariantViolation);
          var parentRecord :- FindAgent(View(), parent);
          var _ :- Require(parentRecord.status == Active, AgentNotActive(parent));
          var reserved := CheckedAdd(parentRecord.reserved, childRecord.budget);
          var _ :- Require(reserved.Some? && parentRecord.budget.Contains(reserved.value), BudgetExpansion(parent));
          PutAgent(parent, parentRecord.(reserved := reserved.value));
        case AgentActivated(agent) =>
          var _ :- Require(ActiveCount(View()) < limit, InvariantViolation);
          var record :- FindAgent(View(), agent);
          var _ :- Require(record.status == Dormant, InvariantViolation);
          var task :- FindTask(View(), record.task);
          var _ :- Require(task.status.Ready? && task.owner == Some(agent), InvariantViolation);
          PutAgent(agent, record.(status := Active));
        case AgentDone(agent) =>
          var record :- FindAgent(View(), agent);
          var _ :- Require(record.status == Active, AgentNotActive(agent));
          var task :- FindTask(View(), record.task);
          var _ :- Require(task.status.Succeeded?, InvariantViolation);
          PutAgent(agent, record.(status := AgentSucceeded));
        case AgentFailure(agent) =>
          var record :- FindAgent(View(), agent);
          var _ :- Require(record.status == Active, AgentNotActive(agent));
          var task :- FindTask(View(), record.task);
          var _ :- Require(task.status.Failed?, InvariantViolation);
          PutAgent(agent, record.(status := AgentFailed));
        case AgentCancellation(agent) =>
          var record :- FindAgent(View(), agent);
          var _ :- Require(!record.status.Terminal(), InvariantViolation);
          var task :- FindTask(View(), record.task);
          var _ :- Require(task.status.Cancelled?, InvariantViolation);
          PutAgent(agent, record.(status := AgentCancelled));
        case AgentBlockedBy(agent, blockedBy) =>
          var record :- FindAgent(View(), agent);
          var _ :- Require(record.status == Dormant, InvariantViolation);
          var task :- FindTask(View(), record.task);
          var _ :- Require(task.status == Blocked(blockedBy), InvariantViolation);
          PutAgent(agent, record.(status := AgentBlocked));
        case AgentRetryRequested(requester, agent) =>
          var requesterRecord :- FindAgent(View(), requester);
          var _ :- Require(requesterRecord.status == Active, AgentNotActive(requester));
          var record :- FindAgent(View(), agent);
          var _ :- Require(record.parent == Some(requester)
                           && (record.status.AgentBlocked? || record.status.AgentFailed? || record.status.AgentCancelled?), InvariantViolation);
          PutAgent(agent, record.(status := Dormant));
      }
      r := Ok(());
    }

    /** Folds one event into the state; a refused event leaves a candidate to be thrown away. */
    method Apply(event: EventKind, limit: nat) returns (r: Check)
      modifies this
      ensures Realizes(TeamModel.Apply(old(View()), event, limit), r)
    {
      if event.TaskCreated? || event.AgentCreated? || event.MessageSent? || event.OperationCommitted? || event.OperationAcknowledged? {
        r := ApplyCreation(event);
      } else if event.DelegationGranted? || event.AgentActivated? || event.AgentDone? || event.AgentFailure?
                || event.AgentCancellation? || event.AgentBlockedBy? || event.AgentRetryRequested? {
        r := ApplyToAgent(event, limit);
      } else {
        r := ApplyToTask(event);
      }
    }
  }

  /** Applies one scheduler event and records it. */
  method Emit(state: TeamState, events: seq<EventKind>, event: EventKind, limit: nat) returns (r: Check, after: seq<EventKind>)
    modifies state
    ensures match TeamModel.ApplyPlanned(Progress(old(state.View()), events), event, limit)
            case Ok(q) => r.Ok? && Progress(state.View(), after) == q
            case Err(error) => r == Err(error)
  {
    after := events;
    r := state.Apply(event, limit);
    if r.Ok? {
      after := events + [event];
    }
  }

  /** The scheduler: settle every pending task once in ascending order, then start ready tasks while slots are free. */
  method RunScheduler(state: TeamState, events: seq<EventKind>, limit: nat) returns (r: Check, after: seq<EventKind>)
    modifies state
    ensures match TeamModel.Reconcile(Progress(old(state.View()), events), limit)
            case Ok(q) => r.Ok? && Progress(state.View(), after) == q
            case Err(error) => r == Err(error)
  {
    hide TeamModel.Apply;
    after := events;
    ghost var start := Progress(state.View(), events);
    var pending := PendingTasks(state.tasks, MaxId(state.tasks.Keys));
    for i := 0 to |pending|
      invariant ResolveAll(start, pending, limit) == ResolveAll(Progress(state.View(), after), pending[i..], limit)
    {
      ghost var before := Progress(state.View(), after);
      assert pending[i..][0] == pending[i] && pending[i..][1..] == pending[i + 1..];
      r, after := SettleOne(state, after, pending[i], limit);
      if r.Err? {
        return;
      }
    }
    assert pending[|pending|..] == [];
    ghost var settled := Progress(state.View(), after);
    while ActiveCount(state.View()) < limit && ReadyTasks(state.tasks) != {}
      invariant Activate(settled, limit) == Activate(Progress(state.View(), after), limit)
      decreases ReadyTasks(state.tasks)
    {
      ghost var before := Progress(state.View(), after);
      r, after := StartNext(state, after, limit);
      if r.Err? {
        return;
      }
      StartOneConsumesReady(before, limit);
    }
    r := Ok(());
  }

  method SettleOne(state: TeamState, events: seq<EventKind>, task: TaskId, limit: nat) returns (r: Check, after: seq<EventKind>)
    modifies state
    ensures match ResolvePending(Progress(old(state.View()), events), task, limit)
            case Ok(q) => r.Ok? && Progress(state.View(), after) == q
            case Err(error) => r == Err(error)
  {
    hide TeamModel.Apply;
    after := events;
    var blocking :- FirstFailedDependency(state.View(), task);
    if blocking.Some? {
      r, after := Emit(state, after, TaskBlocked(task, blocking.value), limit);
      if r.Err? {
        return;
      }
      var owner :- OwnerOf(state.View(), task);
      r, after := Emit(state, after, AgentBlockedBy(owner, blocking.value), limit);
    } else {
      var ready :- DependenciesSucceeded(state.View(), task);
      r := Ok(());
      if ready {
        r, after := Emit(state, after, TaskReady(task), limit);
      }
    }
  }

  method StartNext(state: TeamState, events: seq<EventKind>, limit: nat) returns (r: Check, after: seq<EventKind>)
    requires ReadyTasks(state.tasks) != {}
    modifies state
    ensures match StartOne(Progress(old(state.View()), events), limit)
            case Ok(q) => r.Ok? && Progress(state.View(), after) == q
            case Err(error) => r == Err(error)
  {
    hide TeamModel.Apply;
    after := events;
    var task := Least(ReadyTasks(state.tasks));
    var owner :- OwnerOf(state.View(), task);
    r, after := Emit(state, after, AgentActivated(owner), limit);
    if r.Err? {
      return;
    }
    r, after := Emit(state, after, TaskStarted(task), limit);
  }

  class TeamRuntime {
    const limit: nat
    const authority: nat
    var state: TeamState
    var log: seq<TeamEvent>
    var nextTask: U64
    var nextAgent: U64
    var nextMessage: U64
    var nextTransaction: U64

    function View(): Team
      reads this, state
    {
      Team(limit, authority, state.View(), log, nextTask, nextAgent, nextMessage, nextTransaction)
    }

    constructor (limit: nat, authority: nat)
      ensures View() == NewTeam(limit, authority) && fresh(state)
    {
      this.limit, this.authority := limit, authority;
      state := new TeamState.Clone(EMPTY_TEAM);
      log, nextTask, nextAgent, nextMessage, nextTransaction := [], 1, 1, 1, 1;
    }

    /** Applies the planned events to a copy, schedules it, checks it and frames the result. */
    method PrepareEvents(transaction: TransactionId, base: seq<EventKind>) returns (r: Result<Prepared, TeamError>)
      ensures r == TeamPlan.PrepareEvents(View(), transaction, base)
    {
      hide TeamModel.Apply, TeamModel.Reconcile, Validated, Quiescent, OperationFraming;
      var candidate := new TeamState.Clone(state.View());
      ghost var start := state.View();
      for i := 0 to |base|
        invariant ApplyAll(start, base, limit) == ApplyAll(candidate.View(), base[i..], limit)
        invariant candidate != state && state.View() == old(state.View())
      {
        assert base[i..][0] == base[i] && base[i..][1..] == base[i + 1..];
        var applied := candidate.Apply(base[i], limit);
        if applied.Err? {
          return Err(applied.error);
        }
      }
      assert base[|base|..] == [];
      var scheduled, kinds := RunScheduler(candidate, base, limit);
      if scheduled.Err? {
        return Err(scheduled.error);
      }
      var data := candidate.View();
      var _ :- Require(Validated(data, limit), InvariantViolation);
      var _ :- Require(Quiescent(data, limit), InvariantViolation);
      var _ :- Require(|kinds| <= U32_MAX, IdentifierExhausted);
      var _ :- Require(|log| + 1 <= U64_MAX && |log| + (if kinds == [] then 1 else |kinds|) <= U64_MAX, IdentifierExhausted);
      var events := Frame(kinds, |log| + 1, transaction);
      var _ :- Require(OperationFraming(events), InvariantViolation);
      var _ :- Require(nextTransaction < U64_MAX, IdentifierExhausted);
      var task :- NextIdentifier(data.tasks.Keys);
      var agent :- NextIdentifier(data.agents.Keys);
      var message :- NextIdentifier(MessageIds(data.messages));
      r := Ok(Prepared(data, events, nextTransaction + 1, task, agent, message));
    }

    /** Makes a prepared transaction visible: log, state and counters move together. */
    method Publish(prepared: Prepared)
      modifies this
      ensures View() == TeamPlan.Publish(old(View()), prepared) && fresh(state)
    {
      log := log + prepared.events;
      state := new TeamState.Clone(prepared.candidate);
      nextTransaction := prepared.nextTransaction;
      nextTask := prepared.nextTask;
      nextAgent := prepared.nextAgent;
      nextMessage := prepared.nextMessage;
    }

    /** Plans, prepares and publishes one request; a refused request changes nothing. */
    method Perform(request: Request) returns (r: Check)
      modifies this
      ensures match TeamPlan.Perform(old(View()), request)
              case Ok(next) => r.Ok? && View() == next
              case Err(error) => r == Err(error) && View() == old(View())
    {
      hide TeamPlan.PrepareEvents, BaseEvents;
      var base :- BaseEvents(View(), request);
      var transaction :- FreshIdentifier(nextTransaction);
      var prepared := PrepareEvents(transaction, base);
      if prepared.Err? {
        return Err(prepared.error);
      }
      Publish(prepared.value);
      r := Ok(());
    }
  }

  /** Replays one frame onto a candidate copy. */
  method ReplayOneFrame(candidate: TeamState, frame: seq<TeamEvent>, r: Replay, limit: nat) returns (outcome: Result<(), RecoveryError>)
    requires frame != []
    modifies candidate
    ensures match ReplayFrame(old(candidate.View()), frame, 0, r, limit)
            case Ok(after) => outcome.Ok? && candidate.View() == after
            case Err(error) => outcome == Err(error)
  {
    hide TeamModel.Apply;
    ghost var start := candidate.View();
    for offset := 0 to |frame|
      invariant ReplayFrame(start, frame, 0, r, limit) == ReplayFrame(candidate.View(), frame, offset, r, limit)
    {
      var event := frame[offset];
      if r.sequence + offset > U64_MAX {
        return Err(InvalidEvent(event.sequence, IdentifierExhausted));
      }
      if event.sequence != r.sequence + offset {
        return Err(SequenceMismatch(r.sequence + offset, event.sequence));
      }
      if event.transaction != frame[0].transaction {
        return Err(TransactionMismatch(frame[0].transaction, event.transaction));
      }
      if event.index != offset {
        return Err(InvalidTransactionPosition(frame[0].transaction));
      }
      if event.count != frame[0].count {
        return Err(InvalidTransactionSize(frame[0].transaction));
      }
      var applied := candidate.Apply(event.kind, limit);
      if applied.Err? {
        return Err(InvalidEvent(event.sequence, applied.error));
      }
    }
    outcome := Ok(());
  }

  /** Rebuilds the folded state of a log, transaction by transaction. */
  method ReplayLog(events: seq<TeamEvent>, limit: nat) returns (outcome: Replayed)
    ensures outcome == ReplayAll(REPLAY_START, events, limit)
  {
    hide TeamModel.Apply, ReplayFrame, Validated, Quiescent, OperationFraming, ActiveCount;
    var r := REPLAY_START;
    while r.cursor < |events|
      invariant r.cursor <= |events|
      invariant ReplayAll(REPLAY_START, events, limit) == ReplayAll(r, events, limit)
      decreases |events| - r.cursor
    {
      var next := ReplayTransaction(r, events, limit);
      if next.Err? {
        return next;
      }
      r := next.value;
    }
    outcome := Ok(r);
  }

  method ReplayTransaction(r: Replay, events: seq<TeamEvent>, limit: nat) returns (outcome: Replayed)
    requires r.cursor < |events|
    ensures outcome == ReplayNext(r, events, limit)
    ensures outcome.Ok? ==> r.cursor < outcome.value.cursor <= |events|
  {
    hide TeamModel.Apply, ReplayFrame, Validated, Quiescent, OperationFraming;
    var first := events[r.cursor];
    if first.sequence != r.sequence {
      return Err(SequenceMismatch(r.sequence, first.sequence));
    }
    if first.transaction != r.transaction {
      return Err(TransactionMismatch(r.transaction, first.transaction));
    }
    if first.index != 0 {
      return Err(InvalidTransactionPosition(first.transaction));
    }
    if first.count == 0 {
      return Err(InvalidTransactionSize(first.transaction));
    }
    if |events| - r.cursor < first.count {
      return Err(IncompleteTransaction(first.transaction));
    }
    var frame := events[r.cursor..r.cursor + first.count];
    if !OperationFraming(frame) {
      return Err(InvalidEvent(first.sequence, InvariantViolation));
    }
    var candidate := new TeamState.Clone(r.data);
    var replayed := ReplayOneFrame(candidate, frame, r, limit);
    if replayed.Err? {
      return Err(replayed.error);
    }
    var data := candidate.View();
    var last := frame[|frame| - 1].sequence;
    if !Validated(data, limit) {
      return Err(InvalidEvent(last, InvariantViolation));
    }
    var activeLimit := Max(r.activeLimit, ActiveCount(data));
    if !Quiescent(data, activeLimit) {
      return Err(InvalidEvent(last, InvariantViolation));
    }
    if r.sequence + first.count > U64_MAX || r.transaction == U64_MAX {
      return Err(InvalidEvent(first.sequence, IdentifierExhausted));
    }
    outcome := Ok(Replay(data, r.cursor + first.count, r.sequence + first.count, r.transaction + 1, activeLimit));
  }

  /** Rebuilds a runtime from a log; the new process gets its own authority. */
  method Recover(limit: nat, authority: nat, events: seq<TeamEvent>) returns (outcome: Result<TeamRuntime, RecoveryError>)
    ensures match TeamPlan.Recover(limit, authority, events)
            case Ok(team) => outcome.Ok? && fresh(outcome.value) && outcome.value.View() == team
            case Err(error) => outcome == Err(error)
  {
    if limit == 0 {
      return Err(InvalidLimit);
    }
    hide ReplayAll;
    var replayed := ReplayLog(events, limit);
    if replayed.Err? {
      return Err(replayed.error);
    }
    var r := replayed.value;
    var exhausted := RecoveryError.InvalidEvent(if events == [] then 0 else events[|events| - 1].sequence, IdentifierExhausted);
    var task, agent, message :=
      NextIdentifier(r.data.tasks.Keys), NextIdentifier(r.data.agents.Keys), NextIdentifier(MessageIds(r.data.messages));
    if task.Err? || agent.Err? || message.Err? {
      return Err(exhausted);
    }
    var runtime := new TeamRuntime(limit, authority);
    runtime.state := new TeamState.Clone(r.data);
    runtime.log := events;
    runtime.nextTransaction := r.transaction;
    runtime.nextTask, runtime.nextAgent, runtime.nextMessage := task.value, agent.value, message.value;
    outcome := Ok(runtime);
  }
}
