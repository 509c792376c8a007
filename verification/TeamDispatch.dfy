/**
 Whole runs of the Team runtime: which requests are refused, and the invariant
 every reachable runtime satisfies.
 */
module TeamDispatch {
  import opened Prelude
  import opened TeamModel
  import opened TeamPlan
  import opened TeamInvariant
  import opened TeamSchedule
  import opened TeamCommands
  import opened TeamGrowth

  /** Recorded operations carry transactions the runtime has already used. */
  ghost predicate Journaled(t: Team) {
    forall o | o in t.data.operations :: 1 <= t.data.operations[o].transaction < t.nextTransaction
  }

  /** The invariant of a live runtime between requests. */
  ghost predicate Live(t: Team) {
    && Sound(t.data, t.limit)
    && Quiescent(t.data, t.limit)
    && Counted(t)
    && Journaled(t)
  }

  // ---------- one command marker per plan ----------

  ghost predicate Unmarked(kinds: seq<EventKind>) {
    forall i | 0 <= i < |kinds| :: !kinds[i].OperationCommitted? && !kinds[i].OperationAcknowledged?
  }

  ghost predicate MarkedAt(kinds: seq<EventKind>, k: nat) {
    k < |kinds| && CommandMarker(kinds[k]) && forall i | 0 <= i < |kinds| && i != k :: !CommandMarker(kinds[i])
  }

  lemma PlanMarked(t: Team, command: Command)
    requires PlanCommand(t, command).Ok?
    ensures Unmarked(PlanCommand(t, command).value)
    ensures MarkedAt(PlanCommand(t, command).value, 0) || MarkedAt(PlanCommand(t, command).value, 1)
  {
    hide ValidateTaskSpec, ValidateCapabilities, ValidateCapsule, ValidateReason, AncestorDependency, HasLiveChild, FirstFailedDependency;
    var events := PlanCommand(t, command).value;
    match command
    case AdmitRoot(_, _, _) => assert MarkedAt(events, 1);
    case Delegate(_, _, _, _, _) => assert MarkedAt(events, 1);
    case SendMessage(_, _, _) => assert MarkedAt(events, 0);
    case Complete(_, _) => assert MarkedAt(events, 0);
    case Fail(_, _) => assert MarkedAt(events, 0);
    case Cancel(_, _) => assert MarkedAt(events, 0);
    case Retry(_, _) => assert MarkedAt(events, 1);
  }

  lemma {:induction false} CountNone(events: seq<TeamEvent>, p: EventKind -> bool)
    requires forall i | 0 <= i < |events| :: !p(events[i].kind)
    ensures CountKinds(events, p) == 0
  {
    if events != [] {
      CountNone(events[1..], p);
    }
  }

  lemma {:induction false} CountOne(events: seq<TeamEvent>, p: EventKind -> bool, k: nat)
    requires k < |events| && p(events[k].kind) && forall i | 0 <= i < |events| && i != k :: !p(events[i].kind)
    ensures CountKinds(events, p) == 1
  {
    if k == 0 {
      CountNone(events[1..], p);
    } else {
      assert !p(events[0].kind);
      CountOne(events[1..], p, k - 1);
    }
  }

  /** Scheduling adds neither journal markers nor a second command. */
  lemma PlainFraming(kinds: seq<EventKind>, first: nat, transaction: TransactionId)
    requires |kinds| <= U32_MAX && first + |kinds| <= U64_MAX + 1 && Unmarked(kinds)
    ensures OperationFraming(Frame(kinds, first, transaction))
  {
    CountNone(Frame(kinds, first, transaction), IsCommitMarker);
    CountNone(Frame(kinds, first, transaction), IsAckMarker);
  }

  lemma CommittedFraming(kinds: seq<EventKind>, first: nat, transaction: TransactionId, k: nat)
    requires |kinds| <= U32_MAX && first + |kinds| <= U64_MAX + 1
    requires kinds != [] && kinds[0].OperationCommitted? && kinds[0].transaction == transaction && Unmarked(kinds[1..])
    requires MarkedAt(kinds, k)
    ensures OperationFraming(Frame(kinds, first, transaction))
  {
    var events := Frame(kinds, first, transaction);
    assert forall i | 1 <= i < |kinds| :: kinds[i] == kinds[1..][i - 1];
    CountOne(events, IsCommitMarker, 0);
    CountNone(events, IsAckMarker);
    CountOne(events, IsCommandMarker, k);
  }

  lemma MarkedExtends(base: seq<EventKind>, all: seq<EventKind>, k: nat)
    requires MarkedAt(base, k) && OnlySchedulerEvents(base, all)
    ensures MarkedAt(all, k)
  {
    assert forall i | 0 <= i < |base| :: all[i] == base[i];
  }

  lemma UnmarkedExtends(base: seq<EventKind>, all: seq<EventKind>)
    requires Unmarked(base) && OnlySchedulerEvents(base, all)
    ensures Unmarked(all)
  {
    assert forall i | 0 <= i < |base| :: all[i] == base[i];
  }

  // ---------- which requests are carried out ----------

  /** What the journal still demands once a request has been planned. */
  ghost predicate Fits(t: Team, request: Request) {
    match request
    case Dispatch(_) => true
    case DispatchOperation(operation, _) => NextIdentifier(t.data.operations.Keys) == Ok(operation) && StoredIdentifier(operation)
    case Acknowledge(operation) =>
      operation in t.data.operations && t.data.operations[operation].acknowledgement.None?
  }

  lemma CommandAccepted(t: Team, command: Command)
    requires Sound(t.data, t.limit) && Counted(t) && PlanCommand(t, command).Ok?
    ensures Accepted(t.data, PlanCommand(t, command).value, t.limit)
  {
    hide Sound, Counted, Accepted, PlanRoot, PlanDelegation, PlanMessage, PlanCompletion, PlanFailure, PlanCancellation, PlanRetry;
    match command
    case AdmitRoot(task, budget, capabilities) => RootAccepted(t, task, budget, capabilities);
    case Delegate(session, task, budget, capabilities, preset) =>
      DelegationAccepted(t, session.agent, task, budget, capabilities, preset);
    case SendMessage(session, recipient, body) => MessageAccepted(t, session.agent, recipient, body);
    case Complete(session, capsule) => CompletionAccepted(t, session.agent, capsule);
    case Fail(session, reason) => FailureAccepted(t, session.agent, reason);
    case Cancel(session, reason) => CancellationAccepted(t, session.agent, reason);
    case Retry(session, target) => RetryAccepted(t, session.agent, target);
  }

  /** Journal entries touch nothing the policy reads. */
  lemma JournalKeepsSound(d: TeamData, operations: map<OperationId, Operation>, limit: nat)
    requires Sound(d, limit) && Shape(d.(operations := operations)) && OperationsSound(d.(operations := operations))
    ensures Sound(d.(operations := operations), limit)
  {
    hide Shape, DependencySafe, AgentSound, LiveChain, CompletionMatches;
    SameOwned(d, d.(operations := operations));
  }

  lemma CommittedSound(d: TeamData, operation: OperationId, transaction: TransactionId, limit: nat)
    requires Sound(d, limit) && ApplyOperationCommitted(d, operation, transaction).Ok?
    ensures Sound(d.(operations := d.operations[operation := Operation(transaction, None)]), limit)
  {
    SoundShape(d, limit);
    SoundJournal(d, limit);
    hide Sound, Shape, OperationsSound;
    ShapeOfCommitted(d, operation, transaction);
    CommittedOperationsSound(d, operation, transaction);
    CommittedEffect(d, operation, transaction);
    hide ApplyOperationCommitted;
    JournalKeepsSound(d, d.operations[operation := Operation(transaction, None)], limit);
  }

  lemma CommittedEffect(d: TeamData, operation: OperationId, transaction: TransactionId)
    requires ApplyOperationCommitted(d, operation, transaction).Ok?
    ensures ApplyOperationCommitted(d, operation, transaction).value
            == d.(operations := d.operations[operation := Operation(transaction, None)])
  {
  }

  lemma OperationStored(d: TeamData, operation: OperationId)
    requires Shape(d) && operation in d.operations
    ensures StoredIdentifier(operation)
  {
    hide Tree, DependenciesEarlier;
    assert operation in d.operations.Keys;
  }

  lemma SoundJournal(d: TeamData, limit: nat)
    requires Sound(d, limit)
    ensures OperationsSound(d)
  {
  }

  lemma CommittedOperationsSound(d: TeamData, operation: OperationId, transaction: TransactionId)
    requires Shape(d) && OperationsSound(d) && ApplyOperationCommitted(d, operation, transaction).Ok?
    ensures OperationsSound(ApplyOperationCommitted(d, operation, transaction).value)
  {
    hide Tree, DependenciesEarlier;
    NextIsFresh(d.operations.Keys, |d.operations|);
    AddNext(d.operations, operation, Operation(transaction, None));
    var e := ApplyOperationCommitted(d, operation, transaction).value;
    assert forall o | o in e.operations :: o != operation ==> o in d.operations && e.operations[o] == d.operations[o];
    forall o: nat | 1 <= o <= |e.operations|
      ensures o in e.operations
    {
      assert o in e.operations.Keys;
    }
  }

  lemma AcknowledgedSound(d: TeamData, operation: OperationId, acknowledgement: TransactionId, limit: nat)
    requires Sound(d, limit) && operation in d.operations && d.operations[operation].transaction < acknowledgement
    ensures Sound(d.(operations := d.operations[operation := d.operations[operation].(acknowledgement := Some(acknowledgement))]), limit)
  {
    var operations := d.operations[operation := d.operations[operation].(acknowledgement := Some(acknowledgement))];
    SoundShape(d, limit);
    ShapeOfAcknowledged(d, operation, operations[operation]);
    assert OperationsSound(d.(operations := operations)) by {
      hide Shape, DependencySafe, Owned, AgentSound, LiveChain, CompletionMatches;
      Replace(d.operations, operation, operations[operation]);
    }
    hide Sound, Shape, OperationsSound;
    JournalKeepsSound(d, operations, limit);
  }

  /** Requests that bring no task. */
  lemma SettlementIgnoresJournal(t: Team, operations: map<OperationId, Operation>, command: Command)
    requires !command.AdmitRoot? && !command.Delegate?
    ensures PlanCommand(t.(data := t.data.(operations := operations)), command) == PlanCommand(t, command)
  {
    hide ValidateCapabilities, ValidateCapsule, ValidateReason, HasLiveChild, PlanRoot, PlanDelegation;
  }

  lemma TaskIgnoresJournal(d: TeamData, operations: map<OperationId, Operation>, task: TaskSpec)
    ensures ValidateTaskSpec(d.(operations := operations), task) == ValidateTaskSpec(d, task)
  {
    UnknownIgnoresJournal(d, d.(operations := operations), Sort(task.dependencies));
  }

  lemma PlanIgnoresJournal(t: Team, operations: map<OperationId, Operation>, command: Command)
    ensures PlanCommand(t.(data := t.data.(operations := operations)), command) == PlanCommand(t, command)
  {
    hide ValidateCapabilities, ValidateTaskSpec, AncestorDependency, PlanMessage, PlanCompletion, PlanFailure, PlanCancellation, PlanRetry;
    if command.AdmitRoot? || command.Delegate? {
      TaskIgnoresJournal(t.data, operations, command.task);
    } else {
      SettlementIgnoresJournal(t, operations, command);
    }
  }

  lemma {:induction false} UnknownIgnoresJournal(d: TeamData, e: TeamData, ids: seq<TaskId>)
    requires d.tasks == e.tasks
    ensures FirstUnknown(d, ids) == FirstUnknown(e, ids)
  {
    if ids != [] {
      UnknownIgnoresJournal(d, e, ids[1..]);
    }
  }

  /** A planned request whose journal entry fits is accepted by the state; otherwise it is refused. */
  lemma OperationAccepted(t: Team, operation: OperationId, command: Command)
    requires Sound(t.data, t.limit) && Counted(t) && BaseEvents(t, DispatchOperation(operation, command)).Ok?
    ensures Fits(t, DispatchOperation(operation, command)) ==>
              Accepted(t.data, BaseEvents(t, DispatchOperation(operation, command)).value, t.limit)
    ensures !Fits(t, DispatchOperation(operation, command)) ==>
              ApplyAll(t.data, BaseEvents(t, DispatchOperation(operation, command)).value, t.limit).Err?
  {
    hide Sound, Accepted, PlanCommand;
    var marker := OperationCommitted(operation, t.nextTransaction);
    var events := PlanCommand(t, command).value;
    assert ([marker] + events)[1..] == events;
    if Fits(t, DispatchOperation(operation, command)) {
      var operations := t.data.operations[operation := Operation(t.nextTransaction, None)];
      var u := t.(data := t.data.(operations := operations));
      FitsFresh(t, operation);
      assert Apply(t.data, marker, t.limit) == Ok(u.data);
      CommittedSound(t.data, operation, t.nextTransaction, t.limit);
      PlanIgnoresJournal(t, operations, command);
      assert Counted(u);
      CommandAccepted(u, command);
      ApplyFirst(t.data, marker, events, t.limit);
      assert Accepted(t.data, [marker] + events, t.limit) by {
        AcceptedAfter(t.data, marker, events, t.limit);
      }
    }
  }

  lemma AcceptedAfter(d: TeamData, first: EventKind, rest: seq<EventKind>, limit: nat)
    requires Apply(d, first, limit).Ok? && Accepted(Apply(d, first, limit).value, rest, limit)
    ensures Accepted(d, [first] + rest, limit)
  {
    hide Sound, Apply;
    ApplyFirst(d, first, rest, limit);
  }

  lemma FitsFresh(t: Team, operation: OperationId)
    requires NextIdentifier(t.data.operations.Keys) == Ok(operation)
    ensures operation !in t.data.operations
  {
    assert forall o | o in t.data.operations :: o in t.data.operations.Keys && o <= MaxId(t.data.operations.Keys);
  }

  lemma AcknowledgementAccepted(t: Team, operation: OperationId)
    requires Sound(t.data, t.limit) && Journaled(t) && BaseEvents(t, Acknowledge(operation)).Ok?
    ensures Fits(t, Acknowledge(operation)) ==>
              Accepted(t.data, BaseEvents(t, Acknowledge(operation)).value, t.limit)
    ensures !Fits(t, Acknowledge(operation)) ==>
              ApplyAll(t.data, BaseEvents(t, Acknowledge(operation)).value, t.limit).Err?
  {
    hide Sound, Accepted;
    var d := t.data;
    var event := OperationAcknowledged(operation, d.operations[operation].transaction, t.nextTransaction);
    assert ([event])[1..] == [];
    if Fits(t, Acknowledge(operation)) {
      var e := d.(operations := d.operations[operation := d.operations[operation].(acknowledgement := Some(t.nextTransaction))]);
      SoundShape(d, t.limit);
      OperationStored(d, operation);
      hide Shape;
      assert Apply(d, event, t.limit) == Ok(e);
      AcknowledgedSound(d, operation, t.nextTransaction, t.limit);
      assert Accepted(e, [], t.limit) by {
        AcceptedNothing(e, t.limit);
      }
      AcceptedAfter(d, event, [], t.limit);
      assert [event] + [] == [event];
    } else {
      AcknowledgedTwice(d, operation, t.nextTransaction, t.limit);
    }
  }

  lemma AcknowledgedTwice(d: TeamData, operation: OperationId, acknowledgement: TransactionId, limit: nat)
    requires operation in d.operations && d.operations[operation].acknowledgement.Some?
    ensures Apply(d, OperationAcknowledged(operation, d.operations[operation].transaction, acknowledgement), limit).Err?
  {
  }

  lemma AcceptedNothing(d: TeamData, limit: nat)
    requires Sound(d, limit)
    ensures Accepted(d, [], limit)
  {
  }
}
