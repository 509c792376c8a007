/** The tool runtime as it runs: state updated in place on a copy, appended, then swapped in. */
module ToolRuntime {
  import opened Prelude
  import opened Journal
  import opened ToolModel
  import opened ToolRuns

  /** A ledger event with the framing replay relies on. */
  datatype Stored = Stored(transaction: nat, count: nat, event: ToolEvent)

  class ToolState {
    var calls: map<CallId, Record>
    var identities: map<Text, CallId>
    var nextCall: U64

    ghost function View(): ToolData
      reads this
    {
      ToolData(calls, identities, nextCall)
    }

    /** The check's answer and the state are those of `applied`; after an error the state no longer matters. */
    ghost predicate Matches(r: Check, applied: Applied)
      reads this
    {
      if applied.Ok? then r == Ok(()) && View() == applied.value else r == Err(applied.error)
    }

    constructor ()
      ensures View() == NO_CALLS
    {
      calls, identities, nextCall := map[], map[], 1;
    }

    constructor Clone(other: ToolState)
      ensures View() == other.View()
    {
      calls, identities, nextCall := other.calls, other.identities, other.nextCall;
    }

    /** Applies one event in place; after a failure the copy is of no further use. */
    method ApplyEvent(event: ToolEvent) returns (r: Check)
      modifies this
      ensures Matches(r, Apply(old(View()), event))
    {
      hide ValidateText, ValidateBinding, ValidateReason;
      match event {
        case CallRequested(call, identity, agent, tool, argumentsHash, binding) =>
          if call != nextCall {
            return Err(CorruptState);
          }
          var _ :- ValidateText(identity, MAX_CALL_IDENTITY_BYTES);
          var _ :- ValidateText(tool, MAX_TOOL_NAME_BYTES);
          var _ :- ValidateBinding(binding);
          if identity in identities || call in calls {
            return Err(CorruptState);
          }
          identities := identities[identity := call];
          calls := calls[call := Record(call, identity, agent, tool, argumentsHash, binding, AwaitingApproval, None, None, None)];
          if nextCall == U64_MAX {
            return Err(IdentifierExhausted);
          }
          nextCall := nextCall + 1;
        case ApprovalGranted(call, agent, argumentsHash, binding, expires) =>
          var record :- Awaiting(ToolData(calls, identities, nextCall), call);
          if record.agent != agent || record.argumentsHash != argumentsHash || record.binding != binding || expires == 0 {
            return Err(CorruptState);
          }
          calls := calls[call := record.(expires := Some(expires))];
        case EffectPrepared(call, argumentsHash) =>
          var record :- Awaiting(ToolData(calls, identities, nextCall), call);
          if record.argumentsHash != argumentsHash || record.expires.None? {
            return Err(CorruptState);
          }
          calls := calls[call := record.(status := ReconciliationRequired, reason := Some(NoDurableOutcome))];
        case ApprovalDenied(call, reason) =>
          var _ :- ValidateReason(reason);
          var record :- Awaiting(ToolData(calls, identities, nextCall), call);
          calls := calls[call := record.(status := Denied, reason := Some(reason))];
        case EffectSucceeded(call, digest) =>
          var record :- Unreconciled(ToolData(calls, identities, nextCall), call);
          calls := calls[call := record.(status := Succeeded, digest := Some(digest), reason := None)];
        case EffectReconciledSucceeded(call, digest) =>
          var record :- Unreconciled(ToolData(calls, identities, nextCall), call);
          calls := calls[call := record.(status := Succeeded, digest := Some(digest), reason := None)];
        case EffectFailed(call, reason) =>
          var _ :- ValidateReason(reason);
          var record :- Unreconciled(ToolData(calls, identities, nextCall), call);
          calls := calls[call := record.(status := Failed, reason := Some(reason))];
        case EffectReconciledFailed(call, reason) =>
          var _ :- ValidateReason(reason);
          var record :- Unreconciled(ToolData(calls, identities, nextCall), call);
          calls := calls[call := record.(status := Failed, reason := Some(reason))];
        case EffectAmbiguous(call, reason) =>
          var _ :- ValidateReason(reason);
          var record :- Unreconciled(ToolData(calls, identities, nextCall), call);
          calls := calls[call := record.(reason := Some(reason))];
      }
      r := Ok(());
    }

    method ApplyEvents(txn: Transaction) returns (r: Check)
      modifies this
      ensures Matches(r, ApplyTransaction(old(View()), txn))
    {
      hide Apply;
      var _ :- ValidateTransaction(txn);
      assert txn[0..] == txn;
      for i := 0 to |txn|
        invariant ApplyAll(old(View()), txn) == ApplyAll(View(), txn[i..])
      {
        assert txn[i..][0] == txn[i] && txn[i..][1..] == txn[i + 1..];
        var _ :- ApplyEvent(txn[i]);
      }
      r := Ok(());
    }
  }

  // ---------- replay ----------

  /** The events of these transactions as a ledger stores them, numbered from `number`. */
  ghost function StoredOf(txns: seq<Transaction>, number: nat): seq<Stored>
    decreases |txns|
  {
    if |txns| == 0 then [] else StoredTxn(txns[0], number) + StoredOf(txns[1..], number + 1)
  }

  ghost function StoredTxn(txn: Transaction, number: nat): (stored: seq<Stored>)
    ensures |stored| == |txn|
  {
    seq(|txn|, i requires 0 <= i < |txn| => Stored(number, |txn|, txn[i]))
  }

  function EventsOf(stored: seq<Stored>): (events: seq<ToolEvent>)
    ensures |events| == |stored|
  {
    seq(|stored|, i requires 0 <= i < |stored| => stored[i].event)
  }

  /** Replays a log frame by frame from a state. */
  function ReplayFrom(s: ToolData, events: seq<Stored>): Applied
    decreases |events|
  {
    if |events| == 0 then Ok(s)
    else
      var count := events[0].count;
      if count == 0 || count > |events| then Err(CorruptEvent)
      else if exists i :: 0 <= i < count && events[i].transaction != events[0].transaction then Err(CorruptEvent)
      else
        var next :- ApplyTransaction(s, EventsOf(events[..count]));
        ReplayFrom(next, events[count..])
  }

  method ReplayState(events: seq<Stored>) returns (r: Check, state: ToolState)
    ensures fresh(state) && (r.Ok? ==> WellKept(state.View()))
    ensures state.Matches(r, ReplayFrom(NO_CALLS, events))
  {
    hide ApplyTransaction, WellKept;
    state := new ToolState();
    NoCallsKept();
    var position := 0;
    assert events[0..] == events;
    while position < |events|
      invariant position <= |events|
      invariant WellKept(state.View())
      invariant ReplayFrom(NO_CALLS, events) == ReplayFrom(state.View(), events[position..])
      decreases |events| - position
    {
      var count := events[position].count;
      var end := position + count;
      if count == 0 || end > |events| {
        return Err(CorruptEvent), state;
      }
      var stored := events[position..end];
      assert events[position..][..count] == stored && events[position..][count..] == events[end..];
      if exists i :: 0 <= i < count && stored[i].transaction != events[position].transaction {
        return Err(CorruptEvent), state;
      }
      assert forall i :: 0 <= i < count ==> events[position..][i] == stored[i];
      TransactionKeeps(state.View(), EventsOf(stored));
      var applied := state.ApplyEvents(EventsOf(stored));
      if applied.Err? {
        return Err(applied.error), state;
      }
      position := end;
    }
    r := Ok(());
  }

  lemma TransactionKeeps(s: ToolData, txn: Transaction)
    requires WellKept(s)
    ensures ApplyTransaction(s, txn).Ok? ==> WellKept(ApplyTransaction(s, txn).value)
  {
    hide WellKept, ApplyAll;
    if ApplyTransaction(s, txn).Ok? {
      ApplyAllKeeps(s, txn);
    }
  }

  lemma ReplayFrame(s: ToolData, txn: Transaction, number: nat, rest: seq<Stored>)
    requires txn != []
    ensures ReplayFrom(s, StoredTxn(txn, number) + rest)
            == if ApplyTransaction(s, txn).Ok? then ReplayFrom(ApplyTransaction(s, txn).value, rest) else ApplyTransaction(s, txn)
  {
    hide ApplyTransaction;
    var stored := StoredTxn(txn, number);
    var events := stored + rest;
    assert events[..|txn|] == stored && events[|txn|..] == rest;
    assert EventsOf(stored) == txn;
    assert events[0] == stored[0];
    assert forall i :: 0 <= i < |txn| ==> events[i] == stored[i];
  }

  lemma {:induction false} ReplayFromAppend(s: ToolData, txns: seq<Transaction>, txn: Transaction, number: nat)
    requires txn != [] && forall i :: 0 <= i < |txns| ==> txns[i] != []
    ensures ReplayFrom(s, StoredOf(txns + [txn], number))
            == var before := ReplayFrom(s, StoredOf(txns, number)); if before.Ok? then ApplyTransaction(before.value, txn) else before
    decreases |txns|
  {
    hide ApplyTransaction, StoredTxn;
    if |txns| == 0 {
      assert (txns + [txn])[1..] == [];
      ReplayFrame(s, txn, number, []);
    } else {
      assert (txns + [txn])[0] == txns[0] && (txns + [txn])[1..] == txns[1..] + [txn];
      ReplayFrame(s, txns[0], number, StoredOf(txns[1..] + [txn], number + 1));
      ReplayFrame(s, txns[0], number, StoredOf(txns[1..], number + 1));
      if ApplyTransaction(s, txns[0]).Ok? {
        ReplayFromAppend(ApplyTransaction(s, txns[0]).value, txns[1..], txn, number + 1);
      }
    }
  }

  /** Frame-by-frame replay of a stored log is replay of its transactions. */
  lemma {:induction false} ReplayFramesAgree(txns: seq<Transaction>)
    requires forall i :: 0 <= i < |txns| ==> txns[i] != []
    ensures ReplayFrom(NO_CALLS, StoredOf(txns, 1)) == Replay(txns)
    decreases |txns|
  {
    hide ApplyTransaction;
    if |txns| > 0 {
      var init, last := txns[..|txns| - 1], txns[|txns| - 1];
      ReplayFramesAgree(init);
      assert init + [last] == txns;
      ReplayFromAppend(NO_CALLS, init, last, 1);
    }
  }

  // ---------- the runtime ----------

  class ToolLedger {
    var txns: seq<Transaction>
    var synced: nat
    var poisoned: bool

    constructor (txns: seq<Transaction>, synced: nat)
      ensures this.txns == txns && this.synced == synced && !poisoned
    {
      this.txns, this.synced, poisoned := txns, synced, false;
    }

    method AppendTransaction(txn: Transaction, write: WriteOutcome) returns (r: Check)
      modifies this
      ensures if old(poisoned) then r == Err(WriterPoisoned) && unchanged(this)
              else match write
                   case Refused => r == Err(AppendRefused) && unchanged(this)
                   case Torn(present) =>
                     && r == Err(DurabilityAmbiguous) && poisoned && synced == old(synced)
                     && txns == if present then old(txns) + [txn] else old(txns)
                   case Written => r == Ok(()) && !poisoned && txns == old(txns) + [txn] && synced == |txns|
    {
      if poisoned {
        return Err(WriterPoisoned);
      }
      match write
      case Refused =>
        return Err(AppendRefused);
      case Torn(present) =>
        if present {
          txns := txns + [txn];
        }
        poisoned := true;
        return Err(DurabilityAmbiguous);
      case Written =>
        txns := txns + [txn];
        synced := |txns|;
        return Ok(());
    }
  }

  /** The outside world as the executor touches it: every run leaves its mark. */
  class Executor {
    var effects: seq<Effect>

    constructor ()
      ensures effects == []
    {
      effects := [];
    }

    method Execute(record: Record, arguments: Arguments)
      modifies this
      ensures effects == old(effects) + [Effect(record.call, record.identity, arguments.digest)]
    {
      effects := effects + [Effect(record.call, record.identity, arguments.digest)];
    }
  }

  lemma AppendedClean(w: World, m: Memory, txn: Transaction, write: WriteOutcome)
    ensures var after := Append(w, m, txn, write);
            after.result.Ok? ==> after.world.memory == Some(Memory(after.result.value, false)) && after.world.effects == w.effects
  {
    hide ApplyTransaction;
  }

  class DurableToolRuntime {
    const ledger: ToolLedger
    const executor: Executor
    var state: ToolState

    ghost function Mind(): Memory
      reads this, ledger, state
    {
      Memory(state.View(), ledger.poisoned)
    }

    ghost function Now(): World
      reads this, ledger, state, executor
    {
      World(ledger.txns, ledger.synced, Some(Mind()), executor.effects)
    }

    /** What replay and every event keep of the state; see `ToolRuns.WellKept`. */
    ghost predicate Valid()
      reads this, state
    {
      WellKept(state.View())
    }

    constructor (ledger: ToolLedger, executor: Executor, state: ToolState)
      requires WellKept(state.View())
      ensures Valid()
      ensures this.ledger == ledger && this.executor == executor && this.state == state
    {
      this.ledger, this.executor, this.state := ledger, executor, state;
    }

    /** Applies to a copy, appends, and only then makes the copy the state. */
    method AppendEvents(txn: Transaction, write: WriteOutcome) returns (r: Check)
      requires Valid()
      modifies this, ledger
      ensures Valid()
      ensures state == old(state) || fresh(state)
      ensures old(state) != state ==> unchanged(old(state))
      ensures var after := Append(old(Now()), old(Mind()), txn, write);
              && Now() == after.world && (r.Ok? <==> after.result.Ok?)
              && if after.result.Ok? then state.View() == after.result.value else r == Err(after.result.error)
    {
      hide ApplyTransaction, WellKept;
      TransactionKeeps(state.View(), txn);
      var candidate := new ToolState.Clone(state);
      var _ :- candidate.ApplyEvents(txn);
      var _ :- ledger.AppendTransaction(txn, write);
      state := candidate;
      r := Ok(());
    }

    method RequestCall(principal: Principal, intent: Intent, write: WriteOutcome) returns (r: Result<RequestOutcome, ToolError>)
      requires Valid()
      modifies this, ledger
      ensures Valid()
      ensures var after := Request(old(Now()), old(Mind()), principal, intent, write);
              Now() == after.world && r == after.result
    {
      hide Append, ValidateIntent, ValidateAuthority, FirstPending, WellKept;
      ghost var view := state.View();
      var _ :- ValidateIntent(intent);
      var _ :- ValidateAuthority(principal.capabilities, intent);
      var hash := intent.arguments.digest;
      if intent.identity in state.identities {
        var call := state.identities[intent.identity];
        if call !in state.calls {
          return Err(CorruptState);
        }
        var record := state.calls[call];
        if !ToolModel.Matches(record, principal.agent, intent, hash) {
          return Err(IdentityConflict(intent.identity));
        }
        if record.status.AwaitingApproval? {
          return Ok(ApprovalRequired(ApprovalRequest(call, principal.session, intent, hash)));
        }
        return Ok(Existing(record));
      }
      var pending := FindPending();
      if pending.Some? {
        return Err(PendingReconciliation(pending.value));
      }
      var call := state.nextCall;
      if call == 0 || call == U64_MAX {
        return Err(IdentifierExhausted);
      }
      var _ :- AppendEvents([CallRequested(call, intent.identity, principal.agent, intent.tool, hash, BindingOf(intent.resources))], write);
      return Ok(ApprovalRequired(ApprovalRequest(call, principal.session, intent, hash)));
    }

    method FindPending() returns (pending: Option<CallId>)
      ensures pending == FirstPending(state.View())
    {
      pending := FirstPending(ToolData(state.calls, state.identities, state.nextCall));
    }

    method ResolveCall(principal: Principal, request: ApprovalRequest, decision: Decision, now: U64,
                       prepare: WriteOutcome, execution: Execution, settle: WriteOutcome)
        returns (r: Result<CallOutcome, ToolError>)
      requires Valid()
      modifies this, ledger, executor
      ensures Valid()
      ensures var after := Resolve(old(Now()), old(Mind()), principal, request, decision, now, prepare, Survives, execution, settle);
              Now() == after.world && r == after.result
    {
      hide Append, ValidateRequest, ValidateText, BindingOf, Report, OutcomeOf;
      var _ :- ValidateRequest(ToolData(state.calls, state.identities, state.nextCall), principal, request);
      match decision
      case Deny(reason) =>
        var _ :- ValidateText(reason, MAX_REASON_BYTES);
        var _ :- AppendEvents([ApprovalDenied(request.call, ApprovalDenial)], prepare);
        return Report(ToolData(state.calls, state.identities, state.nextCall), request.call);
      case Grant(expires) =>
        if expires <= now {
          return Err(ApprovalExpired);
        }
        var _ :- AppendEvents([ApprovalGranted(request.call, principal.agent, request.argumentsHash, BindingOf(request.intent.resources), expires),
                               EffectPrepared(request.call, request.argumentsHash)], prepare);
        if request.call !in state.calls {
          return Err(UnknownCall(request.call));
        }
        assert RecordKept(state.View(), request.call);
        AppendedClean(old(Now()), old(Mind()), PlanResolve(old(state.View()), principal, request, decision, now).value, prepare);
        executor.Execute(state.calls[request.call], request.intent.arguments);
        var _ :- AppendEvents([OutcomeOf(request.call, execution)], settle);
        return Report(ToolData(state.calls, state.identities, state.nextCall), request.call);
    }

    method ReconcileCall(principal: Principal, call: CallId, observation: Observation, write: WriteOutcome) returns (r: Result<Record, ToolError>)
      requires Valid()
      modifies this, ledger
      ensures Valid()
      ensures var after := Reconcile(old(Now()), old(Mind()), principal, call, observation, write);
              Now() == after.world && r == after.result
    {
      hide Append, ValidateRecordAuthority, ValidateText, WellKept;
      if call !in state.calls {
        return Err(UnknownCall(call));
      }
      var record := state.calls[call];
      if record.agent != principal.agent {
        return Err(ReconciliationAuthorityDenied(call));
      }
      var _ :- ValidateRecordAuthority(principal.capabilities, record);
      if record.status.Succeeded? || record.status.Failed? {
        return Ok(record);
      }
      if !record.status.ReconciliationRequired? {
        return Err(InvalidTransition(call));
      }
      var event: ToolEvent;
      match observation {
        case ObservedSucceeded(digest) =>
          event := EffectReconciledSucceeded(call, digest);
        case ObservedFailed(reason) =>
          var _ :- ValidateText(reason, MAX_REASON_BYTES);
          event := EffectReconciledFailed(call, ReconciledFailed);
      }
      var _ :- AppendEvents([event], write);
      r := Find(ToolData(state.calls, state.identities, state.nextCall), call);
    }
  }
}
