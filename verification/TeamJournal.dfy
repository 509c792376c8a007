/** The operation journal over whole runs: records are never rewritten and nothing is acknowledged twice. */
module TeamJournal {
  import opened Prelude
  import opened TeamModel
  import opened TeamPlan
  import opened TeamCommands
  import opened TeamDispatch
  import opened TeamSchedule
  import opened TeamRuns
  import opened TeamDelegation

  /** Every operation stays, under its transaction, and an acknowledged one stays exactly as it is. */
  ghost predicate RecordsKept(before: map<OperationId, Operation>, after: map<OperationId, Operation>) {
    forall o | o in before ::
      && o in after && after[o].transaction == before[o].transaction
      && (before[o].acknowledgement.Some? ==> after[o] == before[o])
  }

  ghost predicate Acknowledges(kind: EventKind, operation: OperationId) {
    kind.OperationAcknowledged? && kind.operation == operation
  }

  /** These events acknowledge only operations that were not, each once, and the journal holds what they say. */
  ghost predicate AcknowledgedOnce(kinds: seq<EventKind>, before: map<OperationId, Operation>, after: map<OperationId, Operation>) {
    && (forall i | 0 <= i < |kinds| && kinds[i].OperationAcknowledged? ::
          && (kinds[i].operation in before ==> before[kinds[i].operation].acknowledgement.None?)
          && kinds[i].operation in after && after[kinds[i].operation].acknowledgement == Some(kinds[i].acknowledgement))
    && (forall i, j | 0 <= i < j < |kinds| && kinds[i].OperationAcknowledged? :: !Acknowledges(kinds[j], kinds[i].operation))
  }

  lemma EventJournal(d: TeamData, event: EventKind, limit: nat)
    requires Apply(d, event, limit).Ok?
    ensures var e := Apply(d, event, limit).value;
            RecordsKept(d.operations, e.operations) && AcknowledgedOnce([event], d.operations, e.operations)
  {
    if !event.OperationCommitted? && !event.OperationAcknowledged? {
      OperationsUntouched(d, event, limit);
    }
  }

  lemma JournalJoins(first: EventKind, rest: seq<EventKind>, a: map<OperationId, Operation>, b: map<OperationId, Operation>,
                     c: map<OperationId, Operation>)
    requires RecordsKept(a, b) && AcknowledgedOnce([first], a, b) && RecordsKept(b, c) && AcknowledgedOnce(rest, b, c)
    ensures RecordsKept(a, c) && AcknowledgedOnce([first] + rest, a, c)
  {
    var all := [first] + rest;
    assert first.OperationAcknowledged? ==> [first][0] == first && first.operation in b && b[first.operation].acknowledgement.Some?;
    forall i | 0 <= i < |all| && all[i].OperationAcknowledged?
      ensures all[i].operation in a ==> a[all[i].operation].acknowledgement.None?
      ensures all[i].operation in c && c[all[i].operation].acknowledgement == Some(all[i].acknowledgement)
    {
      if i > 0 {
        assert all[i] == rest[i - 1];
      } else {
        assert all[i] == [first][0];
      }
    }
    forall i, j | 0 <= i < j < |all| && all[i].OperationAcknowledged?
      ensures !Acknowledges(all[j], all[i].operation)
    {
      assert all[j] == rest[j - 1];
      if i > 0 {
        assert all[i] == rest[i - 1];
      }
    }
  }

  lemma {:induction false} EventsJournal(d: TeamData, events: seq<EventKind>, limit: nat)
    requires ApplyAll(d, events, limit).Ok?
    ensures var e := ApplyAll(d, events, limit).value;
            RecordsKept(d.operations, e.operations) && AcknowledgedOnce(events, d.operations, e.operations)
    decreases |events|
  {
    hide Apply, RecordsKept, AcknowledgedOnce;
    if events == [] {
      NoEvents(d.operations);
    } else {
      var next := Apply(d, events[0], limit).value;
      EventJournal(d, events[0], limit);
      EventsJournal(next, events[1..], limit);
      JournalJoins(events[0], events[1..], d.operations, next.operations, ApplyAll(d, events, limit).value.operations);
      assert [events[0]] + events[1..] == events;
    }
  }

  lemma NoEvents(operations: map<OperationId, Operation>)
    ensures RecordsKept(operations, operations) && AcknowledgedOnce([], operations, operations)
  {
  }

  /** What one request adds to the log, and what that does to the journal. */
  lemma PerformJournal(t: Team, request: Request) returns (kinds: seq<EventKind>)
    requires Live(t) && Perform(t, request).Ok?
    ensures var next := Perform(t, request).value;
            && RecordsKept(t.data.operations, next.data.operations) && AcknowledgedOnce(kinds, t.data.operations, next.data.operations)
            && HasRoom(t, kinds) && next.log == t.log + Frame(kinds, |t.log| + 1, t.nextTransaction)
  {
    var base := BaseEvents(t, request).value;
    assert BaseEvents(t, request).Ok? by {
      hide PrepareEvents;
    }
    hide Sound, Quiescent, Perform, BaseEvents, Fits, Live, RecordsKept, AcknowledgedOnce;
    PerformDecided(t, request);
    LiveSound(t);
    BaseAccepted(t, request);
    OutcomeSettled(t, base);
    hide Accepted, Reconcile;
    kinds := Outcome(t, request).value.events;
    EventsJournal(t.data, kinds, t.limit);
  }

  lemma RecordsChain(a: map<OperationId, Operation>, b: map<OperationId, Operation>, c: map<OperationId, Operation>)
    requires RecordsKept(a, b) && RecordsKept(b, c)
    ensures RecordsKept(a, c)
  {
  }

  /** No sequence of requests drops an operation, moves it to another transaction, or changes an acknowledgement. */
  lemma {:induction false} RunKeepsJournal(t: Team, requests: seq<Request>)
    requires Live(t)
    ensures RecordsKept(t.data.operations, Run(t, requests).data.operations)
    decreases |requests|
  {
    hide Live, Perform, RecordsKept;
    if requests == [] {
      NoEvents(t.data.operations);
    } else {
      match Perform(t, requests[0])
      case Ok(next) =>
        PerformKeepsLive(t, requests[0]);
        var _ := PerformJournal(t, requests[0]);
        RunKeepsJournal(next, requests[1..]);
        RecordsChain(t.data.operations, next.data.operations, Run(t, requests).data.operations);
      case Err(_) => RunKeepsJournal(t, requests[1..]);
    }
  }

  /** The log names each acknowledged operation once, with the acknowledgement the journal still holds. */
  ghost predicate LogAcknowledges(log: seq<TeamEvent>, operations: map<OperationId, Operation>) {
    && (forall i | 0 <= i < |log| && log[i].kind.OperationAcknowledged? ::
          log[i].kind.operation in operations && operations[log[i].kind.operation].acknowledgement == Some(log[i].kind.acknowledgement))
    && (forall i, j | 0 <= i < j < |log| && log[i].kind.OperationAcknowledged? :: !Acknowledges(log[j].kind, log[i].kind.operation))
  }

  lemma LogGrows(log: seq<TeamEvent>, frame: seq<TeamEvent>, kinds: seq<EventKind>, before: map<OperationId, Operation>,
                 after: map<OperationId, Operation>)
    requires LogAcknowledges(log, before) && RecordsKept(before, after) && AcknowledgedOnce(kinds, before, after)
    requires |frame| == |kinds| && forall i | 0 <= i < |frame| :: frame[i].kind == kinds[i]
    ensures LogAcknowledges(log + frame, after)
  {
    var all := log + frame;
    assert forall i | |log| <= i < |all| :: all[i].kind == kinds[i - |log|];
    forall i, j | 0 <= i < j < |all| && all[i].kind.OperationAcknowledged?
      ensures !Acknowledges(all[j].kind, all[i].kind.operation)
    {
      if j >= |log| {
        assert all[j].kind == kinds[j - |log|];
        if i < |log| {
          assert before[log[i].kind.operation].acknowledgement.Some?;
        }
      }
    }
  }

  lemma {:induction false} RunAcknowledges(t: Team, requests: seq<Request>)
    requires Live(t) && LogAcknowledges(t.log, t.data.operations)
    ensures LogAcknowledges(Run(t, requests).log, Run(t, requests).data.operations)
    decreases |requests|
  {
    hide Live, Perform, RecordsKept, AcknowledgedOnce, LogAcknowledges;
    if requests != [] {
      match Perform(t, requests[0])
      case Ok(next) =>
        PerformKeepsLive(t, requests[0]);
        var kinds := PerformJournal(t, requests[0]);
        LogGrows(t.log, Frame(kinds, |t.log| + 1, t.nextTransaction), kinds, t.data.operations, next.data.operations);
        RunAcknowledges(next, requests[1..]);
      case Err(_) => RunAcknowledges(t, requests[1..]);
    }
  }

  /** Over every run no operation is acknowledged twice, and every acknowledgement in the log is the journal's. */
  lemma AcknowledgedAtMostOnce(limit: nat, authority: nat, requests: seq<Request>)
    ensures var t := Run(NewTeam(limit, authority), requests); LogAcknowledges(t.log, t.data.operations)
  {
    hide Live;
    NewTeamLive(limit, authority);
    RunAcknowledges(NewTeam(limit, authority), requests);
  }
}
