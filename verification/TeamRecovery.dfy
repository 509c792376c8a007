/**
 Recovery. The log of any run replays, under its own Active limit or a larger
 one, to the state, log and next identifiers of the runtime that wrote it.
 */
module TeamRecovery {
  import opened Prelude
  import opened TeamModel
  import opened TeamPlan
  import opened TeamInvariant
  import opened TeamSchedule
  import opened TeamGrowth
  import opened TeamDispatch
  import opened TeamRuns

  // ---------- replay is independent of a larger limit ----------

  lemma ApplyUnderLargerLimit(d: TeamData, event: EventKind, limit: nat, larger: nat)
    requires limit <= larger && Apply(d, event, limit).Ok?
    ensures Apply(d, event, larger) == Apply(d, event, limit)
  {
  }

  lemma {:induction false} ApplyAllUnderLargerLimit(d: TeamData, events: seq<EventKind>, limit: nat, larger: nat)
    requires limit <= larger && ApplyAll(d, events, limit).Ok?
    ensures ApplyAll(d, events, larger) == ApplyAll(d, events, limit)
    decreases |events|
  {
    hide Apply;
    if events != [] {
      ApplyUnderLargerLimit(d, events[0], limit, larger);
      ApplyAllUnderLargerLimit(Apply(d, events[0], limit).value, events[1..], limit, larger);
    }
  }

  lemma ValidatedUnderLargerLimit(d: TeamData, limit: nat, larger: nat)
    requires limit <= larger && Validated(d, limit)
    ensures Validated(d, larger)
  {
    hide Owned, OperationsSound, AgentSound;
  }

  /** The limit a replay infers never exceeds the live one, and a live state is quiescent under it. */
  lemma QuiescentUnderInferredLimit(d: TeamData, limit: nat, inferred: nat)
    requires Quiescent(d, limit) && ActiveCount(d) <= limit && inferred <= limit
    ensures Quiescent(d, Max(inferred, ActiveCount(d))) && Max(inferred, ActiveCount(d)) <= limit
  {
    hide Settled;
  }

  // ---------- one frame ----------

  lemma {:induction false} ReplayFrameApplies(d: TeamData, kinds: seq<EventKind>, offset: nat, r: Replay, transaction: TransactionId, limit: nat)
    requires |kinds| <= U32_MAX && offset <= |kinds| && r.sequence + |kinds| <= U64_MAX + 1
    requires ApplyAll(d, kinds[offset..], limit).Ok?
    ensures var frame := Frame(kinds, r.sequence, transaction);
            ReplayFrame(d, frame, offset, r, limit) == Ok(ApplyAll(d, kinds[offset..], limit).value)
    decreases |kinds| - offset
  {
    hide Apply;
    if offset < |kinds| {
      assert kinds[offset..][0] == kinds[offset] && kinds[offset..][1..] == kinds[offset + 1..];
      ReplayFrameApplies(Apply(d, kinds[offset], limit).value, kinds, offset + 1, r, transaction, limit);
    }
  }

  /** What replay has reconstructed after reading the whole log of a live runtime. */
  ghost predicate Rebuilt(t: Team, r: Replay) {
    && r.data == t.data && r.cursor == |t.log| && r.sequence == |t.log| + 1
    && r.transaction == t.nextTransaction && 1 <= r.activeLimit <= t.limit
  }

  lemma ReplayNextReads(r: Replay, log: seq<TeamEvent>, frame: seq<TeamEvent>, e: TeamData, limit: nat)
    requires r.cursor + |frame| == |log| && frame != [] && log[r.cursor..] == frame
    requires frame[0].sequence == r.sequence && frame[0].transaction == r.transaction
    requires frame[0].index == 0 && frame[0].count == |frame|
    requires OperationFraming(frame) && ReplayFrame(r.data, frame, 0, r, limit) == Ok(e)
    requires Validated(e, limit) && Quiescent(e, Max(r.activeLimit, ActiveCount(e)))
    ensures var next := ReplayNext(r, log, limit);
            if r.sequence + |frame| <= U64_MAX && r.transaction < U64_MAX then
              next == Ok(Replay(e, |log|, r.sequence + |frame|, r.transaction + 1, Max(r.activeLimit, ActiveCount(e))))
            else next.Err?
  {
    hide Validated, Quiescent, OperationFraming, ReplayFrame, ActiveCount, Max;
    assert log[r.cursor] == frame[0];
    assert log[r.cursor..r.cursor + |frame|] == frame;
  }

  lemma ReplayNextFrame(t: Team, kinds: seq<EventKind>, e: TeamData, r: Replay, limit: nat)
    requires Rebuilt(t, r) && t.limit <= limit && kinds != [] && HasRoom(t, kinds) && StoredIdentifier(t.nextTransaction)
    requires ApplyAll(t.data, kinds, t.limit) == Ok(e) && Validated(e, t.limit) && Quiescent(e, t.limit)
    requires OperationFraming(Frame(kinds, |t.log| + 1, t.nextTransaction))
    ensures var log := t.log + Frame(kinds, |t.log| + 1, t.nextTransaction);
            var next := ReplayNext(r, log, limit);
            if |log| < U64_MAX then
              next == Ok(Replay(e, |log|, |log| + 1, t.nextTransaction + 1, Max(r.activeLimit, ActiveCount(e))))
              && Max(r.activeLimit, ActiveCount(e)) <= t.limit
            else next.Err?
  {
    hide Validated, Quiescent, ApplyAll, OperationFraming, ReplayFrame, ReplayNext, ActiveCount;
    var frame := Frame(kinds, |t.log| + 1, t.nextTransaction);
    ApplyAllUnderLargerLimit(t.data, kinds, t.limit, limit);
    assert kinds[0..] == kinds;
    ReplayFrameApplies(t.data, kinds, 0, r, t.nextTransaction, limit);
    ValidatedUnderLargerLimit(e, t.limit, limit);
    ValidatedActive(e, t.limit);
    QuiescentUnderInferredLimit(e, t.limit, r.activeLimit);
    ReplayNextReads(r, t.log + frame, frame, e, limit);
  }

  lemma ValidatedActive(d: TeamData, limit: nat)
    requires Validated(d, limit)
    ensures ActiveCount(d) <= limit
  {
  }

  // ---------- whole logs ----------

  /** Replay never looks past the transaction at its cursor. */
  lemma ReplayNextPrefix(r: Replay, log: seq<TeamEvent>, more: seq<TeamEvent>, limit: nat)
    requires r.cursor < |log| && ReplayNext(r, log, limit).Ok?
    ensures ReplayNext(r, log + more, limit) == ReplayNext(r, log, limit)
    ensures r.cursor < ReplayNext(r, log, limit).value.cursor <= |log|
  {
    hide Validated, Quiescent, OperationFraming, ReplayFrame, ActiveCount;
    var first := log[r.cursor];
    assert (log + more)[r.cursor] == first;
    assert (log + more)[r.cursor..r.cursor + first.count] == log[r.cursor..r.cursor + first.count];
  }

  lemma {:induction false} ReplayAllExtends(r: Replay, log: seq<TeamEvent>, more: seq<TeamEvent>, limit: nat)
    requires r.cursor <= |log| && ReplayAll(r, log, limit).Ok?
    ensures ReplayAll(r, log, limit).value.cursor == |log|
    ensures ReplayAll(r, log + more, limit) == ReplayAll(ReplayAll(r, log, limit).value, log + more, limit)
    decreases |log| - r.cursor
  {
    hide ReplayNext;
    if r.cursor < |log| {
      ReplayNextPrefix(r, log, more, limit);
      ReplayAllExtends(ReplayNext(r, log, limit).value, log, more, limit);
    }
  }

  ghost predicate Replayable(t: Team, limit: nat) {
    ReplayAll(REPLAY_START, t.log, limit).Ok? && Rebuilt(t, ReplayAll(REPLAY_START, t.log, limit).value)
  }

  /** What one carried-out request adds to the log, with everything recovery will check about it. */
  lemma PerformedFrame(t: Team, request: Request)
    requires Live(t) && Perform(t, request).Ok?
    ensures BaseEvents(t, request).Ok? && Outcome(t, request).Ok?
    ensures var q, next := Outcome(t, request).value, Perform(t, request).value;
            && q.events != [] && HasRoom(t, q.events) && StoredIdentifier(t.nextTransaction)
            && ApplyAll(t.data, q.events, t.limit) == Ok(q.data) && Validated(q.data, t.limit) && Quiescent(q.data, t.limit)
            && OperationFraming(Frame(q.events, |t.log| + 1, t.nextTransaction))
            && next.log == t.log + Frame(q.events, |t.log| + 1, t.nextTransaction)
            && next.data == q.data && next.limit == t.limit && next.nextTransaction == t.nextTransaction + 1
  {
    PerformHasBase(t, request);
    hide Sound, Quiescent, Validated, Reconcile, ApplyAll, OperationFraming, BaseEvents, Fits, Perform, Live, HasRoom;
    PerformDecided(t, request);
    BaseAccepted(t, request);
    OutcomeSettled(t, BaseEvents(t, request).value);
    SoundValidated(Outcome(t, request).value.data, t.limit);
    assert |Outcome(t, request).value.events| <= U32_MAX && |t.log| + |Outcome(t, request).value.events| <= U64_MAX by {
      RoomMeans(t, Outcome(t, request).value.events);
    }
    OutcomeFraming(t, request, |t.log| + 1);
    NextCounters(t, request, Perform(t, request).value);
  }

  lemma RoomMeans(t: Team, kinds: seq<EventKind>)
    requires HasRoom(t, kinds)
    ensures |kinds| <= U32_MAX && |t.log| + |kinds| <= U64_MAX
  {
  }

  lemma PerformHasBase(t: Team, request: Request)
    requires Perform(t, request).Ok?
    ensures BaseEvents(t, request).Ok?
  {
    hide PrepareEvents, BaseEvents;
  }

  /** One carried-out request keeps its log replayable as long as sequence numbers remain;
      the log that uses up the last one can no longer be replayed. */
  lemma PerformKeepsReplayable(t: Team, request: Request, limit: nat)
    requires Live(t) && Replayable(t, limit) && t.limit <= limit && Perform(t, request).Ok?
    ensures var next := Perform(t, request).value;
            if |next.log| < U64_MAX then Replayable(next, limit) else ReplayAll(REPLAY_START, next.log, limit).Err?
  {
    hide Live, Outcome, BaseEvents, ReplayNext, ReplayAll, ApplyAll, Validated, Quiescent, OperationFraming, Frame;
    PerformedFrame(t, request);
    hide Perform;
    var q, next := Outcome(t, request).value, Perform(t, request).value;
    var frame := Frame(q.events, |t.log| + 1, t.nextTransaction);
    var r := ReplayAll(REPLAY_START, t.log, limit).value;
    ReplayAllExtends(REPLAY_START, t.log, frame, limit);
    ReplayNextFrame(t, q.events, q.data, r, limit);
    ReplayStep(r, next.log, limit);
  }

  lemma ReplayStep(r: Replay, log: seq<TeamEvent>, limit: nat)
    requires r.cursor < |log|
    ensures ReplayNext(r, log, limit).Err? ==> ReplayAll(r, log, limit).Err?
    ensures ReplayNext(r, log, limit).Ok? && ReplayNext(r, log, limit).value.cursor == |log| ==>
              ReplayAll(r, log, limit) == ReplayNext(r, log, limit)
  {
    hide ReplayNext;
  }

  lemma PerformGrowsLog(t: Team, request: Request)
    requires Live(t) && Perform(t, request).Ok?
    ensures |t.log| < |Perform(t, request).value.log| <= U64_MAX
  {
    PerformedFrame(t, request);
    hide Live, Perform, Outcome, BaseEvents, ApplyAll, Validated, Quiescent, OperationFraming;
  }

  lemma FullLogStops(t: Team, requests: seq<Request>)
    requires Live(t) && |t.log| == U64_MAX
    ensures Run(t, requests) == t
    decreases |requests|
  {
    if requests != [] {
      if Perform(t, requests[0]).Ok? {
        PerformGrowsLog(t, requests[0]);
        assert false;
      }
      hide Live, Perform;
      FullLogStops(t, requests[1..]);
    }
  }

  lemma {:induction false} RunKeepsReplayable(t: Team, requests: seq<Request>, limit: nat)
    requires Live(t) && Replayable(t, limit) && t.limit <= limit && |t.log| < U64_MAX
    ensures var final := Run(t, requests);
            if |final.log| < U64_MAX then Replayable(final, limit) else ReplayAll(REPLAY_START, final.log, limit).Err?
    decreases |requests|
  {
    hide Live, Perform, Replayable, ReplayAll;
    if requests != [] {
      match Perform(t, requests[0])
      case Ok(next) =>
        PerformKeepsLive(t, requests[0]);
        NextCounters(t, requests[0], next);
        PerformKeepsReplayable(t, requests[0], limit);
        PerformGrowsLog(t, requests[0]);
        if |next.log| < U64_MAX {
          RunKeepsReplayable(next, requests[1..], limit);
        } else {
          FullLogStops(next, requests[1..]);
        }
      case Err(_) => RunKeepsReplayable(t, requests[1..], limit);
    }
  }

  lemma NewTeamReplayable(limit: nat, authority: nat, larger: nat)
    requires limit >= 1
    ensures Replayable(NewTeam(limit, authority), larger)
  {
  }

  lemma RecoveredTeam(t: Team, limit: nat, authority: nat)
    requires Replayable(t, limit) && Counted(t) && limit >= 1
    ensures Recover(limit, authority, t.log) == Ok(t.(limit := limit, authority := authority))
  {
    hide ReplayAll;
  }

  /** Exact replay: after any sequence of requests, recovering from the log under the original
      limit or a larger one yields the same state, log and next identifiers. It works for every
      log short of the last sequence number, and for no other. */
  lemma RecoverRebuildsRun(limit: nat, authority: nat, requests: seq<Request>, largerLimit: nat, newAuthority: nat)
    requires 1 <= limit <= largerLimit
    ensures var t := Run(NewTeam(limit, authority), requests);
            var recovered := Recover(largerLimit, newAuthority, t.log);
            if |t.log| < U64_MAX then recovered == Ok(t.(limit := largerLimit, authority := newAuthority))
            else recovered.Err?
  {
    hide Live, Replayable, ReplayAll, Run;
    var start := NewTeam(limit, authority);
    NewTeamLive(limit, authority);
    NewTeamReplayable(limit, authority, largerLimit);
    RunStaysLive(start, requests);
    RunKeepsReplayable(start, requests, largerLimit);
    var t := Run(start, requests);
    if |t.log| < U64_MAX {
      assert Counted(t) by {
        LiveCounted(t);
      }
      RecoveredTeam(t, largerLimit, newAuthority);
    }
  }

  lemma LiveCounted(t: Team)
    requires Live(t)
    ensures Counted(t)
  {
  }

  // ---------- acknowledging after recovery under a larger limit ----------

  lemma SoundUnderLargerLimit(d: TeamData, limit: nat, larger: nat)
    requires Sound(d, limit) && limit <= larger
    ensures Sound(d, larger)
  {
    hide Shape, DependencySafe, Validated, LiveChain, CompletionMatches;
    ValidatedUnderLargerLimit(d, limit, larger);
  }

  /** A free slot and a ready task make the scheduler speak. */
  lemma FreeSlotIsUsed(p: Progress, limit: nat)
    requires Schedulable(p.data) && AllSettled(p.data) && (forall t | t in p.data.tasks :: t >= 1)
    requires ActiveCount(p.data) < limit && ReadyTasks(p.data.tasks) != {}
    ensures Reconcile(p, limit).Ok? && |Reconcile(p, limit).value.events| > |p.events|
  {
    hide Settled, Schedulable, ActiveCount, StartOne;
    PendingTasksExact(p.data.tasks, MaxId(p.data.tasks.Keys));
    SettledPassIdle(p, PendingTasks(p.data.tasks, MaxId(p.data.tasks.Keys)), limit);
    StartOneEffect(p, limit);
    var next := StartOne(p, limit).value;
    var t := Least(ReadyTasks(p.data.tasks));
    StartedSchedulable(p.data, t);
    StartedSettled(p.data, t);
    StartOneConsumesReady(p, limit);
    ActivateSettles(next, limit);
  }

  lemma AcknowledgedPlanned(t: Team, operation: OperationId)
    requires Sound(t.data, t.limit) && Journaled(t) && Fits(t, Acknowledge(operation)) && BaseEvents(t, Acknowledge(operation)).Ok?
    ensures var base := BaseEvents(t, Acknowledge(operation)).value;
            var planned := ApplyAll(t.data, base, t.limit);
            && |base| == 1 && base[0].OperationAcknowledged?
            && planned.Ok? && Sound(planned.value, t.limit)
            && planned.value.tasks == t.data.tasks && planned.value.agents == t.data.agents
  {
    hide Sound, Apply, ApplyAll, Journaled;
    var base := BaseEvents(t, Acknowledge(operation)).value;
    AcknowledgementAccepted(t, operation);
    ApplySingle(t.data, base[0], t.limit);
    AcknowledgedOnlyJournal(t.data, base[0], t.limit);
  }

  lemma CrowdedAcknowledgement(events: seq<TeamEvent>)
    requires |events| >= 2 && events[0].kind.OperationAcknowledged?
    requires forall i | 1 <= i < |events| :: SchedulerEvent(events[i].kind)
    ensures !OperationFraming(events)
  {
    CountNone(events, IsCommitMarker);
    CountNone(events[1..], IsAckMarker);
  }

  lemma SettledTasksAlone(d: TeamData, e: TeamData)
    requires d.tasks == e.tasks && AllSettled(d)
    ensures AllSettled(e)
  {
    assert forall x | x in e.tasks :: Settled(d, x) ==> Settled(e, x);
  }

  /** Under a larger limit a recovered team may have waiting work: acknowledging an operation is
      then refused, because scheduling that work would share the acknowledgement's transaction.
      It is accepted exactly when no ready task waits for one of the new slots. */
  lemma AcknowledgeAfterRecovery(t: Team, larger: nat, operation: OperationId)
    requires Live(t) && t.limit <= larger && Fits(t, Acknowledge(operation)) && StoredIdentifier(t.nextTransaction)
    requires |t.log| < U64_MAX
    ensures Perform(t.(limit := larger), Acknowledge(operation)).Ok?
            <==> (ReadyTasks(t.data.tasks) == {} || ActiveCount(t.data) >= larger)
  {
    var u := t.(limit := larger);
    SoundUnderLargerLimit(t.data, t.limit, larger);
    assert AllSettled(t.data);
    assert BaseEvents(u, Acknowledge(operation)).Ok? && Journaled(u) && Fits(u, Acknowledge(operation)) && Counted(u);
    hide Sound, Fits, Journaled, Counted, AllSettled, ActiveCount;
    if ReadyTasks(t.data.tasks) == {} || ActiveCount(t.data) >= larger {
      assert Live(u) by {
        SettledQuiescent(u.data, larger);
      }
      hide Live, BaseEvents, Perform, Outcome;
      PerformDecided(u, Acknowledge(operation));
      AcknowledgedAlone(u, operation);
      AcknowledgementIsOne(u, operation);
    } else {
      hide Live;
      var base := BaseEvents(u, Acknowledge(operation)).value;
      AcknowledgedPlanned(u, operation);
      var planned := ApplyAll(u.data, base, larger).value;
      hide BaseEvents, ApplyAll;
      SettledTasksAlone(u.data, planned);
      SoundOwned(planned, larger);
      SameActive(u.data, planned);
      FreeSlotIsUsed(Progress(planned, base), larger);
      ReconcileReachesQuiescence(Progress(planned, base), larger);
      CrowdedRefused(u, base);
      PerformUnfolds(u, Acknowledge(operation));
    }
  }

  lemma SameActive(d: TeamData, e: TeamData)
    requires d.agents == e.agents
    ensures ActiveCount(d) == ActiveCount(e)
  {
  }

  lemma AcknowledgementIsOne(t: Team, operation: OperationId)
    requires BaseEvents(t, Acknowledge(operation)).Ok?
    ensures |BaseEvents(t, Acknowledge(operation)).value| == 1
  {
  }

  lemma SettledQuiescent(d: TeamData, limit: nat)
    requires AllSettled(d) && (ReadyTasks(d.tasks) == {} || ActiveCount(d) >= limit)
    ensures Quiescent(d, limit)
  {
    hide Settled;
  }

  lemma CrowdedRefused(t: Team, base: seq<EventKind>)
    requires ApplyAll(t.data, base, t.limit).Ok? && |base| == 1 && base[0].OperationAcknowledged?
    requires var q := Reconcile(Progress(ApplyAll(t.data, base, t.limit).value, base), t.limit);
             q.Ok? && |q.value.events| > 1 && OnlySchedulerEvents(base, q.value.events)
    ensures PrepareEvents(t, t.nextTransaction, base).Err?
  {
    hide Validated, Quiescent, Reconcile, ApplyAll, NextIdentifier, OperationFraming;
    var kinds := Reconcile(Progress(ApplyAll(t.data, base, t.limit).value, base), t.limit).value.events;
    assert kinds[0] == base[0];
    if |kinds| <= U32_MAX && |t.log| + |kinds| <= U64_MAX {
      CrowdedAcknowledgement(Frame(kinds, |t.log| + 1, t.nextTransaction));
    }
  }
}
