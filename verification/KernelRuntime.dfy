/**
 The kernel as it runs: a transaction is applied to a copy, checked, appended
 and then published; and a log is replayed in groups.
 */
module KernelRuntime {
  import opened Prelude
  import opened Journal
  import opened KernelModel
  import opened KernelPlan
  import opened KernelRuns
  import opened KernelState
  import Context

  // ---------- replay ----------

  /** A stored event with the framing replay reads. */
  datatype Stored = Stored(transaction: U64, sequence: U64, count: nat, event: Event)

  /** The first position at or after `index` whose transaction is another. */
  function GroupEnd(events: seq<Stored>, index: nat, transaction: U64): (end: nat)
    requires index <= |events|
    ensures index <= end <= |events|
    ensures forall i :: index <= i < end ==> events[i].transaction == transaction
    ensures end < |events| ==> events[end].transaction != transaction
    decreases |events| - index
  {
    if index == |events| || events[index].transaction != transaction then index else GroupEnd(events, index + 1, transaction)
  }

  function PriorHead(events: seq<Stored>, index: nat): Context.Head
    requires index <= |events|
  {
    if index == 0 then Context.Head(0, 0) else Context.Head(events[index - 1].transaction, events[index - 1].sequence)
  }

  /** One event of a group: a checkpoint must be alone and bound to the head before the group. */
  function ReplayEvent(s: RuntimeData, stored: Stored, prior: Context.Head): Applied {
    if stored.event.CheckpointPublished? && (stored.count != 1 || Context.HeadOf(stored.event.checkpoint.source) != prior) then Err(Corrupt)
    else Apply(s, stored.event)
  }

  function ReplayGroup(s: RuntimeData, events: seq<Stored>, index: nat, end: nat, prior: Context.Head): Applied
    requires index <= end <= |events|
    decreases end - index
  {
    if index == end then Ok(s)
    else
      var next :- ReplayEvent(s, events[index], prior);
      ReplayGroup(next, events, index + 1, end, prior)
  }

  function ReplayFrom(s: RuntimeData, events: seq<Stored>, index: nat): Applied
    requires index <= |events|
    decreases |events| - index
  {
    if index == |events| then Ok(s)
    else
      var end := GroupEnd(events, index, events[index].transaction);
      var candidate :- ReplayGroup(s, events, index, end, PriorHead(events, index));
      if Quiescent(candidate) then ReplayFrom(candidate, events, end) else Err(Corrupt)
  }

  /** The replay loops: the inner one over a group on a copy, the outer one over groups. */
  method ReplayRuntime(events: seq<Stored>) returns (r: Check, state: RuntimeState)
    ensures fresh(state) && state.Realizes(ReplayFrom(EMPTY, events, 0), r)
  {
    hide Apply, Quiescent;
    state := new RuntimeState();
    var index := 0;
    while index < |events|
      invariant index <= |events| && fresh(state)
      invariant ReplayFrom(EMPTY, events, 0) == ReplayFrom(state.View(), events, index)
      decreases |events| - index
    {
      var prior := PriorHead(events, index);
      var transaction := events[index].transaction;
      ghost var end := GroupEnd(events, index, transaction);
      ghost var start := index;
      var candidate := new RuntimeState.Clone(state);
      ghost var before := state.View();
      while index < |events| && events[index].transaction == transaction
        invariant start <= index <= end
        invariant fresh(candidate) && candidate != state && state.View() == before
        invariant GroupEnd(events, index, transaction) == end
        invariant ReplayGroup(before, events, start, end, prior) == ReplayGroup(candidate.View(), events, index, end, prior)
        decreases |events| - index
      {
        var stored := events[index];
        if stored.event.CheckpointPublished? && (stored.count != 1 || Context.HeadOf(stored.event.checkpoint.source) != prior) {
          return Err(Corrupt), state;
        }
        var applied := candidate.ApplyEvent(stored.event);
        if applied.Err? {
          return Err(applied.error), state;
        }
        index := index + 1;
      }
      assert index == end && ReplayGroup(before, events, start, end, prior) == Ok(candidate.View());
      if !Quiescent(candidate.View()) {
        return Err(Corrupt), state;
      }
      state := candidate;
    }
    r := Ok(());
  }

  /** The log a ledger of these transactions holds, numbered after `head`. */
  ghost function StoredAfter(txns: seq<Transaction>, transaction: nat, sequence: nat): seq<Stored>
    requires transaction + |txns| <= U64_MAX && sequence + TotalEvents(txns) <= U64_MAX
    decreases |txns|
  {
    if |txns| == 0 then []
    else
      TotalSplits(txns);
      StoredTxn(txns[0], transaction + 1, sequence) + StoredAfter(txns[1..], transaction + 1, sequence + |txns[0]|)
  }

  ghost function TotalEvents(txns: seq<Transaction>): nat {
    if |txns| == 0 then 0 else |txns[0]| + TotalEvents(txns[1..])
  }

  lemma TotalSplits(txns: seq<Transaction>)
    requires |txns| > 0
    ensures TotalEvents(txns) == |txns[0]| + TotalEvents(txns[1..])
  {
  }

  ghost function StoredTxn(txn: Transaction, transaction: U64, sequence: nat): (stored: seq<Stored>)
    requires sequence + |txn| <= U64_MAX
    ensures |stored| == |txn|
  {
    seq(|txn|, i requires 0 <= i < |txn| => Stored(transaction, sequence + i + 1, |txn|, txn[i]))
  }

  /** A group that is exactly one stored transaction. */
  ghost predicate GroupIs(events: seq<Stored>, index: nat, txn: Transaction) {
    index + |txn| <= |events| && forall i :: 0 <= i < |txn| ==> events[index + i].event == txn[i] && events[index + i].count == |txn|
  }

  lemma {:induction false} GroupApplies(s: RuntimeData, events: seq<Stored>, index: nat, txn: Transaction, k: nat, prior: Context.Head)
    requires k <= |txn| && GroupIs(events, index, txn) && CheckpointBound(txn, prior)
    ensures ReplayGroup(s, events, index + k, index + |txn|, prior) == ApplyAll(s, txn[k..])
    decreases |txn| - k
  {
    hide Apply;
    if k < |txn| {
      assert txn[k..][0] == txn[k] && txn[k..][1..] == txn[k + 1..];
      assert events[index + k].event == txn[k];
      if Apply(s, txn[k]).Ok? {
        GroupApplies(Apply(s, txn[k]).value, events, index, txn, k + 1, prior);
      }
    }
  }

  lemma {:induction false} GroupEnds(events: seq<Stored>, index: nat, end: nat, transaction: U64)
    requires index <= end <= |events| && forall i :: index <= i < end ==> events[i].transaction == transaction
    requires end == |events| || events[end].transaction != transaction
    ensures GroupEnd(events, index, transaction) == end
    decreases end - index
  {
    if index < end {
      GroupEnds(events, index + 1, end, transaction);
    }
  }

  /** The replay of transactions from a state and a head, in the order the ledger holds them. */
  ghost function ReplayAll(s: RuntimeData, txns: seq<Transaction>, transaction: nat, sequence: nat): Applied
    requires transaction + |txns| <= U64_MAX && sequence + TotalEvents(txns) <= U64_MAX
    decreases |txns|
  {
    if |txns| == 0 then Ok(s)
    else
      TotalSplits(txns);
      var next := ReplayTransaction(s, Context.Head(transaction, sequence), txns[0]);
      if next.Err? then next else ReplayAll(next.value, txns[1..], transaction + 1, sequence + |txns[0]|)
  }

  /** The shape of one stored transaction in the middle of a log. */
  lemma GroupShape(before: seq<Stored>, txn: Transaction, later: seq<Stored>, transaction: U64, sequence: nat)
    requires |txn| > 0 && sequence + |txn| <= U64_MAX && (|later| > 0 ==> later[0].transaction != transaction)
    ensures var events, index := before + StoredTxn(txn, transaction, sequence) + later, |before|;
            && index + |txn| <= |events| && GroupIs(events, index, txn) && events[index].transaction == transaction
            && GroupEnd(events, index, transaction) == index + |txn|
            && (index > 0 ==> events[index - 1] == before[index - 1])
            && events[index + |txn| - 1].transaction == transaction && events[index + |txn| - 1].sequence == sequence + |txn|
  {
    var stored := StoredTxn(txn, transaction, sequence);
    var events, index := before + stored + later, |before|;
    assert forall i :: 0 <= i < |txn| ==> events[index + i] == stored[i];
    forall i | index <= i < index + |txn|
      ensures events[i].transaction == transaction
    {
      assert events[i] == stored[i - index];
    }
    assert index + |txn| < |events| ==> events[index + |txn|] == later[0];
    GroupEnds(events, index, index + |txn|, transaction);
  }

  lemma GroupReplayed(s: RuntimeData, events: seq<Stored>, index: nat, txn: Transaction, prior: Context.Head)
    requires |txn| > 0 && index + |txn| <= |events| && GroupIs(events, index, txn) && PriorHead(events, index) == prior
    requires GroupEnd(events, index, events[index].transaction) == index + |txn| && ReplayTransaction(s, prior, txn).Ok?
    ensures ReplayFrom(s, events, index) == ReplayFrom(ReplayTransaction(s, prior, txn).value, events, index + |txn|)
  {
    hide Apply, Quiescent, CheckpointBound, GroupIs;
    GroupApplies(s, events, index, txn, 0, prior);
    assert txn[0..] == txn;
    hide ReplayGroup, ApplyAll;
  }

  lemma StoredSplits(txns: seq<Transaction>, transaction: nat, sequence: nat)
    requires |txns| > 0 && transaction + |txns| <= U64_MAX && sequence + TotalEvents(txns) <= U64_MAX
    ensures sequence + |txns[0]| + TotalEvents(txns[1..]) <= U64_MAX
    ensures StoredAfter(txns, transaction, sequence)
            == StoredTxn(txns[0], transaction + 1, sequence) + StoredAfter(txns[1..], transaction + 1, sequence + |txns[0]|)
  {
    TotalSplits(txns);
  }

  lemma GroupsStep(s: RuntimeData, before: seq<Stored>, txns: seq<Transaction>, transaction: nat, sequence: nat)
    requires |txns| > 0 && transaction + |txns| <= U64_MAX && sequence + TotalEvents(txns) <= U64_MAX
    requires forall i :: 0 <= i < |txns| ==> |txns[i]| > 0
    requires PriorHead(before, |before|) == Context.Head(transaction, sequence)
    requires ReplayTransaction(s, Context.Head(transaction, sequence), txns[0]).Ok?
    ensures sequence + |txns[0]| + TotalEvents(txns[1..]) <= U64_MAX
    ensures var more := before + StoredTxn(txns[0], transaction + 1, sequence);
            && PriorHead(more, |more|) == Context.Head(transaction + 1, sequence + |txns[0]|)
            && ReplayFrom(s, before + StoredAfter(txns, transaction, sequence), |before|)
               == ReplayFrom(ReplayTransaction(s, Context.Head(transaction, sequence), txns[0]).value,
                             more + StoredAfter(txns[1..], transaction + 1, sequence + |txns[0]|), |more|)
  {
    hide ReplayTransaction, StoredAfter, GroupEnd, GroupIs, StoredTxn, ReplayFrom;
    StoredSplits(txns, transaction, sequence);
    var txn, rest := txns[0], txns[1..];
    var prior := Context.Head(transaction, sequence);
    var stored := StoredTxn(txn, transaction + 1, sequence);
    var later := StoredAfter(rest, transaction + 1, sequence + |txn|);
    var events := before + StoredAfter(txns, transaction, sequence);
    assert events == before + stored + later;
    LaterNumbers(rest, transaction + 1, sequence + |txn|);
    GroupShape(before, txn, later, transaction + 1, sequence);
    GroupReplayed(s, events, |before|, txn, prior);
    var more := before + stored;
    assert more[|more| - 1] == events[|more| - 1];
  }

  /** Grouped replay of the log accepts what replay by transactions accepts, with the same state. */
  lemma {:induction false} GroupsReplay(s: RuntimeData, before: seq<Stored>, txns: seq<Transaction>, transaction: nat, sequence: nat)
    requires transaction + |txns| <= U64_MAX && sequence + TotalEvents(txns) <= U64_MAX
    requires forall i :: 0 <= i < |txns| ==> |txns[i]| > 0
    requires PriorHead(before, |before|) == Context.Head(transaction, sequence)
    requires ReplayAll(s, txns, transaction, sequence).Ok?
    ensures ReplayFrom(s, before + StoredAfter(txns, transaction, sequence), |before|) == ReplayAll(s, txns, transaction, sequence)
    decreases |txns|
  {
    hide ReplayTransaction, StoredAfter, StoredTxn, PriorHead;
    if |txns| == 0 {
      NoneStored(transaction, sequence);
      assert before + [] == before;
    } else {
      hide ReplayFrom;
      GroupsStep(s, before, txns, transaction, sequence);
      GroupsReplay(ReplayTransaction(s, Context.Head(transaction, sequence), txns[0]).value,
                   before + StoredTxn(txns[0], transaction + 1, sequence), txns[1..], transaction + 1, sequence + |txns[0]|);
    }
  }

  lemma NoneStored(transaction: nat, sequence: nat)
    requires transaction <= U64_MAX && sequence <= U64_MAX
    ensures TotalEvents([]) == 0 && StoredAfter([], transaction, sequence) == []
  {
  }

  lemma LaterNumbers(txns: seq<Transaction>, transaction: nat, sequence: nat)
    requires transaction + |txns| <= U64_MAX && sequence + TotalEvents(txns) <= U64_MAX
    requires forall i :: 0 <= i < |txns| ==> |txns[i]| > 0
    ensures |StoredAfter(txns, transaction, sequence)| > 0 ==> StoredAfter(txns, transaction, sequence)[0].transaction == transaction + 1
  {
    if |txns| > 0 {
      TotalSplits(txns);
    }
  }

  lemma {:induction false} TotalMore(txns: seq<Transaction>, txn: Transaction)
    ensures TotalEvents(txns + [txn]) == TotalEvents(txns) + |txn|
    decreases |txns|
  {
    if |txns| == 0 {
      assert (txns + [txn])[1..] == [];
    } else {
      assert (txns + [txn])[0] == txns[0] && (txns + [txn])[1..] == txns[1..] + [txn];
      TotalMore(txns[1..], txn);
    }
  }

  lemma {:induction false} HeadCounts(txns: seq<Transaction>)
    ensures HeadAfter(txns) == (|txns|, TotalEvents(txns))
    decreases |txns|
  {
    if |txns| > 0 {
      var init := txns[..|txns| - 1];
      HeadCounts(init);
      TotalMore(init, txns[|txns| - 1]);
      assert init + [txns[|txns| - 1]] == txns;
    }
  }

  lemma {:induction false} ReplayAllMore(s: RuntimeData, txns: seq<Transaction>, txn: Transaction, transaction: nat, sequence: nat)
    requires transaction + |txns| + 1 <= U64_MAX && sequence + TotalEvents(txns) + |txn| <= U64_MAX
    ensures TotalEvents(txns + [txn]) == TotalEvents(txns) + |txn|
    ensures ReplayAll(s, txns + [txn], transaction, sequence)
            == var before := ReplayAll(s, txns, transaction, sequence);
               if before.Err? then before
               else ReplayTransaction(before.value, Context.Head(transaction + |txns|, sequence + TotalEvents(txns)), txn)
    decreases |txns|
  {
    hide ReplayTransaction;
    TotalMore(txns, txn);
    var all := txns + [txn];
    if |txns| == 0 {
      assert all[0] == txn && all[1..] == [];
      NoneStored(transaction + 1, sequence + |txn|);
    } else {
      TotalSplits(txns);
      assert all[0] == txns[0] && all[1..] == txns[1..] + [txn];
      var next := ReplayTransaction(s, Context.Head(transaction, sequence), txns[0]);
      if next.Ok? {
        ReplayAllMore(next.value, txns[1..], txn, transaction + 1, sequence + |txns[0]|);
      }
    }
  }

  lemma {:induction false} ReplayAllAgrees(txns: seq<Transaction>)
    requires HeadFits(txns)
    ensures |txns| <= U64_MAX && TotalEvents(txns) <= U64_MAX && ReplayAll(EMPTY, txns, 0, 0) == Replay(txns)
    decreases |txns|
  {
    hide ReplayTransaction;
    HeadCounts(txns);
    if |txns| > 0 {
      var init, last := txns[..|txns| - 1], txns[|txns| - 1];
      HeadFitsBefore(txns);
      HeadCounts(init);
      assert init + [last] == txns;
      TotalMore(init, last);
      ReplayAllAgrees(init);
      ReplayAllMore(EMPTY, init, last, 0, 0);
    }
  }

  lemma {:induction false} RunWritesEvents(moves: seq<Move>)
    ensures forall i :: 0 <= i < |Run(NEW_WORLD, moves).txns| ==> |Run(NEW_WORLD, moves).txns[i]| > 0
    decreases |moves|
  {
    hide PlanStep, Commit, Replay, HeadFits;
    if |moves| > 0 {
      RunWritesEvents(moves[..|moves| - 1]);
    }
  }

  /** Replaying the stored log of any run, group by group, gives exactly the state the kernel had in memory. */
  lemma LogReplaysToMemory(moves: seq<Move>)
    ensures var w := Run(NEW_WORLD, moves);
            && HeadFits(w.txns) && |w.txns| <= U64_MAX && TotalEvents(w.txns) <= U64_MAX
            && ReplayFrom(EMPTY, StoredAfter(w.txns, 0, 0), 0) == Replay(w.txns)
            && (w.memory.Some? && !w.memory.value.poisoned ==>
                  ReplayFrom(EMPTY, StoredAfter(w.txns, 0, 0), 0) == Ok(w.memory.value.state))
  {
    hide Run, Replay, HeadFits, ReplayAll, ReplayFrom, StoredAfter;
    ReplayIsLive(moves);
    RunWritesEvents(moves);
    var w := Run(NEW_WORLD, moves);
    ReplayAllAgrees(w.txns);
    GroupsReplay(EMPTY, [], w.txns, 0, 0);
    assert [] + StoredAfter(w.txns, 0, 0) == StoredAfter(w.txns, 0, 0);
  }

  // ---------- the kernel ----------

  class KernelLedger {
    var txns: seq<Transaction>
    var synced: nat
    var poisoned: bool

    constructor ()
      ensures txns == [] && synced == 0 && !poisoned
    {
      txns, synced, poisoned := [], 0, false;
    }

    method AppendTransaction(txn: Transaction, write: WriteOutcome) returns (ok: bool)
      modifies this
      ensures ok <==> !old(poisoned) && write.Written? && HeadFits(old(txns) + [txn])
      ensures if old(poisoned) || write.Refused? || !HeadFits(old(txns) + [txn]) then unchanged(this)
              else if write.Torn? then poisoned && synced == old(synced) && txns == (if write.present then old(txns) + [txn] else old(txns))
              else !poisoned && txns == old(txns) + [txn] && synced == |txns|
    {
      if poisoned || write.Refused? || !HeadFits(txns + [txn]) {
        return false;
      }
      match write
      case Torn(present) =>
        if present {
          txns := txns + [txn];
        }
        poisoned := true;
        return false;
      case Written =>
        txns := txns + [txn];
        synced := |txns|;
        return true;
      case Refused =>
        return false;
    }
  }

  class RuntimeKernel {
    const ledger: KernelLedger
    var state: RuntimeState

    ghost function Mind(): Memory
      reads this, ledger, state
    {
      Memory(state.View(), ledger.poisoned)
    }

    ghost function Now(): World
      reads this, ledger, state
    {
      World(ledger.txns, ledger.synced, Some(Mind()))
    }

    constructor (ledger: KernelLedger, state: RuntimeState)
      ensures this.ledger == ledger && this.state == state
    {
      this.ledger, this.state := ledger, state;
    }

    /** Applies to a copy event by event, checks it may rest, appends, and only then publishes the copy. */
    method CommitEvents(events: seq<Event>, write: WriteOutcome) returns (ok: bool)
      modifies this, ledger
      ensures state == old(state) || fresh(state)
      ensures Now() == CommitTo(old(Now()), old(Mind()), events, write)
      ensures ok ==> Commit(old(state.View()), events) == Ok(state.View())
      ensures !ok ==> state == old(state) && state.View() == old(state.View())
    {
      hide Apply, Quiescent, HeadFits;
      ghost var start := state.View();
      var candidate := new RuntimeState.Clone(state);
      assert events[0..] == events;
      for i := 0 to |events|
        modifies candidate
        invariant ApplyAll(start, events) == ApplyAll(candidate.View(), events[i..])
      {
        assert events[i..][0] == events[i] && events[i..][1..] == events[i + 1..];
        var applied := candidate.ApplyEvent(events[i]);
        if applied.Err? {
          return false;
        }
      }
      if !Quiescent(candidate.View()) {
        return false;
      }
      ok := ledger.AppendTransaction(events, write);
      if ok {
        state := candidate;
      }
    }

    /** One operation of the driver. */
    method Act(step: Step, write: WriteOutcome) returns (ok: bool)
      requires HeadFits(ledger.txns)
      modifies this, ledger
      ensures Now() == KernelPlan.Perform(old(Now()), KernelPlan.Act(step, write))
    {
      hide PlanStep, CommitTo, HeadFits;
      var plan := PlanStep(state.View(), LedgerHead(ledger.txns), step);
      if plan.Err? || |plan.value| == 0 {
        return plan.Ok?;
      }
      ok := CommitEvents(plan.value, write);
    }
  }
}
