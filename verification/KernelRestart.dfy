/**
 From file to state: the kernel's log in the ledger's own file, cut anywhere,
 scanned, decoded and replayed.
 */
module KernelRestart {
  import opened Prelude
  import opened Journal
  import opened Bytes
  import opened KernelModel
  import opened KernelPlan
  import opened KernelRuns
  import opened KernelRuntime
  import opened RuntimeCodec
  import opened EventCodec
  import opened KernelLog
  import LC = LedgerCodec
  import LM = LedgerModel
  import LS = LedgerScan

  datatype RestartError = LedgerFault(ledger: LC.LedgerError) | CodecFault(codec: CodecError) | KernelFault(kernel: KernelError)

  function DecodeStored(k: Codebook, events: seq<LC.StoredEvent>): Result<seq<Stored>, CodecError> {
    if |events| == 0 then Ok([])
    else
      var first :- Decode(k, events[0].data);
      var others :- DecodeStored(k, events[1..]);
      Ok([Stored(events[0].transaction, events[0].sequence, events[0].count, first)] + others)
  }

  /** Scan the file, decode its events, replay them group by group. */
  function Restart(k: Codebook, file: seq<Byte>): Result<RuntimeData, RestartError>
    requires |file| >= LC.HEADER_BYTES
  {
    match LC.ScanFile(file)
    case Err(error) => Err(LedgerFault(error))
    case Ok(scan) =>
      match DecodeStored(k, scan.events)
      case Err(error) => Err(CodecFault(error))
      case Ok(events) =>
        match ReplayFrom(EMPTY, events, 0)
        case Err(error) => Err(KernelFault(error))
        case Ok(state) => Ok(state)
  }

  /** These stored events decode to those. */
  ghost predicate ReadsAs(k: Codebook, events: seq<LC.StoredEvent>, decoded: seq<Stored>) {
    |events| == |decoded| && forall i :: 0 <= i < |events| ==> OneReads(k, events[i], decoded[i])
  }

  ghost predicate OneReads(k: Codebook, event: LC.StoredEvent, decoded: Stored) {
    && Decode(k, event.data) == Ok(decoded.event) && event.transaction == decoded.transaction
    && event.sequence == decoded.sequence && event.count == decoded.count
  }

  lemma {:induction false} ReadsDecode(k: Codebook, events: seq<LC.StoredEvent>, decoded: seq<Stored>)
    requires ReadsAs(k, events, decoded)
    ensures DecodeStored(k, events) == Ok(decoded)
  {
    hide Decode;
    if |events| > 0 {
      assert OneReads(k, events[0], decoded[0]);
      forall i | 0 <= i < |events| - 1
        ensures OneReads(k, events[1..][i], decoded[1..][i])
      {
        assert OneReads(k, events[i + 1], decoded[i + 1]);
      }
      ReadsDecode(k, events[1..], decoded[1..]);
      assert [decoded[0]] + decoded[1..] == decoded;
    }
  }

  lemma {:induction false} StoredAt(events: seq<LC.EventData>, transaction: U64, first: nat, index: nat, i: nat)
    requires index <= |events| <= U32_MAX && first + |events| <= U64_MAX + 1 && i < |events| - index
    ensures var stored := LC.StoredFrom(events, transaction, first, index);
            |stored| == |events| - index && stored[i] == LC.StoredEvent(first + index + i, transaction, index + i, |events|, events[index + i])
    decreases |events| - index
  {
    StoredCount(events, transaction, first, index);
    if i > 0 {
      StoredAt(events, transaction, first, index + 1, i - 1);
    }
  }

  lemma {:induction false} StoredCount(events: seq<LC.EventData>, transaction: U64, first: nat, index: nat)
    requires index <= |events| <= U32_MAX && first + |events| <= U64_MAX + 1
    ensures |LC.StoredFrom(events, transaction, first, index)| == |events| - index
    decreases |events| - index
  {
    if index < |events| {
      StoredCount(events, transaction, first, index + 1);
    }
  }

  lemma {:induction false} FrameEach(k: Codebook, txn: Transaction, frame: Frame, i: nat)
    requires Faithful(k) && AllInBounds(k, txn) && EncodeTransaction(k, txn) == Ok(frame) && i < |txn|
    ensures |frame| == |txn| && Decode(k, frame[i]) == Ok(txn[i])
    decreases |txn|
  {
    hide Encode, Decode, InBounds, Faithful;
    FrameSize(k, txn, frame);
    DecodesItself(k, txn[0]);
    if i > 0 {
      FrameEach(k, txn[1..], frame[1..], i - 1);
    }
  }

  lemma {:induction false} FrameSize(k: Codebook, txn: Transaction, frame: Frame)
    requires EncodeTransaction(k, txn) == Ok(frame)
    ensures |frame| == |txn|
    decreases |txn|
  {
    hide Encode;
    if |txn| > 0 {
      FrameSize(k, txn[1..], frame[1..]);
    }
  }

  lemma FrameReads(k: Codebook, txn: Transaction, frame: Frame, transaction: U64, sequence: nat)
    requires Faithful(k) && AllInBounds(k, txn) && EncodeTransaction(k, txn) == Ok(frame)
    requires |frame| == |txn| <= U32_MAX && sequence + |txn| <= U64_MAX
    ensures ReadsAs(k, LC.StoredFrom(frame, transaction, sequence + 1, 0), StoredTxn(txn, transaction, sequence))
  {
    hide EncodeTransaction, Decode, AllInBounds, Faithful;
    StoredCount(frame, transaction, sequence + 1, 0);
    forall i | 0 <= i < |txn|
      ensures OneReads(k, LC.StoredFrom(frame, transaction, sequence + 1, 0)[i], StoredTxn(txn, transaction, sequence)[i])
    {
      StoredAt(frame, transaction, sequence + 1, 0, i);
      FrameEach(k, txn, frame, i);
    }
  }

  /** Transaction by transaction, these are those encoded. */
  ghost predicate Encodes(k: Codebook, txns: seq<Transaction>, frames: seq<Frame>) {
    |frames| == |txns| && forall i :: 0 <= i < |txns| ==> EncodeTransaction(k, txns[i]) == Ok(frames[i])
  }

  lemma {:induction false} LogEncodes(k: Codebook, txns: seq<Transaction>, frames: seq<Frame>)
    requires EncodeLog(k, txns) == Ok(frames)
    ensures Encodes(k, txns, frames)
    decreases |txns|
  {
    hide EncodeTransaction;
    if |txns| > 0 {
      LogEncodes(k, txns[1..], frames[1..]);
      forall i | 0 <= i < |txns|
        ensures EncodeTransaction(k, txns[i]) == Ok(frames[i])
      {
        if i > 0 {
          assert txns[i] == txns[1..][i - 1] && frames[i] == frames[1..][i - 1];
        }
      }
    }
  }

  lemma {:induction false} StoredMore(txns: seq<Transaction>, txn: Transaction, transaction: nat, sequence: nat)
    requires transaction + |txns| + 1 <= U64_MAX && sequence + TotalEvents(txns) + |txn| <= U64_MAX
    ensures TotalEvents(txns + [txn]) == TotalEvents(txns) + |txn|
    ensures StoredAfter(txns + [txn], transaction, sequence)
            == StoredAfter(txns, transaction, sequence) + StoredTxn(txn, transaction + |txns| + 1, sequence + TotalEvents(txns))
    decreases |txns|
  {
    hide StoredTxn, StoredAfter;
    TotalMore(txns, txn);
    var all := txns + [txn];
    if |txns| == 0 {
      assert all == [txn] && all[1..] == [];
      StoredSplits(all, transaction, sequence);
      NoneStored(transaction + 1, sequence + |txn|);
      NoneStored(transaction, sequence);
      var stored := StoredTxn(txn, transaction + 1, sequence);
      assert stored + [] == stored && [] + stored == stored;
    } else {
      TotalSplits(txns);
      assert all[0] == txns[0] && all[1..] == txns[1..] + [txn];
      StoredSplits(all, transaction, sequence);
      StoredSplits(txns, transaction, sequence);
      StoredMore(txns[1..], txn, transaction + 1, sequence + |txns[0]|);
      var head := StoredTxn(txns[0], transaction + 1, sequence);
      var middle := StoredAfter(txns[1..], transaction + 1, sequence + |txns[0]|);
      var last := StoredTxn(txn, transaction + |txns| + 1, sequence + TotalEvents(txns));
      assert head + (middle + last) == (head + middle) + last;
    }
  }

  lemma ReadsJoin(k: Codebook, a: seq<LC.StoredEvent>, b: seq<LC.StoredEvent>, c: seq<Stored>, d: seq<Stored>)
    requires ReadsAs(k, a, c) && ReadsAs(k, b, d)
    ensures ReadsAs(k, a + b, c + d)
  {
    hide OneReads;
    forall i | 0 <= i < |a + b|
      ensures OneReads(k, (a + b)[i], (c + d)[i])
    {
      if i < |a| {
        assert OneReads(k, a[i], c[i]);
      } else {
        assert OneReads(k, b[i - |a|], d[i - |a|]);
      }
    }
  }

  /** The events a ledger of these frames holds decode to the kernel's log. */
  lemma {:induction false} LedgerReads(k: Codebook, txns: seq<Transaction>, frames: seq<Frame>)
    requires Faithful(k) && LogInBounds(k, txns) && Encodes(k, txns, frames) && LS.Appendable(frames)
    ensures |txns| <= U64_MAX && TotalEvents(txns) <= U64_MAX
    ensures LS.Reached(frames).head == LC.Head(|txns|, TotalEvents(txns))
    ensures ReadsAs(k, LS.Reached(frames).events, StoredAfter(txns, 0, 0))
    decreases |txns|
  {
    hide EncodeTransaction, Faithful, AllInBounds, LS.Fits, LS.Frame, LS.Reached, LS.Extended, LS.Appendable, LS.Image, LS.Body, ReadsAs, LC.StoredFrom,
         StoredTxn, StoredAfter, TotalEvents, OneReads;
    if |txns| == 0 {
      LedgerEmpty(k);
      assert frames == [] && txns == [];
    } else {
      var init, last := txns[..|txns| - 1], txns[|txns| - 1];
      var before, frame := frames[..|txns| - 1], frames[|txns| - 1];
      LS.Last(frames);
      assert AllInBounds(k, last);
      LedgerReads(k, init, before);
      var scan := LS.Reached(before);
      LS.FitsMeans(scan, frame);
      ExtendedEvents(scan, frame);
      FrameSize(k, last, frame);
      FrameReads(k, last, frame, |init| + 1, TotalEvents(init));
      StoredMore(init, last, 0, 0);
      assert init + [last] == txns;
      ReadsJoin(k, scan.events, LC.StoredFrom(frame, |init| + 1, TotalEvents(init) + 1, 0), StoredAfter(init, 0, 0),
                StoredTxn(last, |init| + 1, TotalEvents(init)));
      assert StoredAfter(init, 0, 0) + StoredTxn(last, |init| + 1, TotalEvents(init)) == StoredAfter(txns, 0, 0);
    }
  }

  lemma ExtendedEvents(s: LC.Scan, frame: Frame)
    requires LS.Fits(s, frame)
    ensures LS.Extended(s, frame).head == LC.Head(s.head.transaction + 1, s.head.sequence + |frame|)
    ensures |frame| <= U32_MAX
    ensures LS.Extended(s, frame).events == s.events + LC.StoredFrom(frame, s.head.transaction + 1, s.head.sequence + 1, 0)
  {
    hide LS.Fits, LS.Body, LS.Frame, LC.StoredFrom, LC.EncodeBody, LC.PayloadBytes, LC.FrameOf;
    LS.FitsMeans(s, frame);
  }

  lemma LedgerEmpty(k: Codebook)
    ensures LS.Appendable([]) && LS.Reached([]) == LC.SCAN_START && ReadsAs(k, [], StoredAfter([], 0, 0)) && TotalEvents([]) == 0
  {
  }

  /** A file that scans to these frames restarts to the replay of the transactions they encode. */
  lemma ScannedRestarts(k: Codebook, txns: seq<Transaction>, frames: seq<Frame>, file: seq<Byte>)
    requires Faithful(k) && LogInBounds(k, txns) && Encodes(k, txns, frames) && LS.Appendable(frames)
    requires |file| >= LC.HEADER_BYTES && LC.ScanFile(file) == Ok(LS.Reached(frames))
    requires HeadFits(txns) && Replay(txns).Ok? && forall i :: 0 <= i < |txns| ==> |txns[i]| > 0
    ensures Restart(k, file) == Ok(Replay(txns).value)
  {
    hide Faithful, LogInBounds, Encodes, LS.Reached, LS.Appendable, LC.ScanFile, ReadsAs, Replay, HeadFits, ReplayAll, ReplayFrom, StoredAfter,
         DecodeStored;
    LedgerReads(k, txns, frames);
    ReadsDecode(k, LS.Reached(frames).events, StoredAfter(txns, 0, 0));
    ReplayAllAgrees(txns);
    GroupsReplay(EMPTY, [], txns, 0, 0);
    assert [] + StoredAfter(txns, 0, 0) == StoredAfter(txns, 0, 0);
  }

  lemma PrefixReplays(moves: seq<Move>, m: nat)
    requires m <= |Run(NEW_WORLD, moves).txns|
    ensures var txns := Run(NEW_WORLD, moves).txns[..m];
            HeadFits(txns) && Replay(txns).Ok? && forall i :: 0 <= i < |txns| ==> |txns[i]| > 0
  {
    hide Run, Replay, HeadFits, GoodThroughout, Good;
    RunSafe(moves);
    RunWritesEvents(moves);
    GoodPrefix(Run(NEW_WORLD, moves).txns, m);
    GoodWhole(Run(NEW_WORLD, moves).txns[..m]);
  }

  lemma CutLogRestarts(k: Codebook, moves: seq<Move>, frames: seq<Frame>, cut: nat)
    requires Faithful(k) && forall move <- moves :: MoveMade(k, move)
    requires EncodeLog(k, Run(NEW_WORLD, moves).txns) == Ok(frames) && LS.Appendable(frames)
    requires LC.HEADER_BYTES <= cut <= |LS.Image(frames)|
    ensures var m, txns := LS.Whole(frames, cut), Run(NEW_WORLD, moves).txns;
            && m <= |txns| && HeadFits(txns[..m]) && Replay(txns[..m]).Ok?
            && Restart(k, LS.Image(frames)[..cut]) == Ok(Replay(txns[..m]).value)
  {
    hide Run, Replay, HeadFits, Faithful, MoveMade, EncodeLog, AllWellMade, AllInBounds, Bounded, LS.Appendable, LS.Image, LS.Reached,
         LC.ScanFile, Restart, EncodeTransaction, LS.Whole;
    var txns, m := Run(NEW_WORLD, moves).txns, LS.Whole(frames, cut);
    RunStorable(k, moves);
    LogEncodes(k, txns, frames);
    LS.TornTail(frames, cut);
    PrefixReplays(moves, m);
    ScannedRestarts(k, txns[..m], frames[..m], LS.Image(frames)[..cut]);
  }

  lemma LogRestarts(k: Codebook, moves: seq<Move>, frames: seq<Frame>)
    requires Faithful(k) && forall move <- moves :: MoveMade(k, move)
    requires EncodeLog(k, Run(NEW_WORLD, moves).txns) == Ok(frames) && LS.Appendable(frames)
    ensures var w := Run(NEW_WORLD, moves);
            && Restart(k, LS.Image(frames)).Ok?
            && (w.memory.Some? && !w.memory.value.poisoned ==> Restart(k, LS.Image(frames)) == Ok(w.memory.value.state))
  {
    hide Run, Replay, HeadFits, Faithful, MoveMade, EncodeLog, AllWellMade, AllInBounds, Bounded, LS.Appendable, LS.Image, LS.Reached,
         LC.ScanFile, Restart, EncodeTransaction;
    var txns := Run(NEW_WORLD, moves).txns;
    RunStorable(k, moves);
    LogEncodes(k, txns, frames);
    LS.WholeScan(frames);
    PrefixReplays(moves, |txns|);
    assert txns[..|txns|] == txns;
    ReplayIsLive(moves);
    ScannedRestarts(k, txns, frames, LS.Image(frames));
  }

  // ---------- the ledger's own limits ----------

  /** The ledger can hold these transactions: they encode, and each fits after those before it. */
  ghost predicate Holds(k: Codebook, txns: seq<Transaction>) {
    EncodeLog(k, txns).Ok? && LS.Appendable(EncodeLog(k, txns).value)
  }

  /** A write the ledger has no room for ends refused, before a byte is written. */
  ghost function GuardMove(k: Codebook, w: World, move: Move): Move {
    if move.Act? && w.memory.Some? && HeadFits(w.txns) && PlanStep(w.memory.value.state, LedgerHead(w.txns), move.step).Ok?
       && !Holds(k, w.txns + [PlanStep(w.memory.value.state, LedgerHead(w.txns), move.step).value])
    then Act(move.step, Refused) else move
  }

  /** The moves as a kernel over a real ledger makes them. */
  ghost function Guarded(k: Codebook, moves: seq<Move>): seq<Move>
    decreases |moves|
  {
    if |moves| == 0 then []
    else
      var before := Guarded(k, moves[..|moves| - 1]);
      before + [GuardMove(k, Run(NEW_WORLD, before), moves[|moves| - 1])]
  }

  lemma {:induction false} EncodeLogMore(k: Codebook, txns: seq<Transaction>, txn: Transaction)
    requires EncodeLog(k, txns).Ok?
    ensures EncodeLog(k, txns + [txn]).Ok? <==> EncodeTransaction(k, txn).Ok?
    ensures EncodeTransaction(k, txn).Ok? ==> EncodeLog(k, txns + [txn]).value == EncodeLog(k, txns).value + [EncodeTransaction(k, txn).value]
    decreases |txns|
  {
    hide EncodeTransaction;
    var all := txns + [txn];
    if |txns| == 0 {
      assert all[0] == txn && all[1..] == [];
      assert EncodeLog(k, []) == Ok([]);
    } else {
      assert all[0] == txns[0] && all[1..] == txns[1..] + [txn];
      EncodeLogMore(k, txns[1..], txn);
      if EncodeTransaction(k, txn).Ok? {
        var first, others := EncodeTransaction(k, txns[0]).value, EncodeLog(k, txns[1..]).value;
        assert [first] + (others + [EncodeTransaction(k, txn).value]) == ([first] + others) + [EncodeTransaction(k, txn).value];
      }
    }
  }

  lemma {:induction false} EncodeLogPrefix(k: Codebook, txns: seq<Transaction>, m: nat)
    requires EncodeLog(k, txns).Ok? && m <= |txns|
    ensures |EncodeLog(k, txns).value| == |txns| && EncodeLog(k, txns[..m]) == Ok(EncodeLog(k, txns).value[..m])
    decreases |txns|
  {
    hide EncodeTransaction;
    LogEncodes(k, txns, EncodeLog(k, txns).value);
    if m > 0 {
      EncodeLogPrefix(k, txns[1..], m - 1);
      assert txns[..m][0] == txns[0] && txns[..m][1..] == txns[1..][..m - 1];
      var first, others := EncodeTransaction(k, txns[0]).value, EncodeLog(k, txns[1..]).value;
      assert ([first] + others)[..m] == [first] + others[..m - 1];
    } else {
      assert txns[..0] == [] && EncodeLog(k, txns).value[..0] == [];
    }
  }

  lemma HoldsPrefix(k: Codebook, txns: seq<Transaction>, m: nat)
    requires Holds(k, txns) && m <= |txns|
    ensures Holds(k, txns[..m])
  {
    hide EncodeLog, LS.Appendable;
    EncodeLogPrefix(k, txns, m);
    LS.PrefixAppendable(EncodeLog(k, txns).value, m);
  }

  lemma AppendableMore(frames: seq<Frame>, frame: Frame)
    requires LS.Appendable(frames)
    ensures LS.Appendable(frames + [frame]) <==> LS.Fits(LS.Reached(frames), frame)
  {
    hide LS.Fits, LS.Reached;
    var all := frames + [frame];
    assert all[..|all| - 1] == frames && all[|all| - 1] == frame;
  }

  /** Having room is exactly what the ledger's append accepts at its head. */
  lemma GuardIsLedger(k: Codebook, txns: seq<Transaction>, events: Transaction)
    requires Holds(k, txns) && EncodeTransaction(k, events).Ok?
    ensures var reached := LS.Reached(EncodeLog(k, txns).value);
            Holds(k, txns + [events]) <==> LM.PlanAppend(LM.HandleOf(reached), reached.head, EncodeTransaction(k, events).value).Ok?
  {
    hide EncodeLog, EncodeTransaction, LS.Appendable, LS.Fits, LS.Reached, LM.PlanAppend, LM.HandleOf;
    EncodeLogMore(k, txns, events);
    AppendableMore(EncodeLog(k, txns).value, EncodeTransaction(k, events).value);
    var reached := LS.Reached(EncodeLog(k, txns).value);
    LM.AppendAccepted(reached, reached.head, EncodeTransaction(k, events).value);
  }

  lemma GuardedMoveHolds(k: Codebook, w: World, move: Move)
    requires Holds(k, w.txns)
    ensures Holds(k, Perform(w, GuardMove(k, w, move)).txns)
  {
    hide Holds, PlanStep, Commit, HeadFits, Replay;
    if move.Crash? {
      HoldsPrefix(k, w.txns, Surviving(|w.txns|, w.synced, move.kept));
    }
  }

  lemma NothingHolds(k: Codebook)
    ensures Holds(k, [])
  {
  }

  lemma {:induction false} GuardedHolds(k: Codebook, moves: seq<Move>)
    ensures Holds(k, Run(NEW_WORLD, Guarded(k, moves)).txns)
    decreases |moves|
  {
    hide Holds, Perform, GuardMove;
    if |moves| == 0 {
      NothingHolds(k);
    } else {
      var before := Guarded(k, moves[..|moves| - 1]);
      GuardedHolds(k, moves[..|moves| - 1]);
      var next := GuardMove(k, Run(NEW_WORLD, before), moves[|moves| - 1]);
      GuardedMoveHolds(k, Run(NEW_WORLD, before), moves[|moves| - 1]);
      assert (before + [next])[..|before|] == before && (before + [next])[|before|] == next;
    }
  }

  lemma {:induction false} GuardedMade(k: Codebook, moves: seq<Move>)
    requires forall move <- moves :: MoveMade(k, move)
    ensures forall move <- Guarded(k, moves) :: MoveMade(k, move)
    decreases |moves|
  {
    hide StepMade, PlanStep, HeadFits, Holds, Run;
    if |moves| > 0 {
      GuardedMade(k, moves[..|moves| - 1]);
      assert moves[|moves| - 1] in moves;
    }
  }

  /** Cut the kernel's ledger file at any byte from the header on: the restart succeeds, with exactly the state the
      kernel had after the last transaction wholly before the cut. */
  lemma CutFileRestarts(k: Codebook, moves: seq<Move>, cut: nat)
    requires Faithful(k) && forall move <- moves :: MoveMade(k, move)
    ensures var txns := Run(NEW_WORLD, Guarded(k, moves)).txns;
            && Holds(k, txns)
            && var frames := EncodeLog(k, txns).value;
            LC.HEADER_BYTES <= cut <= |LS.Image(frames)| ==>
              var m := LS.Whole(frames, cut);
              && m <= |txns| && HeadFits(txns[..m]) && Replay(txns[..m]).Ok?
              && Restart(k, LS.Image(frames)[..cut]) == Ok(Replay(txns[..m]).value)
  {
    hide Run, Guarded, Replay, HeadFits, Faithful, MoveMade, EncodeLog, LS.Appendable, LS.Image, LS.Whole, Restart;
    GuardedHolds(k, moves);
    GuardedMade(k, moves);
    var frames := EncodeLog(k, Run(NEW_WORLD, Guarded(k, moves)).txns).value;
    if LC.HEADER_BYTES <= cut <= |LS.Image(frames)| {
      CutLogRestarts(k, Guarded(k, moves), frames, cut);
    }
  }

  /** The uncut file restarts to what an unpoisoned kernel still has in memory. */
  lemma FileRestarts(k: Codebook, moves: seq<Move>)
    requires Faithful(k) && forall move <- moves :: MoveMade(k, move)
    ensures var w := Run(NEW_WORLD, Guarded(k, moves));
            && Holds(k, w.txns)
            && var file := LS.Image(EncodeLog(k, w.txns).value);
            && Restart(k, file).Ok?
            && (w.memory.Some? && !w.memory.value.poisoned ==> Restart(k, file) == Ok(w.memory.value.state))
  {
    hide Run, Guarded, Faithful, MoveMade, EncodeLog, LS.Appendable, LS.Image, Restart;
    GuardedHolds(k, moves);
    GuardedMade(k, moves);
    LogRestarts(k, Guarded(k, moves), EncodeLog(k, Run(NEW_WORLD, Guarded(k, moves)).txns).value);
  }
}
