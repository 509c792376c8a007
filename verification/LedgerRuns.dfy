/**
 Whole lives of a ledger file: appends that end any way, closes, power losses
 that take unsynced bytes, reopens. Receipted transactions survive all of it.
 */
module LedgerRuns {
  import opened Prelude
  import Journal
  import opened Bytes
  import opened LedgerCodec
  import opened LedgerScan
  import opened LedgerModel

  /** A write that reached the file: its events, and the receipt if append returned one. */
  datatype Attempt = Attempt(events: seq<EventData>, receipt: Option<Receipt>)

  /** `synced` bytes are certain to survive a power loss. The attempts up to the last sync are
      `durable`, those since `recent`; both are kept for the theorems only. */
  datatype World = World(bytes: seq<Byte>, synced: nat, handle: Option<Handle>, durable: seq<Attempt>, recent: seq<Attempt>)

  const NEW_WORLD := World([], 0, None, [], [])

  datatype Step =
    | DoAppend(expected: Head, events: seq<EventData>, write: WriteOutcome)
    | DoOpen(create: bool, repair: bool, header: WriteOutcome)
    | DoClose
    | PowerLoss(kept: nat)

  /** A power loss leaves some leading bytes, never fewer than were synced. */
  function StepAppend(w: World, h: Handle, expected: Head, events: seq<EventData>, write: WriteOutcome): World {
    if PlanAppend(h, expected, events).Err? then w
    else
      var after := Append(w.bytes, h, expected, events, write);
      match after.result
      case Ok(receipt) =>
        World(after.bytes, |after.bytes|, Some(after.handle), w.durable + w.recent + [Attempt(events, Some(receipt))], [])
      case Err(_) =>
        w.(bytes := after.bytes, handle := Some(after.handle), recent := w.recent + [Attempt(events, None)])
  }

  function StepOpen(w: World, create: bool, repair: bool, header: WriteOutcome): World {
    var after := Open(w.bytes, create, repair, header);
    match after.result
    case Err(_) => w.(bytes := after.bytes)
    case Ok((h, _)) =>
      if after.bytes == w.bytes then w.(handle := Some(h))
      else World(after.bytes, |after.bytes|, Some(h), w.durable + w.recent, [])
  }

  /** A second open meets the exclusive lock; a closed ledger takes no append. */
  function Perform(w: World, step: Step): World {
    match step
    case DoAppend(expected, events, write) => if w.handle.Some? then StepAppend(w, w.handle.value, expected, events, write) else w
    case DoOpen(create, repair, header) => if w.handle.None? then StepOpen(w, create, repair, header) else w
    case DoClose => w.(handle := None)
    case PowerLoss(kept) =>
      w.(bytes := w.bytes[..Journal.Surviving(|w.bytes|, w.synced, kept)], handle := None)
  }

  function Run(w: World, steps: seq<Step>): World
    decreases |steps|
  {
    if steps == [] then w else Perform(Run(w, steps[..|steps| - 1]), steps[|steps| - 1])
  }

  // ---------- accounting for attempts ----------

  /** `txns` are attempts of the history in order: every receipted one at the place its receipt names,
      each other one whole or not at all. */
  ghost predicate Accounts(history: seq<Attempt>, offset: nat, txns: seq<seq<EventData>>)
    decreases |history|
  {
    if history == [] then txns == []
    else
      var rest, last := history[..|history| - 1], history[|history| - 1];
      || (last.receipt.None? && Accounts(rest, offset, txns))
      || (&& txns != [] && last.events == txns[|txns| - 1]
          && (last.receipt.Some? ==> last.receipt.value.transaction == offset + |txns|)
          && Accounts(rest, offset, txns[..|txns| - 1]))
  }

  ghost predicate NoReceipts(history: seq<Attempt>) {
    forall i :: 0 <= i < |history| ==> history[i].receipt.None?
  }

  lemma {:induction false} Trim(history: seq<Attempt>, offset: nat, txns: seq<seq<EventData>>, m: nat)
    requires NoReceipts(history) && Accounts(history, offset, txns) && m <= |txns|
    ensures Accounts(history, offset, txns[..m])
    decreases |history|
  {
    if history != [] {
      var rest, last := history[..|history| - 1], history[|history| - 1];
      if Accounts(rest, offset, txns) {
        Trim(rest, offset, txns, m);
      } else if m < |txns| {
        Trim(rest, offset, txns[..|txns| - 1], m);
        assert txns[..|txns| - 1][..m] == txns[..m];
      } else {
        assert txns[..m] == txns;
      }
    } else {
      assert txns[..m] == [];
    }
  }

  lemma AddSkipped(history: seq<Attempt>, offset: nat, txns: seq<seq<EventData>>, attempt: Attempt)
    requires Accounts(history, offset, txns) && attempt.receipt.None?
    ensures Accounts(history + [attempt], offset, txns)
  {
    assert (history + [attempt])[..|history|] == history;
  }

  lemma AddPresent(history: seq<Attempt>, offset: nat, txns: seq<seq<EventData>>, attempt: Attempt)
    requires Accounts(history, offset, txns)
    requires attempt.receipt.Some? ==> attempt.receipt.value.transaction == offset + |txns| + 1
    ensures Accounts(history + [attempt], offset, txns + [attempt.events])
  {
    assert (history + [attempt])[..|history|] == history;
    assert (txns + [attempt.events])[..|txns|] == txns;
  }

  lemma {:induction false} Joined(first: seq<Attempt>, offset: nat, x: seq<seq<EventData>>, second: seq<Attempt>, y: seq<seq<EventData>>)
    requires Accounts(first, offset, x) && Accounts(second, offset + |x|, y)
    ensures Accounts(first + second, offset, x + y)
    decreases |second|
  {
    if second == [] {
      assert first + second == first && x + y == x;
    } else {
      var rest, last := second[..|second| - 1], second[|second| - 1];
      assert first + second == (first + rest) + [last];
      if last.receipt.None? && Accounts(rest, offset + |x|, y) {
        Joined(first, offset, x, rest, y);
        AddSkipped(first + rest, offset, x + y, last);
      } else {
        Joined(first, offset, x, rest, y[..|y| - 1]);
        AddPresent(first + rest, offset, x + y[..|y| - 1], last);
        assert x + y == (x + y[..|y| - 1]) + [last.events];
      }
    }
  }

  /** What accounting means for a caller holding receipts. */
  lemma {:induction false} ReceiptsPresent(history: seq<Attempt>, txns: seq<seq<EventData>>)
    requires Accounts(history, 0, txns)
    ensures forall i :: 0 <= i < |history| && history[i].receipt.Some? ==>
              var t := history[i].receipt.value.transaction; 1 <= t <= |txns| && txns[t - 1] == history[i].events
    ensures forall i, j :: 0 <= i < j < |history| && history[i].receipt.Some? && history[j].receipt.Some? ==>
              history[i].receipt.value.transaction < history[j].receipt.value.transaction
    decreases |history|
  {
    if history != [] {
      var rest, last := history[..|history| - 1], history[|history| - 1];
      if last.receipt.None? && Accounts(rest, 0, txns) {
        ReceiptsPresent(rest, txns);
      } else {
        ReceiptsPresent(rest, txns[..|txns| - 1]);
      }
      assert forall i :: 0 <= i < |history| - 1 ==> history[i] == rest[i];
    }
  }

  // ---------- the invariant of every life ----------

  /** The file is some accepted appends cut somewhere at or after the header. `n` of them are covered by a sync. */
  ghost predicate Consistent(w: World, all: seq<seq<EventData>>, n: nat) {
    && Appendable(all) && HEADER_BYTES <= |w.bytes| <= |Image(all)| && w.bytes == Image(all)[..|w.bytes|]
    && n <= Whole(all, |w.bytes|)
    && CoveredBySync(w, all, n)
    && Accounts(w.durable, 0, all[..n]) && Accounts(w.recent, n, all[n..Whole(all, |w.bytes|)]) && NoReceipts(w.recent)
    && HandleMatches(w, all)
  }

  ghost predicate CoveredBySync(w: World, all: seq<seq<EventData>>, n: nat)
    requires Appendable(all)
  {
    && w.synced <= |w.bytes| && n <= |all| && Appendable(all[..n])
    && if w.synced == 0 then n == 0 && w.durable == [] else Reached(all[..n]).validBytes <= w.synced
  }

  /** A usable handle remembers exactly what the file holds, and the file has no torn tail. */
  ghost predicate HandleMatches(w: World, all: seq<seq<EventData>>)
    requires Appendable(all)
  {
    w.handle.Some? && !w.handle.value.poisoned ==>
      var m := Whole(all, |w.bytes|);
      Appendable(all[..m]) && w.handle.value == HandleOf(Reached(all[..m])) && |w.bytes| == Reached(all[..m]).validBytes
  }

  /** The header is not there yet, or a crash took it back: nothing was ever receipted. */
  ghost predicate Unborn(w: World) {
    && |w.bytes| < HEADER_BYTES && w.bytes == Header()[..|w.bytes|] && w.synced == 0 && w.handle.None?
    && w.durable == [] && NoReceipts(w.recent)
  }

  ghost predicate Lasting(w: World) {
    Unborn(w) || exists all, n :: Consistent(w, all, n)
  }

  // ---------- counting whole frames ----------

  lemma Grows(all: seq<seq<EventData>>, a: nat, b: nat)
    requires Appendable(all) && a <= b <= |all|
    ensures Appendable(all[..a]) && Appendable(all[..b]) && Reached(all[..a]).validBytes <= Reached(all[..b]).validBytes
  {
    hide Appendable, Reached, Image;
    PrefixAppendable(all, b);
    PrefixAppendable(all[..b], a);
    assert all[..b][..a] == all[..a];
  }

  /** `Whole` is the one count whose frames fit the cut while the next does not. */
  lemma WholeIs(all: seq<seq<EventData>>, k: nat, cut: nat)
    requires Appendable(all) && HEADER_BYTES <= cut && k <= |all|
    requires Appendable(all[..k]) && Reached(all[..k]).validBytes <= cut
    ensures k <= Whole(all, cut)
    ensures (k == |all| || (Appendable(all[..k + 1]) && cut < Reached(all[..k + 1]).validBytes)) ==> Whole(all, cut) == k
  {
    hide Appendable, Reached, Image, Whole;
    WholeMeans(all, cut);
    var m := Whole(all, cut);
    if m < k {
      Grows(all, m + 1, k);
    }
    if k < m && k < |all| {
      Grows(all, k + 1, m);
    }
  }

  lemma WholeMonotone(all: seq<seq<EventData>>, low: nat, high: nat)
    requires Appendable(all) && HEADER_BYTES <= low <= high
    ensures Whole(all, low) <= Whole(all, high)
  {
    hide Appendable, Reached, Image, Whole;
    WholeMeans(all, low);
    WholeIs(all, Whole(all, low), high);
  }

  // ---------- every step keeps the invariant ----------

  lemma StartsWithHeader(all: seq<seq<EventData>>)
    requires Appendable(all)
    ensures Header() <= Image(all)
  {
    hide Appendable, Reached, Image, Header;
    PrefixAppendable(all, 0);
    ImageOfNone();
    assert all[..0] == [];
  }

  lemma {:induction false} NothingKept(history: seq<Attempt>, offset: nat)
    requires NoReceipts(history)
    ensures Accounts(history, offset, [])
    decreases |history|
  {
    if history != [] {
      NothingKept(history[..|history| - 1], offset);
    }
  }

  lemma CutShort(w: World, all: seq<seq<EventData>>, n: nat, cut: nat)
    requires Consistent(w, all, n) && w.synced <= cut < HEADER_BYTES
    ensures Unborn(w.(bytes := w.bytes[..cut], handle := None))
  {
    hide Appendable, Reached, Image, Whole, Accounts, Header, CoveredBySync, HandleMatches;
    ShortMeansUnsynced(w, all, n);
    StartsWithHeader(all);
    assert w.bytes[..cut] == Image(all)[..cut] == Header()[..cut];
    assert w.synced <= |w.bytes|;
  }

  lemma CutAccounts(w: World, all: seq<seq<EventData>>, n: nat, cut: nat)
    requires Consistent(w, all, n) && w.synced <= cut <= |w.bytes| && cut >= HEADER_BYTES
    ensures n <= Whole(all, cut) && Accounts(w.recent, n, all[n..Whole(all, cut)])
  {
    hide Appendable, Reached, Image, Whole, Accounts, HandleMatches, Header;
    var m, k := Whole(all, |w.bytes|), Whole(all, cut);
    WholeMonotone(all, cut, |w.bytes|);
    if w.synced > 0 {
      WholeIs(all, n, cut);
    }
    Trim(w.recent, n, all[n..m], k - n);
    assert all[n..m][..k - n] == all[n..k];
  }

  lemma CutLong(w: World, all: seq<seq<EventData>>, n: nat, cut: nat)
    requires Consistent(w, all, n) && w.synced <= cut <= |w.bytes| && cut >= HEADER_BYTES
    ensures Consistent(w.(bytes := w.bytes[..cut], handle := None), all, n)
  {
    hide Appendable, Reached, Image, Whole, Accounts, Header;
    CutAccounts(w, all, n, cut);
    assert w.bytes[..cut] == Image(all)[..cut];
  }

  /** Losing unsynced bytes keeps the file a cut of the same appends. */
  lemma CutKeeps(w: World, all: seq<seq<EventData>>, n: nat, cut: nat)
    requires Consistent(w, all, n) && w.synced <= cut <= |w.bytes|
    ensures Lasting(w.(bytes := w.bytes[..cut], handle := None))
  {
    hide Consistent, Unborn;
    if cut < HEADER_BYTES {
      CutShort(w, all, n, cut);
    } else {
      CutLong(w, all, n, cut);
    }
  }

  lemma ShortMeansUnsynced(w: World, all: seq<seq<EventData>>, n: nat)
    requires Consistent(w, all, n)
    ensures w.synced < HEADER_BYTES ==> w.synced == 0 && w.durable == []
  {
    if w.synced > 0 {
      assert |Image(all[..n])| == Reached(all[..n]).validBytes;
    }
  }

  lemma Extending(base: seq<seq<EventData>>, events: seq<EventData>)
    requires Appendable(base) && Fits(Reached(base), events)
    ensures var next := base + [events];
            && Appendable(next) && Reached(next) == Extended(Reached(base), events)
            && Image(next) == Image(base) + Frame(Reached(base), events)
  {
    hide Fits, Extended, Frame;
    var next := base + [events];
    assert next[..|next| - 1] == base;
  }

  lemma {:induction false} TransactionsCounted(txns: seq<seq<EventData>>)
    requires Appendable(txns)
    ensures Reached(txns).head.transaction == |txns|
    decreases |txns|
  {
    if txns == [] {
      ImageOfNone();
    } else {
      TransactionsCounted(txns[..|txns| - 1]);
      Last(txns);
      hide Fits, Frame, Appendable, Reached, Image;
    }
  }

  lemma Shape(w: World, all: seq<seq<EventData>>, n: nat)
    requires Consistent(w, all, n)
    ensures Appendable(all) && HEADER_BYTES <= |w.bytes| && w.synced <= |w.bytes|
  {
    hide Appendable, Reached, Image, Whole, Accounts, HandleMatches;
  }

  /** A usable handle sits at the exact end of the whole frames. */
  lemma UsableMeans(w: World, all: seq<seq<EventData>>, n: nat)
    requires Consistent(w, all, n) && w.handle.Some? && !w.handle.value.poisoned
    ensures var m := Whole(all, |w.bytes|);
            && n <= m <= |all| && Appendable(all[..m]) && w.bytes == Image(all[..m])
            && w.handle.value == HandleOf(Reached(all[..m]))
            && Accounts(w.durable + w.recent, 0, all[..m])
  {
    hide Appendable, Reached, Image, Whole, Accounts;
    var m := Whole(all, |w.bytes|);
    PrefixAppendable(all, m);
    Joined(w.durable, 0, all[..n], w.recent, all[n..m]);
    assert all[..n] + all[n..m] == all[..m];
  }

  /** The frame counts after an append, by how the write ended. */
  lemma AppendCounts(base: seq<seq<EventData>>, events: seq<EventData>, write: WriteOutcome)
    requires Appendable(base) && Fits(Reached(base), events)
    ensures var next, frame := base + [events], Frame(Reached(base), events);
            var bytes := Image(base) + Kept(frame, write);
            && Appendable(next) && HEADER_BYTES <= |bytes| <= |Image(next)| && bytes == Image(next)[..|bytes|]
            && Whole(next, |bytes|) == (if Kept(frame, write) == frame then |base| + 1 else |base|)
            && (Kept(frame, write) == frame ==> |bytes| == Reached(next).validBytes)
  {
    hide Appendable, Reached, Image, Whole, Fits, Frame, Extended, Kept;
    Extending(base, events);
    ExtendedLength(Reached(base), events);
    var next, frame := base + [events], Frame(Reached(base), events);
    var bytes := Image(base) + Kept(frame, write);
    assert next[..|base|] == base && next[..|base| + 1] == next;
    assert bytes == Image(next)[..|bytes|];
    if Kept(frame, write) == frame {
      WholeIs(next, |base| + 1, |bytes|);
    } else {
      WholeIs(next, |base|, |bytes|);
    }
  }

  lemma SyncedAppendKeeps(w: World, all: seq<seq<EventData>>, n: nat, h: Handle, expected: Head, events: seq<EventData>)
    requires Consistent(w, all, n) && w.handle == Some(h) && PlanAppend(h, expected, events).Ok?
    ensures Lasting(StepAppend(w, h, expected, events, Synced))
  {
    hide Appendable, Reached, Image, Whole, Accounts, PlanAppend, Append, Fits, Frame, Extended, Consistent;
    Shape(w, all, n);
    PoisonRefuses(h, expected, events);
    UsableMeans(w, all, n);
    var m := Whole(all, |w.bytes|);
    var base := all[..m];
    AppendAccepted(Reached(base), expected, events);
    AppendEffect(w.bytes, Reached(base), expected, events, Synced);
    AppendCounts(base, events, Synced);
    Extending(base, events);
    TransactionsCounted(base);
    var next := base + [events];
    var after := StepAppend(w, h, expected, events, Synced);
    AddPresent(w.durable + w.recent, 0, base, after.durable[|after.durable| - 1]);
    assert next[..m + 1] == next && next[m + 1..] == [];
    NothingKept([], m + 1);
    ConsistentBecause(after, next, m + 1);
  }

  lemma ConsistentBecause(w: World, all: seq<seq<EventData>>, n: nat)
    requires Appendable(all) && HEADER_BYTES <= |w.bytes| <= |Image(all)| && w.bytes == Image(all)[..|w.bytes|]
    requires n <= Whole(all, |w.bytes|)
    requires CoveredBySync(w, all, n)
    requires Accounts(w.durable, 0, all[..n]) && Accounts(w.recent, n, all[n..Whole(all, |w.bytes|)]) && NoReceipts(w.recent)
    requires HandleMatches(w, all)
    ensures Lasting(w)
  {
    hide Appendable, Reached, Image, Whole, Accounts, HandleMatches, CoveredBySync;
    assert Consistent(w, all, n);
  }

  lemma PoisonRefuses(h: Handle, expected: Head, events: seq<EventData>)
    ensures h.poisoned ==> PlanAppend(h, expected, events) == Err(WriterPoisoned)
  {
  }

  lemma BrokenAccounts(recent: seq<Attempt>, n: nat, all: seq<seq<EventData>>, m: nat, events: seq<EventData>, present: bool)
    requires n <= m <= |all| && Accounts(recent, n, all[n..m])
    ensures var next := all[..m] + [events];
            Accounts(recent + [Attempt(events, None)], n, next[n..if present then m + 1 else m])
  {
    hide Accounts;
    var next := all[..m] + [events];
    assert next[n..m] == all[n..m] && next[n..m + 1] == all[n..m] + [events];
    AddPresent(recent, n, all[n..m], Attempt(events, None));
    AddSkipped(recent, n, all[n..m], Attempt(events, None));
  }

  lemma BrokenAppendKeeps(w: World, all: seq<seq<EventData>>, n: nat, h: Handle, expected: Head, events: seq<EventData>, write: WriteOutcome)
    requires Consistent(w, all, n) && w.handle == Some(h) && PlanAppend(h, expected, events).Ok? && write.Broken?
    ensures Lasting(StepAppend(w, h, expected, events, write))
  {
    hide Appendable, Reached, Image, Whole, Accounts, PlanAppend, Append, Fits, Frame, Extended, Kept;
    PoisonRefuses(h, expected, events);
    UsableMeans(w, all, n);
    var m := Whole(all, |w.bytes|);
    var base := all[..m];
    AppendAccepted(Reached(base), expected, events);
    AppendEffect(w.bytes, Reached(base), expected, events, write);
    AppendCounts(base, events, write);
    var next, frame := base + [events], Frame(Reached(base), events);
    BrokenAccounts(w.recent, n, all, m, events, Kept(frame, write) == frame);
    assert next[..n] == all[..n];
    ConsistentBecause(StepAppend(w, h, expected, events, write), next, n);
  }

  lemma AppendKeeps(w: World, h: Handle, expected: Head, events: seq<EventData>, write: WriteOutcome)
    requires Lasting(w) && w.handle == Some(h)
    ensures Lasting(StepAppend(w, h, expected, events, write))
  {
    hide Consistent, Append, PlanAppend;
    var all, n :| Consistent(w, all, n);
    if PlanAppend(h, expected, events).Ok? {
      if write.Synced? {
        SyncedAppendKeeps(w, all, n, h, expected, events);
      } else {
        BrokenAppendKeeps(w, all, n, h, expected, events, write);
      }
    }
  }

  /** What any open of such a file finds: exactly the transactions whose frames are whole. */
  lemma OpenFinds(w: World, all: seq<seq<EventData>>, n: nat, create: bool, repair: bool, header: WriteOutcome)
    requires Consistent(w, all, n)
    ensures var m := Whole(all, |w.bytes|);
            && n <= m <= |all| && Appendable(all[..m]) && Reached(all[..m]).validBytes <= |w.bytes|
            && var s := Reached(all[..m]);
            var tail := |w.bytes| - s.validBytes;
            Open(w.bytes, create, repair, header)
            == if tail > 0 && !repair then Opened(w.bytes, Err(IncompleteTail(tail)))
               else Opened(Image(all[..m]), Ok((HandleOf(s), Report(s.head, s.events, tail))))
  {
    hide Appendable, Reached, Image, Whole, Accounts, CoveredBySync, HandleMatches, ValidateHeader, ScanFile, Header, FromLE;
    var m := Whole(all, |w.bytes|);
    TornTail(all, |w.bytes|);
    StartsWithHeader(all);
    assert w.bytes[..HEADER_BYTES] == Image(all)[..HEADER_BYTES] == Header();
    HeaderValid(w.bytes);
    var s := Reached(all[..m]);
    assert w.bytes[..s.validBytes] == Image(all)[..s.validBytes] == Image(all[..m]);
  }

  lemma OpenWholeKeeps(w: World, all: seq<seq<EventData>>, n: nat, m: nat)
    requires Consistent(w, all, n) && m == Whole(all, |w.bytes|) && Appendable(all[..m]) && w.bytes == Image(all[..m])
    ensures Lasting(w.(handle := Some(HandleOf(Reached(all[..m])))))
  {
    hide Appendable, Reached, Image, Whole, Accounts;
    ConsistentBecause(w.(handle := Some(HandleOf(Reached(all[..m])))), all, n);
  }

  lemma OpenTruncatedKeeps(w: World, all: seq<seq<EventData>>, n: nat, m: nat)
    requires Consistent(w, all, n) && m == Whole(all, |w.bytes|) && n <= m && Appendable(all[..m])
    ensures var base := all[..m];
            Lasting(World(Image(base), |Image(base)|, Some(HandleOf(Reached(base))), w.durable + w.recent, []))
  {
    hide Appendable, Reached, Image, Whole, Accounts, Consistent;
    var base := all[..m];
    Shape(w, all, n);
    FoundAccounts(w, all, n);
    NothingKept([], m);
    assert base[..m] == base && base[m..] == [];
    WholeIs(base, m, |Image(base)|);
    ConsistentBecause(World(Image(base), |Image(base)|, Some(HandleOf(Reached(base))), w.durable + w.recent, []), base, m);
  }

  lemma OpenKeepsFile(w: World, all: seq<seq<EventData>>, n: nat, create: bool, repair: bool, header: WriteOutcome)
    requires Consistent(w, all, n)
    ensures Lasting(StepOpen(w, create, repair, header))
  {
    hide Appendable, Reached, Image, Whole, Accounts, Open, Consistent;
    Shape(w, all, n);
    OpenFinds(w, all, n, create, repair, header);
    var m := Whole(all, |w.bytes|);
    if Open(w.bytes, create, repair, header).result.Ok? {
      if Image(all[..m]) == w.bytes {
        OpenWholeKeeps(w, all, n, m);
      } else {
        OpenTruncatedKeeps(w, all, n, m);
      }
    }
  }

  lemma Born(w: World, synced: nat, durable: seq<Attempt>, recent: seq<Attempt>, handle: Option<Handle>)
    requires NoReceipts(durable) && NoReceipts(recent) && synced <= HEADER_BYTES && (synced == 0 ==> durable == [])
    requires synced == 0 || synced == HEADER_BYTES
    requires handle == None || handle == Some(HandleOf(SCAN_START))
    ensures Lasting(World(Header(), synced, handle, durable, recent))
  {
    hide Appendable, Reached, Image, Accounts, Header, Whole;
    ImageOfNone();
    NothingKept(durable, 0);
    NothingKept(recent, 0);
    var none: seq<seq<EventData>> := [];
    assert none[..0] == none && none[0..0] == none;
    WholeIs(none, 0, HEADER_BYTES);
    assert Header()[..HEADER_BYTES] == Header();
    ConsistentBecause(World(Header(), synced, handle, durable, recent), none, 0);
  }

  lemma OpenKeepsUnborn(w: World, create: bool, repair: bool, header: WriteOutcome)
    requires Unborn(w)
    ensures Lasting(StepOpen(w, create, repair, header))
  {
    hide Appendable, Reached, Image, Accounts, Header, Whole, Open, Consistent;
    var after := StepOpen(w, create, repair, header);
    if w.bytes == [] && create {
      BornWithHeader(repair, header);
      assert [] + w.recent == w.recent;
      if header.Synced? {
        Born(w, HEADER_BYTES, w.recent, [], Some(HandleOf(SCAN_START)));
      } else if header.kept >= HEADER_BYTES {
        Born(w, 0, [], w.recent, None);
      } else {
        assert Unborn(after);
      }
    } else {
      TornHeader(|w.bytes|, create, repair, header);
      assert after == w;
    }
  }

  lemma BornWithHeader(repair: bool, header: WriteOutcome)
    ensures Appendable([]) && Open([], true, repair, header)
            == if header.Broken? then Opened(Kept(Header(), header), Err(Io))
               else Opened(Header(), Ok((HandleOf(SCAN_START), Report(NO_HEAD, [], 0))))
  {
    hide Header, Appendable, Image, Reached;
    ImageOfNone();
    WholeScan([]);
    assert Header()[..HEADER_BYTES] == Header();
  }

  lemma StepKeeps(w: World, step: Step)
    requires Lasting(w)
    ensures Lasting(Perform(w, step))
  {
    hide Consistent, StepAppend, StepOpen, Journal.Surviving;
    match step
    case DoAppend(expected, events, write) =>
      if w.handle.Some? {
        AppendKeeps(w, w.handle.value, expected, events, write);
      }
    case DoOpen(create, repair, header) =>
      if w.handle.None? {
        if Unborn(w) {
          OpenKeepsUnborn(w, create, repair, header);
        } else {
          var all, n :| Consistent(w, all, n);
          OpenKeepsFile(w, all, n, create, repair, header);
        }
      }
    case DoClose => CloseKeeps(w);
    case PowerLoss(kept) => PowerLossKeeps(w, kept);
  }

  lemma CloseKeeps(w: World)
    requires Lasting(w)
    ensures Lasting(w.(handle := None))
  {
    if Unborn(w) {
      assert Unborn(w.(handle := None));
    } else {
      var all, n :| Consistent(w, all, n);
      hide Appendable, Reached, Image, Whole, Accounts;
      ConsistentBecause(w.(handle := None), all, n);
    }
  }

  lemma UnbornCut(w: World, cut: nat)
    requires Unborn(w) && cut <= |w.bytes|
    ensures Unborn(w.(bytes := w.bytes[..cut], handle := None))
  {
    hide Header;
    assert w.bytes[..cut] == Header()[..cut];
  }

  lemma PowerLossKeeps(w: World, kept: nat)
    requires Lasting(w)
    ensures Lasting(Perform(w, PowerLoss(kept)))
  {
    hide Consistent, Unborn;
    var cut := Journal.Surviving(|w.bytes|, w.synced, kept);
    if Unborn(w) {
      UnbornCut(w, cut);
    } else {
      var all, n :| Consistent(w, all, n);
      Shape(w, all, n);
      CutKeeps(w, all, n, cut);
    }
  }

  lemma NewLasts()
    ensures Lasting(NEW_WORLD)
  {
    hide Header, Consistent;
    assert Header()[..0] == [];
    assert Unborn(NEW_WORLD);
  }

  lemma {:induction false} RunLasts(steps: seq<Step>)
    ensures Lasting(Run(NEW_WORLD, steps))
    decreases |steps|
  {
    hide Perform, Consistent, Lasting;
    if steps == [] {
      NewLasts();
    } else {
      RunLasts(steps[..|steps| - 1]);
      StepKeeps(Run(NEW_WORLD, steps[..|steps| - 1]), steps[|steps| - 1]);
    }
  }

  // ---------- what a caller can rely on ----------

  ghost predicate ReceiptsHonoured(history: seq<Attempt>, txns: seq<seq<EventData>>) {
    && (forall i :: 0 <= i < |history| && history[i].receipt.Some? ==>
          var t := history[i].receipt.value.transaction; 1 <= t <= |txns| && txns[t - 1] == history[i].events)
    && (forall i, j :: 0 <= i < j < |history| && history[i].receipt.Some? && history[j].receipt.Some? ==>
          history[i].receipt.value.transaction < history[j].receipt.value.transaction)
  }

  /** What a repairing open recovers: some of the attempts ever made, in order, each whole; every
      receipted one at the number its receipt names; and the memory and file agree on them. */
  ghost predicate Recovers(w: World, after: Opened, txns: seq<seq<EventData>>) {
    && Appendable(txns) && Accounts(w.durable + w.recent, 0, txns) && ReceiptsHonoured(w.durable + w.recent, txns)
    && after.bytes == Image(txns) && after.result.Ok? && after.result.value.0 == HandleOf(Reached(txns))
    && var report := after.result.value.1;
    report.head == Reached(txns).head && report.events == Reached(txns).events && report.truncated + |after.bytes| == |w.bytes|
  }

  /** Whatever appends, failures, power losses and reopens came before, a repairing open recovers all
      receipted transactions; if it cannot, because a crash cut the header itself, none was ever receipted. */
  lemma ReceiptsSurvive(steps: seq<Step>, create: bool, header: WriteOutcome)
    ensures var w := Run(NEW_WORLD, steps);
            if |w.bytes| < HEADER_BYTES then NoReceipts(w.durable + w.recent)
            else exists txns :: Recovers(w, Open(w.bytes, create, true, header), txns)
  {
    hide Run, Consistent, Recovers, Unborn;
    RunLasts(steps);
    var w := Run(NEW_WORLD, steps);
    if Unborn(w) {
      UnbornMeans(w);
    } else {
      var all, n :| Consistent(w, all, n);
      Shape(w, all, n);
      OpenRecovers(w, all, n, create, header);
    }
  }

  lemma UnbornMeans(w: World)
    requires Unborn(w)
    ensures |w.bytes| < HEADER_BYTES && NoReceipts(w.durable + w.recent) && w.handle.None?
  {
    hide Header;
    assert w.durable + w.recent == w.recent;
  }

  lemma OpenRecovers(w: World, all: seq<seq<EventData>>, n: nat, create: bool, header: WriteOutcome)
    requires Consistent(w, all, n)
    ensures exists txns :: Recovers(w, Open(w.bytes, create, true, header), txns)
  {
    hide Consistent, Appendable, Reached, Image, Whole, Accounts, Open, ReceiptsHonoured;
    Shape(w, all, n);
    OpenFinds(w, all, n, create, true, header);
    var txns := all[..Whole(all, |w.bytes|)];
    FoundAccounts(w, all, n);
    ReceiptsHeld(w.durable + w.recent, txns);
    assert Recovers(w, Open(w.bytes, create, true, header), txns);
  }

  lemma FoundAccounts(w: World, all: seq<seq<EventData>>, n: nat)
    requires Consistent(w, all, n)
    ensures Accounts(w.durable + w.recent, 0, all[..Whole(all, |w.bytes|)])
  {
    hide Appendable, Reached, Image, Whole, Accounts, HandleMatches, CoveredBySync;
    var m := Whole(all, |w.bytes|);
    Joined(w.durable, 0, all[..n], w.recent, all[n..m]);
    assert all[..n] + all[n..m] == all[..m];
  }

  lemma ReceiptsHeld(history: seq<Attempt>, txns: seq<seq<EventData>>)
    requires Accounts(history, 0, txns)
    ensures ReceiptsHonoured(history, txns)
  {
    hide Accounts;
    ReceiptsPresent(history, txns);
  }

  /** As long as a handle is usable its head, events and payload total are exactly a scan of its file. */
  lemma MemoryIsScan(steps: seq<Step>)
    ensures var w := Run(NEW_WORLD, steps);
            w.handle.Some? && !w.handle.value.poisoned ==>
              var h := w.handle.value;
              |w.bytes| >= HEADER_BYTES && ScanFile(w.bytes) == Ok(Scan(h.head, h.events, |w.bytes|, h.payloadBytes))
  {
    hide Run, Consistent, Unborn, Appendable, Reached, Image, Whole, Accounts, ScanFile;
    RunLasts(steps);
    var w := Run(NEW_WORLD, steps);
    if w.handle.Some? && !w.handle.value.poisoned {
      if Unborn(w) {
        UnbornMeans(w);
      } else {
        var all, n :| Consistent(w, all, n);
        Shape(w, all, n);
        UsableMeans(w, all, n);
        WholeScan(all[..Whole(all, |w.bytes|)]);
      }
    }
  }

  /** A failed write poisons the handle: until it is closed nothing more is written or receipted. */
  lemma {:induction false} PoisonLasts(w: World, steps: seq<Step>)
    requires w.handle.Some? && w.handle.value.poisoned
    requires forall i :: 0 <= i < |steps| ==> steps[i].DoAppend? || steps[i].DoOpen?
    ensures Run(w, steps) == w
    decreases |steps|
  {
    if steps != [] {
      PoisonLasts(w, steps[..|steps| - 1]);
      var step := steps[|steps| - 1];
      if step.DoAppend? {
        PoisonRefuses(w.handle.value, step.expected, step.events);
      }
    }
  }

  /** Attempts and receipts are never forgotten or reordered by the bookkeeping. */
  lemma {:induction false} HistoryGrows(w: World, steps: seq<Step>)
    ensures w.durable + w.recent <= Run(w, steps).durable + Run(w, steps).recent
    decreases |steps|
  {
    if steps != [] {
      HistoryGrows(w, steps[..|steps| - 1]);
      var before := Run(w, steps[..|steps| - 1]);
      StepRemembers(before, steps[|steps| - 1]);
    }
  }

  lemma StepRemembers(w: World, step: Step)
    ensures w.durable + w.recent <= Perform(w, step).durable + Perform(w, step).recent
  {
    hide PlanAppend, Append, Open;
  }
}
