/**
 The ledger as values: what one append or one open does to the file's bytes
 and to the handle, for every way the write can end.
 */
module LedgerModel {
  import opened Prelude
  import opened Bytes
  import opened Crc
  import opened LedgerCodec
  import opened LedgerScan

  /** What an open handle remembers besides the file. */
  datatype Handle = Handle(head: Head, events: seq<StoredEvent>, payloadBytes: nat, poisoned: bool)

  /** How a write and its sync ended: durable, or an error after some leading bytes reached the file. */
  datatype WriteOutcome = Synced | Broken(kept: nat)

  function Kept(data: seq<Byte>, write: WriteOutcome): (kept: seq<Byte>)
    ensures kept <= data
  {
    if write.Synced? || write.kept >= |data| then data else data[..write.kept]
  }

  function HandleOf(s: Scan): Handle {
    Handle(s.head, s.events, s.payloadBytes, false)
  }

  /** Everything append checks before it writes. */
  function PlanAppend(h: Handle, expected: Head, events: seq<EventData>): Result<Encoded, LedgerError> {
    if h.poisoned then Err(WriterPoisoned)
    else if expected != h.head then Err(HeadConflict(expected, h.head))
    else
      var _ :- ValidateEvents(events);
      if |h.events| + |events| > MAX_REPLAY_EVENTS then Err(ReplayLimitExceeded)
      else
        var _ :- CheckedPayload(h.payloadBytes, PayloadBytes(events));
        if h.head.transaction == U64_MAX || h.head.sequence == U64_MAX then Err(IntegerOverflow)
        else EncodeTransaction(h.head.transaction + 1, h.head.sequence + 1, events)
  }

  datatype Appended = Appended(bytes: seq<Byte>, handle: Handle, result: Result<Receipt, LedgerError>)

  function Append(bytes: seq<Byte>, h: Handle, expected: Head, events: seq<EventData>, write: WriteOutcome): Appended {
    match PlanAppend(h, expected, events)
    case Err(error) => Appended(bytes, h, Err(error))
    case Ok(Encoded(frame, stored, receipt)) =>
      if write.Broken? then Appended(bytes + Kept(frame, write), h.(poisoned := true), Err(DurabilityAmbiguous))
      else Appended(bytes + frame,
                    Handle(Head(receipt.transaction, receipt.lastSequence), h.events + stored,
                           h.payloadBytes + PayloadBytes(events), false),
                    Ok(receipt))
  }

  datatype Report = Report(head: Head, events: seq<StoredEvent>, truncated: nat)

  datatype Opened = Opened(bytes: seq<Byte>, result: Result<(Handle, Report), LedgerError>)

  /** Opening: an empty file may be given its header, anything else must scan; a torn tail is cut off or refused. */
  function Open(bytes: seq<Byte>, create: bool, repair: bool, header: WriteOutcome): Opened {
    if bytes == [] && create then
      if header.Broken? then Opened(Kept(Header(), header), Err(Io)) else OpenScanned(Header(), repair)
    else
      match ValidateHeader(bytes)
      case Err(error) => Opened(bytes, Err(error))
      case Ok(_) => OpenScanned(bytes, repair)
  }

  function OpenScanned(bytes: seq<Byte>, repair: bool): Opened
    requires |bytes| >= HEADER_BYTES
  {
    match ScanFile(bytes)
    case Err(error) => Opened(bytes, Err(error))
    case Ok(s) =>
      ScanWithin(bytes, SCAN_START);
      var tail := |bytes| - s.validBytes;
      if tail > 0 && !repair then Opened(bytes, Err(IncompleteTail(tail)))
      else Opened(bytes[..s.validBytes], Ok((HandleOf(s), Report(s.head, s.events, tail))))
  }

  lemma {:induction false} ScanWithin(file: seq<Byte>, s: Scan)
    requires s.validBytes <= |file|
    ensures ScanFrom(file, s).Ok? ==> s.validBytes <= ScanFrom(file, s).value.validBytes <= |file|
    decreases |file| - s.validBytes
  {
    match ScanFrame(file, s)
    case Next(next) => ScanWithin(file, next);
    case _ =>
  }

  // ---------- append and the scanner agree ----------

  lemma EncodeAccepts(transaction: U64, first: U64, events: seq<EventData>)
    requires 0 < |events| <= MAX_EVENTS_PER_TRANSACTION
    ensures EncodeTransaction(transaction, first, events).Ok? <==>
              (first + |events| <= U64_MAX + 1 && |EncodeBody(transaction, first, events)| <= MAX_FRAME_BODY_BYTES)
    ensures EncodeTransaction(transaction, first, events).Ok? ==>
              EncodeTransaction(transaction, first, events).value
              == Encoded(FrameOf(EncodeBody(transaction, first, events)), StoredFrom(events, transaction, first, 0),
                         Receipt(transaction, first, first + |events| - 1, |events|, Checksum(EncodeBody(transaction, first, events))))
  {
    hide EncodeBody, FrameOf, StoredFrom, Checksum;
  }

  /** An unpoisoned handle accepts exactly the transactions at its head that a later scan will read back. */
  lemma AppendAccepted(s: Scan, expected: Head, events: seq<EventData>)
    ensures var plan := PlanAppend(HandleOf(s), expected, events);
            && (plan.Ok? <==> expected == s.head && Fits(s, events))
            && (plan.Ok? ==>
                  && plan.value.frame == Frame(s, events)
                  && s.events + plan.value.stored == Extended(s, events).events
                  && plan.value.receipt.transaction == s.head.transaction + 1
                  && plan.value.receipt.firstSequence == s.head.sequence + 1
                  && plan.value.receipt.lastSequence == Extended(s, events).head.sequence
                  && plan.value.receipt.count == |events|)
  {
    hide ValidateEach, EncodeBody, EncodeTransaction, FrameOf, PayloadBytes, StoredFrom;
    if ValidateEvents(events).Ok? && s.head.transaction < U64_MAX && s.head.sequence < U64_MAX {
      EncodeAccepts(s.head.transaction + 1, s.head.sequence + 1, events);
    }
  }

  lemma AppendEffect(bytes: seq<Byte>, s: Scan, expected: Head, events: seq<EventData>, write: WriteOutcome)
    requires expected == s.head && Fits(s, events)
    ensures var after := Append(bytes, HandleOf(s), expected, events, write);
            && after.bytes == bytes + Kept(Frame(s, events), write)
            && (write.Synced? ==>
                  after.handle == HandleOf(Extended(s, events)) && after.result.Ok? && after.result.value.transaction == s.head.transaction + 1)
            && (write.Broken? ==> after.handle.poisoned && after.result == Err(DurabilityAmbiguous))
  {
    AppendAccepted(s, expected, events);
    hide PlanAppend, Fits, FrameOf, StoredFrom, PayloadBytes, EncodeBody;
  }

  lemma AppendRefused(bytes: seq<Byte>, h: Handle, expected: Head, events: seq<EventData>, write: WriteOutcome)
    requires PlanAppend(h, expected, events).Err?
    ensures Append(bytes, h, expected, events, write) == Appended(bytes, h, Err(PlanAppend(h, expected, events).error))
  {
    hide PlanAppend;
  }

  // ---------- headers ----------

  lemma FourParts<T>(a: seq<T>, b: seq<T>, c: seq<T>, d: seq<T>)
    requires |a| == 8 && |b| == |c| == 2 && |d| == 4
    ensures var whole := a + b + c + d;
            && |whole| == 16 && whole[0..8] == a && whole[8..10] == b && whole[10..12] == c && whole[12..16] == d && whole[0..12] == a + b + c
  {
  }

  lemma HeaderParts()
    ensures var header := Header();
            && header[0..8] == HEADER_MAGIC && header[8..10] == LE(2, FORMAT_VERSION) && header[10..12] == [0, 0]
            && header[0..12] == HEADER_START && header[12..16] == LE(4, Checksum(HEADER_START))
  {
    assert LE(2, 0) == [0, 0] by {
      assert LE(1, 0) == [0] + LE(0, 0);
    }
    hide LE, Checksum;
    FourParts(HEADER_MAGIC, LE(2, FORMAT_VERSION), LE(2, 0), LE(4, Checksum(HEADER_START)));
  }

  lemma HeaderFieldsRead(file: seq<Byte>)
    requires |file| >= HEADER_BYTES
    requires file[0..8] == HEADER_MAGIC && file[8..10] == LE(2, FORMAT_VERSION) && file[10..12] == [0, 0]
    requires file[0..12] == HEADER_START && file[12..16] == LE(4, Checksum(HEADER_START))
    ensures ValidateHeader(file) == Ok(())
  {
    Widths();
    ChecksumFits(HEADER_START);
    LERoundTrip(2, FORMAT_VERSION);
    LERoundTrip(4, Checksum(HEADER_START));
    hide LE, FromLE, Checksum;
    assert file[..8] == file[0..8] && file[..12] == file[0..12];
  }

  lemma HeaderValid(file: seq<Byte>)
    requires |file| >= HEADER_BYTES && file[..HEADER_BYTES] == Header()
    ensures ValidateHeader(file) == Ok(())
  {
    hide LE, FromLE, Checksum, Header, ValidateHeader;
    HeaderParts();
    assert file[0..0 + |Header()|] == Header();
    Shifted(file, 0, Header(), 0, 8);
    Shifted(file, 0, Header(), 8, 10);
    Shifted(file, 0, Header(), 10, 12);
    Shifted(file, 0, Header(), 12, 16);
    Shifted(file, 0, Header(), 0, 12);
    HeaderFieldsRead(file);
  }

  /** A crash while the header itself was being written leaves a file no later open accepts, unless
      nothing or all of it arrived. */
  lemma TornHeader(kept: nat, create: bool, repair: bool, header: WriteOutcome)
    requires kept <= HEADER_BYTES
    ensures var after := Open(Header()[..kept], create, repair, header);
            && (kept < HEADER_BYTES && (kept > 0 || !create) ==> after == Opened(Header()[..kept], Err(Corrupt(0, TruncatedHeader))))
            && (after.result.Ok? <==> kept == HEADER_BYTES || (kept == 0 && create && header.Synced?))
  {
    hide Header, FromLE, Checksum, Appendable, Image, Reached;
    if kept == HEADER_BYTES {
      HeaderValid(Header()[..kept]);
      ImageOfNone();
      assert Header()[..kept] == Header();
      WholeScan([]);
    } else if kept == 0 && create && header.Synced? {
      ImageOfNone();
      WholeScan([]);
    }
  }
}
