/** The ledger as it runs: a cursor over a body, the scan loop, and a file handle that appends in place. */
module FileLedger {
  import opened Prelude
  import opened Bytes
  import opened Crc
  import opened LedgerCodec
  import opened LedgerModel

  class BodyCursor {
    const body: seq<Byte>
    var position: nat

    constructor (body: seq<Byte>)
      ensures this.body == body && position == 0
    {
      this.body := body;
      position := 0;
    }

    method Take(length: nat) returns (r: Result<seq<Byte>, LedgerError>)
      modifies this
      ensures if old(position) + length > |body| then r == Err(Corrupt(old(position), BodyTruncated)) && position == old(position)
              else r == Ok(body[old(position)..old(position) + length]) && position == old(position) + length
    {
      var end := position + length;
      if end > |body| {
        return Err(Corrupt(position, BodyTruncated));
      }
      r := Ok(body[position..end]);
      position := end;
    }

    method Field(width: nat) returns (r: Field)
      modifies this
      ensures r == ReadField(body, old(position), width)
      ensures position == if r.Ok? then old(position) + width else old(position)
    {
      var bytes :- Take(width);
      r := Ok(FromLE(bytes));
    }

    /** Reads one event; on success the cursor stands after its payload. */
    method NextEvent(transaction: U64, first: U64, count: U32, index: nat, payloadBytes: nat) returns (r: Result<(StoredEvent, nat), LedgerError>)
      modifies this
      ensures var d := Decoding([], old(position), payloadBytes);
              match DecodeEvent(body, d, transaction, first, count, index)
              case Err(error) => r == Err(error)
              case Ok(next) => r.Ok? && next.events == [r.value.0] && r.value.1 == next.payloadBytes && position == next.position
    {
      ghost var p := position;
      var sequence :- Field(8);
      var storedIndex :- Field(4);
      var total :- Field(4);
      var schema :- Field(2);
      var kind :- Field(2);
      var length :- Field(4);
      FieldBounds(body, p);
      if first + index > U64_MAX {
        return Err(IntegerOverflow);
      }
      if sequence != first + index || storedIndex != index || total != count {
        return Err(Corrupt(position, EventMetadata));
      }
      if schema == 0 || kind == 0 {
        return Err(Corrupt(position, EventZero));
      }
      if length > MAX_EVENT_PAYLOAD_BYTES {
        return Err(Corrupt(position, EventPayloadBounds));
      }
      var total' :- CheckedPayload(payloadBytes, length);
      var payload :- Take(length);
      r := Ok((StoredEvent(sequence, transaction, storedIndex, total, EventData(schema, kind, payload)), total'));
    }
  }

  lemma EventsAreAppended(body: seq<Byte>, d: Decoding, transaction: U64, first: nat, count: nat, index: nat)
    ensures var alone := DecodeEvent(body, d.(events := []), transaction, first, count, index);
            DecodeEvent(body, d, transaction, first, count, index)
            == match alone
               case Err(error) => Err(error)
               case Ok(next) => Ok(next.(events := d.events + next.events))
  {
    hide ReadField, FromLE;
    var alone := DecodeEvent(body, d.(events := []), transaction, first, count, index);
    if alone.Ok? {
      var event := alone.value.events[0];
      assert [] + [event] == [event] && d.events + alone.value.events == d.events + [event];
    }
  }

  /** One pass of a cursor over a body, in the order the fields lie there. */
  method DecodeBody(body: seq<Byte>, previous: Head, replayedEvents: nat, replayedBytes: nat) returns (r: Result<Decoded, LedgerError>)
    ensures r == DecodeTransaction(body, previous, replayedEvents, replayedBytes)
  {
    hide ReadField, DecodeEvent;
    var cursor := new BodyCursor(body);
    var transaction :- cursor.Field(8);
    var first :- cursor.Field(8);
    var count :- cursor.Field(4);
    HeadBounds(body, transaction, first, count);
    if count == 0 || count > MAX_EVENTS_PER_TRANSACTION {
      return Err(Corrupt(0, EventCountBounds));
    }
    if previous.transaction == U64_MAX {
      return Err(IntegerOverflow);
    }
    if transaction != previous.transaction + 1 {
      return Err(Corrupt(0, TransactionGap));
    }
    if previous.sequence == U64_MAX {
      return Err(IntegerOverflow);
    }
    if first != previous.sequence + 1 {
      return Err(Corrupt(8, SequenceGap));
    }
    if replayedEvents + count > MAX_REPLAY_EVENTS {
      return Err(ReplayLimitExceeded);
    }
    var events: seq<StoredEvent> := [];
    var payloadBytes := replayedBytes;
    for index := 0 to count
      invariant cursor.body == body
      invariant DecodeEvents(body, Decoding([], 20, replayedBytes), transaction, first, count, 0)
             == DecodeEvents(body, Decoding(events, cursor.position, payloadBytes), transaction, first, count, index)
    {
      EventsAreAppended(body, Decoding(events, cursor.position, payloadBytes), transaction, first, count, index);
      var event :- cursor.NextEvent(transaction, first, count, index, payloadBytes);
      events := events + [event.0];
      payloadBytes := event.1;
    }
    if cursor.position != |body| {
      return Err(Corrupt(cursor.position, TrailingBytes));
    }
    if first + count - 1 > U64_MAX {
      return Err(IntegerOverflow);
    }
    return Ok(Decoded(Head(transaction, first + count - 1), events, payloadBytes));
  }

  lemma HeadBounds(body: seq<Byte>, transaction: nat, first: nat, count: nat)
    requires ReadField(body, 0, 8) == Ok(transaction) && ReadField(body, 8, 8) == Ok(first) && ReadField(body, 16, 4) == Ok(count)
    ensures transaction <= U64_MAX && first <= U64_MAX && count <= U32_MAX
  {
    Widths();
    assert |body[0..8]| == 8 && |body[8..16]| == 8 && |body[16..20]| == 4;
  }

  method ChecksumOf(body: seq<Byte>) returns (checksum: nat)
    ensures checksum == Checksum(body)
  {
    hide Crc32c, Value;
    var crc := ComputeCrc32c(body);
    checksum := Value(crc, 32);
  }

  /** The scan loop over a file already checked to start with a header. */
  method ScanTransactions(file: seq<Byte>) returns (r: Result<Scan, LedgerError>)
    requires |file| >= HEADER_BYTES
    ensures r == ScanFile(file)
  {
    hide FromLE, Checksum, DecodeTransaction;
    var s := SCAN_START;
    while s.validBytes < |file|
      invariant s.validBytes <= |file|
      invariant ScanFile(file) == ScanFrom(file, s)
      decreases |file| - s.validBytes
    {
      var offset := s.validBytes;
      var remaining := |file| - offset;
      if remaining < 4 {
        break;
      }
      if file[offset..offset + 4] != TRANSACTION_MAGIC {
        return Err(Corrupt(offset, FrameMagic));
      }
      if remaining < 12 {
        break;
      }
      var length := FromLE(file[offset + 4..offset + 8]);
      if FromLE(file[offset + 8..offset + 12]) + length != U32_MAX {
        return Err(Corrupt(offset + 8, FrameLengthCheck));
      }
      if length == 0 || length > MAX_FRAME_BODY_BYTES {
        return Err(Corrupt(offset + 4, FrameLengthBounds));
      }
      if remaining < length + 20 {
        break;
      }
      var body := file[offset + 12..offset + 12 + length];
      var checksum := ChecksumOf(body);
      if checksum != FromLE(file[offset + 12 + length..offset + 16 + length]) {
        return Err(Corrupt(offset + 12 + length, FrameChecksum));
      }
      if file[offset + 16 + length..offset + 20 + length] != COMMIT_MAGIC {
        return Err(Corrupt(offset + 16 + length, FrameCommit));
      }
      var decoded :- DecodeBody(body, s.head, |s.events|, s.payloadBytes);
      s := Scan(decoded.head, s.events + decoded.events, offset + length + 20, decoded.payloadBytes);
    }
    return Ok(s);
  }

  method CheckEvents(events: seq<EventData>) returns (r: Result<(), LedgerError>)
    ensures r == ValidateEvents(events)
  {
    if events == [] {
      return Err(EmptyTransaction);
    }
    if |events| > MAX_EVENTS_PER_TRANSACTION {
      return Err(TooManyEvents);
    }
    assert events[0..] == events;
    for i := 0 to |events|
      invariant ValidateEach(events) == ValidateEach(events[i..])
    {
      assert events[i..][0] == events[i] && events[i..][1..] == events[i + 1..];
      if events[i].schema == 0 {
        return Err(ZeroEventSchema);
      }
      if events[i].kind == 0 {
        return Err(ZeroEventKind);
      }
      if |events[i].payload| > MAX_EVENT_PAYLOAD_BYTES {
        return Err(PayloadTooLarge);
      }
    }
    return Ok(());
  }

  method SumPayloads(events: seq<EventData>) returns (total: nat)
    ensures total == PayloadBytes(events)
  {
    total := 0;
    assert events[0..] == events;
    for i := 0 to |events|
      invariant total + PayloadBytes(events[i..]) == PayloadBytes(events)
    {
      assert events[i..][0] == events[i] && events[i..][1..] == events[i + 1..];
      total := total + |events[i].payload|;
    }
  }

  /** Builds the body and the stored events in one pass over the transaction. */
  method BuildTransaction(transaction: U64, first: U64, events: seq<EventData>) returns (r: Result<Encoded, LedgerError>)
    requires 0 < |events| <= MAX_EVENTS_PER_TRANSACTION
    ensures r == EncodeTransaction(transaction, first, events)
  {
    hide LE, FrameOf, Checksum;
    var count := |events|;
    var body := LE(8, transaction) + (LE(8, first) + LE(4, count));
    ghost var prefix := body;
    var stored: seq<StoredEvent> := [];
    for index := 0 to count
      invariant first + index <= U64_MAX + 1
      invariant body + EncodeEvents(events, first, count, index) == prefix + EncodeEvents(events, first, count, 0)
      invariant first + count <= U64_MAX + 1 ==>
                  stored + StoredFrom(events, transaction, first, index) == StoredFrom(events, transaction, first, 0)
    {
      if first + index > U64_MAX {
        return Err(IntegerOverflow);
      }
      var event := events[index];
      var encoded := EncodeEvent(event, first + index, index, count);
      Assoc(body, encoded, EncodeEvents(events, first, count, index + 1));
      body := body + encoded;
      if first + count <= U64_MAX + 1 {
        Assoc(stored, [StoredEvent(first + index, transaction, index, count, event)], StoredFrom(events, transaction, first, index + 1));
      }
      stored := stored + [StoredEvent(first + index, transaction, index, count, event)];
    }
    Assoc3(LE(8, transaction), LE(8, first), LE(4, count), EncodeEvents(events, first, count, 0));
    assert body == EncodeBody(transaction, first, events);
    if |body| > MAX_FRAME_BODY_BYTES {
      return Err(FrameTooLarge);
    }
    var checksum := ChecksumOf(body);
    assert stored + [] == stored;
    return Ok(Encoded(FrameOf(body), stored, Receipt(transaction, first, first + count - 1, count, checksum)));
  }

  lemma Assoc<T>(a: seq<T>, b: seq<T>, c: seq<T>)
    ensures (a + b) + c == a + (b + c)
  {
  }

  lemma Assoc3<T>(a: seq<T>, b: seq<T>, c: seq<T>, d: seq<T>)
    ensures (a + (b + c)) + d == a + (b + (c + d))
  {
  }

  /** The file as the operating system holds it. */
  class Disk {
    var bytes: seq<Byte>

    constructor (bytes: seq<Byte>)
      ensures this.bytes == bytes
    {
      this.bytes := bytes;
    }
  }

  class FileLedger {
    const file: Disk
    var head: Head
    var events: seq<StoredEvent>
    var payloadBytes: nat
    var poisoned: bool

    ghost function State(): Handle
      reads this
    {
      Handle(head, events, payloadBytes, poisoned)
    }

    constructor (file: Disk, head: Head, events: seq<StoredEvent>, payloadBytes: nat)
      ensures this.file == file && State() == Handle(head, events, payloadBytes, false)
    {
      this.file := file;
      this.head := head;
      this.events := events;
      this.payloadBytes := payloadBytes;
      poisoned := false;
    }

    /** Appends one transaction: file, handle and answer become exactly what `LedgerModel.Append` says. */
    method AppendWithIo(expected: Head, data: seq<EventData>, write: WriteOutcome) returns (r: Result<Receipt, LedgerError>)
      modifies this, file
      ensures Appended(file.bytes, State(), r) == Append(old(file.bytes), old(State()), expected, data, write)
    {
      hide ValidateEvents, EncodeTransaction, FrameOf;
      if poisoned {
        return Err(WriterPoisoned);
      }
      if expected != head {
        return Err(HeadConflict(expected, head));
      }
      var _ :- CheckEvents(data);
      if |events| + |data| > MAX_REPLAY_EVENTS {
        return Err(ReplayLimitExceeded);
      }
      var added := SumPayloads(data);
      var total :- CheckedPayload(payloadBytes, added);
      if head.transaction == U64_MAX || head.sequence == U64_MAX {
        return Err(IntegerOverflow);
      }
      assert 0 < |data| <= MAX_EVENTS_PER_TRANSACTION by {
        ValidCounts(data);
      }
      var encoded :- BuildTransaction(head.transaction + 1, head.sequence + 1, data);
      file.bytes := file.bytes + Kept(encoded.frame, write);
      if write.Broken? {
        poisoned := true;
        return Err(DurabilityAmbiguous);
      }
      head := Head(encoded.receipt.transaction, encoded.receipt.lastSequence);
      events := events + encoded.stored;
      payloadBytes := total;
      return Ok(encoded.receipt);
    }
  }

  lemma ValidCounts(events: seq<EventData>)
    requires ValidateEvents(events).Ok?
    ensures 0 < |events| <= MAX_EVENTS_PER_TRANSACTION
  {
  }

  /** Opens a file in place, creating its header when it is empty and cutting off a torn tail when allowed. */
  method OpenWithPolicy(file: Disk, create: bool, repair: bool, header: WriteOutcome)
      returns (ledger: FileLedger?, r: Result<Report, LedgerError>)
    modifies file
    ensures var after := Open(old(file.bytes), create, repair, header);
            && file.bytes == after.bytes
            && match after.result
               case Err(error) => ledger == null && r == Err(error)
               case Ok((handle, report)) => ledger != null && fresh(ledger) && ledger.file == file && ledger.State() == handle && r == Ok(report)
  {
    hide Header, ValidateHeader, ScanFile, Kept;
    ledger := null;
    if file.bytes == [] && create {
      file.bytes := Kept(Header(), header);
      if header.Broken? {
        return null, Err(Io);
      }
      KeptWhole(Header());
    } else {
      var checked := ValidateHeader(file.bytes);
      if checked.Err? {
        return null, Err(checked.error);
      }
      HeaderLongEnough(file.bytes);
    }
    var scanned := ScanTransactions(file.bytes);
    if scanned.Err? {
      return null, Err(scanned.error);
    }
    var s := scanned.value;
    ScanFileWithin(file.bytes);
    var tail := |file.bytes| - s.validBytes;
    if tail > 0 {
      if !repair {
        return null, Err(IncompleteTail(tail));
      }
      file.bytes := file.bytes[..s.validBytes];
    } else {
      assert file.bytes[..s.validBytes] == file.bytes;
    }
    ledger := new FileLedger(file, s.head, s.events, s.payloadBytes);
    r := Ok(Report(s.head, s.events, tail));
  }

  lemma KeptWhole(data: seq<Byte>)
    ensures Kept(data, Synced) == data
  {
  }

  lemma HeaderLongEnough(file: seq<Byte>)
    requires ValidateHeader(file).Ok?
    ensures |file| >= HEADER_BYTES
  {
    hide Checksum, FromLE;
  }

  lemma ScanFileWithin(file: seq<Byte>)
    requires |file| >= HEADER_BYTES
    ensures ScanFile(file).Ok? ==> ScanFile(file).value.validBytes <= |file|
  {
    ScanWithin(file, SCAN_START);
  }
}
