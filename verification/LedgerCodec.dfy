/**
 The on-disk format of the event ledger: a checked header, then one framed,
 checksummed and commit-marked body per transaction.
 */
module LedgerCodec {
  import opened Prelude
  import opened Bytes
  import opened Crc

  const HEADER_MAGIC: seq<Byte> := [71, 84, 76, 69, 68, 71, 69, 82]
  const TRANSACTION_MAGIC: seq<Byte> := [71, 84, 88, 78]
  const COMMIT_MAGIC: seq<Byte> := [67, 77, 73, 84]
  const HEADER_BYTES: nat := 16
  const FORMAT_VERSION: nat := 1
  const MAX_EVENT_PAYLOAD_BYTES: nat := 1024 * 1024
  const MAX_EVENTS_PER_TRANSACTION: nat := 4096
  const MAX_FRAME_BODY_BYTES: nat := 4 * 1024 * 1024
  const MAX_REPLAY_EVENTS: nat := 1_000_000
  const MAX_REPLAY_PAYLOAD_BYTES: nat := 64 * 1024 * 1024

  datatype Head = Head(transaction: U64, sequence: U64)

  const NO_HEAD := Head(0, 0)

  datatype EventData = EventData(schema: U16, kind: U16, payload: seq<Byte>)

  datatype StoredEvent = StoredEvent(sequence: U64, transaction: U64, index: U32, count: U32, data: EventData)

  datatype Receipt = Receipt(transaction: U64, firstSequence: U64, lastSequence: U64, count: U32, checksum: nat)

  datatype Reason =
    | TruncatedHeader | HeaderMagic | HeaderReserved | HeaderChecksum
    | FrameMagic | FrameLengthCheck | FrameLengthBounds | FrameChecksum | FrameCommit
    | BodyTruncated | EventCountBounds | TransactionGap | SequenceGap | EventMetadata | EventZero | EventPayloadBounds | TrailingBytes

  datatype LedgerError =
    | Io | DurabilityAmbiguous | HeadConflict(expected: Head, actual: Head) | UnsupportedFormat(version: nat)
    | Corrupt(offset: nat, reason: Reason)
    | EmptyTransaction | TooManyEvents | PayloadTooLarge | FrameTooLarge | ZeroEventSchema | ZeroEventKind
    | ReplayLimitExceeded | ReplayPayloadLimitExceeded | IncompleteTail(bytes: nat) | IntegerOverflow | WriterPoisoned

  // ---------- header ----------

  const HEADER_START: seq<Byte> := HEADER_MAGIC + LE(2, FORMAT_VERSION) + LE(2, 0)

  function Header(): (header: seq<Byte>)
    ensures |header| == HEADER_BYTES
  {
    HEADER_START + LE(4, Checksum(HEADER_START))
  }

  function ValidateHeader(file: seq<Byte>): Result<(), LedgerError> {
    if |file| < HEADER_BYTES then Err(Corrupt(0, TruncatedHeader))
    else if file[..8] != HEADER_MAGIC then Err(Corrupt(0, HeaderMagic))
    else if FromLE(file[8..10]) != FORMAT_VERSION then Err(UnsupportedFormat(FromLE(file[8..10])))
    else if file[10..12] != [0, 0] then Err(Corrupt(10, HeaderReserved))
    else if Checksum(file[..12]) != FromLE(file[12..16]) then Err(Corrupt(12, HeaderChecksum))
    else Ok(())
  }

  // ---------- encoding ----------

  function ValidateEvents(events: seq<EventData>): Result<(), LedgerError> {
    if events == [] then Err(EmptyTransaction)
    else if |events| > MAX_EVENTS_PER_TRANSACTION then Err(TooManyEvents)
    else ValidateEach(events)
  }

  function ValidateEach(events: seq<EventData>): Result<(), LedgerError> {
    if events == [] then Ok(())
    else if events[0].schema == 0 then Err(ZeroEventSchema)
    else if events[0].kind == 0 then Err(ZeroEventKind)
    else if |events[0].payload| > MAX_EVENT_PAYLOAD_BYTES then Err(PayloadTooLarge)
    else ValidateEach(events[1..])
  }

  function PayloadBytes(events: seq<EventData>): nat {
    if events == [] then 0 else |events[0].payload| + PayloadBytes(events[1..])
  }

  function EncodeEvent(event: EventData, sequence: nat, index: nat, count: nat): seq<Byte> {
    LE(8, sequence) + (LE(4, index) + (LE(4, count) + (LE(2, event.schema) + (LE(2, event.kind) + (LE(4, |event.payload|) + event.payload)))))
  }

  /** Events from position `index` on, as they follow each other in a body. */
  function EncodeEvents(events: seq<EventData>, first: nat, count: nat, index: nat): seq<Byte>
    requires index <= |events|
    decreases |events| - index
  {
    if index == |events| then []
    else EncodeEvent(events[index], first + index, index, count) + EncodeEvents(events, first, count, index + 1)
  }

  function EncodeBody(transaction: nat, first: nat, events: seq<EventData>): seq<Byte> {
    LE(8, transaction) + (LE(8, first) + (LE(4, |events|) + EncodeEvents(events, first, |events|, 0)))
  }

  /** Magic, length and its complement, body, checksum, commit marker. */
  function FrameOf(body: seq<Byte>): seq<Byte>
    requires |body| <= U32_MAX
  {
    TRANSACTION_MAGIC + LE(4, |body|) + LE(4, U32_MAX - |body|) + body + LE(4, Checksum(body)) + COMMIT_MAGIC
  }

  function StoredFrom(events: seq<EventData>, transaction: U64, first: nat, index: nat): seq<StoredEvent>
    requires index <= |events| <= U32_MAX && first + |events| <= U64_MAX + 1
    decreases |events| - index
  {
    if index == |events| then []
    else [StoredEvent(first + index, transaction, index, |events|, events[index])] + StoredFrom(events, transaction, first, index + 1)
  }

  datatype Encoded = Encoded(frame: seq<Byte>, stored: seq<StoredEvent>, receipt: Receipt)

  function EncodeTransaction(transaction: U64, first: U64, events: seq<EventData>): Result<Encoded, LedgerError> {
    if |events| > U32_MAX then Err(TooManyEvents)
    else if first + |events| > U64_MAX + 1 then Err(IntegerOverflow)
    else
      var body := EncodeBody(transaction, first, events);
      if |body| > MAX_FRAME_BODY_BYTES then Err(FrameTooLarge)
      else if events == [] then Err(IntegerOverflow)
      else Ok(Encoded(FrameOf(body), StoredFrom(events, transaction, first, 0),
                      Receipt(transaction, first, first + |events| - 1, |events|, Checksum(body))))
  }

  // ---------- decoding ----------

  type Field = Result<nat, LedgerError>

  /** An unsigned field of a body at a cursor position. */
  function ReadField(body: seq<Byte>, position: nat, width: nat): Field {
    if position + width > |body| then Err(Corrupt(position, BodyTruncated)) else Ok(FromLE(body[position..position + width]))
  }

  datatype Decoding = Decoding(events: seq<StoredEvent>, position: nat, payloadBytes: nat)

  function CheckedPayload(current: nat, additional: nat): Result<nat, LedgerError> {
    if current + additional > MAX_REPLAY_PAYLOAD_BYTES then Err(ReplayPayloadLimitExceeded) else Ok(current + additional)
  }

  /** One stored event at a cursor: its metadata must be exactly what its place demands. */
  function DecodeEvent(body: seq<Byte>, d: Decoding, transaction: U64, first: nat, count: nat, index: nat): Result<Decoding, LedgerError> {
    var p := d.position;
    var sequence :- ReadField(body, p, 8);
    var storedIndex :- ReadField(body, p + 8, 4);
    var total :- ReadField(body, p + 12, 4);
    var schema :- ReadField(body, p + 16, 2);
    var kind :- ReadField(body, p + 18, 2);
    var length :- ReadField(body, p + 20, 4);
    if first + index > U64_MAX then Err(IntegerOverflow)
    else if sequence != first + index || storedIndex != index || total != count then Err(Corrupt(p + 24, EventMetadata))
    else if schema == 0 || kind == 0 then Err(Corrupt(p + 24, EventZero))
    else if length > MAX_EVENT_PAYLOAD_BYTES then Err(Corrupt(p + 24, EventPayloadBounds))
    else
      var payloadBytes :- CheckedPayload(d.payloadBytes, length);
      if p + 24 + length > |body| then Err(Corrupt(p + 24, BodyTruncated))
      else
        FieldBounds(body, p);
        var data := EventData(schema, kind, body[p + 24..p + 24 + length]);
        Ok(Decoding(d.events + [StoredEvent(sequence, transaction, storedIndex, total, data)], p + 24 + length, payloadBytes))
  }

  lemma FieldBounds(body: seq<Byte>, p: nat)
    requires p + 24 <= |body|
    ensures FromLE(body[p..p + 8]) <= U64_MAX
    ensures FromLE(body[p + 8..p + 8 + 4]) <= U32_MAX && FromLE(body[p + 12..p + 12 + 4]) <= U32_MAX
    ensures FromLE(body[p + 16..p + 16 + 2]) <= U16_MAX && FromLE(body[p + 18..p + 18 + 2]) <= U16_MAX
  {
    Widths();
    assert |body[p..p + 8]| == 8 && |body[p + 8..p + 8 + 4]| == 4 && |body[p + 12..p + 12 + 4]| == 4;
    assert |body[p + 16..p + 16 + 2]| == 2 && |body[p + 18..p + 18 + 2]| == 2;
  }

  function DecodeEvents(body: seq<Byte>, d: Decoding, transaction: U64, first: nat, count: nat, index: nat): Result<Decoding, LedgerError>
    requires index <= count
    decreases count - index
  {
    if index == count then Ok(d)
    else
      var next :- DecodeEvent(body, d, transaction, first, count, index);
      DecodeEvents(body, next, transaction, first, count, index + 1)
  }

  datatype Decoded = Decoded(head: Head, events: seq<StoredEvent>, payloadBytes: nat)

  function DecodeTransaction(body: seq<Byte>, previous: Head, replayedEvents: nat, replayedBytes: nat): Result<Decoded, LedgerError> {
    var transaction :- ReadField(body, 0, 8);
    var first :- ReadField(body, 8, 8);
    var count :- ReadField(body, 16, 4);
    if count == 0 || count > MAX_EVENTS_PER_TRANSACTION then Err(Corrupt(0, EventCountBounds))
    else if previous.transaction == U64_MAX then Err(IntegerOverflow)
    else if transaction != previous.transaction + 1 then Err(Corrupt(0, TransactionGap))
    else if previous.sequence == U64_MAX then Err(IntegerOverflow)
    else if first != previous.sequence + 1 then Err(Corrupt(8, SequenceGap))
    else if replayedEvents + count > MAX_REPLAY_EVENTS then Err(ReplayLimitExceeded)
    else
      var d :- DecodeEvents(body, Decoding([], 20, replayedBytes), transaction, first, count, 0);
      if d.position != |body| then Err(Corrupt(d.position, TrailingBytes))
      else if first + count - 1 > U64_MAX then Err(IntegerOverflow)
      else Ok(Decoded(Head(transaction, first + count - 1), d.events, d.payloadBytes))
  }

  // ---------- scanning ----------

  datatype Scan = Scan(head: Head, events: seq<StoredEvent>, validBytes: nat, payloadBytes: nat)

  const SCAN_START := Scan(NO_HEAD, [], HEADER_BYTES, 0)

  /** What the scanner finds at its offset: nothing more, a torn tail, damage, or one more transaction. */
  datatype Found = AtEnd | Torn | Damaged(error: LedgerError) | Next(scan: Scan)

  function ScanFrame(file: seq<Byte>, s: Scan): Found
    requires s.validBytes <= |file|
  {
    var o := s.validBytes;
    var remaining := |file| - o;
    if remaining == 0 then AtEnd
    else if remaining < 4 then Torn
    else if file[o..o + 4] != TRANSACTION_MAGIC then Damaged(Corrupt(o, FrameMagic))
    else if remaining < 12 then Torn
    else
      var length := FromLE(file[o + 4..o + 8]);
      if FromLE(file[o + 8..o + 12]) + length != U32_MAX then Damaged(Corrupt(o + 8, FrameLengthCheck))
      else if length == 0 || length > MAX_FRAME_BODY_BYTES then Damaged(Corrupt(o + 4, FrameLengthBounds))
      else if remaining < length + 20 then Torn
      else
        var body := file[o + 12..o + 12 + length];
        if Checksum(body) != FromLE(file[o + 12 + length..o + 16 + length]) then Damaged(Corrupt(o + 12 + length, FrameChecksum))
        else if file[o + 16 + length..o + 20 + length] != COMMIT_MAGIC then Damaged(Corrupt(o + 16 + length, FrameCommit))
        else
          match DecodeTransaction(body, s.head, |s.events|, s.payloadBytes)
          case Err(error) => Damaged(error)
          case Ok(decoded) => Next(Scan(decoded.head, s.events + decoded.events, o + length + 20, decoded.payloadBytes))
  }

  function ScanFrom(file: seq<Byte>, s: Scan): Result<Scan, LedgerError>
    requires s.validBytes <= |file|
    decreases |file| - s.validBytes
  {
    match ScanFrame(file, s)
    case AtEnd => Ok(s)
    case Torn => Ok(s)
    case Damaged(error) => Err(error)
    case Next(next) => ScanFrom(file, next)
  }

  function ScanFile(file: seq<Byte>): Result<Scan, LedgerError>
    requires |file| >= HEADER_BYTES
  {
    ScanFrom(file, SCAN_START)
  }
}
