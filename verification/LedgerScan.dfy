/**
 What scanning recovers: whole transactions come back exactly, a cut anywhere
 leaves a torn tail and never reads as damage, and short damage is caught.
 */
module LedgerScan {
  import opened Prelude
  import opened Bytes
  import opened Crc
  import opened LedgerCodec

  // ---------- transactions as the writer lays them out ----------

  /** What append demands of a transaction after the scan state `s`. */
  predicate Fits(s: Scan, events: seq<EventData>) {
    && ValidateEvents(events).Ok?
    && |s.events| + |events| <= MAX_REPLAY_EVENTS
    && s.payloadBytes + PayloadBytes(events) <= MAX_REPLAY_PAYLOAD_BYTES
    && s.head.transaction < U64_MAX && s.head.sequence + |events| <= U64_MAX
    && |EncodeBody(s.head.transaction + 1, s.head.sequence + 1, events)| <= MAX_FRAME_BODY_BYTES
  }

  function Body(s: Scan, events: seq<EventData>): seq<Byte> {
    EncodeBody(s.head.transaction + 1, s.head.sequence + 1, events)
  }

  function Frame(s: Scan, events: seq<EventData>): (frame: seq<Byte>)
    requires Fits(s, events)
    ensures |frame| == |Body(s, events)| + 20
  {
    FrameOf(Body(s, events))
  }

  function Extended(s: Scan, events: seq<EventData>): Scan
    requires Fits(s, events)
  {
    Scan(Head(s.head.transaction + 1, s.head.sequence + |events|),
         s.events + StoredFrom(events, s.head.transaction + 1, s.head.sequence + 1, 0),
         s.validBytes + |Frame(s, events)|, s.payloadBytes + PayloadBytes(events))
  }

  /** Transactions that could be appended one after another to an empty ledger. */
  ghost predicate Appendable(txns: seq<seq<EventData>>)
    decreases |txns|, 0
  {
    txns == [] || (Appendable(txns[..|txns| - 1]) && Fits(Reached(txns[..|txns| - 1]), txns[|txns| - 1]))
  }

  /** Head, events and totals after these transactions. */
  ghost function Reached(txns: seq<seq<EventData>>): Scan
    requires Appendable(txns)
    decreases |txns|, 1
  {
    if txns == [] then SCAN_START else Extended(Reached(txns[..|txns| - 1]), txns[|txns| - 1])
  }

  /** The file these transactions make. */
  ghost function Image(txns: seq<seq<EventData>>): (file: seq<Byte>)
    requires Appendable(txns)
    ensures |file| == Reached(txns).validBytes >= HEADER_BYTES
    decreases |txns|
  {
    if txns == [] then Header()
    else Image(txns[..|txns| - 1]) + Frame(Reached(txns[..|txns| - 1]), txns[|txns| - 1])
  }

  lemma Last(txns: seq<seq<EventData>>)
    requires Appendable(txns) && txns != []
    ensures var init, last := txns[..|txns| - 1], txns[|txns| - 1];
            && Appendable(init) && Fits(Reached(init), last)
            && Reached(txns) == Extended(Reached(init), last)
            && Image(txns) == Image(init) + Frame(Reached(init), last)
  {
    hide Fits, Extended, Frame;
  }

  lemma FitsMeans(s: Scan, events: seq<EventData>)
    requires Fits(s, events)
    ensures 0 < |events| <= MAX_EVENTS_PER_TRANSACTION && ValidateEach(events).Ok?
    ensures |s.events| + |events| <= MAX_REPLAY_EVENTS && s.payloadBytes + PayloadBytes(events) <= MAX_REPLAY_PAYLOAD_BYTES
    ensures s.head.transaction < U64_MAX && s.head.sequence + |events| <= U64_MAX
    ensures 20 <= |Body(s, events)| <= MAX_FRAME_BODY_BYTES
  {
    hide ValidateEach, EncodeEvents, PayloadBytes;
  }

  // ---------- decoding inverts encoding ----------

  lemma ReadFront(body: seq<Byte>, position: nat, width: nat, value: nat, rest: seq<Byte>)
    requires position <= |body| && body[position..] == LE(width, value) + rest && value < Pow256(width)
    ensures ReadField(body, position, width) == Ok(value)
    ensures position + width <= |body| && body[position + width..] == rest
  {
    LERoundTrip(width, value);
    assert |body| - position == width + |rest|;
    assert body[position..position + width] == body[position..][..width] == LE(width, value);
    assert body[position + width..] == body[position..][width..] == rest;
  }

  lemma {:induction false} EachValid(events: seq<EventData>, index: nat)
    requires ValidateEach(events).Ok? && index < |events|
    ensures events[index].schema != 0 && events[index].kind != 0 && |events[index].payload| <= MAX_EVENT_PAYLOAD_BYTES
  {
    if index > 0 {
      EachValid(events[1..], index - 1);
    }
  }

  function PayloadFrom(events: seq<EventData>, index: nat): nat
    requires index <= |events|
  {
    PayloadBytes(events[index..])
  }

  lemma HeaderFields(body: seq<Byte>, p: nat, event: EventData, sequence: nat, index: nat, count: nat, rest: seq<Byte>)
    requires p <= |body| && body[p..] == EncodeEvent(event, sequence, index, count) + rest
    requires sequence <= U64_MAX && index <= U32_MAX && count <= U32_MAX && |event.payload| <= U32_MAX
    ensures p + 24 <= |body| && body[p + 24..] == event.payload + rest
    ensures ReadField(body, p, 8) == Ok(sequence) && ReadField(body, p + 8, 4) == Ok(index)
    ensures ReadField(body, p + 12, 4) == Ok(count) && ReadField(body, p + 16, 2) == Ok(event.schema)
    ensures ReadField(body, p + 18, 2) == Ok(event.kind) && ReadField(body, p + 20, 4) == Ok(|event.payload|)
  {
    Widths();
    hide ReadField, LE, Pow256;
    var tail5 := event.payload + rest;
    var tail4 := LE(4, |event.payload|) + tail5;
    var tail3 := LE(2, event.kind) + tail4;
    var tail2 := LE(2, event.schema) + tail3;
    var tail1 := LE(4, count) + tail2;
    var tail0 := LE(4, index) + tail1;
    assert body[p..] == LE(8, sequence) + tail0;
    ReadFront(body, p, 8, sequence, tail0);
    ReadFront(body, p + 8, 4, index, tail1);
    ReadFront(body, p + 12, 4, count, tail2);
    ReadFront(body, p + 16, 2, event.schema, tail3);
    ReadFront(body, p + 18, 2, event.kind, tail4);
    ReadFront(body, p + 20, 4, |event.payload|, tail5);
  }

  lemma DecodesEvent(body: seq<Byte>, d: Decoding, transaction: U64, first: nat, events: seq<EventData>, index: nat, rest: seq<Byte>)
    requires index < |events| <= MAX_EVENTS_PER_TRANSACTION && first + |events| <= U64_MAX + 1 && ValidateEach(events).Ok?
    requires d.position <= |body| && body[d.position..] == EncodeEvent(events[index], first + index, index, |events|) + rest
    requires d.payloadBytes + |events[index].payload| <= MAX_REPLAY_PAYLOAD_BYTES
    ensures var length := |events[index].payload|;
            && DecodeEvent(body, d, transaction, first, |events|, index)
               == Ok(Decoding(d.events + [StoredEvent(first + index, transaction, index, |events|, events[index])],
                              d.position + 24 + length, d.payloadBytes + length))
            && d.position + 24 + length <= |body| && body[d.position + 24 + length..] == rest
  {
    hide EncodeEvent, ReadField, ValidateEach;
    EachValid(events, index);
    var event := events[index];
    var p := d.position;
    HeaderFields(body, p, event, first + index, index, |events|, rest);
    var length := |event.payload|;
    assert |body[p + 24..]| == length + |rest|;
    assert body[p + 24..p + 24 + length] == body[p + 24..][..length] == event.payload;
    assert body[p + 24 + length..] == body[p + 24..][length..] == rest;
    assert EventData(event.schema, event.kind, event.payload) == event;
  }

  lemma {:induction false} DecodesEvents(body: seq<Byte>, d: Decoding, transaction: U64, first: nat, events: seq<EventData>, index: nat)
    requires index <= |events| <= MAX_EVENTS_PER_TRANSACTION && first + |events| <= U64_MAX + 1 && ValidateEach(events).Ok?
    requires d.position <= |body| && body[d.position..] == EncodeEvents(events, first, |events|, index)
    requires d.payloadBytes + PayloadFrom(events, index) <= MAX_REPLAY_PAYLOAD_BYTES
    ensures DecodeEvents(body, d, transaction, first, |events|, index)
            == Ok(Decoding(d.events + StoredFrom(events, transaction, first, index), |body|,
                           d.payloadBytes + PayloadFrom(events, index)))
    decreases |events| - index
  {
    hide DecodeEvent, EncodeEvent;
    if index == |events| {
      assert d.events + [] == d.events;
    } else {
      assert events[index..][0] == events[index] && events[index..][1..] == events[index + 1..];
      DecodesEvent(body, d, transaction, first, events, index, EncodeEvents(events, first, |events|, index + 1));
      var next := DecodeEvent(body, d, transaction, first, |events|, index).value;
      DecodesEvents(body, next, transaction, first, events, index + 1);
      var stored := StoredEvent(first + index, transaction, index, |events|, events[index]);
      assert d.events + [stored] + StoredFrom(events, transaction, first, index + 1)
          == d.events + ([stored] + StoredFrom(events, transaction, first, index + 1));
    }
  }

  lemma BodyFields(body: seq<Byte>, transaction: nat, first: nat, events: seq<EventData>)
    requires body == EncodeBody(transaction, first, events)
    requires transaction <= U64_MAX && first <= U64_MAX && |events| <= U32_MAX
    ensures |body| >= 20 && body[20..] == EncodeEvents(events, first, |events|, 0)
    ensures ReadField(body, 0, 8) == Ok(transaction) && ReadField(body, 8, 8) == Ok(first) && ReadField(body, 16, 4) == Ok(|events|)
  {
    Widths();
    hide ReadField, LE, EncodeEvents, Pow256;
    var tail2 := EncodeEvents(events, first, |events|, 0);
    var tail1 := LE(4, |events|) + tail2;
    var tail0 := LE(8, first) + tail1;
    assert body[0..] == LE(8, transaction) + tail0;
    ReadFront(body, 0, 8, transaction, tail0);
    ReadFront(body, 8, 8, first, tail1);
    ReadFront(body, 16, 4, |events|, tail2);
  }

  lemma DecodeSteps(body: seq<Byte>, previous: Head, transaction: U64, first: U64, count: nat, replayedEvents: nat, replayedBytes: nat, d: Decoding)
    requires ReadField(body, 0, 8) == Ok(transaction) && ReadField(body, 8, 8) == Ok(first) && ReadField(body, 16, 4) == Ok(count)
    requires 0 < count <= MAX_EVENTS_PER_TRANSACTION && previous.transaction < U64_MAX && transaction == previous.transaction + 1
    requires previous.sequence < U64_MAX && first == previous.sequence + 1 && first + count - 1 <= U64_MAX
    requires replayedEvents + count <= MAX_REPLAY_EVENTS
    requires DecodeEvents(body, Decoding([], 20, replayedBytes), transaction, first, count, 0) == Ok(d) && d.position == |body|
    ensures DecodeTransaction(body, previous, replayedEvents, replayedBytes)
            == Ok(Decoded(Head(transaction, first + count - 1), d.events, d.payloadBytes))
  {
    hide ReadField, DecodeEvents;
  }

  lemma BodyDecodes(transaction: U64, first: U64, events: seq<EventData>, replayedBytes: nat)
    requires 0 < |events| <= MAX_EVENTS_PER_TRANSACTION && ValidateEach(events).Ok? && first + |events| <= U64_MAX + 1
    requires replayedBytes + PayloadBytes(events) <= MAX_REPLAY_PAYLOAD_BYTES
    ensures var body := EncodeBody(transaction, first, events);
            && ReadField(body, 0, 8) == Ok(transaction) && ReadField(body, 8, 8) == Ok(first)
            && ReadField(body, 16, 4) == Ok(|events|)
            && DecodeEvents(body, Decoding([], 20, replayedBytes), transaction, first, |events|, 0)
               == Ok(Decoding(StoredFrom(events, transaction, first, 0), |body|, replayedBytes + PayloadBytes(events)))
  {
    hide ReadField, EncodeEvents, ValidateEach, DecodeEvents, StoredFrom, PayloadBytes, EncodeBody;
    var body := EncodeBody(transaction, first, events);
    BodyFields(body, transaction, first, events);
    assert events[0..] == events;
    DecodesEvents(body, Decoding([], 20, replayedBytes), transaction, first, events, 0);
    assert [] + StoredFrom(events, transaction, first, 0) == StoredFrom(events, transaction, first, 0);
  }

  /** Whatever append writes as a body, a scan at the same head decodes to exactly that transaction. */
  lemma TransactionRoundTrip(s: Scan, events: seq<EventData>)
    requires Fits(s, events)
    ensures DecodeTransaction(Body(s, events), s.head, |s.events|, s.payloadBytes)
            == Ok(Decoded(Head(s.head.transaction + 1, s.head.sequence + |events|),
                          StoredFrom(events, s.head.transaction + 1, s.head.sequence + 1, 0),
                          s.payloadBytes + PayloadBytes(events)))
  {
    hide Fits, ReadField, EncodeEvents, ValidateEach, DecodeEvents, DecodeTransaction, StoredFrom, PayloadBytes, EncodeBody;
    FitsMeans(s, events);
    var transaction, first := s.head.transaction + 1, s.head.sequence + 1;
    BodyDecodes(transaction, first, events, s.payloadBytes);
    DecodeSteps(Body(s, events), s.head, transaction, first, |events|, |s.events|, s.payloadBytes,
                Decoding(StoredFrom(events, transaction, first, 0), |Body(s, events)|, s.payloadBytes + PayloadBytes(events)));
  }

  // ---------- scanning frames ----------

  lemma FrameParts(body: seq<Byte>)
    requires 0 < |body| <= MAX_FRAME_BODY_BYTES
    ensures var frame, n := FrameOf(body), |body|;
            && |frame| == n + 20
            && frame[..4] == TRANSACTION_MAGIC && FromLE(frame[4..8]) == n && FromLE(frame[8..12]) == U32_MAX - n
            && frame[12..12 + n] == body && FromLE(frame[12 + n..16 + n]) == Checksum(body) && frame[16 + n..] == COMMIT_MAGIC
  {
    Widths();
    ChecksumFits(body);
    var n := |body|;
    LERoundTrip(4, n);
    LERoundTrip(4, U32_MAX - n);
    LERoundTrip(4, Checksum(body));
    hide LE, FromLE, Checksum, Pow256;
    var frame := FrameOf(body);
    assert frame[4..8] == LE(4, n);
    assert frame[8..12] == LE(4, U32_MAX - n);
    assert frame[12 + n..16 + n] == LE(4, Checksum(body));
  }

  lemma Shifted(file: seq<Byte>, o: nat, frame: seq<Byte>, i: nat, j: nat)
    requires o + |frame| <= |file| && file[o..o + |frame|] == frame && i <= j <= |frame|
    ensures file[o + i..o + j] == frame[i..j]
  {
    forall k | 0 <= k < j - i
      ensures file[o + i..o + j][k] == frame[i..j][k]
    {
      assert file[o..o + |frame|][i + k] == frame[i + k];
    }
  }

  /** A frame with readable length fields, lying wholly in the file at the scanner's offset. */
  ghost predicate WholeFrame(file: seq<Byte>, o: nat, n: nat) {
    && 0 < n <= MAX_FRAME_BODY_BYTES && o + n + 20 <= |file|
    && file[o..o + 4] == TRANSACTION_MAGIC && FromLE(file[o + 4..o + 8]) == n && FromLE(file[o + 8..o + 12]) == U32_MAX - n
  }

  lemma ScanBody(file: seq<Byte>, s: Scan, n: nat, decoded: Decoded)
    requires WholeFrame(file, s.validBytes, n)
    requires var o := s.validBytes;
             && FromLE(file[o + 12 + n..o + 16 + n]) == Checksum(file[o + 12..o + 12 + n])
             && file[o + 16 + n..o + 20 + n] == COMMIT_MAGIC
             && DecodeTransaction(file[o + 12..o + 12 + n], s.head, |s.events|, s.payloadBytes) == Ok(decoded)
    ensures ScanFrame(file, s) == Next(Scan(decoded.head, s.events + decoded.events, s.validBytes + n + 20, decoded.payloadBytes))
  {
    hide FromLE, Checksum, DecodeTransaction;
  }

  lemma ScanRejects(file: seq<Byte>, s: Scan, n: nat)
    requires WholeFrame(file, s.validBytes, n)
    requires var o := s.validBytes; FromLE(file[o + 12 + n..o + 16 + n]) != Checksum(file[o + 12..o + 12 + n])
    ensures ScanFrame(file, s) == Damaged(Corrupt(s.validBytes + 12 + n, FrameChecksum))
  {
    hide FromLE, Checksum, DecodeTransaction;
  }

  /** Reading the parts of a frame where it lies in the file. */
  lemma FrameInFile(file: seq<Byte>, o: nat, body: seq<Byte>, frame: seq<Byte>)
    requires 0 < |body| <= MAX_FRAME_BODY_BYTES && frame == FrameOf(body)
    requires o + |frame| <= |file| && file[o..o + |frame|] == frame
    ensures WholeFrame(file, o, |body|)
    ensures var n := |body|;
            && file[o + 12..o + 12 + n] == body && FromLE(file[o + 12 + n..o + 16 + n]) == Checksum(body)
            && file[o + 16 + n..o + 20 + n] == COMMIT_MAGIC
  {
    hide FrameOf, Checksum, FromLE, LE;
    FrameParts(body);
    var n := |body|;
    Shifted(file, o, frame, 0, 4);
    Shifted(file, o, frame, 4, 8);
    Shifted(file, o, frame, 8, 12);
    Shifted(file, o, frame, 12, 12 + n);
    Shifted(file, o, frame, 12 + n, 16 + n);
    Shifted(file, o, frame, 16 + n, 20 + n);
    assert frame[0..4] == frame[..4] && frame[16 + n..20 + n] == frame[16 + n..];
  }

  lemma ScanReadsFrame(file: seq<Byte>, s: Scan, events: seq<EventData>)
    requires Fits(s, events) && s.validBytes + |Frame(s, events)| <= |file|
    requires file[s.validBytes..s.validBytes + |Frame(s, events)|] == Frame(s, events)
    ensures ScanFrame(file, s) == Next(Extended(s, events))
  {
    hide Fits, Body, DecodeTransaction, FrameOf, Checksum, FromLE, ScanFrame, WholeFrame, StoredFrom, PayloadBytes;
    FitsMeans(s, events);
    TransactionRoundTrip(s, events);
    var body := Body(s, events);
    FrameInFile(file, s.validBytes, body, Frame(s, events));
    ScanBody(file, s, |body|, DecodeTransaction(body, s.head, |s.events|, s.payloadBytes).value);
  }

  lemma TornHeads(file: seq<Byte>, s: Scan, n: nat)
    requires s.validBytes < |file| < s.validBytes + n + 20 && 0 < n <= MAX_FRAME_BODY_BYTES
    requires |file| - s.validBytes >= 4 ==> file[s.validBytes..s.validBytes + 4] == TRANSACTION_MAGIC
    requires |file| - s.validBytes >= 12 ==>
               FromLE(file[s.validBytes + 4..s.validBytes + 8]) == n && FromLE(file[s.validBytes + 8..s.validBytes + 12]) == U32_MAX - n
    ensures ScanFrame(file, s) == Torn
  {
    hide FromLE, Checksum, DecodeTransaction;
  }

  lemma ScanStopsAtTear(file: seq<Byte>, s: Scan, events: seq<EventData>)
    requires Fits(s, events) && s.validBytes < |file| < s.validBytes + |Frame(s, events)|
    requires file[s.validBytes..] == Frame(s, events)[..|file| - s.validBytes]
    ensures ScanFrame(file, s) == Torn
  {
    FitsMeans(s, events);
    var body := Body(s, events);
    FrameParts(body);
    hide Fits, EncodeBody, FrameOf, Checksum, FromLE, ScanFrame, PayloadBytes, ValidateEach;
    var frame, o := Frame(s, events)[..|file| - s.validBytes], s.validBytes;
    assert file[o..o + |frame|] == frame;
    if |frame| >= 4 {
      Shifted(file, o, frame, 0, 4);
      assert frame[0..4] == Frame(s, events)[..4];
    }
    if |frame| >= 12 {
      Shifted(file, o, frame, 4, 8);
      Shifted(file, o, frame, 8, 12);
      assert frame[4..8] == Frame(s, events)[4..8] && frame[8..12] == Frame(s, events)[8..12];
    }
    TornHeads(file, s, |body|);
  }

  // ---------- prefixes ----------

  lemma {:induction false} PrefixAppendable(txns: seq<seq<EventData>>, m: nat)
    requires Appendable(txns) && m <= |txns|
    ensures Appendable(txns[..m]) && Image(txns[..m]) <= Image(txns)
    ensures Reached(txns[..m]).validBytes <= Reached(txns).validBytes
    decreases |txns|
  {
    hide Fits, Extended, Frame, Appendable, Image, Reached;
    if m == |txns| {
      assert txns[..m] == txns;
    } else {
      Last(txns);
      PrefixAppendable(txns[..|txns| - 1], m);
      assert txns[..|txns| - 1][..m] == txns[..m];
    }
  }

  lemma ImageNext(txns: seq<seq<EventData>>, m: nat)
    requires Appendable(txns) && m < |txns|
    ensures Appendable(txns[..m]) && Appendable(txns[..m + 1]) && Fits(Reached(txns[..m]), txns[m])
    ensures Image(txns[..m + 1]) == Image(txns[..m]) + Frame(Reached(txns[..m]), txns[m])
    ensures Reached(txns[..m + 1]) == Extended(Reached(txns[..m]), txns[m])
    ensures Image(txns[..m + 1]) <= Image(txns)
  {
    hide Fits, Extended, Frame, Appendable, Image, Reached;
    PrefixAppendable(txns, m);
    PrefixAppendable(txns, m + 1);
    Last(txns[..m + 1]);
    assert txns[..m + 1][..m] == txns[..m];
  }

  lemma ImageOfNone()
    ensures Appendable([]) && Reached([]) == SCAN_START && Image([]) == Header()
  {
  }

  lemma ScanOneMore(file: seq<Byte>, s: Scan, next: Scan)
    requires s.validBytes <= |file| && ScanFrame(file, s) == Next(next)
    ensures next.validBytes <= |file| && ScanFrom(file, s) == ScanFrom(file, next)
  {
    hide FromLE, Checksum, DecodeTransaction;
  }

  /** Scanning any file that starts with the image of some transactions goes through exactly them first. */
  lemma {:induction false} ScanPassesImage(file: seq<Byte>, txns: seq<seq<EventData>>)
    requires Appendable(txns) && Image(txns) <= file
    ensures ScanFile(file) == ScanFrom(file, Reached(txns))
    decreases |txns|
  {
    hide Fits, ScanFrame, Extended, Frame, Appendable, Image, Reached, ScanFrom;
    if txns == [] {
      ImageOfNone();
    } else {
      Last(txns);
      var init, last := txns[..|txns| - 1], txns[|txns| - 1];
      var s := Reached(init);
      assert Image(init) <= file;
      ScanPassesImage(file, init);
      assert file[s.validBytes..s.validBytes + |Frame(s, last)|] == Frame(s, last);
      ScanReadsFrame(file, s, last);
      ScanOneMore(file, s, Extended(s, last));
    }
  }

  /** How many leading transactions of `txns` lie wholly before byte `cut`. */
  ghost function Whole(txns: seq<seq<EventData>>, cut: nat): (m: nat)
    requires Appendable(txns)
    ensures m <= |txns|
  {
    if txns == [] || Reached(txns).validBytes <= cut then |txns| else Whole(txns[..|txns| - 1], cut)
  }

  lemma WholeStep(txns: seq<seq<EventData>>, cut: nat)
    requires Appendable(txns) && cut >= HEADER_BYTES
    ensures (txns == [] || Reached(txns).validBytes <= cut) ==> Whole(txns, cut) == |txns| && Reached(txns).validBytes <= cut
    ensures txns != [] && Reached(txns).validBytes > cut ==>
              Appendable(txns[..|txns| - 1]) && Whole(txns, cut) == Whole(txns[..|txns| - 1], cut)
  {
    hide Fits, Extended, Frame, Image;
  }

  lemma {:induction false} WholeMeans(txns: seq<seq<EventData>>, cut: nat)
    requires Appendable(txns) && cut >= HEADER_BYTES
    ensures var m := Whole(txns, cut);
            && Appendable(txns[..m]) && Reached(txns[..m]).validBytes <= cut
            && (m < |txns| ==> Appendable(txns[..m + 1]) && cut < Reached(txns[..m + 1]).validBytes)
    decreases |txns|
  {
    hide Fits, Extended, Frame, Appendable, Image, Reached, Whole;
    WholeStep(txns, cut);
    if txns == [] || Reached(txns).validBytes <= cut {
      assert txns[..|txns|] == txns;
    } else {
      var init := txns[..|txns| - 1];
      Last(txns);
      WholeMeans(init, cut);
      var m := Whole(init, cut);
      assert init[..m] == txns[..m];
      if m < |init| {
        assert init[..m + 1] == txns[..m + 1];
      } else {
        assert txns[..m + 1] == txns;
      }
    }
  }

  /** The scan of a cut file, with `m` the transactions wholly before the cut. */
  lemma CutScan(txns: seq<seq<EventData>>, cut: nat, m: nat)
    requires Appendable(txns) && HEADER_BYTES <= cut <= |Image(txns)| && m <= |txns|
    requires Appendable(txns[..m]) && Reached(txns[..m]).validBytes <= cut
    requires m < |txns| ==> Appendable(txns[..m + 1]) && cut < Reached(txns[..m + 1]).validBytes
    ensures ScanFile(Image(txns)[..cut]) == Ok(Reached(txns[..m]))
  {
    hide Fits, Extended, Frame, Appendable, Image, Reached, ScanFrame;
    PrefixAppendable(txns, m);
    var s := Reached(txns[..m]);
    var file := Image(txns)[..cut];
    assert Image(txns[..m]) <= file;
    ScanPassesImage(file, txns[..m]);
    assert m == |txns| ==> s.validBytes == cut by {
      if m == |txns| {
        assert txns[..m] == txns;
      }
    }
    if s.validBytes == cut {
      ScanAtEnd(file, s);
    } else {
      ImageNext(txns, m);
      var frame := Frame(s, txns[m]);
      ExtendedLength(s, txns[m]);
      assert Image(txns)[s.validBytes..s.validBytes + |frame|] == frame;
      assert file[s.validBytes..] == frame[..|file| - s.validBytes];
      ScanStopsAtTear(file, s, txns[m]);
    }
  }

  /** Torn tail: cut the file of any accepted appends at any byte from the header on. The scan
      never reports damage; it returns exactly the transactions whose frames lie wholly before
      the cut and stops at the end of the last one. Truncating there scans to the same with no tail left. */
  lemma TornTail(txns: seq<seq<EventData>>, cut: nat)
    requires Appendable(txns) && HEADER_BYTES <= cut <= |Image(txns)|
    ensures var m := Whole(txns, cut);
            && Appendable(txns[..m])
            && Reached(txns[..m]).validBytes <= cut
            && (m < |txns| ==> Appendable(txns[..m + 1]) && cut < Reached(txns[..m + 1]).validBytes)
            && ScanFile(Image(txns)[..cut]) == Ok(Reached(txns[..m]))
            && Image(txns)[..Reached(txns[..m]).validBytes] == Image(txns[..m])
            && ScanFile(Image(txns[..m])) == Ok(Reached(txns[..m]))
  {
    hide Fits, Extended, Frame, Appendable, Image, Reached, ScanFrame, Whole, ScanFile;
    var m := Whole(txns, cut);
    WholeMeans(txns, cut);
    PrefixAppendable(txns, m);
    CutScan(txns, cut, m);
    WholeScan(txns[..m]);
  }

  /** The file of any accepted appends scans back to exactly their events and totals. */
  lemma WholeScan(txns: seq<seq<EventData>>)
    requires Appendable(txns)
    ensures ScanFile(Image(txns)) == Ok(Reached(txns))
  {
    hide Fits, Extended, Frame, Appendable, Image, Reached, ScanFrame;
    ScanPassesImage(Image(txns), txns);
    ScanAtEnd(Image(txns), Reached(txns));
  }

  lemma ExtendedLength(s: Scan, events: seq<EventData>)
    requires Fits(s, events)
    ensures Extended(s, events).validBytes == s.validBytes + |Frame(s, events)|
  {
  }

  lemma ScanAtEnd(file: seq<Byte>, s: Scan)
    requires s.validBytes == |file|
    ensures ScanFrame(file, s) == AtEnd
  {
  }

  // ---------- damage inside a body ----------

  /** A frame whose body was replaced, everything else as written. */
  ghost function WithBody(body: seq<Byte>, replacement: seq<Byte>): seq<Byte>
    requires |body| <= U32_MAX
  {
    FrameOf(body)[..12] + replacement + FrameOf(body)[12 + |body|..]
  }

  lemma DamagedParts(body: seq<Byte>, replacement: seq<Byte>)
    requires 0 < |body| == |replacement| <= MAX_FRAME_BODY_BYTES
    ensures var damaged, n := WithBody(body, replacement), |body|;
            && |damaged| == n + 20 && damaged[0..4] == TRANSACTION_MAGIC
            && FromLE(damaged[4..8]) == n && FromLE(damaged[8..12]) == U32_MAX - n
            && damaged[12..12 + n] == replacement && FromLE(damaged[12 + n..16 + n]) == Checksum(body)
  {
    hide FrameOf, Checksum, FromLE, LE;
    FrameParts(body);
    var frame, damaged, n := FrameOf(body), WithBody(body, replacement), |body|;
    assert damaged[0..4] == frame[..4] && damaged[4..8] == frame[4..8] && damaged[8..12] == frame[8..12];
    assert damaged[12..12 + n] == replacement && damaged[12 + n..16 + n] == frame[12 + n..16 + n];
  }

  lemma DamagedFrame(file: seq<Byte>, o: nat, body: seq<Byte>, replacement: seq<Byte>)
    requires 0 < |body| == |replacement| <= MAX_FRAME_BODY_BYTES
    requires o + |body| + 20 <= |file| && file[o..o + |body| + 20] == WithBody(body, replacement)
    ensures WholeFrame(file, o, |body|)
    ensures var n := |body|; file[o + 12..o + 12 + n] == replacement && FromLE(file[o + 12 + n..o + 16 + n]) == Checksum(body)
  {
    hide WithBody, FrameOf, Checksum, FromLE, LE;
    DamagedParts(body, replacement);
    var damaged, n := WithBody(body, replacement), |body|;
    Shifted(file, o, damaged, 0, 4);
    Shifted(file, o, damaged, 4, 8);
    Shifted(file, o, damaged, 8, 12);
    Shifted(file, o, damaged, 12, 12 + n);
    Shifted(file, o, damaged, 12 + n, 16 + n);
  }

  /** A change confined to four consecutive bytes of one stored body is never accepted, wherever the
      transaction lies in the file and whatever follows it. */
  lemma ShortDamageRejected(txns: seq<seq<EventData>>, events: seq<EventData>, before: seq<Byte>, window: seq<Byte>,
                            changed: seq<Byte>, after: seq<Byte>, rest: seq<Byte>)
    requires Appendable(txns) && Fits(Reached(txns), events)
    requires Body(Reached(txns), events) == before + window + after && |window| == |changed| <= 4 && window != changed
    ensures var body := Body(Reached(txns), events);
            |body| <= U32_MAX && ScanFile(Image(txns) + WithBody(body, before + changed + after) + rest)
                                 == Err(Corrupt(Reached(txns).validBytes + 12 + |body|, FrameChecksum))
  {
    hide Appendable, Image, Reached, ScanFrame, Fits, EncodeBody, Checksum, WholeFrame, FrameOf;
    var s := Reached(txns);
    FitsMeans(s, events);
    var body := Body(s, events);
    ShortChangeDetected(before, window, changed, after);
    var replacement := before + changed + after;
    assert |WithBody(body, replacement)| == |body| + 20 by {
      FrameParts(body);
    }
    var file := Image(txns) + WithBody(body, replacement) + rest;
    assert Image(txns) <= file;
    ScanPassesImage(file, txns);
    assert file[s.validBytes..s.validBytes + |body| + 20] == WithBody(body, replacement);
    hide WithBody;
    DamagedFrame(file, s.validBytes, body, replacement);
    ScanRejects(file, s, |body|);
  }
}
