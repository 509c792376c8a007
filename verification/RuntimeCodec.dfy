/**
 The kernel's events as stored bytes: what the encoder appends for each kind
 and what the decoder accepts, reading from the front of what is left.
 */
module RuntimeCodec {
  import opened Prelude
  import opened Bytes
  import opened Strings
  import opened KernelModel
  import Context
  import Pricing
  import UsageModel
  import Utf8

  const SCHEMA: U16 := 14
  const MAX_CONFIG_ID_BYTES: nat := 64
  const MAX_PROVIDER_ID_BYTES: nat := 512
  const MAX_SERVICE_TIER_BYTES: nat := 64
  const MAX_USAGE_WINDOWS: nat := 128

  datatype CodecError =
    | UnsupportedSchema | HistoricalSchema | CorruptEvent | InvalidId | InvalidTimestamp | InvalidUsage | InvalidSelection
    | InvalidView(error: Context.ViewError) | TooLong | LegacyOrigin

  /** What was read and the bytes after it. */
  type Read<T> = Result<(T, seq<Byte>), CodecError>

  /** The text behind each name, the digest of a text, the codecs of the two frozen epochs and the range of
      timestamps: everything the event codec takes from elsewhere. */
  datatype Codebook = Codebook(
    text: nat -> string, token: string -> nat, digest: string -> nat,
    putConfig: Config -> seq<Byte>, getConfig: seq<Byte> -> Option<Config>,
    putProvider: Provider -> seq<Byte>, getProvider: seq<Byte> -> Option<Provider>, earliest: int, latest: int)

  /** Names and texts correspond one to one, and timestamps are 64-bit integers. */
  ghost predicate Faithful(k: Codebook) {
    && (forall n: nat :: k.token(k.text(n)) == n)
    && (forall s: string :: k.text(k.token(s)) == s)
    && -0x8000_0000_0000_0000 <= k.earliest <= k.latest < 0x8000_0000_0000_0000
  }

  // ---------- integers and text ----------

  function GetBytes(n: nat, b: seq<Byte>): Read<seq<Byte>> {
    if n > |b| then Err(CorruptEvent) else Ok((b[..n], b[n..]))
  }

  function PutNumber(width: nat, value: nat, rest: seq<Byte>): seq<Byte> {
    LE(width, value) + rest
  }

  function GetNumber(width: nat, b: seq<Byte>): (r: Read<nat>)
    ensures r.Ok? ==> r.value.0 < Pow256(width)
  {
    var raw :- GetBytes(width, b);
    Ok((FromLE(raw.0), raw.1))
  }

  function PutTag(tag: nat, rest: seq<Byte>): seq<Byte> {
    PutNumber(1, tag, rest)
  }

  function GetTag(b: seq<Byte>): Read<nat> {
    GetNumber(1, b)
  }

  function PutU32(value: U32, rest: seq<Byte>): seq<Byte> {
    PutNumber(4, value, rest)
  }

  function GetU32(b: seq<Byte>): Read<U32> {
    Widths();
    var r :- GetNumber(4, b);
    Ok((r.0, r.1))
  }

  function PutU64(value: U64, rest: seq<Byte>): seq<Byte> {
    PutNumber(8, value, rest)
  }

  function GetU64(b: seq<Byte>): Read<U64> {
    Widths();
    var r :- GetNumber(8, b);
    Ok((r.0, r.1))
  }

  function GetId(b: seq<Byte>): Read<Id> {
    var r :- GetU64(b);
    if r.0 == 0 then Err(InvalidId) else Ok((r.0, r.1))
  }

  /** Two's complement. */
  function Unsigned(value: int): U64
    requires -0x8000_0000_0000_0000 <= value < 0x8000_0000_0000_0000
  {
    if value < 0 then value + 0x1_0000_0000_0000_0000 else value
  }

  function Signed(value: U64): int {
    if value < 0x8000_0000_0000_0000 then value else value - 0x1_0000_0000_0000_0000
  }

  predicate Timely(k: Codebook, time: int) {
    k.earliest <= time <= k.latest
  }

  predicate Signed64(time: int) {
    -0x8000_0000_0000_0000 <= time < 0x8000_0000_0000_0000
  }

  function PutTime(time: int, rest: seq<Byte>): seq<Byte> {
    PutU64(if Signed64(time) then Unsigned(time) else 0, rest)
  }

  function GetTime(k: Codebook, b: seq<Byte>): Read<int> {
    var r :- GetU64(b);
    if !Timely(k, Signed(r.0)) then Err(InvalidTimestamp) else Ok((Signed(r.0), r.1))
  }

  function PutText(s: string, rest: seq<Byte>): seq<Byte> {
    PutNumber(4, |Utf8.Encode(s)|, Utf8.Encode(s) + rest)
  }

  function GetText(max: nat, b: seq<Byte>): Read<string> {
    var length :- GetU32(b);
    if length.0 > max then Err(CorruptEvent)
    else
      var raw :- GetBytes(length.0, length.1);
      match Utf8.Decode(raw.0)
      case None => Err(CorruptEvent)
      case Some(s) => Ok((s, raw.1))
  }

  function PutName(k: Codebook, name: nat, rest: seq<Byte>): seq<Byte> {
    PutText(k.text(name), rest)
  }

  function GetName(k: Codebook, max: nat, b: seq<Byte>): Read<nat> {
    var r :- GetText(max, b);
    Ok((k.token(r.0), r.1))
  }

  predicate NameFits(k: Codebook, max: nat, name: nat) {
    Utf8Length(k.text(name)) <= max
  }

  // ---------- what the texts must look like ----------

  predicate PresetChar(c: char) {
    'a' <= c <= 'z' || '0' <= c <= '9' || c == '-'
  }

  predicate PresetValid(s: string) {
    0 < |s| && Utf8Length(s) <= MAX_CONFIG_ID_BYTES && (forall i :: 0 <= i < |s| ==> PresetChar(s[i])) && s[0] != '-'
  }

  /** Trimmed, not empty, free of control characters and short enough. */
  predicate ProviderText(s: string, max: nat) {
    0 < |s| && !IsSpace(s[0]) && !IsSpace(s[|s| - 1]) && Utf8Length(s) <= max && !HasControl(s)
  }

  // ---------- optional values and lists ----------

  function PutOptional<T>(put: (T, seq<Byte>) -> seq<Byte>, value: Option<T>, rest: seq<Byte>): seq<Byte> {
    match value
    case None => PutTag(0, rest)
    case Some(x) => PutTag(1, put(x, rest))
  }

  function GetOptional<T>(get: seq<Byte> -> Read<T>, b: seq<Byte>): Read<Option<T>> {
    var tag :- GetTag(b);
    if tag.0 == 0 then Ok((None, tag.1))
    else if tag.0 == 1 then
      var r :- get(tag.1);
      Ok((Some(r.0), r.1))
    else Err(CorruptEvent)
  }

  function PutList<T>(put: (T, seq<Byte>) -> seq<Byte>, items: seq<T>, rest: seq<Byte>): seq<Byte> {
    if |items| == 0 then rest else put(items[0], PutList(put, items[1..], rest))
  }

  function GetList<T>(get: seq<Byte> -> Read<T>, count: nat, b: seq<Byte>): Read<seq<T>> {
    if count == 0 then Ok(([], b))
    else
      var first :- get(b);
      var others :- GetList(get, count - 1, first.1);
      Ok(([first.0] + others.0, others.1))
  }

  function PutCounted<T>(put: (T, seq<Byte>) -> seq<Byte>, items: seq<T>, rest: seq<Byte>): seq<Byte> {
    PutNumber(4, |items|, PutList(put, items, rest))
  }

  function GetCounted<T>(get: seq<Byte> -> Read<T>, least: nat, most: nat, b: seq<Byte>): Read<seq<T>> {
    var count :- GetU32(b);
    if count.0 < least || count.0 > most then Err(CorruptEvent) else GetList(get, count.0, count.1)
  }

  /** `get` reads back exactly what `put` writes of the valid values, and nothing else. */
  ghost predicate Inverse<T(!new)>(put: (T, seq<Byte>) -> seq<Byte>, get: seq<Byte> -> Read<T>, valid: T -> bool) {
    && (forall x, rest :: valid(x) ==> get(put(x, rest)) == Ok((x, rest)))
    && (forall b :: get(b).Ok? ==> valid(get(b).value.0) && put(get(b).value.0, get(b).value.1) == b)
  }

  lemma NumberWritten(width: nat, value: nat, rest: seq<Byte>)
    requires value < Pow256(width)
    ensures GetNumber(width, PutNumber(width, value, rest)) == Ok((value, rest))
  {
    LERoundTrip(width, value);
    var b := PutNumber(width, value, rest);
    assert b[..width] == LE(width, value) && b[width..] == rest;
  }

  lemma NumberRead(width: nat, b: seq<Byte>)
    requires GetNumber(width, b).Ok?
    ensures var r := GetNumber(width, b).value; PutNumber(width, r.0, r.1) == b
  {
    LEUnique(b[..width]);
  }

  lemma Tags()
    ensures forall tag: nat, rest {:trigger PutTag(tag, rest)} :: tag < 256 ==> GetTag(PutTag(tag, rest)) == Ok((tag, rest))
    ensures forall b {:trigger GetTag(b)} :: GetTag(b).Ok? ==> PutTag(GetTag(b).value.0, GetTag(b).value.1) == b && GetTag(b).value.0 < 256
  {
    hide PutNumber, GetNumber;
    assert Pow256(1) == 256;
    forall tag: nat, rest | tag < 256
      ensures GetTag(PutTag(tag, rest)) == Ok((tag, rest))
    {
      NumberWritten(1, tag, rest);
    }
    forall b | GetTag(b).Ok?
      ensures PutTag(GetTag(b).value.0, GetTag(b).value.1) == b && GetTag(b).value.0 < 256
    {
      NumberRead(1, b);
    }
  }

  lemma Words()
    ensures forall value: U32, rest {:trigger PutU32(value, rest)} :: GetU32(PutU32(value, rest)) == Ok((value, rest))
    ensures forall b {:trigger GetU32(b)} :: GetU32(b).Ok? ==> PutU32(GetU32(b).value.0, GetU32(b).value.1) == b
    ensures forall value: U64, rest {:trigger PutU64(value, rest)} :: GetU64(PutU64(value, rest)) == Ok((value, rest))
    ensures forall b {:trigger GetU64(b)} :: GetU64(b).Ok? ==> PutU64(GetU64(b).value.0, GetU64(b).value.1) == b
  {
    hide PutNumber, GetNumber;
    Widths();
    forall value: U32, rest
      ensures GetU32(PutU32(value, rest)) == Ok((value, rest))
    {
      NumberWritten(4, value, rest);
    }
    forall b | GetU32(b).Ok?
      ensures PutU32(GetU32(b).value.0, GetU32(b).value.1) == b
    {
      NumberRead(4, b);
    }
    forall value: U64, rest
      ensures GetU64(PutU64(value, rest)) == Ok((value, rest))
    {
      NumberWritten(8, value, rest);
    }
    forall b | GetU64(b).Ok?
      ensures PutU64(GetU64(b).value.0, GetU64(b).value.1) == b
    {
      NumberRead(8, b);
    }
  }

  lemma Times(k: Codebook)
    requires Faithful(k)
    ensures forall time: int, rest {:trigger PutTime(time, rest)} :: Timely(k, time) ==> GetTime(k, PutTime(time, rest)) == Ok((time, rest))
    ensures forall b {:trigger GetTime(k, b)} ::
              GetTime(k, b).Ok? ==> Timely(k, GetTime(k, b).value.0) && PutTime(GetTime(k, b).value.0, GetTime(k, b).value.1) == b
  {
    hide PutU64, GetU64;
    Words();
  }

  lemma TextWritten(max: nat, s: string, rest: seq<Byte>)
    requires Utf8Length(s) <= max <= U32_MAX
    ensures GetText(max, PutText(s, rest)) == Ok((s, rest))
  {
    Words();
    Utf8.EncodedLength(s);
    Utf8.RoundTrip(s);
    var bytes := Utf8.Encode(s);
    assert PutText(s, rest) == PutU32(|bytes|, bytes + rest);
    assert (bytes + rest)[..|bytes|] == bytes && (bytes + rest)[|bytes|..] == rest;
  }

  lemma TextRead(max: nat, b: seq<Byte>)
    requires GetText(max, b).Ok?
    ensures var r := GetText(max, b).value; Utf8Length(r.0) <= max && PutText(r.0, r.1) == b
  {
    Words();
    var length := GetU32(b).value;
    var raw := GetBytes(length.0, length.1).value;
    Utf8.Unique(raw.0);
    Utf8.EncodedLength(Utf8.Decode(raw.0).value);
    assert raw.0 + raw.1 == length.1;
  }

  lemma Texts(max: nat)
    requires max <= U32_MAX
    ensures forall s, rest {:trigger PutText(s, rest)} :: Utf8Length(s) <= max ==> GetText(max, PutText(s, rest)) == Ok((s, rest))
    ensures forall b {:trigger GetText(max, b)} ::
              GetText(max, b).Ok? ==> Utf8Length(GetText(max, b).value.0) <= max && PutText(GetText(max, b).value.0, GetText(max, b).value.1) == b
  {
    hide GetText, PutText;
    forall s, rest | Utf8Length(s) <= max
      ensures GetText(max, PutText(s, rest)) == Ok((s, rest))
    {
      TextWritten(max, s, rest);
    }
    forall b | GetText(max, b).Ok?
      ensures Utf8Length(GetText(max, b).value.0) <= max && PutText(GetText(max, b).value.0, GetText(max, b).value.1) == b
    {
      TextRead(max, b);
    }
  }

  lemma Names(k: Codebook, max: nat)
    requires Faithful(k) && max <= U32_MAX
    ensures forall name: nat, rest {:trigger PutName(k, name, rest)} ::
              NameFits(k, max, name) ==> GetName(k, max, PutName(k, name, rest)) == Ok((name, rest))
    ensures forall b {:trigger GetName(k, max, b)} ::
              GetName(k, max, b).Ok? ==> NameFits(k, max, GetName(k, max, b).value.0)
                                         && PutName(k, GetName(k, max, b).value.0, GetName(k, max, b).value.1) == b
  {
    hide GetText, PutText;
    Texts(max);
  }

  lemma {:induction false} ListWritten<T(!new)>(put: (T, seq<Byte>) -> seq<Byte>, get: seq<Byte> -> Read<T>, valid: T -> bool, items: seq<T>, rest: seq<Byte>)
    requires Inverse(put, get, valid) && forall x <- items :: valid(x)
    ensures GetList(get, |items|, PutList(put, items, rest)) == Ok((items, rest))
  {
    if |items| > 0 {
      assert valid(items[0]);
      ListWritten(put, get, valid, items[1..], rest);
      assert [items[0]] + items[1..] == items;
    }
  }

  lemma {:induction false} ListRead<T(!new)>(put: (T, seq<Byte>) -> seq<Byte>, get: seq<Byte> -> Read<T>, valid: T -> bool, count: nat, b: seq<Byte>)
    requires Inverse(put, get, valid) && GetList(get, count, b).Ok?
    ensures var r := GetList(get, count, b).value;
            |r.0| == count && (forall x <- r.0 :: valid(x)) && PutList(put, r.0, r.1) == b
    decreases count
  {
    if count > 0 {
      var first := get(b).value;
      ListRead(put, get, valid, count - 1, first.1);
      var others := GetList(get, count - 1, first.1).value;
      assert ([first.0] + others.0)[1..] == others.0;
    }
  }

  predicate Counted(items: nat, least: nat, most: nat) {
    least <= items <= most
  }

  lemma CountedInverse<T(!new)>(put: (T, seq<Byte>) -> seq<Byte>, get: seq<Byte> -> Read<T>, valid: T -> bool, least: nat, most: nat)
    requires Inverse(put, get, valid) && most <= U32_MAX
    ensures forall items: seq<T>, rest {:trigger PutCounted(put, items, rest)} ::
              Counted(|items|, least, most) && (forall x <- items :: valid(x)) ==>
                GetCounted(get, least, most, PutCounted(put, items, rest)) == Ok((items, rest))
    ensures forall b {:trigger GetCounted(get, least, most, b)} ::
              GetCounted(get, least, most, b).Ok? ==>
                var r := GetCounted(get, least, most, b).value;
                Counted(|r.0|, least, most) && (forall x <- r.0 :: valid(x)) && PutCounted(put, r.0, r.1) == b
  {
    hide Inverse, PutList, GetList, PutNumber, GetNumber;
    Words();
    forall items: seq<T>, rest | Counted(|items|, least, most) && forall x <- items :: valid(x)
      ensures GetCounted(get, least, most, PutCounted(put, items, rest)) == Ok((items, rest))
    {
      ListWritten(put, get, valid, items, rest);
      assert PutCounted(put, items, rest) == PutU32(|items|, PutList(put, items, rest));
    }
    forall b | GetCounted(get, least, most, b).Ok?
      ensures var r := GetCounted(get, least, most, b).value;
              Counted(|r.0|, least, most) && (forall x <- r.0 :: valid(x)) && PutCounted(put, r.0, r.1) == b
    {
      ListRead(put, get, valid, GetU32(b).value.0, GetU32(b).value.1);
    }
  }

  lemma OptionalInverse<T(!new)>(put: (T, seq<Byte>) -> seq<Byte>, get: seq<Byte> -> Read<T>, valid: T -> bool)
    requires Inverse(put, get, valid)
    ensures forall value: Option<T>, rest {:trigger PutOptional(put, value, rest)} ::
              (value.Some? ==> valid(value.value)) ==> GetOptional(get, PutOptional(put, value, rest)) == Ok((value, rest))
    ensures forall b {:trigger GetOptional(get, b)} ::
              GetOptional(get, b).Ok? ==>
                var r := GetOptional(get, b).value;
                (r.0.Some? ==> valid(r.0.value)) && PutOptional(put, r.0, r.1) == b
  {
    hide PutTag, GetTag;
    Tags();
  }

  // ---------- tags ----------

  function RoleTag(role: Context.Role): nat {
    if role.User? then 1 else 2
  }

  function GetRole(b: seq<Byte>): Read<Context.Role> {
    var tag :- GetTag(b);
    if tag.0 == 1 then Ok((Context.User, tag.1)) else if tag.0 == 2 then Ok((Context.Assistant, tag.1)) else Err(CorruptEvent)
  }

  /** A legacy origin has no tag. */
  function OriginTag(origin: BlockOrigin): nat {
    match origin
    case FromProvider => 1
    case Other => 2
    case Legacy => 0
  }

  function GetOrigin(b: seq<Byte>): Read<BlockOrigin> {
    var tag :- GetTag(b);
    if tag.0 == 1 then Ok((FromProvider, tag.1)) else if tag.0 == 2 then Ok((Other, tag.1)) else Err(CorruptEvent)
  }

  function StageTag(stage: Option<Stage>): nat {
    match stage
    case None => 0
    case Some(BeforeResponse) => 1
    case Some(BeforeFirstEvent) => 2
    case Some(AfterFirstEvent) => 3
  }

  function GetStage(b: seq<Byte>): Read<Option<Stage>> {
    var tag :- GetTag(b);
    if tag.0 == 0 then Ok((None, tag.1))
    else if tag.0 == 1 then Ok((Some(BeforeResponse), tag.1))
    else if tag.0 == 2 then Ok((Some(BeforeFirstEvent), tag.1))
    else if tag.0 == 3 then Ok((Some(AfterFirstEvent), tag.1))
    else Err(CorruptEvent)
  }

  function OutcomeTag(outcome: Outcome): nat {
    match outcome
    case Succeeded => 1
    case Failed => 2
    case Interrupted => 3
  }

  function GetOutcome(b: seq<Byte>): Read<Outcome> {
    var tag :- GetTag(b);
    if tag.0 == 1 then Ok((UsageModel.Succeeded, tag.1))
    else if tag.0 == 2 then Ok((UsageModel.Failed, tag.1))
    else if tag.0 == 3 then Ok((UsageModel.Interrupted, tag.1))
    else Err(CorruptEvent)
  }

  function AccuracyTag(accuracy: Pricing.Accuracy): nat {
    if accuracy.Exact? then 1 else 2
  }

  function GetAccuracy(b: seq<Byte>): Read<Pricing.Accuracy> {
    var tag :- GetTag(b);
    if tag.0 == 1 then Ok((Pricing.Exact, tag.1)) else if tag.0 == 2 then Ok((Pricing.Estimated, tag.1)) else Err(CorruptEvent)
  }

  /** Why a cost is unknown, in the order of the tags from one on. */
  const REASONS: seq<Pricing.Unknown> :=
    [Pricing.MissingUsageRecord, Pricing.NoMatchingSchedule, Pricing.MissingInputTokens, Pricing.MissingCachedInputTokens,
     Pricing.MissingCacheWriteInputTokens, Pricing.MissingOutputTokens, Pricing.MissingReasoningOutputTokens,
     Pricing.InconsistentInputAccounting, Pricing.InconsistentOutputAccounting, Pricing.ArithmeticOverflow, Pricing.MissingServiceTier]

  function ReasonTag(reason: Pricing.Unknown): nat {
    match reason
    case MissingUsageRecord => 1
    case NoMatchingSchedule => 2
    case MissingInputTokens => 3
    case MissingCachedInputTokens => 4
    case MissingCacheWriteInputTokens => 5
    case MissingOutputTokens => 6
    case MissingReasoningOutputTokens => 7
    case InconsistentInputAccounting => 8
    case InconsistentOutputAccounting => 9
    case ArithmeticOverflow => 10
    case MissingServiceTier => 11
  }

  function GetReason(b: seq<Byte>): Read<Pricing.Unknown> {
    var tag :- GetTag(b);
    if 1 <= tag.0 <= 11 then Ok((REASONS[tag.0 - 1], tag.1)) else Err(CorruptEvent)
  }

  /** Dialects are named by their tags. */
  predicate DialectKnown(dialect: nat) {
    1 <= dialect <= 3
  }

  function GetDialect(b: seq<Byte>): Read<nat> {
    var tag :- GetTag(b);
    if DialectKnown(tag.0) then Ok(tag) else Err(CorruptEvent)
  }

  lemma Enumerations()
    ensures forall x, rest {:trigger PutTag(RoleTag(x), rest)} :: GetRole(PutTag(RoleTag(x), rest)) == Ok((x, rest))
    ensures forall b {:trigger GetRole(b)} :: GetRole(b).Ok? ==> PutTag(RoleTag(GetRole(b).value.0), GetRole(b).value.1) == b
    ensures forall x, rest {:trigger PutTag(OriginTag(x), rest)} :: x != Legacy ==> GetOrigin(PutTag(OriginTag(x), rest)) == Ok((x, rest))
    ensures forall b {:trigger GetOrigin(b)} ::
              GetOrigin(b).Ok? ==> GetOrigin(b).value.0 != Legacy && PutTag(OriginTag(GetOrigin(b).value.0), GetOrigin(b).value.1) == b
    ensures forall x, rest {:trigger PutTag(StageTag(x), rest)} :: GetStage(PutTag(StageTag(x), rest)) == Ok((x, rest))
    ensures forall b {:trigger GetStage(b)} :: GetStage(b).Ok? ==> PutTag(StageTag(GetStage(b).value.0), GetStage(b).value.1) == b
    ensures forall x, rest {:trigger PutTag(OutcomeTag(x), rest)} :: GetOutcome(PutTag(OutcomeTag(x), rest)) == Ok((x, rest))
    ensures forall b {:trigger GetOutcome(b)} :: GetOutcome(b).Ok? ==> PutTag(OutcomeTag(GetOutcome(b).value.0), GetOutcome(b).value.1) == b
    ensures forall x, rest {:trigger PutTag(AccuracyTag(x), rest)} :: GetAccuracy(PutTag(AccuracyTag(x), rest)) == Ok((x, rest))
    ensures forall b {:trigger GetAccuracy(b)} :: GetAccuracy(b).Ok? ==> PutTag(AccuracyTag(GetAccuracy(b).value.0), GetAccuracy(b).value.1) == b
    ensures forall x, rest {:trigger PutTag(ReasonTag(x), rest)} :: GetReason(PutTag(ReasonTag(x), rest)) == Ok((x, rest))
    ensures forall b {:trigger GetReason(b)} :: GetReason(b).Ok? ==> PutTag(ReasonTag(GetReason(b).value.0), GetReason(b).value.1) == b
  {
    hide PutTag, GetTag;
    Tags();
    assert forall i :: 0 <= i < 11 ==> ReasonTag(REASONS[i]) == i + 1;
  }

  // ---------- usage records ----------

  function WordPut(): (U64, seq<Byte>) -> seq<Byte> {
    (x, rest) => PutU64(x, rest)
  }

  function WordGet(): seq<Byte> -> Read<U64> {
    b => GetU64(b)
  }

  function TierPut(k: Codebook): (nat, seq<Byte>) -> seq<Byte> {
    (x, rest) => PutName(k, x, rest)
  }

  function TierGet(k: Codebook): seq<Byte> -> Read<nat> {
    b => GetName(k, MAX_SERVICE_TIER_BYTES, b)
  }

  function PutUsage(k: Codebook, u: UsageRecord, rest: seq<Byte>): seq<Byte> {
    PutOptional(WordPut(), u.input, PutOptional(WordPut(), u.cachedInput, PutOptional(WordPut(), u.cacheWrite,
      PutOptional(WordPut(), u.output, PutOptional(WordPut(), u.reasoningOutput, PutOptional(WordPut(), u.total,
        PutOptional(TierPut(k), u.tier, PutTag(AccuracyTag(u.accuracy), rest))))))))
  }

  predicate UsageValid(k: Codebook, u: UsageRecord) {
    u.tier.Some? ==> ProviderText(k.text(u.tier.value), MAX_SERVICE_TIER_BYTES)
  }

  function GetUsage(k: Codebook, b: seq<Byte>): Read<UsageRecord> {
    var input :- GetOptional(WordGet(), b);
    var cached :- GetOptional(WordGet(), input.1);
    var written :- GetOptional(WordGet(), cached.1);
    var output :- GetOptional(WordGet(), written.1);
    var reasoning :- GetOptional(WordGet(), output.1);
    var total :- GetOptional(WordGet(), reasoning.1);
    var tier :- GetOptional(TierGet(k), total.1);
    var accuracy :- GetAccuracy(tier.1);
    var usage := Pricing.Usage(input.0, cached.0, written.0, output.0, reasoning.0, total.0, tier.0, accuracy.0);
    if UsageValid(k, usage) then Ok((usage, accuracy.1)) else Err(InvalidUsage)
  }

  function UsagePut(k: Codebook): (UsageRecord, seq<Byte>) -> seq<Byte> {
    (x, rest) => PutUsage(k, x, rest)
  }

  function UsageGet(k: Codebook): seq<Byte> -> Read<UsageRecord> {
    b => GetUsage(k, b)
  }

  function UsageOk(k: Codebook): UsageRecord -> bool {
    x => UsageValid(k, x)
  }

  lemma OptionalWords()
    ensures forall value: Option<U64>, rest {:trigger PutOptional(WordPut(), value, rest)} ::
              GetOptional(WordGet(), PutOptional(WordPut(), value, rest)) == Ok((value, rest))
    ensures forall b {:trigger GetOptional(WordGet(), b)} ::
              GetOptional(WordGet(), b).Ok? ==> PutOptional(WordPut(), GetOptional(WordGet(), b).value.0, GetOptional(WordGet(), b).value.1) == b
  {
    hide PutU64, GetU64, PutOptional, GetOptional;
    Words();
    var valid := (x: U64) => true;
    OptionalInverse(WordPut(), WordGet(), valid);
  }

  lemma OptionalTiers(k: Codebook)
    requires Faithful(k)
    ensures forall value: Option<nat>, rest {:trigger PutOptional(TierPut(k), value, rest)} ::
              (value.Some? ==> NameFits(k, MAX_SERVICE_TIER_BYTES, value.value)) ==>
                GetOptional(TierGet(k), PutOptional(TierPut(k), value, rest)) == Ok((value, rest))
    ensures forall b {:trigger GetOptional(TierGet(k), b)} ::
              GetOptional(TierGet(k), b).Ok? ==>
                PutOptional(TierPut(k), GetOptional(TierGet(k), b).value.0, GetOptional(TierGet(k), b).value.1) == b
  {
    hide PutName, GetName, PutOptional, GetOptional, NameFits;
    Names(k, MAX_SERVICE_TIER_BYTES);
    var valid := (x: nat) => NameFits(k, MAX_SERVICE_TIER_BYTES, x);
    OptionalInverse(TierPut(k), TierGet(k), valid);
  }

  lemma UsageInverse(k: Codebook)
    requires Faithful(k)
    ensures Inverse(UsagePut(k), UsageGet(k), UsageOk(k))
  {
    hide PutOptional, GetOptional, WordPut, WordGet, TierPut, TierGet, PutTag, GetAccuracy, AccuracyTag, GetTag;
    OptionalWords();
    OptionalTiers(k);
    Enumerations();
    forall u, rest | UsageValid(k, u)
      ensures GetUsage(k, PutUsage(k, u, rest)) == Ok((u, rest))
    {
      assert u.tier.Some? ==> NameFits(k, MAX_SERVICE_TIER_BYTES, u.tier.value);
    }
    forall b | GetUsage(k, b).Ok?
      ensures UsageValid(k, GetUsage(k, b).value.0) && PutUsage(k, GetUsage(k, b).value.0, GetUsage(k, b).value.1) == b
    {
    }
  }

  // ---------- fallback plans and window names ----------

  function PutFallback(k: Codebook, f: Fallback, rest: seq<Byte>): seq<Byte> {
    PutName(k, f.preset, PutU64(f.config, PutU64(f.provider, rest)))
  }

  predicate FallbackValid(k: Codebook, f: Fallback) {
    NameFits(k, MAX_CONFIG_ID_BYTES, f.preset) && f.presetValid == PresetValid(k.text(f.preset))
  }

  function GetFallback(k: Codebook, b: seq<Byte>): Read<Fallback> {
    var preset :- GetName(k, MAX_CONFIG_ID_BYTES, b);
    var config :- GetId(preset.1);
    var provider :- GetId(config.1);
    Ok((Fallback(preset.0, PresetValid(k.text(preset.0)), config.0, provider.0), provider.1))
  }

  function FallbackPut(k: Codebook): (Fallback, seq<Byte>) -> seq<Byte> {
    (x, rest) => PutFallback(k, x, rest)
  }

  function FallbackGet(k: Codebook): seq<Byte> -> Read<Fallback> {
    b => GetFallback(k, b)
  }

  function FallbackOk(k: Codebook): Fallback -> bool {
    x => FallbackValid(k, x)
  }

  lemma FallbackInverse(k: Codebook)
    requires Faithful(k)
    ensures Inverse(FallbackPut(k), FallbackGet(k), FallbackOk(k))
  {
    hide PutName, GetName, PutU64, GetU64, NameFits, PresetValid;
    Words();
    Names(k, MAX_CONFIG_ID_BYTES);
  }

  function WindowPut(k: Codebook): (nat, seq<Byte>) -> seq<Byte> {
    (x, rest) => PutName(k, x, rest)
  }

  function WindowGet(k: Codebook): seq<Byte> -> Read<nat> {
    b => GetName(k, MAX_PROVIDER_ID_BYTES, b)
  }

  function WindowOk(k: Codebook): nat -> bool {
    (x: nat) => NameFits(k, MAX_PROVIDER_ID_BYTES, x)
  }

  lemma WindowInverse(k: Codebook)
    requires Faithful(k)
    ensures Inverse(WindowPut(k), WindowGet(k), WindowOk(k))
  {
    hide PutName, GetName, NameFits;
    Names(k, MAX_PROVIDER_ID_BYTES);
  }

  // ---------- checkpoints ----------

  function PutArtifact(a: Context.ArtifactRef, rest: seq<Byte>): seq<Byte> {
    PutU64(a.item, PutU64(a.turn, PutTag(RoleTag(a.role), PutU64(a.bytes, PutU64(a.tokens, PutNumber(32, a.digest, rest))))))
  }

  predicate ArtifactValid(a: Context.ArtifactRef) {
    1 <= a.bytes <= Context.MAX_ITEM_TEXT_BYTES && a.tokens >= 1 && a.digest < Pow256(32)
  }

  function GetArtifact(b: seq<Byte>): Read<Context.ArtifactRef> {
    var item :- GetU64(b);
    var turn :- GetU64(item.1);
    var role :- GetRole(turn.1);
    var bytes :- GetU64(role.1);
    var tokens :- GetU64(bytes.1);
    var digest :- GetNumber(32, tokens.1);
    if item.0 == 0 || turn.0 == 0 || bytes.0 == 0 || bytes.0 > Context.MAX_ITEM_TEXT_BYTES || tokens.0 == 0
    then Err(InvalidView(Context.InvalidStoredView))
    else Ok((Context.ArtifactRef(item.0, turn.0, role.0, bytes.0, tokens.0, digest.0), digest.1))
  }

  function ArtifactPut(): (Context.ArtifactRef, seq<Byte>) -> seq<Byte> {
    (x, rest) => PutArtifact(x, rest)
  }

  function ArtifactGet(): seq<Byte> -> Read<Context.ArtifactRef> {
    b => GetArtifact(b)
  }

  function ArtifactOk(): Context.ArtifactRef -> bool {
    x => ArtifactValid(x)
  }

  lemma ArtifactInverse()
    ensures Inverse(ArtifactPut(), ArtifactGet(), ArtifactOk())
  {
    hide PutU64, GetU64, PutTag, RoleTag, GetRole, PutNumber, GetNumber, Pow256;
    Words();
    Enumerations();
    forall a, rest | ArtifactValid(a)
      ensures GetArtifact(PutArtifact(a, rest)) == Ok((a, rest))
    {
      NumberWritten(32, a.digest, rest);
    }
    forall b | GetArtifact(b).Ok?
      ensures ArtifactValid(GetArtifact(b).value.0) && PutArtifact(GetArtifact(b).value.0, GetArtifact(b).value.1) == b
    {
      var item := GetU64(b).value;
      var turn := GetU64(item.1).value;
      var role := GetRole(turn.1).value;
      var bytes := GetU64(role.1).value;
      var tokens := GetU64(bytes.1).value;
      NumberRead(32, tokens.1);
    }
  }

  function PutRecent(v: Context.ViewItem, rest: seq<Byte>): seq<Byte> {
    PutU64(v.item, PutU64(v.turn, PutTag(RoleTag(v.role), PutText(v.text.content, rest))))
  }

  predicate RecentValid(k: Codebook, v: Context.ViewItem) {
    && Utf8Length(v.text.content) <= Context.MAX_CONTEXT_VIEW_BYTES && v.text.digest == k.digest(v.text.content)
    && v == Context.Project(Context.Item(v.item, v.turn, v.role, v.text))
  }

  function GetRecent(k: Codebook, b: seq<Byte>): Read<Context.ViewItem> {
    var item :- GetU64(b);
    var turn :- GetU64(item.1);
    var role :- GetRole(turn.1);
    var text :- GetText(Context.MAX_CONTEXT_VIEW_BYTES, role.1);
    if item.0 == 0 || turn.0 == 0 || !ItemText(text.0) then Err(InvalidView(Context.InvalidStoredView))
    else Ok((Context.Project(NewItem(item.0, turn.0, role.0, text.0, k.digest(text.0))), text.1))
  }

  function RecentPut(): (Context.ViewItem, seq<Byte>) -> seq<Byte> {
    (x, rest) => PutRecent(x, rest)
  }

  function RecentGet(k: Codebook): seq<Byte> -> Read<Context.ViewItem> {
    b => GetRecent(k, b)
  }

  function RecentOk(k: Codebook): Context.ViewItem -> bool {
    x => RecentValid(k, x)
  }

  lemma RecentInverse(k: Codebook)
    ensures Inverse(RecentPut(), RecentGet(k), RecentOk(k))
  {
    hide PutU64, GetU64, PutTag, RoleTag, GetRole, PutText, GetText, Utf8Length, Blank;
    Words();
    Enumerations();
    Texts(Context.MAX_CONTEXT_VIEW_BYTES);
    forall v, rest | RecentValid(k, v)
      ensures GetRecent(k, PutRecent(v, rest)) == Ok((v, rest))
    {
      var text: Context.RawText := v.text;
      assert Context.ValidText(text) && ItemText(text.content) && text == TextOf(text.content, text.digest);
    }
    forall b | GetRecent(k, b).Ok?
      ensures RecentValid(k, GetRecent(k, b).value.0) && PutRecent(GetRecent(k, b).value.0, GetRecent(k, b).value.1) == b
    {
    }
  }

  function PutCheckpoint(c: Checkpoint, rest: seq<Byte>): seq<Byte> {
    var head := Context.HeadOf(c.source);
    PutU64(head.transaction, PutU64(head.sequence, PutCounted(ArtifactPut(), c.artifacts, PutCounted(RecentPut(), c.recent, rest))))
  }

  /** The parts as read, before they are checked together. */
  function GetCheckpoint(k: Codebook, b: seq<Byte>): Read<Checkpoint> {
    var transaction :- GetU64(b);
    var sequence :- GetU64(transaction.1);
    if (transaction.0 == 0) != (sequence.0 == 0) then Err(CorruptEvent)
    else
      var artifacts :- GetCounted(ArtifactGet(), 0, Context.MAX_CONTEXT_VIEW_ITEMS, sequence.1);
      if |artifacts.0| > Context.MAX_CONTEXT_VIEW_ITEMS then Err(CorruptEvent)
      else
        var recent :- GetCounted(RecentGet(k), 0, Context.MAX_CONTEXT_VIEW_ITEMS - |artifacts.0|, artifacts.1);
        match Context.FromStored(Context.RangeOf(Context.Head(transaction.0, sequence.0)), artifacts.0, recent.0)
        case Err(error) => Err(InvalidView(error))
        case Ok(c) => Ok((c, recent.1))
  }

  predicate WholeHead(head: Context.Head) {
    head.transaction == 0 <==> head.sequence == 0
  }

  /** Made from the parts it stores, at the head of some ledger. */
  predicate CheckpointStored(k: Codebook, c: Checkpoint) {
    && WholeHead(Context.HeadOf(c.source)) && c.source == Context.RangeOf(Context.HeadOf(c.source))
    && (forall a <- c.artifacts :: ArtifactOk()(a)) && (forall v <- c.recent :: RecentOk(k)(v))
    && Context.FromStored(c.source, c.artifacts, c.recent) == Ok(c)
  }

  lemma CheckpointWritten(k: Codebook, c: Checkpoint, rest: seq<Byte>)
    requires CheckpointStored(k, c)
    ensures GetCheckpoint(k, PutCheckpoint(c, rest)) == Ok((c, rest))
  {
    hide PutU64, GetU64, PutCounted, GetCounted, ArtifactPut, ArtifactGet, ArtifactOk, RecentPut, RecentGet, RecentOk, Inverse;
    Words();
    ArtifactInverse();
    RecentInverse(k);
    CountedInverse(ArtifactPut(), ArtifactGet(), ArtifactOk(), 0, Context.MAX_CONTEXT_VIEW_ITEMS);
    CountedInverse(RecentPut(), RecentGet(k), RecentOk(k), 0, Context.MAX_CONTEXT_VIEW_ITEMS - |c.artifacts|);
  }

  lemma CheckpointRead(k: Codebook, b: seq<Byte>)
    requires GetCheckpoint(k, b).Ok?
    ensures var r := GetCheckpoint(k, b).value; CheckpointStored(k, r.0) && PutCheckpoint(r.0, r.1) == b
  {
    hide PutU64, GetU64, PutCounted, GetCounted, ArtifactPut, ArtifactGet, ArtifactOk, RecentPut, RecentGet, RecentOk, Inverse;
    Words();
    ArtifactInverse();
    RecentInverse(k);
    CountedInverse(ArtifactPut(), ArtifactGet(), ArtifactOk(), 0, Context.MAX_CONTEXT_VIEW_ITEMS);
    var transaction := GetU64(b).value;
    var sequence := GetU64(transaction.1).value;
    var artifacts := GetCounted(ArtifactGet(), 0, Context.MAX_CONTEXT_VIEW_ITEMS, sequence.1).value;
    CountedInverse(RecentPut(), RecentGet(k), RecentOk(k), 0, Context.MAX_CONTEXT_VIEW_ITEMS - |artifacts.0|);
    assert Context.HeadOf(Context.RangeOf(Context.Head(transaction.0, sequence.0))) == Context.Head(transaction.0, sequence.0);
  }
}
