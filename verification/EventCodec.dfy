/**
 Whole events as stored payloads. Decoding is the exact inverse of encoding:
 an event comes back from its bytes exactly when it is within the decoder's
 bounds, and no other bytes decode to it.
 */
module EventCodec {
  import opened Prelude
  import opened Bytes
  import opened Strings
  import opened KernelModel
  import opened RuntimeCodec
  import Context
  import LedgerCodec

  function Kind(e: Event): (kind: U16)
    ensures 1 <= kind <= 18
  {
    match e
    case ThreadCreated(_) => 1
    case ConfigFrozen(_, _) => 2
    case ProviderFrozen(_, _) => 3
    case TurnAdmitted(_, _, _, _, _, _, _, _, _) => 4
    case AssistantStarted(_, _) => 5
    case TextDelta(_, _, _) => 6
    case OutputPrepared(_, _, _, _, _, _) => 7
    case OutputAcknowledged(_, _) => 8
    case TurnCompleted(_) => 9
    case TurnBlocked(_, _, _, _) => 10
    case AttemptStarted(_, _, _) => 11
    case AttemptFinished(_, _, _, _, _, _) => 12
    case AttemptCosted(_, _, _) => 13
    case SelectionStaged(_, _) => 14
    case TurnCancelled(_) => 15
    case RetryRequested(_) => 16
    case CheckpointPublished(_) => 17
    case FallbackRequested(_, _) => 18
  }

  // ---------- owners, selections, costs ----------

  /** An agent identifier is checked where it is read. */
  function GetAgent(b: seq<Byte>): Read<Id> {
    var r :- GetU64(b);
    if r.0 == 0 then Err(CorruptEvent) else Ok((r.0, r.1))
  }

  function AgentPut(): (Id, seq<Byte>) -> seq<Byte> {
    (x, rest) => PutU64(x, rest)
  }

  function AgentGet(): seq<Byte> -> Read<Id> {
    b => GetAgent(b)
  }

  lemma OptionalAgents()
    ensures forall value: Option<Id>, rest {:trigger PutOptional(AgentPut(), value, rest)} ::
              GetOptional(AgentGet(), PutOptional(AgentPut(), value, rest)) == Ok((value, rest))
    ensures forall b {:trigger GetOptional(AgentGet(), b)} ::
              GetOptional(AgentGet(), b).Ok? ==> PutOptional(AgentPut(), GetOptional(AgentGet(), b).value.0, GetOptional(AgentGet(), b).value.1) == b
  {
    hide PutU64, GetU64, PutOptional, GetOptional;
    Words();
    var valid := (x: Id) => true;
    OptionalInverse(AgentPut(), AgentGet(), valid);
  }

  function PutSelection(k: Codebook, agent: Id, s: Selection, rest: seq<Byte>): seq<Byte> {
    PutU64(agent, PutName(k, s.preset, PutU64(s.fingerprint, PutName(k, s.profile, PutName(k, s.model, PutTag(s.dialect, rest))))))
  }

  predicate SelectionValid(k: Codebook, s: Selection) {
    && PresetValid(k.text(s.preset)) && ProviderText(k.text(s.profile), MAX_PROVIDER_ID_BYTES)
    && ProviderText(k.text(s.model), MAX_PROVIDER_ID_BYTES) && DialectKnown(s.dialect)
  }

  function GetSelection(k: Codebook, b: seq<Byte>): Read<Event> {
    var agent :- GetAgent(b);
    var preset :- GetName(k, MAX_CONFIG_ID_BYTES, agent.1);
    var fingerprint :- GetU64(preset.1);
    var profile :- GetName(k, MAX_PROVIDER_ID_BYTES, fingerprint.1);
    var model :- GetName(k, MAX_PROVIDER_ID_BYTES, profile.1);
    var dialect :- GetDialect(model.1);
    var selection := Selection(preset.0, fingerprint.0, profile.0, model.0, dialect.0);
    if SelectionValid(k, selection) then Ok((SelectionStaged(agent.0, selection), dialect.1)) else Err(InvalidSelection)
  }

  lemma SelectionInverse(k: Codebook)
    requires Faithful(k)
    ensures forall agent, s, rest {:trigger PutSelection(k, agent, s, rest)} ::
              SelectionValid(k, s) ==> GetSelection(k, PutSelection(k, agent, s, rest)) == Ok((SelectionStaged(agent, s), rest))
    ensures forall b {:trigger GetSelection(k, b)} ::
              GetSelection(k, b).Ok? ==>
                var r := GetSelection(k, b).value;
                r.0.SelectionStaged? && SelectionValid(k, r.0.selection) && PutSelection(k, r.0.agent, r.0.selection, r.1) == b
  {
    hide PutU64, GetU64, PutName, GetName, PutTag, GetTag;
    Words();
    Tags();
    Names(k, MAX_CONFIG_ID_BYTES);
    Names(k, MAX_PROVIDER_ID_BYTES);
    forall agent, s, rest | SelectionValid(k, s)
      ensures GetSelection(k, PutSelection(k, agent, s, rest)) == Ok((SelectionStaged(agent, s), rest))
    {
      assert NameFits(k, MAX_CONFIG_ID_BYTES, s.preset) && NameFits(k, MAX_PROVIDER_ID_BYTES, s.profile) && NameFits(k, MAX_PROVIDER_ID_BYTES, s.model);
    }
  }

  function PutCost(k: Codebook, cost: Frozen, rest: seq<Byte>): seq<Byte> {
    match cost
    case FrozenKnown(schedule, fingerprint, amount) => PutTag(1, PutName(k, schedule, PutU64(fingerprint, PutU64(amount, rest))))
    case FrozenUnknown(reason) => PutTag(2, PutTag(ReasonTag(reason), rest))
  }

  predicate CostValid(k: Codebook, cost: Frozen) {
    cost.FrozenKnown? ==> NameFits(k, MAX_PROVIDER_ID_BYTES, cost.schedule)
  }

  function GetCost(k: Codebook, b: seq<Byte>): Read<Frozen> {
    var tag :- GetTag(b);
    if tag.0 == 1 then
      var schedule :- GetName(k, MAX_PROVIDER_ID_BYTES, tag.1);
      var fingerprint :- GetU64(schedule.1);
      var amount :- GetU64(fingerprint.1);
      Ok((FrozenKnown(schedule.0, fingerprint.0, amount.0), amount.1))
    else if tag.0 == 2 then
      var reason :- GetReason(tag.1);
      Ok((FrozenUnknown(reason.0), reason.1))
    else Err(CorruptEvent)
  }

  lemma CostInverse(k: Codebook)
    requires Faithful(k)
    ensures forall cost, rest {:trigger PutCost(k, cost, rest)} :: CostValid(k, cost) ==> GetCost(k, PutCost(k, cost, rest)) == Ok((cost, rest))
    ensures forall b {:trigger GetCost(k, b)} ::
              GetCost(k, b).Ok? ==> CostValid(k, GetCost(k, b).value.0) && PutCost(k, GetCost(k, b).value.0, GetCost(k, b).value.1) == b
  {
    hide PutU64, GetU64, PutName, GetName, NameFits, PutTag, GetTag, ReasonTag, GetReason;
    Words();
    Tags();
    Enumerations();
    Names(k, MAX_PROVIDER_ID_BYTES);
  }

  // ---------- the larger events ----------

  function PutAdmitted(k: Codebook, e: Event, rest: seq<Byte>): seq<Byte>
    requires e.TurnAdmitted?
  {
    PutU64(e.thread, PutU64(e.turn, PutU64(e.userItem, PutU64(e.primaryConfig, PutU64(e.primaryProvider,
      PutOptional(AgentPut(), e.owner, PutText(e.input, PutCounted(FallbackPut(k), e.fallbacks, rest))))))))
  }

  predicate AdmittedValid(k: Codebook, e: Event)
    requires e.TurnAdmitted?
  {
    && Utf8Length(e.input) <= MAX_INPUT_BYTES && e.digest == k.digest(e.input)
    && |e.fallbacks| < MAX_FALLBACK_CANDIDATES && forall f <- e.fallbacks :: FallbackOk(k)(f)
  }

  function GetAdmitted(k: Codebook, b: seq<Byte>): Read<Event> {
    var thread :- GetId(b);
    var turn :- GetId(thread.1);
    var userItem :- GetId(turn.1);
    var config :- GetId(userItem.1);
    var provider :- GetId(config.1);
    var owner :- GetOptional(AgentGet(), provider.1);
    var input :- GetText(MAX_INPUT_BYTES, owner.1);
    var fallbacks :- GetCounted(FallbackGet(k), 0, MAX_FALLBACK_CANDIDATES - 1, input.1);
    Ok((TurnAdmitted(thread.0, turn.0, userItem.0, config.0, provider.0, fallbacks.0, owner.0, input.0, k.digest(input.0)), fallbacks.1))
  }

  lemma AdmittedInverse(k: Codebook)
    requires Faithful(k)
    ensures forall e: Event, rest {:trigger PutAdmitted(k, e, rest)} ::
              e.TurnAdmitted? && AdmittedValid(k, e) ==> GetAdmitted(k, PutAdmitted(k, e, rest)) == Ok((e, rest))
    ensures forall b {:trigger GetAdmitted(k, b)} ::
              GetAdmitted(k, b).Ok? ==>
                var r := GetAdmitted(k, b).value; r.0.TurnAdmitted? && AdmittedValid(k, r.0) && PutAdmitted(k, r.0, r.1) == b
  {
    hide PutU64, GetU64, PutText, GetText, PutOptional, GetOptional, AgentPut, AgentGet, PutCounted, GetCounted,
         FallbackPut, FallbackGet, FallbackOk, Inverse, Utf8Length;
    Words();
    Texts(MAX_INPUT_BYTES);
    OptionalAgents();
    FallbackInverse(k);
    CountedInverse(FallbackPut(k), FallbackGet(k), FallbackOk(k), 0, MAX_FALLBACK_CANDIDATES - 1);
  }

  function PutPrepared(k: Codebook, e: Event, rest: seq<Byte>): seq<Byte>
    requires e.OutputPrepared?
  {
    PutU64(e.turn, PutU64(e.item, PutU64(e.delivery, PutText(e.text, PutCounted(UsagePut(k), e.usageRecords, rest)))))
  }

  predicate PreparedValid(k: Codebook, e: Event)
    requires e.OutputPrepared?
  {
    && Utf8Length(e.text) <= MAX_INPUT_BYTES && e.digest == k.digest(e.text)
    && 1 <= |e.usageRecords| <= MAX_USAGE_RECORDS_PER_TURN && forall u <- e.usageRecords :: UsageOk(k)(u)
  }

  function GetPrepared(k: Codebook, b: seq<Byte>): Read<Event> {
    var turn :- GetId(b);
    var item :- GetId(turn.1);
    var delivery :- GetId(item.1);
    var text :- GetText(MAX_INPUT_BYTES, delivery.1);
    var records :- GetCounted(UsageGet(k), 1, MAX_USAGE_RECORDS_PER_TURN, text.1);
    Ok((OutputPrepared(turn.0, item.0, delivery.0, text.0, k.digest(text.0), records.0), records.1))
  }

  lemma PreparedInverse(k: Codebook)
    requires Faithful(k)
    ensures forall e: Event, rest {:trigger PutPrepared(k, e, rest)} ::
              e.OutputPrepared? && PreparedValid(k, e) ==> GetPrepared(k, PutPrepared(k, e, rest)) == Ok((e, rest))
    ensures forall b {:trigger GetPrepared(k, b)} ::
              GetPrepared(k, b).Ok? ==>
                var r := GetPrepared(k, b).value; r.0.OutputPrepared? && PreparedValid(k, r.0) && PutPrepared(k, r.0, r.1) == b
  {
    hide PutU64, GetU64, PutText, GetText, PutCounted, GetCounted, UsagePut, UsageGet, UsageOk, Inverse, Utf8Length;
    Words();
    Texts(MAX_INPUT_BYTES);
    UsageInverse(k);
    CountedInverse(UsagePut(k), UsageGet(k), UsageOk(k), 1, MAX_USAGE_RECORDS_PER_TURN);
  }

  function PutBlocked(e: Event, rest: seq<Byte>): seq<Byte>
    requires e.TurnBlocked?
  {
    PutU64(e.turn, PutText(e.reason, PutTag(OriginTag(e.origin), PutTag(StageTag(e.stage), rest))))
  }

  predicate BlockedValid(e: Event)
    requires e.TurnBlocked?
  {
    Utf8Length(e.reason) <= MAX_BLOCK_REASON_BYTES && e.origin != Legacy
  }

  function GetBlocked(b: seq<Byte>): Read<Event> {
    var turn :- GetId(b);
    var reason :- GetText(MAX_BLOCK_REASON_BYTES, turn.1);
    var origin :- GetOrigin(reason.1);
    var stage :- GetStage(origin.1);
    Ok((TurnBlocked(turn.0, reason.0, origin.0, stage.0), stage.1))
  }

  lemma BlockedInverse()
    ensures forall e: Event, rest {:trigger PutBlocked(e, rest)} ::
              e.TurnBlocked? && BlockedValid(e) ==> GetBlocked(PutBlocked(e, rest)) == Ok((e, rest))
    ensures forall b {:trigger GetBlocked(b)} ::
              GetBlocked(b).Ok? ==>
                var r := GetBlocked(b).value; r.0.TurnBlocked? && BlockedValid(r.0) && PutBlocked(r.0, r.1) == b
  {
    hide PutU64, GetU64, PutText, GetText, PutTag, GetTag, OriginTag, GetOrigin, StageTag, GetStage, Utf8Length;
    Words();
    Texts(MAX_BLOCK_REASON_BYTES);
    Enumerations();
  }

  function PutFinished(k: Codebook, e: Event, rest: seq<Byte>): seq<Byte>
    requires e.AttemptFinished?
  {
    PutU64(e.turn, PutU32(e.attempt, PutTime(e.completedAt, PutTag(OutcomeTag(e.outcome),
      PutOptional(UsagePut(k), e.usage, PutCounted(WindowPut(k), e.windows, rest))))))
  }

  predicate FinishedValid(k: Codebook, e: Event)
    requires e.AttemptFinished?
  {
    && Timely(k, e.completedAt) && (e.usage.Some? ==> UsageOk(k)(e.usage.value))
    && |e.windows| <= MAX_USAGE_WINDOWS && forall w <- e.windows :: WindowOk(k)(w)
  }

  function GetFinished(k: Codebook, b: seq<Byte>): Read<Event> {
    var turn :- GetId(b);
    var attempt :- GetU32(turn.1);
    var completedAt :- GetTime(k, attempt.1);
    var outcome :- GetOutcome(completedAt.1);
    var usage :- GetOptional(UsageGet(k), outcome.1);
    var windows :- GetCounted(WindowGet(k), 0, MAX_USAGE_WINDOWS, usage.1);
    Ok((AttemptFinished(turn.0, attempt.0, completedAt.0, outcome.0, usage.0, windows.0), windows.1))
  }

  lemma FinishedInverse(k: Codebook)
    requires Faithful(k)
    ensures forall e: Event, rest {:trigger PutFinished(k, e, rest)} ::
              e.AttemptFinished? && FinishedValid(k, e) ==> GetFinished(k, PutFinished(k, e, rest)) == Ok((e, rest))
    ensures forall b {:trigger GetFinished(k, b)} ::
              GetFinished(k, b).Ok? ==>
                var r := GetFinished(k, b).value; r.0.AttemptFinished? && FinishedValid(k, r.0) && PutFinished(k, r.0, r.1) == b
  {
    hide PutU64, GetU64, PutU32, GetU32, PutTime, GetTime, Timely, PutTag, GetTag, OutcomeTag, GetOutcome, PutOptional, GetOptional,
         PutCounted, GetCounted, UsagePut, UsageGet, UsageOk, WindowPut, WindowGet, WindowOk, Inverse;
    Words();
    Times(k);
    Enumerations();
    UsageInverse(k);
    OptionalInverse(UsagePut(k), UsageGet(k), UsageOk(k));
    WindowInverse(k);
    CountedInverse(WindowPut(k), WindowGet(k), WindowOk(k), 0, MAX_USAGE_WINDOWS);
  }

  // ---------- any event ----------

  function PutEvent(k: Codebook, e: Event): seq<Byte> {
    match e
    case CheckpointPublished(checkpoint) => PutCheckpoint(checkpoint, [])
    case SelectionStaged(agent, selection) => PutSelection(k, agent, selection, [])
    case ThreadCreated(thread) => PutU64(thread, [])
    case ConfigFrozen(config, epoch) => PutU64(config, k.putConfig(epoch))
    case ProviderFrozen(provider, profile) => PutU64(provider, k.putProvider(profile))
    case TurnAdmitted(_, _, _, _, _, _, _, _, _) => PutAdmitted(k, e, [])
    case AssistantStarted(turn, item) => PutU64(turn, PutU64(item, []))
    case TextDelta(turn, item, delta) => PutU64(turn, PutU64(item, PutText(delta, [])))
    case OutputPrepared(_, _, _, _, _, _) => PutPrepared(k, e, [])
    case OutputAcknowledged(turn, delivery) => PutU64(turn, PutU64(delivery, []))
    case TurnCompleted(turn) => PutU64(turn, [])
    case TurnBlocked(_, _, _, _) => PutBlocked(e, [])
    case TurnCancelled(turn) => PutU64(turn, [])
    case RetryRequested(turn) => PutU64(turn, [])
    case FallbackRequested(turn, index) => PutU64(turn, PutU32(index, []))
    case AttemptStarted(turn, attempt, startedAt) => PutU64(turn, PutU32(attempt, PutTime(startedAt, [])))
    case AttemptFinished(_, _, _, _, _, _) => PutFinished(k, e, [])
    case AttemptCosted(turn, attempt, evaluation) => PutU64(turn, PutU32(attempt, PutCost(k, evaluation, [])))
  }

  /** The largest text or list of an event, which the encoder must be able to count. */
  predicate Countable(k: Codebook, e: Event) {
    match e
    case CheckpointPublished(c) => |c.artifacts| <= U32_MAX && |c.recent| <= U32_MAX
    case SelectionStaged(_, s) => NameFits(k, U32_MAX, s.preset) && NameFits(k, U32_MAX, s.profile) && NameFits(k, U32_MAX, s.model)
    case TurnAdmitted(_, _, _, _, _, fallbacks, _, input, _) =>
      Utf8Length(input) <= U32_MAX && |fallbacks| <= U32_MAX && forall f <- fallbacks :: NameFits(k, U32_MAX, f.preset)
    case TextDelta(_, _, delta) => Utf8Length(delta) <= U32_MAX
    case OutputPrepared(_, _, _, text, _, records) =>
      Utf8Length(text) <= U32_MAX && |records| <= U32_MAX && forall u <- records :: u.tier.Some? ==> NameFits(k, U32_MAX, u.tier.value)
    case TurnBlocked(_, reason, _, _) => Utf8Length(reason) <= U32_MAX
    case AttemptFinished(_, _, _, _, usage, windows) =>
      && (usage.Some? && usage.value.tier.Some? ==> NameFits(k, U32_MAX, usage.value.tier.value))
      && |windows| <= U32_MAX && forall w <- windows :: NameFits(k, U32_MAX, w)
    case AttemptCosted(_, _, evaluation) => evaluation.FrozenKnown? ==> NameFits(k, U32_MAX, evaluation.schedule)
    case _ => true
  }

  function Encode(k: Codebook, e: Event): Result<LedgerCodec.EventData, CodecError> {
    if !Countable(k, e) then Err(TooLong)
    else if e.TurnBlocked? && e.origin.Legacy? then Err(LegacyOrigin)
    else Ok(LedgerCodec.EventData(SCHEMA, Kind(e), PutEvent(k, e)))
  }

  function GetEpoch<T>(get: seq<Byte> -> Option<T>, b: seq<Byte>): Read<(Id, T)> {
    var id :- GetId(b);
    match get(id.1)
    case None => Err(CorruptEvent)
    case Some(epoch) => Ok(((id.0, epoch), []))
  }

  function GetPair(b: seq<Byte>): Read<(Id, Id)> {
    var first :- GetId(b);
    var second :- GetId(first.1);
    Ok(((first.0, second.0), second.1))
  }

  function GetDelta(b: seq<Byte>): Read<Event> {
    var ids :- GetPair(b);
    var delta :- GetText(MAX_INPUT_BYTES, ids.1);
    Ok((TextDelta(ids.0.0, ids.0.1, delta.0), delta.1))
  }

  /** A Turn and a number of it. */
  function GetNumbered(b: seq<Byte>): Read<(Id, U32)> {
    var turn :- GetId(b);
    var number :- GetU32(turn.1);
    Ok(((turn.0, number.0), number.1))
  }

  function GetStarted(k: Codebook, b: seq<Byte>): Read<Event> {
    var attempt :- GetNumbered(b);
    var startedAt :- GetTime(k, attempt.1);
    Ok((AttemptStarted(attempt.0.0, attempt.0.1, startedAt.0), startedAt.1))
  }

  function GetCosted(k: Codebook, b: seq<Byte>): Read<Event> {
    var attempt :- GetNumbered(b);
    var cost :- GetCost(k, attempt.1);
    Ok((AttemptCosted(attempt.0.0, attempt.0.1, cost.0), cost.1))
  }

  function As<A, B>(r: Read<A>, make: A -> B): Read<B> {
    match r
    case Err(error) => Err(error)
    case Ok(read) => Ok((make(read.0), read.1))
  }

  function GetEvent(k: Codebook, kind: U16, b: seq<Byte>): Read<Event> {
    match kind
    case 1 => As(GetId(b), (x: Id) => ThreadCreated(x))
    case 2 => As(GetEpoch(k.getConfig, b), (x: (Id, Config)) => ConfigFrozen(x.0, x.1))
    case 3 => As(GetEpoch(k.getProvider, b), (x: (Id, Provider)) => ProviderFrozen(x.0, x.1))
    case 4 => GetAdmitted(k, b)
    case 5 => As(GetPair(b), (x: (Id, Id)) => AssistantStarted(x.0, x.1))
    case 6 => GetDelta(b)
    case 7 => GetPrepared(k, b)
    case 8 => As(GetPair(b), (x: (Id, Id)) => OutputAcknowledged(x.0, x.1))
    case 9 => As(GetId(b), (x: Id) => TurnCompleted(x))
    case 10 => GetBlocked(b)
    case 11 => GetStarted(k, b)
    case 12 => GetFinished(k, b)
    case 13 => GetCosted(k, b)
    case 14 => GetSelection(k, b)
    case 15 => As(GetId(b), (x: Id) => TurnCancelled(x))
    case 16 => As(GetId(b), (x: Id) => RetryRequested(x))
    case 17 => As(GetCheckpoint(k, b), (x: Checkpoint) => CheckpointPublished(x))
    case 18 => As(GetNumbered(b), (x: (Id, U32)) => FallbackRequested(x.0, x.1))
    case _ => Err(CorruptEvent)
  }

  /** Events of the current schema; nothing may be left over. */
  function Decode(k: Codebook, data: LedgerCodec.EventData): Result<Event, CodecError> {
    if data.schema == 0 || data.schema > SCHEMA then Err(UnsupportedSchema)
    else if data.schema < SCHEMA then Err(HistoricalSchema)
    else
      var r :- GetEvent(k, data.kind, data.payload);
      if r.1 == [] then Ok(r.0) else Err(CorruptEvent)
  }

  /** What the decoder asks of each kind of event. */
  predicate InBounds(k: Codebook, e: Event) {
    match e
    case CheckpointPublished(checkpoint) => CheckpointStored(k, checkpoint)
    case SelectionStaged(_, selection) => SelectionValid(k, selection)
    case ConfigFrozen(_, epoch) => k.getConfig(k.putConfig(epoch)) == Some(epoch)
    case ProviderFrozen(_, profile) => k.getProvider(k.putProvider(profile)) == Some(profile)
    case TurnAdmitted(_, _, _, _, _, _, _, _, _) => AdmittedValid(k, e)
    case TextDelta(_, _, delta) => Utf8Length(delta) <= MAX_INPUT_BYTES
    case OutputPrepared(_, _, _, _, _, _) => PreparedValid(k, e)
    case TurnBlocked(_, _, _, _) => BlockedValid(e)
    case AttemptStarted(_, _, startedAt) => Timely(k, startedAt)
    case AttemptFinished(_, _, _, _, _, _) => FinishedValid(k, e)
    case AttemptCosted(_, _, evaluation) => CostValid(k, evaluation)
    case _ => true
  }

  lemma LargeRead(k: Codebook, e: Event)
    requires Faithful(k) && InBounds(k, e)
    requires e.CheckpointPublished? || e.SelectionStaged? || e.TurnAdmitted? || e.OutputPrepared? || e.TurnBlocked? || e.AttemptFinished?
    ensures GetEvent(k, Kind(e), PutEvent(k, e)) == Ok((e, []))
  {
    hide PutSelection, GetSelection, SelectionValid, PutAdmitted, GetAdmitted, AdmittedValid, PutPrepared, GetPrepared, PreparedValid,
         PutBlocked, GetBlocked, BlockedValid, PutFinished, GetFinished, FinishedValid, PutCheckpoint, GetCheckpoint, CheckpointStored;
    SelectionInverse(k);
    AdmittedInverse(k);
    PreparedInverse(k);
    BlockedInverse();
    FinishedInverse(k);
    if e.CheckpointPublished? {
      CheckpointWritten(k, e.checkpoint, []);
    }
  }

  lemma SmallRead(k: Codebook, e: Event)
    requires Faithful(k) && InBounds(k, e)
    requires !e.CheckpointPublished? && !e.SelectionStaged? && !e.TurnAdmitted? && !e.OutputPrepared? && !e.TurnBlocked? && !e.AttemptFinished?
    ensures GetEvent(k, Kind(e), PutEvent(k, e)) == Ok((e, []))
  {
    hide PutU64, GetU64, PutU32, GetU32, PutText, GetText, PutTime, GetTime, Timely, PutCost, GetCost, CostValid, Utf8Length;
    Words();
    Times(k);
    Texts(MAX_INPUT_BYTES);
    CostInverse(k);
  }

  lemma LargeWritten(k: Codebook, kind: U16, b: seq<Byte>)
    requires Faithful(k) && kind in {4, 7, 10, 12, 14, 17}
    requires GetEvent(k, kind, b).Ok? && GetEvent(k, kind, b).value.1 == []
    ensures var e := GetEvent(k, kind, b).value.0; InBounds(k, e) && Kind(e) == kind && PutEvent(k, e) == b
  {
    hide PutSelection, GetSelection, SelectionValid, PutAdmitted, GetAdmitted, AdmittedValid, PutPrepared, GetPrepared, PreparedValid,
         PutBlocked, GetBlocked, BlockedValid, PutFinished, GetFinished, FinishedValid, PutCheckpoint, GetCheckpoint, CheckpointStored;
    SelectionInverse(k);
    AdmittedInverse(k);
    PreparedInverse(k);
    BlockedInverse();
    FinishedInverse(k);
    if kind == 17 {
      CheckpointRead(k, b);
    }
  }

  lemma SmallWritten(k: Codebook, kind: U16, b: seq<Byte>)
    requires Faithful(k) && kind !in {2, 3, 4, 7, 10, 12, 14, 17}
    requires GetEvent(k, kind, b).Ok? && GetEvent(k, kind, b).value.1 == []
    ensures var e := GetEvent(k, kind, b).value.0; InBounds(k, e) && Kind(e) == kind && PutEvent(k, e) == b
  {
    hide PutU64, GetU64, PutU32, GetU32, PutText, GetText, PutTime, GetTime, Timely, PutCost, GetCost, CostValid, Utf8Length;
    Words();
    Times(k);
    Texts(MAX_INPUT_BYTES);
    CostInverse(k);
  }

  /** What the decoder accepts the encoder can count. */
  lemma BoundsCountable(k: Codebook, e: Event)
    requires InBounds(k, e)
    ensures Countable(k, e) && (e.TurnBlocked? ==> e.origin != Legacy)
  {
    hide Utf8Length, Blank, Context.ReadArtifacts, Context.ReadRecent, PresetValid;
    if e.TurnAdmitted? {
      assert forall f <- e.fallbacks :: FallbackOk(k)(f);
    } else if e.OutputPrepared? {
      assert forall u <- e.usageRecords :: UsageOk(k)(u);
    } else if e.AttemptFinished? {
      assert forall w <- e.windows :: WindowOk(k)(w);
    } else if e.SelectionStaged? {
      PresetShort(k.text(e.selection.preset));
    }
  }

  lemma PresetShort(s: string)
    requires PresetValid(s)
    ensures Utf8Length(s) <= MAX_CONFIG_ID_BYTES
  {
  }

  /** An encoded event decodes to itself exactly when it is within the decoder's bounds. */
  lemma DecodesItself(k: Codebook, e: Event)
    requires Faithful(k)
    ensures InBounds(k, e) ==> Encode(k, e).Ok?
    ensures Encode(k, e).Ok? && !e.ConfigFrozen? && !e.ProviderFrozen? ==> (Decode(k, Encode(k, e).value) == Ok(e) <==> InBounds(k, e))
    ensures Encode(k, e).Ok? && InBounds(k, e) ==> Decode(k, Encode(k, e).value) == Ok(e)
  {
    hide PutEvent, GetEvent, InBounds, Countable;
    if InBounds(k, e) {
      BoundsCountable(k, e);
      if e.CheckpointPublished? || e.SelectionStaged? || e.TurnAdmitted? || e.OutputPrepared? || e.TurnBlocked? || e.AttemptFinished? {
        LargeRead(k, e);
      } else {
        SmallRead(k, e);
      }
    } else if Encode(k, e).Ok? && !e.ConfigFrozen? && !e.ProviderFrozen? && Decode(k, Encode(k, e).value) == Ok(e) {
      DecodedReencodes(k, Encode(k, e).value);
    }
  }

  /** Nothing but its own encoding decodes to an event, so the stored form of an event is unique. */
  lemma DecodedReencodes(k: Codebook, data: LedgerCodec.EventData)
    requires Faithful(k) && Decode(k, data).Ok? && data.kind !in {2, 3}
    ensures var e := Decode(k, data).value; InBounds(k, e) && Encode(k, e) == Ok(data)
  {
    hide PutEvent, GetEvent, InBounds, Countable;
    var e := Decode(k, data).value;
    if data.kind in {4, 7, 10, 12, 14, 17} {
      LargeWritten(k, data.kind, data.payload);
    } else {
      SmallWritten(k, data.kind, data.payload);
    }
    BoundsCountable(k, e);
  }
}
