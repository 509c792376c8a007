/**
 The runtime kernel's conversation state: its events and what each does to
 the state, with every condition under which it is refused.
 */
module KernelModel {
  import opened Prelude
  import opened Strings
  import Context
  import Pricing
  import UsageModel

  const MAX_INPUT_BYTES: nat := 512 * 1024
  const MAX_BLOCK_REASON_BYTES: nat := 4096
  const MAX_USAGE_RECORDS_PER_TURN: nat := 64

  /** Candidates a preset's fallback plan may name, the primary included. */
  const MAX_FALLBACK_CANDIDATES: nat := 16

  type Id = Context.Id
  type Item = Context.Item
  type Checkpoint = Context.Reduced
  type UsageRecord = UsageModel.UsageRecord
  type Attempt = UsageModel.Attempt
  type Outcome = UsageModel.Outcome
  type Cost = Pricing.Cost

  datatype Window = Window(id: nat, value: int)

  /** A frozen configuration, seen only by what the kernel reads of it. */
  datatype Config = Config(
    fingerprint: U64, profile: nat, model: nat, maxOutputBytes: U32, canonical: bool, contextMode: nat, effort: Option<nat>,
    tier: Option<nat>, windows: seq<Window>, book: seq<Pricing.Schedule>)

  datatype Provider = Provider(profile: nat, model: nat, dialect: Option<nat>, snapshot: nat)

  datatype Selection = Selection(preset: nat, fingerprint: U64, profile: nat, model: nat, dialect: nat)

  datatype PendingSelection = PendingSelection(agent: Id, selection: Selection)

  datatype Fallback = Fallback(preset: nat, presetValid: bool, config: Id, provider: Id)

  datatype TurnRecord = TurnRecord(
    userItem: Id, config: Id, provider: Id, fallbacks: seq<Fallback>, agent: Option<Id>,
    assistantItem: Option<Id>, delivery: Option<Id>, completed: bool, cancelled: bool)

  datatype BlockOrigin = Legacy | FromProvider | Other

  datatype Stage = BeforeResponse | BeforeFirstEvent | AfterFirstEvent

  datatype Phase = Admitted | Streaming | Prepared | Blocked

  datatype PreparedState = PreparedState(item: Id, delivery: Id, usageRecords: seq<UsageRecord>)

  datatype OpenAttempt = OpenAttempt(attempt: U32, startedAt: int)

  datatype PendingTurn = PendingTurn(
    turn: Id, config: Id, provider: Id, fallbackIndex: U32, agent: Option<Id>, input: string, phase: Phase,
    assistantItem: Option<Id>, streamed: string, prepared: Option<PreparedState>, acknowledged: bool,
    reason: Option<string>, origin: Option<BlockOrigin>, stage: Option<Stage>, nextAttempt: U32, open: Option<OpenAttempt>)

  /** The usage projection is represented by its attempts; its caches are folds over them. */
  datatype RuntimeData = RuntimeData(
    thread: Option<Id>, configs: map<Id, Config>, providers: map<Id, Provider>, turns: map<Id, TurnRecord>, items: seq<Item>,
    pending: Option<PendingTurn>, selection: Option<PendingSelection>, checkpoint: Option<Checkpoint>, acknowledged: set<Id>,
    usage: seq<Attempt>, pendingCost: Option<(Id, U32)>,
    nextThread: Id, nextTurn: Id, nextItem: Id, nextDelivery: Id, nextConfig: Id, nextProvider: Id)

  const EMPTY := RuntimeData(None, map[], map[], map[], [], None, None, None, {}, [], None, 1, 1, 1, 1, 1, 1)

  datatype Frozen = FrozenKnown(schedule: nat, fingerprint: U64, amount: U64) | FrozenUnknown(reason: Pricing.Unknown)

  datatype Event =
    | CheckpointPublished(checkpoint: Checkpoint)
    | SelectionStaged(agent: Id, selection: Selection)
    | ThreadCreated(thread: Id)
    | ConfigFrozen(config: Id, epoch: Config)
    | ProviderFrozen(provider: Id, profile: Provider)
    | TurnAdmitted(thread: Id, turn: Id, userItem: Id, primaryConfig: Id, primaryProvider: Id, fallbacks: seq<Fallback>,
                   owner: Option<Id>, input: string, digest: nat)
    | AssistantStarted(turn: Id, item: Id)
    | TextDelta(turn: Id, item: Id, delta: string)
    | OutputPrepared(turn: Id, item: Id, delivery: Id, text: string, digest: nat, usageRecords: seq<UsageRecord>)
    | OutputAcknowledged(turn: Id, delivery: Id)
    | TurnCompleted(turn: Id)
    | TurnBlocked(turn: Id, reason: string, origin: BlockOrigin, stage: Option<Stage>)
    | TurnCancelled(turn: Id)
    | RetryRequested(turn: Id)
    | FallbackRequested(turn: Id, index: U32)
    | AttemptStarted(turn: Id, attempt: U32, startedAt: int)
    | AttemptFinished(turn: Id, attempt: U32, completedAt: int, outcome: Outcome, usage: Option<UsageRecord>, windows: seq<nat>)
    | AttemptCosted(turn: Id, attempt: U32, evaluation: Frozen)

  datatype KernelError =
    | Corrupt | IntegerOverflow | ContextError(error: Context.ViewError) | Busy | InvalidInput | UnsupportedContextMode
    | InvalidModelSelection | UnknownTurn | UnknownDelivery | RetryNotAllowed | CancellationNotAllowed | StaleCheckpoint
    | LedgerError | ContextAdmissionBlocked

  type Check = Result<(), KernelError>
  type Applied = Result<RuntimeData, KernelError>

  function Require(condition: bool, error: KernelError): Check {
    if condition then Ok(()) else Err(error)
  }

  /** The next identifier after seeing one. */
  function ObserveId(next: Id, observed: Id): Result<Id, KernelError> {
    if observed == U64_MAX then Err(IntegerOverflow) else Ok(if next > observed + 1 then next else observed + 1)
  }

  function TextOf(content: string, digest: nat): Context.RawText {
    Context.Text(content, Utf8Length(content), digest)
  }

  /** What a recorded item's text must be. */
  predicate ItemText(text: string) {
    !Blank(text) && Utf8Length(text) <= Context.MAX_ITEM_TEXT_BYTES
  }

  function NewItem(id: Id, turn: Id, role: Context.Role, text: string, digest: nat): (item: Item)
    requires ItemText(text)
    ensures item.id == id && item.turn == turn && item.role == role && item.text.content == text
  {
    Context.Item(id, turn, role, TextOf(text, digest))
  }

  predicate ItemExists(s: RuntimeData, item: Id) {
    || (exists i :: 0 <= i < |s.items| && s.items[i].id == item)
    || (s.pending.Some? && s.pending.value.assistantItem == Some(item))
  }

  function PendingFor(s: RuntimeData, turn: Id): Result<PendingTurn, KernelError> {
    if s.pending.Some? && s.pending.value.turn == turn then Ok(s.pending.value) else Err(Corrupt)
  }

  predicate Retryable(stage: Option<Stage>) {
    stage == Some(BeforeResponse) || stage == Some(BeforeFirstEvent)
  }

  /** Blocked by its Provider with nothing produced: what cancel, retry and fallback all ask. */
  predicate CleanlyBlocked(p: PendingTurn) {
    && p.phase.Blocked? && p.origin == Some(FromProvider) && p.open.None? && p.prepared.None? && p.assistantItem.None?
    && p.streamed == "" && !p.acknowledged
  }

  // ---------- checkpoints, selections, snapshots ----------

  function ApplyCheckpoint(s: RuntimeData, checkpoint: Checkpoint): Applied {
    if s.pending.Some? then Err(Corrupt)
    else
      match Context.ValidateAgainst(checkpoint, s.items)
      case Err(error) => Err(ContextError(error))
      case Ok(_) => Ok(s.(checkpoint := Some(checkpoint)))
  }

  function ApplySelection(s: RuntimeData, agent: Id, selection: Selection): Applied {
    if s.pending.Some? || (s.selection.Some? && s.selection.value.agent != agent) then Err(Corrupt)
    else Ok(s.(selection := Some(PendingSelection(agent, selection))))
  }

  function ApplyThread(s: RuntimeData, thread: Id): Applied {
    if s.thread.Some? || s.turns != map[] then Err(Corrupt)
    else
      var next :- ObserveId(s.nextThread, thread);
      Ok(s.(thread := Some(thread), nextThread := next))
  }

  function ApplyConfig(s: RuntimeData, id: Id, epoch: Config): Applied {
    if id in s.configs then Err(Corrupt)
    else
      var next :- ObserveId(s.nextConfig, id);
      Ok(s.(configs := s.configs[id := epoch], nextConfig := next))
  }

  function ApplyProvider(s: RuntimeData, id: Id, profile: Provider): Applied {
    if id in s.providers then Err(Corrupt)
    else
      var next :- ObserveId(s.nextProvider, id);
      Ok(s.(providers := s.providers[id := profile], nextProvider := next))
  }

  // ---------- admission ----------

  /** Fallback snapshots exist, differ from the primary's and from each other. */
  predicate FallbacksValid(s: RuntimeData, config: Id, provider: Id, fallbacks: seq<Fallback>) {
    && |fallbacks| < MAX_FALLBACK_CANDIDATES
    && (forall i :: 0 <= i < |fallbacks| ==>
          && fallbacks[i].presetValid && fallbacks[i].config != config && fallbacks[i].provider != provider
          && fallbacks[i].config in s.configs && fallbacks[i].provider in s.providers)
    && (forall i, j :: 0 <= i < j < |fallbacks| ==>
          fallbacks[i].config != fallbacks[j].config && fallbacks[i].provider != fallbacks[j].provider)
  }

  predicate SelectionMatches(selection: Option<PendingSelection>, config: Config, agent: Option<Id>) {
    selection.Some? ==>
      && agent == Some(selection.value.agent) && config.fingerprint == selection.value.selection.fingerprint
      && config.profile == selection.value.selection.profile && config.model == selection.value.selection.model
  }

  predicate InputValid(input: string) {
    !Blank(input) && Utf8Length(input) <= MAX_INPUT_BYTES
  }

  function NewPending(turn: Id, config: Id, provider: Id, agent: Option<Id>, input: string): PendingTurn {
    PendingTurn(turn, config, provider, 0, agent, input, Admitted, None, "", None, false, None, None, None, 1, None)
  }

  function ApplyAdmission(s: RuntimeData, e: Event): Applied
    requires e.TurnAdmitted?
  {
    if s.thread != Some(e.thread) || s.pending.Some? then Err(Corrupt)
    else if e.primaryConfig !in s.configs || e.primaryProvider !in s.providers then Err(Corrupt)
    else if !FallbacksValid(s, e.primaryConfig, e.primaryProvider, e.fallbacks) then Err(Corrupt)
    else if !SelectionMatches(s.selection, s.configs[e.primaryConfig], e.owner) then Err(Corrupt)
    else if e.turn in s.turns || ItemExists(s, e.userItem) then Err(Corrupt)
    else if !InputValid(e.input) then Err(InvalidInput)
    else
      var nextTurn :- ObserveId(s.nextTurn, e.turn);
      var nextItem :- ObserveId(s.nextItem, e.userItem);
      var item := NewItem(e.userItem, e.turn, Context.User, e.input, e.digest);
      var record := TurnRecord(e.userItem, e.primaryConfig, e.primaryProvider, e.fallbacks, e.owner, None, None, false, false);
      Ok(s.(items := s.items + [item], turns := s.turns[e.turn := record],
            pending := Some(NewPending(e.turn, e.primaryConfig, e.primaryProvider, e.owner, e.input)),
            selection := None, nextTurn := nextTurn, nextItem := nextItem))
  }

  // ---------- output ----------

  function ApplyAssistantStarted(s: RuntimeData, turn: Id, item: Id): Applied {
    if ItemExists(s, item) then Err(Corrupt)
    else
      var p :- PendingFor(s, turn);
      if !p.phase.Admitted? || p.assistantItem.Some? then Err(Corrupt)
      else
        var next :- ObserveId(s.nextItem, item);
        Ok(s.(pending := Some(p.(phase := Streaming, assistantItem := Some(item))), nextItem := next))
  }

  function ApplyDelta(s: RuntimeData, turn: Id, item: Id, delta: string): Applied {
    if delta == "" then Err(Corrupt)
    else
      var p :- PendingFor(s, turn);
      if !p.phase.Streaming? || p.assistantItem != Some(item) then Err(Corrupt)
      else if Utf8Length(p.streamed) + Utf8Length(delta) > MAX_INPUT_BYTES then Err(Corrupt)
      else Ok(s.(pending := Some(p.(streamed := p.streamed + delta))))
  }

  function ApplyPrepared(s: RuntimeData, e: Event): Applied
    requires e.OutputPrepared?
  {
    if e.delivery in s.acknowledged then Err(Corrupt)
    else if |e.usageRecords| == 0 || |e.usageRecords| > MAX_USAGE_RECORDS_PER_TURN then Err(Corrupt)
    else
      var p :- PendingFor(s, e.turn);
      if !p.phase.Streaming? || p.assistantItem != Some(e.item) || p.streamed != e.text || p.prepared.Some? then Err(Corrupt)
      else if p.config !in s.configs then Err(Corrupt)
      else if Blank(e.text) || Utf8Length(e.text) > s.configs[p.config].maxOutputBytes then Err(Corrupt)
      else if p.open.Some? then Err(Corrupt)
      else if !ItemText(e.text) then Err(Corrupt)
      else if e.turn !in s.turns then Err(Corrupt)
      else
        var next :- ObserveId(s.nextDelivery, e.delivery);
        var item := NewItem(e.item, e.turn, Context.Assistant, e.text, e.digest);
        Ok(s.(items := s.items + [item],
              pending := Some(p.(phase := Prepared, prepared := Some(PreparedState(e.item, e.delivery, e.usageRecords)))),
              turns := s.turns[e.turn := s.turns[e.turn].(assistantItem := Some(e.item), delivery := Some(e.delivery))],
              nextDelivery := next))
  }

  function ApplyAcknowledged(s: RuntimeData, turn: Id, delivery: Id): Applied {
    var p :- PendingFor(s, turn);
    if !p.phase.Prepared? || p.acknowledged || p.prepared.None? || p.prepared.value.delivery != delivery then Err(Corrupt)
    else if delivery in s.acknowledged then Err(Corrupt)
    else Ok(s.(pending := Some(p.(acknowledged := true)), acknowledged := s.acknowledged + {delivery}))
  }

  function ApplyCompleted(s: RuntimeData, turn: Id): Applied {
    var p :- PendingFor(s, turn);
    if !p.phase.Prepared? || !p.acknowledged || turn !in s.turns then Err(Corrupt)
    else Ok(s.(turns := s.turns[turn := s.turns[turn].(completed := true)], pending := None))
  }

  // ---------- blocking ----------

  predicate ReasonValid(reason: string) {
    !Blank(reason) && Utf8Length(reason) <= MAX_BLOCK_REASON_BYTES && !HasControl(reason)
  }

  function ApplyBlocked(s: RuntimeData, turn: Id, reason: string, origin: BlockOrigin, stage: Option<Stage>): Applied {
    if !ReasonValid(reason) || (stage.Some? && !origin.FromProvider?) then Err(Corrupt)
    else
      var p :- PendingFor(s, turn);
      if !p.phase.Admitted? || p.open.Some? then Err(Corrupt)
      else Ok(s.(pending := Some(p.(phase := Blocked, reason := Some(reason), origin := Some(origin), stage := stage))))
  }

  function ApplyCancelled(s: RuntimeData, turn: Id): Applied {
    var p :- PendingFor(s, turn);
    if !CleanlyBlocked(p) || turn !in s.turns || s.turns[turn].completed || s.turns[turn].cancelled then Err(Corrupt)
    else Ok(s.(turns := s.turns[turn := s.turns[turn].(cancelled := true)], pending := None))
  }

  function Unblocked(p: PendingTurn): PendingTurn {
    p.(phase := Admitted, reason := None, origin := None, stage := None)
  }

  function ApplyRetry(s: RuntimeData, turn: Id): Applied {
    var p :- PendingFor(s, turn);
    if !CleanlyBlocked(p) || !Retryable(p.stage) then Err(Corrupt) else Ok(s.(pending := Some(Unblocked(p))))
  }

  function ApplyFallback(s: RuntimeData, turn: Id, index: U32): Applied {
    if turn !in s.turns || index == 0 || index > |s.turns[turn].fallbacks| then Err(Corrupt)
    else
      var fallback := s.turns[turn].fallbacks[index - 1];
      var p :- PendingFor(s, turn);
      if !CleanlyBlocked(p) || !Retryable(p.stage) || p.fallbackIndex + 1 != index then Err(Corrupt)
      else Ok(s.(pending := Some(Unblocked(p).(config := fallback.config, provider := fallback.provider, fallbackIndex := index))))
  }

  // ---------- usage attempts ----------

  function ApplyAttemptStarted(s: RuntimeData, turn: Id, attempt: U32, startedAt: int): Applied {
    var p :- PendingFor(s, turn);
    if !p.phase.Admitted? || p.open.Some? || attempt != p.nextAttempt || attempt == 0 then Err(Corrupt)
    else if p.nextAttempt == U32_MAX then Err(IntegerOverflow)
    else Ok(s.(pending := Some(p.(nextAttempt := p.nextAttempt + 1, open := Some(OpenAttempt(attempt, startedAt))))))
  }

  predicate WindowNamed(windows: seq<Window>, id: nat) {
    exists i :: 0 <= i < |windows| && windows[i].id == id
  }

  predicate AllNamed(windows: seq<Window>, names: seq<nat>) {
    forall i :: 0 <= i < |names| ==> WindowNamed(windows, names[i])
  }

  predicate DistinctNames(names: seq<nat>) {
    forall i, j :: 0 <= i < j < |names| ==> names[i] != names[j]
  }

  predicate WindowsValid(config: Config, names: seq<nat>) {
    AllNamed(config.windows, names) && DistinctNames(names)
  }

  /** The frozen window of that name. */
  function ResolveWindow(windows: seq<Window>, id: nat): int {
    if |windows| == 0 then 0 else if windows[0].id == id then windows[0].value else ResolveWindow(windows[1..], id)
  }

  /** The attempt as it is recorded: identity from the Turn, policy from the active candidate's frozen epochs. */
  function AttemptOf(s: RuntimeData, p: PendingTurn, open: OpenAttempt, e: Event): Attempt
    requires e.AttemptFinished? && s.thread.Some? && p.config in s.configs && p.provider in s.providers && p.turn in s.turns
  {
    var config, provider := s.configs[p.config], s.providers[p.provider];
    var agent: Option<U64> := if s.turns[p.turn].agent.Some? then Some(s.turns[p.turn].agent.value) else None;
    UsageModel.Attempt(e.attempt, s.thread.value, p.turn, agent, provider.profile, provider.model, None, provider.dialect,
                       Some(config.contextMode), config.effort, None, config.tier, Some(open.startedAt), Some(e.completedAt),
                       e.outcome, e.usage, None,
                       seq(|e.windows|, i requires 0 <= i < |e.windows| => ResolveWindow(config.windows, e.windows[i])))
  }

  predicate Recorded(usage: seq<Attempt>, turn: Id, attempt: U32) {
    exists i :: 0 <= i < |usage| && usage[i].turn == turn && usage[i].attempt == attempt
  }

  function ApplyAttemptFinished(s: RuntimeData, e: Event): Applied
    requires e.AttemptFinished?
  {
    if e.outcome.Succeeded? != e.usage.Some? then Err(Corrupt)
    else
      var p :- PendingFor(s, e.turn);
      if !p.phase.Admitted? || p.open.None? || p.open.value.attempt != e.attempt then Err(Corrupt)
      else if e.completedAt < p.open.value.startedAt then Err(Corrupt)
      else if p.config !in s.configs || p.provider !in s.providers || s.thread.None? || e.turn !in s.turns then Err(Corrupt)
      else if !WindowsValid(s.configs[p.config], e.windows) then Err(Corrupt)
      else if e.attempt == 0 || Recorded(s.usage, e.turn, e.attempt) then Err(Corrupt)
      else
        Ok(s.(usage := s.usage + [AttemptOf(s, p, p.open.value, e)], pending := Some(p.(open := None)),
              pendingCost := Some((e.turn, e.attempt))))
  }

  /** The cost an attempt must be given: recomputed from the frozen price book and the recorded evidence. */
  function ExpectedCost(config: Config, a: Attempt): Cost {
    if a.usage.None? then Pricing.UnknownCost(Pricing.MissingUsageRecord)
    else
      Pricing.EstimateAttempt(config.book, Pricing.Attempt(a.profile, a.requestedModel, a.dialect, if a.startedAt.Some? then a.startedAt.value else 0),
                              a.usage.value)
  }

  predicate FrozenMatches(frozen: Frozen, cost: Cost) {
    match cost
    case Known(schedule, amount, _, _) => frozen == FrozenKnown(schedule.id, schedule.fingerprint, amount)
    case UnknownCost(reason) => frozen == FrozenUnknown(reason)
  }

  function FreezeCost(cost: Cost): (frozen: Frozen)
    ensures FrozenMatches(frozen, cost)
  {
    match cost
    case Known(schedule, amount, _, _) => FrozenKnown(schedule.id, schedule.fingerprint, amount)
    case UnknownCost(reason) => FrozenUnknown(reason)
  }

  /** The position of an attempt among the recorded ones. */
  function IndexOf(usage: seq<Attempt>, turn: Id, attempt: U32): (i: nat)
    requires Recorded(usage, turn, attempt)
    ensures i < |usage| && usage[i].turn == turn && usage[i].attempt == attempt
  {
    if usage[0].turn == turn && usage[0].attempt == attempt then 0
    else
      assert Recorded(usage[1..], turn, attempt) by {
        var k :| 0 <= k < |usage| && usage[k].turn == turn && usage[k].attempt == attempt;
        assert usage[1..][k - 1] == usage[k];
      }
      1 + IndexOf(usage[1..], turn, attempt)
  }

  function ApplyAttemptCosted(s: RuntimeData, turn: Id, attempt: U32, evaluation: Frozen): Applied {
    if s.pendingCost != Some((turn, attempt)) then Err(Corrupt)
    else
      var p :- PendingFor(s, turn);
      if p.config !in s.configs || s.thread.None? || turn !in s.turns || p.provider !in s.providers then Err(Corrupt)
      else if !Recorded(s.usage, turn, attempt) then Err(Corrupt)
      else
        var i := IndexOf(s.usage, turn, attempt);
        var expected := ExpectedCost(s.configs[p.config], s.usage[i]);
        if s.usage[i].usage.Some? && s.usage[i].startedAt.None? then Err(Corrupt)
        else if !FrozenMatches(evaluation, expected) || s.usage[i].cost.Some? then Err(Corrupt)
        else Ok(s.(usage := s.usage[i := s.usage[i].(cost := Some(expected))], pendingCost := None))
  }

  // ---------- events ----------

  /** While a cost evaluation is owed nothing else may come. */
  predicate CostComesNext(s: RuntimeData, e: Event) {
    s.pendingCost.Some? ==> e.AttemptCosted? && s.pendingCost == Some((e.turn, e.attempt))
  }

  function Apply(s: RuntimeData, e: Event): Applied {
    if !CostComesNext(s, e) then Err(Corrupt)
    else
      match e
      case CheckpointPublished(checkpoint) => ApplyCheckpoint(s, checkpoint)
      case SelectionStaged(agent, selection) => ApplySelection(s, agent, selection)
      case ThreadCreated(thread) => ApplyThread(s, thread)
      case ConfigFrozen(config, epoch) => ApplyConfig(s, config, epoch)
      case ProviderFrozen(provider, profile) => ApplyProvider(s, provider, profile)
      case TurnAdmitted(_, _, _, _, _, _, _, _, _) => ApplyAdmission(s, e)
      case AssistantStarted(turn, item) => ApplyAssistantStarted(s, turn, item)
      case TextDelta(turn, item, delta) => ApplyDelta(s, turn, item, delta)
      case OutputPrepared(_, _, _, _, _, _) => ApplyPrepared(s, e)
      case OutputAcknowledged(turn, delivery) => ApplyAcknowledged(s, turn, delivery)
      case TurnCompleted(turn) => ApplyCompleted(s, turn)
      case TurnBlocked(turn, reason, origin, stage) => ApplyBlocked(s, turn, reason, origin, stage)
      case TurnCancelled(turn) => ApplyCancelled(s, turn)
      case RetryRequested(turn) => ApplyRetry(s, turn)
      case FallbackRequested(turn, index) => ApplyFallback(s, turn, index)
      case AttemptStarted(turn, attempt, startedAt) => ApplyAttemptStarted(s, turn, attempt, startedAt)
      case AttemptFinished(_, _, _, _, _, _) => ApplyAttemptFinished(s, e)
      case AttemptCosted(turn, attempt, evaluation) => ApplyAttemptCosted(s, turn, attempt, evaluation)
  }

  function ApplyAll(s: RuntimeData, events: seq<Event>): Applied
    decreases |events|
  {
    if |events| == 0 then Ok(s)
    else
      var next :- Apply(s, events[0]);
      ApplyAll(next, events[1..])
  }

  // ---------- quiescence ----------

  /** Snapshots the Turns below `bound` name: one for each candidate. */
  function SnapshotCount(turns: map<Id, TurnRecord>, bound: nat): nat
    requires bound <= U64_MAX
  {
    if bound <= 1 then 0
    else SnapshotCount(turns, bound - 1) + if bound - 1 in turns then 1 + |turns[bound - 1].fallbacks| else 0
  }

  predicate TurnComplete(s: RuntimeData, turn: Id)
    requires turn in s.turns
  {
    var record := s.turns[turn];
    && record.config in s.configs && record.provider in s.providers
    && (forall f <- record.fallbacks :: f.config in s.configs && f.provider in s.providers)
    && (exists i :: 0 <= i < |s.items| && s.items[i].id == record.userItem && s.items[i].turn == turn)
    && (record.completed ==> record.delivery.Some?) && !(record.completed && record.cancelled)
    && (record.cancelled ==> record.assistantItem.None? && record.delivery.None?)
    && ((s.pending.Some? && s.pending.value.turn == turn) <==> !(record.completed || record.cancelled))
  }

  predicate Quiescent(s: RuntimeData) {
    && (s.turns == map[] <==> s.thread.None?)
    && |s.configs| == SnapshotCount(s.turns, s.nextTurn) && |s.providers| == SnapshotCount(s.turns, s.nextTurn)
    && !(s.pending.Some? && s.pending.value.phase.Streaming?) && s.pendingCost.None?
    && forall turn <- s.turns :: TurnComplete(s, turn)
  }

  /** What one transaction does: all its events, and only to a state that may be left at rest. */
  function Commit(s: RuntimeData, events: seq<Event>): Applied {
    var candidate :- ApplyAll(s, events);
    if Quiescent(candidate) then Ok(candidate) else Err(Corrupt)
  }
}
