/**
 What the kernel's driver writes: the transaction each operation commits, or
 none, and the runs those operations make with their ledger.
 */
module KernelPlan {
  import opened Prelude
  import opened Journal
  import opened Strings
  import opened KernelModel
  import Context
  import UsageModel

  // ---------- context ----------

  /** The request context a Turn after `history` would see. */
  function ContextFor(s: RuntimeData, head: Context.Head, history: seq<Item>): Result<Option<Context.RequestView>, Context.ViewError> {
    if |history| == 0 then Ok(None)
    else
      var view := if s.checkpoint.Some? then Context.Materialize(s.checkpoint.value, history) else Context.RequestFromItems(head, history);
      match view
      case Ok(request) => Ok(Some(request))
      case Err(error) => Err(error)
  }

  // ---------- admission ----------

  datatype Candidate = Candidate(selection: Selection, presetValid: bool, config: Config, provider: Provider)

  datatype Admission = Admission(config: Config, provider: Provider, primary: Option<Selection>, fallbacks: seq<Candidate>,
                                 agent: Option<Id>, input: string, digest: nat, hardPressure: bool)

  predicate SelectionFits(selection: Selection, config: Config) {
    config.fingerprint == selection.fingerprint && config.profile == selection.profile && config.model == selection.model
  }

  function FallbackAt(s: RuntimeData, a: Admission, i: nat): Fallback
    requires i < |a.fallbacks| && s.nextConfig + |a.fallbacks| <= U64_MAX && s.nextProvider + |a.fallbacks| <= U64_MAX
  {
    Fallback(a.fallbacks[i].selection.preset, a.fallbacks[i].presetValid, s.nextConfig + 1 + i, s.nextProvider + 1 + i)
  }

  /** The frozen pairs of the candidates from position `i` on, the primary first. */
  function SnapshotEvents(s: RuntimeData, a: Admission, i: nat): seq<Event>
    requires i <= |a.fallbacks| + 1 && s.nextConfig + |a.fallbacks| <= U64_MAX && s.nextProvider + |a.fallbacks| <= U64_MAX
    decreases |a.fallbacks| + 1 - i
  {
    if i > |a.fallbacks| then []
    else
      var config := if i == 0 then a.config else a.fallbacks[i - 1].config;
      var provider := if i == 0 then a.provider else a.fallbacks[i - 1].provider;
      [ConfigFrozen(s.nextConfig + i, config), ProviderFrozen(s.nextProvider + i, provider)] + SnapshotEvents(s, a, i + 1)
  }

  function AdmissionThread(s: RuntimeData): Id {
    if s.thread.Some? then s.thread.value else s.nextThread
  }

  function Admitting(s: RuntimeData, a: Admission): Event
    requires s.nextConfig + |a.fallbacks| <= U64_MAX && s.nextProvider + |a.fallbacks| <= U64_MAX
  {
    TurnAdmitted(AdmissionThread(s), s.nextTurn, s.nextItem, s.nextConfig, s.nextProvider,
                 seq(|a.fallbacks|, i requires 0 <= i < |a.fallbacks| => FallbackAt(s, a, i)), a.agent, a.input, a.digest)
  }

  function AdmissionEvents(s: RuntimeData, a: Admission): seq<Event>
    requires s.nextConfig + |a.fallbacks| <= U64_MAX && s.nextProvider + |a.fallbacks| <= U64_MAX
  {
    (if s.thread.None? then [ThreadCreated(s.nextThread)] else []) + SnapshotEvents(s, a, 0) + [Admitting(s, a)]
  }

  type Plan = Result<seq<Event>, KernelError>

  function PlanAdmit(s: RuntimeData, head: Context.Head, a: Admission): Plan {
    if s.pending.Some? then Err(Busy)
    else if !InputValid(a.input) then Err(InvalidInput)
    else if a.hardPressure then Err(ContextAdmissionBlocked)
    else if !a.config.canonical || exists i :: 0 <= i < |a.fallbacks| && !a.fallbacks[i].config.canonical then Err(UnsupportedContextMode)
    else if ContextFor(s, head, s.items).Err? then Err(ContextError(ContextFor(s, head, s.items).error))
    else if a.primary.Some? && !SelectionFits(a.primary.value, a.config) then Err(InvalidModelSelection)
    else if !SelectionMatches(s.selection, a.config, a.agent) then Err(InvalidModelSelection)
    else if s.selection.Some? && a.primary.Some? && a.primary.value != s.selection.value.selection then Err(InvalidModelSelection)
    else if s.nextConfig + |a.fallbacks| > U64_MAX || s.nextProvider + |a.fallbacks| > U64_MAX then Err(IntegerOverflow)
    else if exists i :: 0 <= i < |a.fallbacks| && !SelectionFits(a.fallbacks[i].selection, a.fallbacks[i].config) then Err(InvalidModelSelection)
    else Ok(AdmissionEvents(s, a))
  }

  // ---------- attempts ----------

  function AdmittedTurn(s: RuntimeData, turn: Id): Result<PendingTurn, KernelError> {
    if s.pending.Some? && s.pending.value.turn == turn && s.pending.value.phase.Admitted? then Ok(s.pending.value) else Err(Busy)
  }

  /** The names of the frozen windows holding the attempt's start; which values do is the calendar's business. */
  function WindowsInside(windows: seq<Window>, inside: set<int>): seq<nat> {
    if |windows| == 0 then []
    else (if windows[0].value in inside then [windows[0].id] else []) + WindowsInside(windows[1..], inside)
  }

  /** Finishing an attempt is always two events: the record, then its cost from the frozen book. */
  function FinishEvents(s: RuntimeData, turn: Id, attempt: U32, now: int, outcome: Outcome, usage: Option<UsageRecord>, inside: set<int>): Plan {
    var p :- AdmittedTurn(s, turn);
    if p.open.None? || p.open.value.attempt != attempt then Err(Corrupt)
    else if p.config !in s.configs || p.provider !in s.providers || s.thread.None? || turn !in s.turns then Err(Corrupt)
    else
      var completed := if now < p.open.value.startedAt then p.open.value.startedAt else now;
      var finished := AttemptFinished(turn, attempt, completed, outcome, usage, WindowsInside(s.configs[p.config].windows, inside));
      var cost := ExpectedCost(s.configs[p.config], AttemptOf(s, p, p.open.value, finished));
      Ok([finished, AttemptCosted(turn, attempt, FreezeCost(cost))])
  }

  /** An attempt left open by an earlier process is first finished as interrupted. */
  function PlanBegin(s: RuntimeData, turn: Id, now: int, inside: set<int>): Plan {
    var p :- AdmittedTurn(s, turn);
    var interrupted :- if p.open.Some? then FinishEvents(s, turn, p.open.value.attempt, now, UsageModel.Interrupted, None, inside) else Ok([]);
    Ok(interrupted + [AttemptStarted(turn, p.nextAttempt, now)])
  }

  /** Control characters become spaces and the text stops at the byte limit. */
  function Cleaned(reason: string, room: nat): string
    decreases |reason|
  {
    if |reason| == 0 then ""
    else
      var c := if IsControl(reason[0]) then ' ' else reason[0];
      if CharBytes(c) > room then "" else [c] + Cleaned(reason[1..], room - CharBytes(c))
  }

  function BoundedReason(reason: string): string {
    var bounded := Cleaned(reason, MAX_BLOCK_REASON_BYTES);
    if Blank(bounded) then "provider failure" else bounded
  }

  function PlanFinishAndBlock(s: RuntimeData, turn: Id, attempt: U32, now: int, outcome: Outcome, usage: Option<UsageRecord>, inside: set<int>,
                              reason: string, stage: Option<Stage>): Plan {
    var finish :- FinishEvents(s, turn, attempt, now, outcome, usage, inside);
    Ok(finish + [TurnBlocked(turn, BoundedReason(reason), FromProvider, stage)])
  }

  // ---------- output ----------

  function Joined(deltas: seq<string>): string {
    if |deltas| == 0 then "" else Joined(deltas[..|deltas| - 1]) + deltas[|deltas| - 1]
  }

  function DeltaEvents(turn: Id, item: Id, deltas: seq<string>): seq<Event> {
    seq(|deltas|, i requires 0 <= i < |deltas| => TextDelta(turn, item, deltas[i]))
  }

  function PlanPrepare(s: RuntimeData, turn: Id, attempt: U32, now: int, deltas: seq<string>, digest: nat,
                       usageRecords: seq<UsageRecord>, current: UsageRecord, inside: set<int>): Plan {
    if |usageRecords| == 0 || |usageRecords| > MAX_USAGE_RECORDS_PER_TURN then
      PlanFinishAndBlock(s, turn, attempt, now, UsageModel.Succeeded, Some(current), inside, "Provider usage record count is invalid", None)
    else
      var p :- AdmittedTurn(s, turn);
      if p.config !in s.configs then Err(Corrupt)
      else
        var text := Joined(deltas);
        if Utf8Length(text) > s.configs[p.config].maxOutputBytes then
          PlanFinishAndBlock(s, turn, attempt, now, UsageModel.Succeeded, Some(current), inside,
                             "Provider output exceeds the frozen Config Epoch limit", None)
        else if Blank(text) then
          PlanFinishAndBlock(s, turn, attempt, now, UsageModel.Succeeded, Some(current), inside, "Provider output cannot be empty", None)
        else
          var finish :- FinishEvents(s, turn, attempt, now, UsageModel.Succeeded, Some(current), inside);
          Ok(finish + [AssistantStarted(turn, s.nextItem)] + DeltaEvents(turn, s.nextItem, deltas)
             + [OutputPrepared(turn, s.nextItem, s.nextDelivery, text, digest, usageRecords)])
  }

  /** No events when the delivery was acknowledged before. */
  function PlanAcknowledge(s: RuntimeData, delivery: Id): Plan {
    if delivery in s.acknowledged then Ok([])
    else if s.pending.None? || s.pending.value.prepared.None? || s.pending.value.prepared.value.delivery != delivery then Err(UnknownDelivery)
    else Ok([OutputAcknowledged(s.pending.value.turn, delivery), TurnCompleted(s.pending.value.turn)])
  }

  // ---------- blocked Turns ----------

  predicate ProviderBlocked(p: PendingTurn) {
    p.phase.Blocked? && p.origin == Some(FromProvider)
  }

  function PlanCancel(s: RuntimeData, agent: Option<Id>, turn: Id): Plan {
    if turn !in s.turns then Err(UnknownTurn)
    else if s.turns[turn].agent != agent then Err(CancellationNotAllowed)
    else if s.turns[turn].cancelled then Ok([])
    else if s.pending.None? || s.pending.value.turn != turn || !ProviderBlocked(s.pending.value) then Err(CancellationNotAllowed)
    else Ok([TurnCancelled(turn)])
  }

  /** A pending Turn's active configuration must still be executable. */
  function RequireExecutable(s: RuntimeData, turn: Id): Check {
    if s.pending.None? || s.pending.value.turn != turn then Ok(())
    else if s.pending.value.config !in s.configs then Err(Corrupt)
    else Require(s.configs[s.pending.value.config].canonical, UnsupportedContextMode)
  }

  function PlanRetry(s: RuntimeData, agent: Option<Id>, turn: Id): Plan {
    var _ :- RequireExecutable(s, turn);
    if turn !in s.turns then Err(UnknownTurn)
    else if s.turns[turn].agent != agent || s.turns[turn].completed || s.turns[turn].cancelled then Err(RetryNotAllowed)
    else if s.pending.None? || s.pending.value.turn != turn || !ProviderBlocked(s.pending.value) || !Retryable(s.pending.value.stage)
    then Err(RetryNotAllowed)
    else Ok([RetryRequested(turn)])
  }

  /** The next frozen candidate, or no events when none is left or the block does not allow one. */
  function PlanFallback(s: RuntimeData, agent: Option<Id>, turn: Id): Plan {
    var _ :- RequireExecutable(s, turn);
    if turn !in s.turns then Err(UnknownTurn)
    else if s.pending.None? || s.pending.value.turn != turn then Ok([])
    else if s.pending.value.fallbackIndex == U32_MAX then Err(IntegerOverflow)
    else
      var p, record := s.pending.value, s.turns[turn];
      if record.agent != agent || record.completed || record.cancelled || !ProviderBlocked(p) || !Retryable(p.stage)
         || p.fallbackIndex + 1 > |record.fallbacks| then Ok([])
      else Ok([FallbackRequested(turn, p.fallbackIndex + 1)])
  }

  // ---------- operations ----------

  datatype Step =
    | Admit(admission: Admission)
    | Begin(turn: Id, now: int, inside: set<int>)
    | Finish(turn: Id, attempt: U32, now: int, outcome: Outcome, usage: Option<UsageRecord>, inside: set<int>)
    | FinishAndBlock(turn: Id, attempt: U32, now: int, outcome: Outcome, usage: Option<UsageRecord>, inside: set<int>,
                     reason: string, stage: Option<Stage>)
    | Prepare(turn: Id, attempt: U32, now: int, deltas: seq<string>, digest: nat, usageRecords: seq<UsageRecord>, current: UsageRecord, inside: set<int>)
    | Block(turn: Id, reason: string)
    | Acknowledge(delivery: Id)
    | Cancel(agent: Option<Id>, turn: Id)
    | Retry(agent: Option<Id>, turn: Id)
    | AdvanceFallback(agent: Option<Id>, turn: Id)
    | PublishCheckpoint(draft: Checkpoint)
    | StageSelection(owner: Id, selection: Selection)

  function PlanStep(s: RuntimeData, head: Context.Head, step: Step): Plan {
    match step
    case Admit(admission) => PlanAdmit(s, head, admission)
    case Begin(turn, now, inside) => PlanBegin(s, turn, now, inside)
    case Finish(turn, attempt, now, outcome, usage, inside) => FinishEvents(s, turn, attempt, now, outcome, usage, inside)
    case FinishAndBlock(turn, attempt, now, outcome, usage, inside, reason, stage) =>
      PlanFinishAndBlock(s, turn, attempt, now, outcome, usage, inside, reason, stage)
    case Prepare(turn, attempt, now, deltas, digest, usageRecords, current, inside) =>
      PlanPrepare(s, turn, attempt, now, deltas, digest, usageRecords, current, inside)
    case Block(turn, reason) => Ok([TurnBlocked(turn, BoundedReason(reason), Other, None)])
    case Acknowledge(delivery) => PlanAcknowledge(s, delivery)
    case Cancel(agent, turn) => PlanCancel(s, agent, turn)
    case Retry(agent, turn) => PlanRetry(s, agent, turn)
    case AdvanceFallback(agent, turn) => PlanFallback(s, agent, turn)
    case PublishCheckpoint(draft) =>
      if s.pending.Some? then Err(Busy)
      else if Context.HeadOf(draft.source) != head then Err(StaleCheckpoint)
      else Ok([CheckpointPublished(draft)])
    case StageSelection(owner, selection) =>
      if s.pending.Some? then Err(Busy)
      else if s.selection.Some? && s.selection.value.agent != owner then Err(InvalidModelSelection)
      else Ok([SelectionStaged(owner, selection)])
  }

  // ---------- the ledger ----------

  type Transaction = seq<Event>

  /** The ledger's head after these transactions. */
  function HeadAfter(txns: seq<Transaction>): (nat, nat) {
    if |txns| == 0 then (0, 0) else (HeadAfter(txns[..|txns| - 1]).0 + 1, HeadAfter(txns[..|txns| - 1]).1 + |txns[|txns| - 1]|)
  }

  /** Sequence numbers are bounded by the ledger itself. */
  predicate HeadFits(txns: seq<Transaction>) {
    HeadAfter(txns).0 <= U64_MAX && HeadAfter(txns).1 <= U64_MAX
  }

  function LedgerHead(txns: seq<Transaction>): Context.Head
    requires HeadFits(txns)
  {
    Context.Head(HeadAfter(txns).0, HeadAfter(txns).1)
  }

  /** A checkpoint is alone in its transaction and names the head before it. */
  predicate CheckpointBound(txn: Transaction, head: Context.Head) {
    forall i :: 0 <= i < |txn| && txn[i].CheckpointPublished? ==> |txn| == 1 && Context.HeadOf(txn[i].checkpoint.source) == head
  }

  function ReplayTransaction(s: RuntimeData, head: Context.Head, txn: Transaction): Applied {
    if !CheckpointBound(txn, head) then Err(Corrupt) else Commit(s, txn)
  }

  function Replay(txns: seq<Transaction>): Applied
    requires HeadFits(txns)
    decreases |txns|
  {
    if |txns| == 0 then Ok(EMPTY)
    else
      HeadFitsBefore(txns);
      var s :- Replay(txns[..|txns| - 1]);
      ReplayTransaction(s, LedgerHead(txns[..|txns| - 1]), txns[|txns| - 1])
  }

  lemma HeadFitsBefore(txns: seq<Transaction>)
    requires HeadFits(txns) && |txns| > 0
    ensures HeadFits(txns[..|txns| - 1])
  {
  }

  // ---------- runs ----------

  datatype Memory = Memory(state: RuntimeData, poisoned: bool)

  datatype World = World(txns: seq<Transaction>, synced: nat, memory: Option<Memory>)

  const NEW_WORLD := World([], 0, None)

  /** Apply to a copy, check it may rest, append, publish the copy. The ledger refuses what its counters cannot hold. */
  function CommitTo(w: World, m: Memory, events: seq<Event>, write: WriteOutcome): World {
    match Commit(m.state, events)
    case Err(_) => w
    case Ok(candidate) =>
      if m.poisoned || write.Refused? || !HeadFits(w.txns + [events]) then w
      else if write.Torn? then
        w.(txns := if write.present then w.txns + [events] else w.txns, memory := Some(m.(poisoned := true)))
      else World(w.txns + [events], |w.txns| + 1, Some(Memory(candidate, false)))
  }

  datatype Move = Act(step: Step, write: WriteOutcome) | Crash(kept: nat) | Open

  function Perform(w: World, move: Move): World {
    match move
    case Act(step, write) =>
      if w.memory.None? || !HeadFits(w.txns) then w
      else
        var plan := PlanStep(w.memory.value.state, LedgerHead(w.txns), step);
        if plan.Err? || |plan.value| == 0 then w else CommitTo(w, w.memory.value, plan.value, write)
    case Crash(kept) => w.(txns := w.txns[..Surviving(|w.txns|, w.synced, kept)], memory := None)
    case Open =>
      if w.memory.Some? || !HeadFits(w.txns) then w
      else if Replay(w.txns).Err? then w
      else w.(memory := Some(Memory(Replay(w.txns).value, false)))
  }

  function Run(w: World, moves: seq<Move>): World
    decreases |moves|
  {
    if |moves| == 0 then w else Perform(Run(w, moves[..|moves| - 1]), moves[|moves| - 1])
  }
}
