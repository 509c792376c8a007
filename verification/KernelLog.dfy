/**
 The kernel's log as bytes: whatever a run appends, the decoder reads back as
 it was, so a restart from the stored bytes rebuilds the state in memory.
 */
module KernelLog {
  import opened Prelude
  import opened Strings
  import Bytes
  import opened KernelModel
  import opened KernelPlan
  import opened KernelRuns
  import opened RuntimeCodec
  import opened EventCodec
  import Context
  import LedgerCodec
  import Pricing
  import UsageModel

  type Frame = seq<LedgerCodec.EventData>

  function EncodeTransaction(k: Codebook, events: seq<Event>): Result<Frame, CodecError> {
    if |events| == 0 then Ok([])
    else
      var first :- Encode(k, events[0]);
      var others :- EncodeTransaction(k, events[1..]);
      Ok([first] + others)
  }

  function DecodeTransaction(k: Codebook, frame: Frame): Result<seq<Event>, CodecError> {
    if |frame| == 0 then Ok([])
    else
      var first :- Decode(k, frame[0]);
      var others :- DecodeTransaction(k, frame[1..]);
      Ok([first] + others)
  }

  function EncodeLog(k: Codebook, txns: seq<Transaction>): Result<seq<Frame>, CodecError> {
    if |txns| == 0 then Ok([])
    else
      var first :- EncodeTransaction(k, txns[0]);
      var others :- EncodeLog(k, txns[1..]);
      Ok([first] + others)
  }

  function DecodeLog(k: Codebook, frames: seq<Frame>): Result<seq<Transaction>, CodecError> {
    if |frames| == 0 then Ok([])
    else
      var first :- DecodeTransaction(k, frames[0]);
      var others :- DecodeLog(k, frames[1..]);
      Ok([first] + others)
  }

  ghost predicate AllInBounds(k: Codebook, events: seq<Event>) {
    forall e <- events :: InBounds(k, e)
  }

  ghost predicate LogInBounds(k: Codebook, txns: seq<Transaction>) {
    forall txn <- txns :: AllInBounds(k, txn)
  }

  lemma {:induction false} TransactionRoundTrip(k: Codebook, events: seq<Event>)
    requires Faithful(k) && AllInBounds(k, events)
    ensures var frame := EncodeTransaction(k, events); frame.Ok? && DecodeTransaction(k, frame.value) == Ok(events)
  {
    hide Encode, Decode, InBounds, Faithful;
    if |events| > 0 {
      DecodesItself(k, events[0]);
      TransactionRoundTrip(k, events[1..]);
      var first, others := Encode(k, events[0]).value, EncodeTransaction(k, events[1..]).value;
      assert ([first] + others)[1..] == others;
      assert [events[0]] + events[1..] == events;
    }
  }

  lemma {:induction false} LogRoundTrip(k: Codebook, txns: seq<Transaction>)
    requires Faithful(k) && LogInBounds(k, txns)
    ensures var frames := EncodeLog(k, txns); frames.Ok? && DecodeLog(k, frames.value) == Ok(txns)
  {
    hide EncodeTransaction, DecodeTransaction, AllInBounds, Faithful;
    if |txns| > 0 {
      assert AllInBounds(k, txns[0]);
      TransactionRoundTrip(k, txns[0]);
      LogRoundTrip(k, txns[1..]);
      var first, others := EncodeTransaction(k, txns[0]).value, EncodeLog(k, txns[1..]).value;
      assert ([first] + others)[1..] == others;
      assert [txns[0]] + txns[1..] == txns;
    }
  }

  // ---------- what the values inside events are made to satisfy ----------

  /** A frozen configuration decodes to itself and its windows and schedules are named within bounds. */
  ghost predicate ConfigMade(k: Codebook, config: Config) {
    && k.getConfig(k.putConfig(config)) == Some(config) && |config.windows| <= MAX_USAGE_WINDOWS
    && (forall i :: 0 <= i < |config.windows| ==> NameFits(k, MAX_PROVIDER_ID_BYTES, config.windows[i].id))
    && (forall s <- config.book :: NameFits(k, MAX_PROVIDER_ID_BYTES, s.id))
  }

  ghost predicate ProviderMade(k: Codebook, provider: Provider) {
    k.getProvider(k.putProvider(provider)) == Some(provider)
  }

  /** What constructing an event's parts already guarantees; sizes the kernel itself limits are not mentioned. */
  ghost predicate WellMade(k: Codebook, e: Event) {
    match e
    case CheckpointPublished(checkpoint) => CheckpointStored(k, checkpoint)
    case SelectionStaged(_, selection) => SelectionValid(k, selection)
    case ConfigFrozen(_, epoch) => ConfigMade(k, epoch)
    case ProviderFrozen(_, profile) => ProviderMade(k, profile)
    case TurnAdmitted(_, _, _, _, _, fallbacks, _, input, digest) =>
      digest == k.digest(input) && forall f <- fallbacks :: f.presetValid == PresetValid(k.text(f.preset))
    case OutputPrepared(_, _, _, text, digest, records) => digest == k.digest(text) && forall u <- records :: UsageOk(k)(u)
    case TurnBlocked(_, _, origin, _) => origin != Legacy
    case AttemptStarted(_, _, startedAt) => Timely(k, startedAt)
    case AttemptFinished(_, _, completedAt, _, usage, _) => Timely(k, completedAt) && (usage.Some? ==> UsageOk(k)(usage.value))
    case _ => true
  }

  ghost predicate AllWellMade(k: Codebook, events: seq<Event>) {
    forall e <- events :: WellMade(k, e)
  }

  /** What the state must remember for later events to be within bounds. */
  ghost predicate Bounded(k: Codebook, s: RuntimeData) {
    && (forall c <- s.configs :: ConfigMade(k, s.configs[c]))
    && (s.pending.Some? ==>
          && Utf8Length(s.pending.value.streamed) <= MAX_INPUT_BYTES
          && (s.pending.value.open.Some? ==> Timely(k, s.pending.value.open.value.startedAt)))
  }

  // ---------- accepted events are within bounds ----------

  lemma DistinctFew(ids: seq<nat>, pool: seq<Window>)
    requires DistinctNames(ids) && AllNamed(pool, ids)
    ensures |ids| <= |pool|
  {
    var named := set i | 0 <= i < |ids| :: ids[i];
    var known := set i | 0 <= i < |pool| :: pool[i].id;
    forall x <- named
      ensures x in known
    {
      var i :| 0 <= i < |ids| && ids[i] == x;
      assert WindowNamed(pool, ids[i]);
    }
    DistinctCount(ids);
    PoolCount(pool);
    SubsetSize(named, known);
  }

  lemma {:induction false} DistinctCount(ids: seq<nat>)
    requires DistinctNames(ids)
    ensures |set i | 0 <= i < |ids| :: ids[i]| == |ids|
    decreases |ids|
  {
    var named := set i | 0 <= i < |ids| :: ids[i];
    if |ids| == 0 {
      assert named == {};
    } else {
      var init := ids[..|ids| - 1];
      DistinctCount(init);
      assert named == (set i | 0 <= i < |init| :: init[i]) + {ids[|ids| - 1]};
    }
  }

  lemma {:induction false} PoolCount(pool: seq<Window>)
    ensures |set i | 0 <= i < |pool| :: pool[i].id| <= |pool|
    decreases |pool|
  {
    var known := set i | 0 <= i < |pool| :: pool[i].id;
    if |pool| == 0 {
      assert known == {};
    } else {
      var init := pool[..|pool| - 1];
      PoolCount(init);
      assert known == (set i | 0 <= i < |init| :: init[i].id) + {pool[|pool| - 1].id};
    }
  }

  /** A known cost names a schedule of the book it was computed from. */
  lemma KnownFromBook(config: Config, a: UsageModel.Attempt)
    requires ExpectedCost(config, a).Known?
    ensures ExpectedCost(config, a).schedule in config.book
  {
    hide Pricing.Priced, Pricing.Applies, Pricing.MatchesBase, Pricing.MatchesTier;
    var usage := a.usage.value;
    var attempt := Pricing.Attempt(a.profile, a.requestedModel, a.dialect, if a.startedAt.Some? then a.startedAt.value else 0);
    Pricing.FirstApplies(config.book, attempt, usage.tier, usage.input.value);
    var found := Pricing.FirstInContext(config.book, attempt, usage.tier, usage.input.value).value;
    EstimateNames(found, usage);
  }

  lemma EstimateNames(s: Pricing.Schedule, usage: Pricing.Usage)
    ensures Pricing.Estimate(s, usage).Known? ==> Pricing.Estimate(s, usage).schedule == s
  {
    hide Pricing.CheckedTotal;
  }

  lemma FinishedBounded(k: Codebook, s: RuntimeData, e: Event)
    requires Bounded(k, s) && e.AttemptFinished? && WellMade(k, e) && ApplyAttemptFinished(s, e).Ok?
    ensures InBounds(k, e) && Bounded(k, ApplyAttemptFinished(s, e).value)
  {
    hide UsageOk, NameFits, AttemptOf;
    var config := s.configs[s.pending.value.config];
    DistinctFew(e.windows, config.windows);
    forall w <- e.windows
      ensures WindowOk(k)(w)
    {
      var i :| 0 <= i < |e.windows| && e.windows[i] == w;
      assert WindowNamed(config.windows, e.windows[i]);
    }
  }

  lemma CostedBounded(k: Codebook, s: RuntimeData, e: Event)
    requires Bounded(k, s) && e.AttemptCosted? && Apply(s, e).Ok?
    ensures InBounds(k, e) && Bounded(k, Apply(s, e).value)
  {
    hide NameFits, ExpectedCost, Recorded;
    var config := s.configs[s.pending.value.config];
    var i := IndexOf(s.usage, e.turn, e.attempt);
    if ExpectedCost(config, s.usage[i]).Known? {
      KnownFromBook(config, s.usage[i]);
    }
  }

  lemma AdmittedBounded(k: Codebook, s: RuntimeData, e: Event)
    requires Bounded(k, s) && e.TurnAdmitted? && WellMade(k, e) && ApplyAdmission(s, e).Ok?
    ensures InBounds(k, e) && Bounded(k, ApplyAdmission(s, e).value)
  {
    hide PresetValid, ConfigMade, SelectionMatches, ItemExists, Blank, ObserveId;
    assert Utf8Length("") == 0;
    forall f <- e.fallbacks
      ensures FallbackOk(k)(f)
    {
      var i :| 0 <= i < |e.fallbacks| && e.fallbacks[i] == f;
      assert e.fallbacks[i].presetValid;
      PresetShort(k.text(f.preset));
    }
  }

  /** Deltas accumulate under the input limit, and what is prepared is what was streamed. */
  lemma StreamBounded(k: Codebook, s: RuntimeData, e: Event)
    requires Bounded(k, s) && (e.TextDelta? || e.OutputPrepared? || e.TurnBlocked?) && WellMade(k, e) && Apply(s, e).Ok?
    ensures InBounds(k, e) && Bounded(k, Apply(s, e).value)
  {
    hide ConfigMade, UsageOk, ObserveId, Blank, HasControl, ItemText;
    if e.TextDelta? {
      Utf8Adds(s.pending.value.streamed, e.delta);
    }
  }

  lemma FrozenBounded(k: Codebook, s: RuntimeData, e: Event)
    requires Bounded(k, s) && (e.ConfigFrozen? || e.ProviderFrozen? || e.CheckpointPublished? || e.SelectionStaged? || e.ThreadCreated?)
    requires WellMade(k, e) && Apply(s, e).Ok?
    ensures InBounds(k, e) && Bounded(k, Apply(s, e).value)
  {
    hide NameFits, ObserveId, Context.ValidateAgainst, CheckpointStored, SelectionValid;
  }

  lemma PhaseBounded(k: Codebook, s: RuntimeData, e: Event)
    requires Bounded(k, s) && WellMade(k, e) && Apply(s, e).Ok?
    requires e.AssistantStarted? || e.OutputAcknowledged? || e.TurnCompleted? || e.TurnCancelled? || e.RetryRequested?
             || e.FallbackRequested? || e.AttemptStarted?
    ensures InBounds(k, e) && Bounded(k, Apply(s, e).value)
  {
    hide ConfigMade, ObserveId, ItemExists, CleanlyBlocked;
  }

  /** An event the kernel accepts is within the decoder's bounds. */
  lemma AcceptedInBounds(k: Codebook, s: RuntimeData, e: Event)
    requires Bounded(k, s) && WellMade(k, e) && Apply(s, e).Ok?
    ensures InBounds(k, e) && Bounded(k, Apply(s, e).value)
  {
    if e.AttemptFinished? {
      FinishedBounded(k, s, e);
    } else if e.AttemptCosted? {
      CostedBounded(k, s, e);
    } else if e.TurnAdmitted? {
      AdmittedBounded(k, s, e);
    } else if e.TextDelta? || e.OutputPrepared? || e.TurnBlocked? {
      StreamBounded(k, s, e);
    } else if e.ConfigFrozen? || e.ProviderFrozen? || e.CheckpointPublished? || e.SelectionStaged? || e.ThreadCreated? {
      FrozenBounded(k, s, e);
    } else {
      PhaseBounded(k, s, e);
    }
  }

  lemma {:induction false} AllAcceptedInBounds(k: Codebook, s: RuntimeData, events: seq<Event>)
    requires Bounded(k, s) && AllWellMade(k, events) && ApplyAll(s, events).Ok?
    ensures AllInBounds(k, events) && Bounded(k, ApplyAll(s, events).value)
    decreases |events|
  {
    hide Bounded, WellMade, InBounds, Apply;
    if |events| > 0 {
      AcceptedInBounds(k, s, events[0]);
      AllAcceptedInBounds(k, Apply(s, events[0]).value, events[1..]);
      assert events == [events[0]] + events[1..];
    }
  }

  // ---------- checkpoints and payloads that can be stored ----------

  /** Every reduction of items whose digests are their texts' can be stored and read back. */
  lemma ReductionStorable(k: Codebook, head: Context.Head, items: seq<Item>, policy: Context.Policy)
    requires Context.ValidPolicy(policy) && WholeHead(head)
    requires forall i :: 0 <= i < |items| ==> items[i].text.digest == k.digest(items[i].text.content)
    requires forall s :: k.digest(s) < Bytes.Pow256(32)
    ensures var r := Context.ReducedFromItems(head, items, policy); r.Ok? ==> CheckpointStored(k, r.value)
  {
    hide Context.RecentStart, Context.FromStored, Context.Bytes, Context.Tokens, Context.Increasing, Bytes.Pow256, Utf8Length, Blank;
    var r := Context.ReducedFromItems(head, items, policy);
    Context.ReductionAccepted(head, items, policy);
    if r.Ok? {
      var views := Context.ProjectAll(items);
      var start := Context.RecentStart(views, policy);
      Context.RecentStartIsLongest(views, policy);
      forall i | 0 <= i < start
        ensures ArtifactValid(r.value.artifacts[i])
      {
        assert r.value.artifacts[i] == Context.Refer(Context.Project(items[i]));
      }
      forall v <- r.value.recent
        ensures RecentOk(k)(v)
      {
        var i :| 0 <= i < |r.value.recent| && r.value.recent[i] == v;
        assert v == Context.Project(items[start + i]);
        BytesPart(r.value.recent, i);
      }
    }
  }

  lemma {:induction false} BytesPart(views: seq<Context.ViewItem>, i: nat)
    requires i < |views|
    ensures views[i].text.bytes <= Context.Bytes(views)
    decreases |views|
  {
    if i < |views| - 1 {
      BytesPart(views[..|views| - 1], i);
    }
  }

  // ---------- planned events are well made ----------

  ghost predicate CandidateMade(k: Codebook, c: Candidate) {
    ConfigMade(k, c.config) && ProviderMade(k, c.provider) && c.presetValid == PresetValid(k.text(c.selection.preset))
  }

  /** What the caller's values already guarantee when an operation begins. */
  ghost predicate StepMade(k: Codebook, step: Step) {
    match step
    case Admit(a) =>
      && a.digest == k.digest(a.input) && ConfigMade(k, a.config) && ProviderMade(k, a.provider)
      && forall c <- a.fallbacks :: CandidateMade(k, c)
    case Begin(_, now, _) => Timely(k, now)
    case Finish(_, _, now, _, usage, _) => Timely(k, now) && (usage.Some? ==> UsageOk(k)(usage.value))
    case FinishAndBlock(_, _, now, _, usage, _, _, _) => Timely(k, now) && (usage.Some? ==> UsageOk(k)(usage.value))
    case Prepare(_, _, now, deltas, digest, records, current, _) =>
      Timely(k, now) && digest == k.digest(Joined(deltas)) && UsageOk(k)(current) && forall u <- records :: UsageOk(k)(u)
    case PublishCheckpoint(draft) => CheckpointStored(k, draft)
    case StageSelection(_, selection) => SelectionValid(k, selection)
    case _ => true
  }

  lemma AllJoin(k: Codebook, first: seq<Event>, second: seq<Event>)
    requires AllWellMade(k, first) && AllWellMade(k, second)
    ensures AllWellMade(k, first + second)
  {
    hide WellMade;
  }

  lemma {:induction false} SnapshotsMade(k: Codebook, s: RuntimeData, a: Admission, i: nat)
    requires i <= |a.fallbacks| + 1 && s.nextConfig + |a.fallbacks| <= U64_MAX && s.nextProvider + |a.fallbacks| <= U64_MAX
    requires ConfigMade(k, a.config) && ProviderMade(k, a.provider) && forall c <- a.fallbacks :: CandidateMade(k, c)
    ensures AllWellMade(k, SnapshotEvents(s, a, i))
    decreases |a.fallbacks| + 1 - i
  {
    hide ConfigMade, ProviderMade;
    if i <= |a.fallbacks| {
      SnapshotsMade(k, s, a, i + 1);
      if i > 0 {
        assert CandidateMade(k, a.fallbacks[i - 1]);
      }
      var config := if i == 0 then a.config else a.fallbacks[i - 1].config;
      var provider := if i == 0 then a.provider else a.fallbacks[i - 1].provider;
      AllJoin(k, [ConfigFrozen(s.nextConfig + i, config), ProviderFrozen(s.nextProvider + i, provider)], SnapshotEvents(s, a, i + 1));
    }
  }

  lemma AdmissionMade(k: Codebook, s: RuntimeData, a: Admission)
    requires s.nextConfig + |a.fallbacks| <= U64_MAX && s.nextProvider + |a.fallbacks| <= U64_MAX
    requires StepMade(k, Admit(a))
    ensures AllWellMade(k, AdmissionEvents(s, a))
  {
    hide ConfigMade, ProviderMade, PresetValid, SnapshotEvents;
    SnapshotsMade(k, s, a, 0);
    var thread := if s.thread.None? then [ThreadCreated(s.nextThread)] else [];
    var admitting := Admitting(s, a);
    forall f <- admitting.fallbacks
      ensures f.presetValid == PresetValid(k.text(f.preset))
    {
      var i :| 0 <= i < |a.fallbacks| && f == FallbackAt(s, a, i);
      assert CandidateMade(k, a.fallbacks[i]);
    }
    AllJoin(k, thread, SnapshotEvents(s, a, 0));
    AllJoin(k, thread + SnapshotEvents(s, a, 0), [admitting]);
  }

  lemma FinishMade(k: Codebook, s: RuntimeData, turn: Id, attempt: U32, now: int, outcome: Outcome, usage: Option<UsageRecord>, inside: set<int>)
    requires Bounded(k, s) && Timely(k, now) && (usage.Some? ==> UsageOk(k)(usage.value))
    requires FinishEvents(s, turn, attempt, now, outcome, usage, inside).Ok?
    ensures AllWellMade(k, FinishEvents(s, turn, attempt, now, outcome, usage, inside).value)
  {
    hide ConfigMade, UsageOk, WindowsInside, ExpectedCost, AttemptOf;
  }

  lemma BlockMade(k: Codebook, s: RuntimeData, turn: Id, attempt: U32, now: int, outcome: Outcome, usage: Option<UsageRecord>, inside: set<int>,
                  reason: string, stage: Option<Stage>)
    requires Bounded(k, s) && Timely(k, now) && (usage.Some? ==> UsageOk(k)(usage.value))
    requires PlanFinishAndBlock(s, turn, attempt, now, outcome, usage, inside, reason, stage).Ok?
    ensures AllWellMade(k, PlanFinishAndBlock(s, turn, attempt, now, outcome, usage, inside, reason, stage).value)
  {
    hide FinishEvents, BoundedReason, Bounded, UsageOk, Timely;
    FinishMade(k, s, turn, attempt, now, outcome, usage, inside);
    AllJoin(k, FinishEvents(s, turn, attempt, now, outcome, usage, inside).value, [TurnBlocked(turn, BoundedReason(reason), FromProvider, stage)]);
  }

  lemma PrepareMade(k: Codebook, s: RuntimeData, step: Step)
    requires step.Prepare? && Bounded(k, s) && StepMade(k, step)
    requires PlanPrepare(s, step.turn, step.attempt, step.now, step.deltas, step.digest, step.usageRecords, step.current, step.inside).Ok?
    ensures AllWellMade(k, PlanPrepare(s, step.turn, step.attempt, step.now, step.deltas, step.digest, step.usageRecords, step.current, step.inside).value)
  {
    hide PlanFinishAndBlock, FinishEvents, Bounded, UsageOk, Timely, Joined, Blank, Utf8Length;
    var turn, attempt, now, inside, current := step.turn, step.attempt, step.now, step.inside, Some(step.current);
    var plan := PlanPrepare(s, turn, attempt, now, step.deltas, step.digest, step.usageRecords, step.current, inside);
    if |step.usageRecords| == 0 || |step.usageRecords| > MAX_USAGE_RECORDS_PER_TURN {
      BlockMade(k, s, turn, attempt, now, UsageModel.Succeeded, current, inside, "Provider usage record count is invalid", None);
    } else if Utf8Length(Joined(step.deltas)) > s.configs[s.pending.value.config].maxOutputBytes {
      BlockMade(k, s, turn, attempt, now, UsageModel.Succeeded, current, inside, "Provider output exceeds the frozen Config Epoch limit", None);
    } else if Blank(Joined(step.deltas)) {
      BlockMade(k, s, turn, attempt, now, UsageModel.Succeeded, current, inside, "Provider output cannot be empty", None);
    } else {
      FinishMade(k, s, turn, attempt, now, UsageModel.Succeeded, current, inside);
      var finish := FinishEvents(s, turn, attempt, now, UsageModel.Succeeded, current, inside).value;
      var deltas := DeltaEvents(turn, s.nextItem, step.deltas);
      var prepared := OutputPrepared(turn, s.nextItem, s.nextDelivery, Joined(step.deltas), step.digest, step.usageRecords);
      AllJoin(k, finish, [AssistantStarted(turn, s.nextItem)]);
      AllJoin(k, finish + [AssistantStarted(turn, s.nextItem)], deltas);
      AllJoin(k, finish + [AssistantStarted(turn, s.nextItem)] + deltas, [prepared]);
    }
  }

  lemma PlansWellMade(k: Codebook, s: RuntimeData, head: Context.Head, step: Step)
    requires Bounded(k, s) && StepMade(k, step) && PlanStep(s, head, step).Ok?
    ensures AllWellMade(k, PlanStep(s, head, step).value)
  {
    match step
    case Admit(admission) =>
      hide StepMade, WellMade, AdmissionEvents, InputValid, SelectionFits, SelectionMatches, ContextFor, Bounded;
      AdmissionMade(k, s, admission);
    case Begin(turn, now, inside) =>
      hide FinishEvents, Bounded, Timely;
      if s.pending.value.open.Some? {
        FinishMade(k, s, turn, s.pending.value.open.value.attempt, now, UsageModel.Interrupted, None, inside);
        AllJoin(k, FinishEvents(s, turn, s.pending.value.open.value.attempt, now, UsageModel.Interrupted, None, inside).value,
                [AttemptStarted(turn, s.pending.value.nextAttempt, now)]);
      }
    case Finish(turn, attempt, now, outcome, usage, inside) =>
      hide FinishEvents, Bounded, Timely, UsageOk, WellMade;
      FinishMade(k, s, turn, attempt, now, outcome, usage, inside);
    case FinishAndBlock(turn, attempt, now, outcome, usage, inside, reason, stage) =>
      hide PlanFinishAndBlock, Bounded, Timely, UsageOk, WellMade;
      BlockMade(k, s, turn, attempt, now, outcome, usage, inside, reason, stage);
    case Prepare(_, _, _, _, _, _, _, _) =>
      hide PlanPrepare, Bounded, StepMade, WellMade;
      PrepareMade(k, s, step);
    case _ =>
      hide Bounded, CheckpointStored, SelectionValid, BoundedReason, RequireExecutable;
  }

  // ---------- runs ----------

  ghost predicate MoveMade(k: Codebook, move: Move) {
    move.Act? ==> StepMade(k, move.step)
  }

  ghost predicate StorableWorld(k: Codebook, w: World) {
    && (forall txn <- w.txns :: AllWellMade(k, txn) && AllInBounds(k, txn))
    && (w.memory.Some? ==> Bounded(k, w.memory.value.state))
  }

  lemma {:induction false} ReplayBounded(k: Codebook, txns: seq<Transaction>)
    requires HeadFits(txns) && Replay(txns).Ok? && forall txn <- txns :: AllWellMade(k, txn)
    ensures Bounded(k, Replay(txns).value)
    decreases |txns|
  {
    hide Bounded, AllWellMade, ApplyAll, Quiescent, CheckpointBound;
    if |txns| == 0 {
      assert Bounded(k, EMPTY) by {
        EmptyBounded(k);
      }
    } else {
      HeadFitsBefore(txns);
      ReplayBounded(k, txns[..|txns| - 1]);
      AllAcceptedInBounds(k, Replay(txns[..|txns| - 1]).value, txns[|txns| - 1]);
    }
  }

  lemma EmptyBounded(k: Codebook)
    ensures Bounded(k, EMPTY)
  {
  }

  lemma MoveStorable(k: Codebook, w: World, move: Move)
    requires StorableWorld(k, w) && MoveMade(k, move)
    ensures StorableWorld(k, Perform(w, move))
  {
    hide Bounded, AllWellMade, AllInBounds, ApplyAll, Quiescent, PlanStep, StepMade, Replay, HeadFits;
    match move
    case Act(step, write) =>
      if w.memory.Some? && HeadFits(w.txns) {
        var m := w.memory.value;
        var plan := PlanStep(m.state, LedgerHead(w.txns), step);
        if plan.Ok? && ApplyAll(m.state, plan.value).Ok? {
          PlansWellMade(k, m.state, LedgerHead(w.txns), step);
          AllAcceptedInBounds(k, m.state, plan.value);
        }
      }
    case Crash(kept) =>
    case Open =>
      if w.memory.None? && HeadFits(w.txns) && Replay(w.txns).Ok? {
        ReplayBounded(k, w.txns);
      }
  }

  lemma NewWorldStorable(k: Codebook)
    ensures StorableWorld(k, NEW_WORLD)
  {
  }

  lemma {:induction false} RunStorable(k: Codebook, moves: seq<Move>)
    requires forall move <- moves :: MoveMade(k, move)
    ensures StorableWorld(k, Run(NEW_WORLD, moves))
    decreases |moves|
  {
    hide StorableWorld, Perform, MoveMade;
    if |moves| == 0 {
      NewWorldStorable(k);
    } else {
      RunStorable(k, moves[..|moves| - 1]);
      MoveStorable(k, Run(NEW_WORLD, moves[..|moves| - 1]), moves[|moves| - 1]);
    }
  }

  /** A restart from bytes: every log a run leaves encodes, decodes to itself, and so replays to what an unpoisoned
      kernel still remembers. */
  lemma RestartFromBytes(k: Codebook, moves: seq<Move>)
    requires Faithful(k) && forall move <- moves :: MoveMade(k, move)
    ensures var w := Run(NEW_WORLD, moves);
            var frames := EncodeLog(k, w.txns);
            && HeadFits(w.txns) && frames.Ok? && DecodeLog(k, frames.value) == Ok(w.txns)
            && Replay(DecodeLog(k, frames.value).value).Ok?
            && (w.memory.Some? && !w.memory.value.poisoned ==> Replay(DecodeLog(k, frames.value).value).value == w.memory.value.state)
  {
    hide Run, Replay, HeadFits, Faithful, MoveMade, EncodeLog, DecodeLog, AllWellMade, AllInBounds, Bounded;
    RunStorable(k, moves);
    ReplayIsLive(moves);
    LogRoundTrip(k, Run(NEW_WORLD, moves).txns);
  }
}
