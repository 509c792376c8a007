/**
 Tool calls over whole runs: requests, approvals, executions, crashes at every
 boundary, reopens. An effect runs at most once, only after its grant is durable.
 */
module ToolRuns {
  import opened Prelude
  import opened Journal
  import opened ToolModel

  datatype Memory = Memory(state: ToolData, poisoned: bool)

  /** One run of the executor, with the identity and hash it was given. */
  datatype Effect = Effect(call: CallId, identity: Text, argumentsHash: nat)

  /** The transactions in the ledger, how many are sure to survive a power loss, the running process
      if there is one, and every executor run so far. */
  datatype World = World(txns: seq<Transaction>, synced: nat, memory: Option<Memory>, effects: seq<Effect>)

  const NEW_WORLD := World([], 0, None, [])

  datatype Written<T> = Outcome(world: World, result: Result<T, ToolError>)

  /** Plan on a copy, append, then publish the copy. */
  function Append(w: World, m: Memory, txn: Transaction, write: WriteOutcome): Written<ToolData> {
    match ApplyTransaction(m.state, txn)
    case Err(error) => Outcome(w, Err(error))
    case Ok(candidate) =>
      if m.poisoned then Outcome(w, Err(WriterPoisoned))
      else
        match write
        case Refused => Outcome(w, Err(AppendRefused))
        case Torn(present) =>
          Outcome(w.(txns := if present then w.txns + [txn] else w.txns, memory := Some(m.(poisoned := true))), Err(DurabilityAmbiguous))
        case Written =>
          Outcome(w.(txns := w.txns + [txn], synced := |w.txns| + 1, memory := Some(Memory(candidate, false))), Ok(candidate))
  }

  function Request(w: World, m: Memory, principal: Principal, intent: Intent, write: WriteOutcome): Written<RequestOutcome> {
    match PlanRequest(m.state, principal, intent)
    case Err(error) => Outcome(w, Err(error))
    case Ok(Answer(outcome)) => Outcome(w, Ok(outcome))
    case Ok(Write(txn, outcome)) =>
      var appended := Append(w, m, txn, write);
      Outcome(appended.world, if appended.result.Ok? then Ok(outcome) else Err(appended.result.error))
  }

  /** Where the process may die while it resolves a grant. */
  datatype Boundary = Survives | DiesBeforeExecution | DiesBeforeOutcome

  datatype CallOutcome = SucceededWith(record: Record) | FailedWith(record: Record) | DeniedWith(record: Record) | Unsettled(record: Record)

  function Report(s: ToolData, call: CallId): Result<CallOutcome, ToolError> {
    var record :- Find(s, call);
    Ok(match record.status
       case Succeeded => SucceededWith(record)
       case Failed => FailedWith(record)
       case Denied => DeniedWith(record)
       case _ => Unsettled(record))
  }

  function Resolve(w: World, m: Memory, principal: Principal, request: ApprovalRequest, decision: Decision, now: U64,
                   prepare: WriteOutcome, boundary: Boundary, execution: Execution, settle: WriteOutcome): Written<CallOutcome> {
    match PlanResolve(m.state, principal, request, decision, now)
    case Err(error) => Outcome(w, Err(error))
    case Ok(txn) =>
      var prepared := Append(w, m, txn, prepare);
      match prepared.result
      case Err(error) => Outcome(prepared.world, Err(error))
      case Ok(s) =>
        if decision.Deny? then Outcome(prepared.world, Report(s, request.call))
        else if boundary.DiesBeforeExecution? then Outcome(prepared.world.(memory := None), Err(DurabilityAmbiguous))
        else if request.call !in s.calls then Outcome(prepared.world, Err(UnknownCall(request.call)))
        else
          var effect := Effect(request.call, s.calls[request.call].identity, request.intent.arguments.digest);
          var ran := prepared.world.(effects := w.effects + [effect]);
          if boundary.DiesBeforeOutcome? then Outcome(ran.(memory := None), Err(DurabilityAmbiguous))
          else
            var settled := Append(ran, Memory(s, false), [OutcomeOf(request.call, execution)], settle);
            Outcome(settled.world, if settled.result.Ok? then Report(settled.result.value, request.call) else Err(settled.result.error))
  }

  function Reconcile(w: World, m: Memory, principal: Principal, call: CallId, observation: Observation, write: WriteOutcome): Written<Record> {
    match PlanReconcile(m.state, principal, call, observation)
    case Err(error) => Outcome(w, Err(error))
    case Ok(Known(record)) => Outcome(w, Ok(record))
    case Ok(Settle(txn)) =>
      var appended := Append(w, m, txn, write);
      Outcome(appended.world, if appended.result.Ok? then Find(appended.result.value, call) else Err(appended.result.error))
  }

  datatype Step =
    | DoRequest(principal: Principal, intent: Intent, write: WriteOutcome)
    | DoResolve(principal: Principal, request: ApprovalRequest, decision: Decision, now: U64,
                prepare: WriteOutcome, boundary: Boundary, execution: Execution, settle: WriteOutcome)
    | DoReconcile(principal: Principal, call: CallId, observation: Observation, write: WriteOutcome)
    | Crash(kept: nat)
    | DoOpen

  /** Nothing is asked of a closed runtime; opening replays the ledger. */
  function Perform(w: World, step: Step): World {
    match step
    case DoRequest(principal, intent, write) =>
      if w.memory.Some? then Request(w, w.memory.value, principal, intent, write).world else w
    case DoResolve(principal, request, decision, now, prepare, boundary, execution, settle) =>
      if w.memory.Some? then Resolve(w, w.memory.value, principal, request, decision, now, prepare, boundary, execution, settle).world else w
    case DoReconcile(principal, call, observation, write) =>
      if w.memory.Some? then Reconcile(w, w.memory.value, principal, call, observation, write).world else w
    case Crash(kept) => w.(txns := w.txns[..Surviving(|w.txns|, w.synced, kept)], memory := None)
    case DoOpen =>
      if w.memory.None? && Replay(w.txns).Ok? then w.(memory := Some(Memory(Replay(w.txns).value, false))) else w
  }

  function Run(w: World, steps: seq<Step>): World
    decreases |steps|
  {
    if |steps| == 0 then w else Perform(Run(w, steps[..|steps| - 1]), steps[|steps| - 1])
  }

  // ---------- what every event keeps ----------

  /** Identities and calls name each other, calls are numbered from one, and no effect was prepared without a grant. */
  ghost predicate WellKept(s: ToolData) {
    && s.nextCall >= 1
    && (forall i <- s.identities :: s.identities[i] in s.calls && s.calls[s.identities[i]].identity == i)
    && (forall c <- s.calls :: 1 <= c < s.nextCall && RecordKept(s, c))
  }

  ghost predicate RecordKept(s: ToolData, c: CallId)
    requires c in s.calls
  {
    var record := s.calls[c];
    && record.call == c && record.identity in s.identities && s.identities[record.identity] == c
    && (record.status.ReconciliationRequired? || record.status.Succeeded? || record.status.Failed? ==> record.expires.Some?)
    && (record.status.Succeeded? <==> record.digest.Some?)
  }

  /** What may happen to a call: its identity, owner, hash and resources never change, a prepared call is
      never approved or denied again, and a final record never changes at all. */
  predicate Follows(a: Record, b: Record) {
    && a.call == b.call && a.identity == b.identity && a.agent == b.agent && a.tool == b.tool
    && a.argumentsHash == b.argumentsHash && a.binding == b.binding
    && (a.status.Final() ==> b == a)
    && (a.status.ReconciliationRequired? ==> !b.status.AwaitingApproval? && !b.status.Denied?)
  }

  ghost predicate Evolves(s: ToolData, t: ToolData) {
    forall c <- s.calls :: c in t.calls && Follows(s.calls[c], t.calls[c])
  }

  lemma EvolvesChain(a: ToolData, b: ToolData, c: ToolData)
    requires Evolves(a, b) && Evolves(b, c)
    ensures Evolves(a, c)
  {
    forall k <- a.calls
      ensures k in c.calls && Follows(a.calls[k], c.calls[k])
    {
      assert k in b.calls && Follows(a.calls[k], b.calls[k]) && Follows(b.calls[k], c.calls[k]);
    }
  }

  lemma RequestKeeps(s: ToolData, event: ToolEvent)
    requires WellKept(s) && event.CallRequested? && Apply(s, event).Ok?
    ensures WellKept(Apply(s, event).value) && Evolves(s, Apply(s, event).value)
  {
    hide ValidateText, ValidateBinding;
    var t := Apply(s, event).value;
    forall c <- t.calls
      ensures 1 <= c < t.nextCall && RecordKept(t, c)
    {
      if c != event.call {
        assert RecordKept(s, c);
      }
    }
  }

  /** Every other event replaces one record by one that may follow it, under the same identity. */
  lemma ChangesOne(s: ToolData, event: ToolEvent)
    requires WellKept(s) && !event.CallRequested? && Apply(s, event).Ok?
    ensures var t := Apply(s, event).value;
            && event.call in s.calls && event.call in t.calls && t == s.(calls := s.calls[event.call := t.calls[event.call]])
            && Follows(s.calls[event.call], t.calls[event.call]) && RecordKept(t, event.call)
  {
    hide ValidateReason;
    assert RecordKept(s, event.call);
  }

  lemma ApplyKeeps(s: ToolData, event: ToolEvent)
    requires WellKept(s) && Apply(s, event).Ok?
    ensures WellKept(Apply(s, event).value) && Evolves(s, Apply(s, event).value)
  {
    if event.CallRequested? {
      RequestKeeps(s, event);
    } else {
      ChangesOne(s, event);
      var t := Apply(s, event).value;
      hide Apply;
      forall c <- t.calls
        ensures 1 <= c < t.nextCall && RecordKept(t, c)
      {
        assert 1 <= c < s.nextCall && RecordKept(s, c);
        assert t.nextCall == s.nextCall && t.identities == s.identities;
        if c != event.call {
          assert t.calls[c] == s.calls[c];
          assert RecordKept(t, c);
        } else {
          assert RecordKept(t, event.call);
        }
      }
    }
  }

  lemma {:induction false} ApplyAllKeeps(s: ToolData, events: seq<ToolEvent>)
    requires WellKept(s) && ApplyAll(s, events).Ok?
    ensures WellKept(ApplyAll(s, events).value) && Evolves(s, ApplyAll(s, events).value)
    decreases |events|
  {
    hide Apply, WellKept;
    if events != [] {
      ApplyKeeps(s, events[0]);
      var next := Apply(s, events[0]).value;
      ApplyAllKeeps(next, events[1..]);
      EvolvesChain(s, next, ApplyAll(s, events).value);
    }
  }

  lemma {:induction false} ReplayKeeps(txns: seq<Transaction>)
    requires Replay(txns).Ok?
    ensures WellKept(Replay(txns).value)
    decreases |txns|
  {
    hide WellKept, ApplyAll;
    if |txns| == 0 {
      NoCallsKept();
    } else {
      ReplayKeeps(txns[..|txns| - 1]);
      ApplyAllKeeps(Replay(txns[..|txns| - 1]).value, txns[|txns| - 1]);
    }
  }

  lemma NoCallsKept()
    ensures WellKept(NO_CALLS)
  {
  }

  lemma ReplayMore(txns: seq<Transaction>, txn: Transaction)
    ensures Replay(txns).Ok? ==> Replay(txns + [txn]) == ApplyTransaction(Replay(txns).value, txn)
  {
    assert (txns + [txn])[..|txns|] == txns;
  }

  /** Whatever replays after some transactions still has every earlier call, further along. */
  lemma {:induction false} ReplayEvolves(txns: seq<Transaction>, k: nat)
    requires Replay(txns).Ok? && k <= |txns|
    ensures Replay(txns[..k]).Ok? && Evolves(Replay(txns[..k]).value, Replay(txns).value)
    decreases |txns|
  {
    hide ApplyAll, WellKept;
    if k == |txns| {
      assert txns[..k] == txns;
    } else {
      var before := txns[..|txns| - 1];
      ReplayEvolves(before, k);
      assert before[..k] == txns[..k];
      ReplayKeeps(before);
      ApplyAllKeeps(Replay(before).value, txns[|txns| - 1]);
      EvolvesChain(Replay(txns[..k]).value, Replay(before).value, Replay(txns).value);
    }
  }

  // ---------- the invariant of every run ----------

  /** The executor ran for a call whose grant and prepared effect are in `s`. */
  ghost predicate Authorised(s: ToolData, effect: Effect) {
    effect.call in s.calls
    && var record := s.calls[effect.call];
    && record.identity == effect.identity && record.argumentsHash == effect.argumentsHash && record.expires.Some?
    && (record.status.ReconciliationRequired? || record.status.Succeeded? || record.status.Failed?)
  }

  ghost predicate Once(effects: seq<Effect>) {
    forall i, j :: 0 <= i < j < |effects| ==> effects[i].call != effects[j].call && effects[i].identity != effects[j].identity
  }

  ghost predicate Safe(w: World) {
    && w.synced <= |w.txns| && Replay(w.txns).Ok? && Replay(w.txns[..w.synced]).Ok?
    && (w.memory.Some? && !w.memory.value.poisoned ==> Replay(w.txns) == Ok(w.memory.value.state))
    && (forall i :: 0 <= i < |w.effects| ==> Authorised(Replay(w.txns[..w.synced]).value, w.effects[i]))
    && Once(w.effects)
  }

  lemma AuthorisedLater(s: ToolData, t: ToolData, effect: Effect)
    requires Authorised(s, effect) && Evolves(s, t) && WellKept(t)
    ensures Authorised(t, effect)
  {
    assert Follows(s.calls[effect.call], t.calls[effect.call]) && RecordKept(t, effect.call);
  }

  /** All runs of the executor so far stay authorised when the synced part grows. */
  lemma EffectsLater(w: World, txns: seq<Transaction>)
    requires Safe(w) && Replay(txns).Ok? && w.txns[..w.synced] <= txns
    ensures forall i :: 0 <= i < |w.effects| ==> Authorised(Replay(txns).value, w.effects[i])
  {
    hide Authorised, Evolves, WellKept, Replay, Once;
    ReplayEvolves(txns, w.synced);
    assert txns[..w.synced] == w.txns[..w.synced];
    ReplayKeeps(txns);
    forall i | 0 <= i < |w.effects|
      ensures Authorised(Replay(txns).value, w.effects[i])
    {
      AuthorisedLater(Replay(w.txns[..w.synced]).value, Replay(txns).value, w.effects[i]);
    }
  }

  lemma AppendSafe(w: World, m: Memory, txn: Transaction, write: WriteOutcome)
    requires Safe(w) && w.memory == Some(m)
    ensures Safe(Append(w, m, txn, write).world)
    ensures Append(w, m, txn, write).result.Ok? ==>
              var after := Append(w, m, txn, write);
              && !m.poisoned && after.world.synced == |after.world.txns| && after.world.memory == Some(Memory(after.result.value, false))
              && ApplyTransaction(m.state, txn) == Ok(after.result.value) && after.world.effects == w.effects
              && Replay(after.world.txns) == Ok(after.result.value) && after.world.txns == w.txns + [txn]
  {
    hide ApplyTransaction, Authorised, Once, Replay;
    ReplayMore(w.txns, txn);
    var after := Append(w, m, txn, write).world;
    var more := w.txns + [txn];
    assert more[..w.synced] == w.txns[..w.synced];
    if after.synced != w.synced {
      assert after.txns == more && more[..|more|] == more;
      EffectsLater(w, more);
    }
  }

  /** A granted plan is for a call still awaiting approval; its transaction prepares exactly that call. */
  lemma GrantPrepares(s: ToolData, principal: Principal, request: ApprovalRequest, expires: U64, now: U64)
    requires PlanResolve(s, principal, request, Grant(expires), now).Ok?
    ensures request.call in s.calls && s.calls[request.call].status.AwaitingApproval?
    ensures var txn := PlanResolve(s, principal, request, Grant(expires), now).value;
            ApplyTransaction(s, txn)
            == Ok(s.(calls := s.calls[request.call := s.calls[request.call].(expires := Some(expires), status := ReconciliationRequired, reason := Some(NoDurableOutcome))]))
    ensures s.calls[request.call].argumentsHash == request.argumentsHash == request.intent.arguments.digest
  {
    hide ValidateIntent, ValidateAuthority;
    var txn := PlanResolve(s, principal, request, Grant(expires), now).value;
    var record := s.calls[request.call];
    var granted := s.(calls := s.calls[request.call := record.(expires := Some(expires))]);
    assert Apply(s, txn[0]) == Ok(granted);
    var prepared := s.(calls := s.calls[request.call := record.(expires := Some(expires), status := ReconciliationRequired, reason := Some(NoDurableOutcome))]);
    assert Apply(granted, txn[1]) == Ok(prepared) by {
      assert granted.calls[request.call := prepared.calls[request.call]] == prepared.calls;
    }
    assert txn[1..][0] == txn[1] && txn[1..][1..] == [];
    assert ApplyAll(granted, txn[1..]) == Ok(prepared);
  }

  /** The world right after the executor ran for a call its grant has just prepared. */
  lemma EffectSafe(w: World, effect: Effect, s: ToolData, earlier: ToolData)
    requires Safe(w) && w.synced == |w.txns| && Replay(w.txns) == Ok(s)
    requires Authorised(s, effect)
    requires effect.call in earlier.calls && earlier.calls[effect.call].status.AwaitingApproval?
    requires forall i :: 0 <= i < |w.effects| ==> Authorised(earlier, w.effects[i])
    ensures Safe(w.(effects := w.effects + [effect]))
  {
    hide Replay;
    var effects := w.effects + [effect];
    assert w.txns[..|w.txns|] == w.txns;
    ReplayKeeps(w.txns);
    forall i | 0 <= i < |w.effects|
      ensures w.effects[i].call != effect.call && w.effects[i].identity != effect.identity
    {
      assert Authorised(earlier, w.effects[i]) && Authorised(s, w.effects[i]);
      assert RecordKept(s, effect.call) && RecordKept(s, w.effects[i].call);
    }
  }

  lemma ForgetSafe(w: World)
    requires Safe(w)
    ensures Safe(w.(memory := None))
  {
    hide Replay, Authorised, Once;
  }

  /** Preparing a granted call and running the executor once for it. */
  lemma ExecutionSafe(w: World, m: Memory, principal: Principal, request: ApprovalRequest, expires: U64, now: U64)
    requires Safe(w) && w.memory == Some(m) && PlanResolve(m.state, principal, request, Grant(expires), now).Ok?
    requires Append(w, m, PlanResolve(m.state, principal, request, Grant(expires), now).value, Written).result.Ok?
    ensures var after := Append(w, m, PlanResolve(m.state, principal, request, Grant(expires), now).value, Written);
            var s := after.result.value;
            request.call in s.calls
            && Safe(after.world.(effects := w.effects + [Effect(request.call, s.calls[request.call].identity, request.intent.arguments.digest)]))
  {
    hide PlanResolve, ApplyTransaction, Replay, Once, Append;
    GrantPrepares(m.state, principal, request, expires, now);
    var txn := PlanResolve(m.state, principal, request, Grant(expires), now).value;
    AppendSafe(w, m, txn, Written);
    var after := Append(w, m, txn, Written);
    var s := after.result.value;
    assert w.txns[..w.synced] <= w.txns;
    EffectsLater(w, w.txns);
    EffectSafe(after.world, Effect(request.call, s.calls[request.call].identity, request.intent.arguments.digest), s, m.state);
  }

  lemma ResolveSafe(w: World, m: Memory, principal: Principal, request: ApprovalRequest, decision: Decision, now: U64,
                    prepare: WriteOutcome, boundary: Boundary, execution: Execution, settle: WriteOutcome)
    requires Safe(w) && w.memory == Some(m)
    ensures Safe(Resolve(w, m, principal, request, decision, now, prepare, boundary, execution, settle).world)
  {
    hide Safe, PlanResolve, Append, Report, OutcomeOf;
    var plan := PlanResolve(m.state, principal, request, decision, now);
    if plan.Ok? {
      AppendSafe(w, m, plan.value, prepare);
      var prepared := Append(w, m, plan.value, prepare);
      if prepared.result.Ok? {
        ForgetSafe(prepared.world);
        if decision.Grant? {
          OnlyWritten(w, m, plan.value, prepare);
          ExecutionSafe(w, m, principal, request, decision.expires, now);
          var s := prepared.result.value;
          var ran := prepared.world.(effects := w.effects + [Effect(request.call, s.calls[request.call].identity, request.intent.arguments.digest)]);
          ForgetSafe(ran);
          AppendSafe(ran, Memory(s, false), [OutcomeOf(request.call, execution)], settle);
        }
      }
    }
  }

  lemma OnlyWritten(w: World, m: Memory, txn: Transaction, write: WriteOutcome)
    requires Append(w, m, txn, write).result.Ok?
    ensures write.Written?
  {
    hide ApplyTransaction;
  }

  lemma CrashSafe(w: World, kept: nat)
    requires Safe(w)
    ensures Safe(Perform(w, Crash(kept)))
  {
    hide Replay, Authorised, Once;
    var k := Surviving(|w.txns|, w.synced, kept);
    ReplayEvolves(w.txns, k);
    assert w.txns[..k][..w.synced] == w.txns[..w.synced];
  }

  lemma StepSafe(w: World, step: Step)
    requires Safe(w)
    ensures Safe(Perform(w, step))
  {
    match step
    case DoRequest(principal, intent, write) =>
      hide Safe, PlanRequest, Append;
      if w.memory.Some? {
        var m := w.memory.value;
        var plan := PlanRequest(m.state, principal, intent);
        if plan.Ok? && plan.value.Write? {
          AppendSafe(w, m, plan.value.txn, write);
        }
      }
    case DoResolve(principal, request, decision, now, prepare, boundary, execution, settle) =>
      hide Safe, Resolve;
      if w.memory.Some? {
        ResolveSafe(w, w.memory.value, principal, request, decision, now, prepare, boundary, execution, settle);
      }
    case DoReconcile(principal, call, observation, write) =>
      hide Safe, PlanReconcile, Append, Find;
      if w.memory.Some? {
        var m := w.memory.value;
        var plan := PlanReconcile(m.state, principal, call, observation);
        if plan.Ok? && plan.value.Settle? {
          AppendSafe(w, m, plan.value.txn, write);
        }
      }
    case Crash(kept) => CrashSafe(w, kept);
    case DoOpen =>
      hide Replay, Authorised, Once;
  }

  lemma {:induction false} RunSafe(steps: seq<Step>)
    ensures Safe(Run(NEW_WORLD, steps))
    decreases |steps|
  {
    if |steps| == 0 {
      assert Replay(NEW_WORLD.txns[..0]).Ok?;
    } else {
      hide Safe, Perform;
      RunSafe(steps[..|steps| - 1]);
      StepSafe(Run(NEW_WORLD, steps[..|steps| - 1]), steps[|steps| - 1]);
    }
  }

  /** At most once: over any run, whatever crashes and failed writes it holds, the executor runs at most once
      per call and per identity; each time for the arguments that were approved; and from then on the durable
      ledger holds the grant, so that the call is never awaiting approval and never denied. */
  lemma AtMostOnce(steps: seq<Step>)
    ensures var w := Run(NEW_WORLD, steps);
            && Once(w.effects) && w.synced <= |w.txns| && Replay(w.txns).Ok? && Replay(w.txns[..w.synced]).Ok?
            && forall i :: 0 <= i < |w.effects| ==>
                 Authorised(Replay(w.txns[..w.synced]).value, w.effects[i]) && Authorised(Replay(w.txns).value, w.effects[i])
  {
    hide Run, Replay, Authorised, Once;
    RunSafe(steps);
    var w := Run(NEW_WORLD, steps);
    assert w.txns[..w.synced] <= w.txns;
    EffectsLater(w, w.txns);
  }

  /** A running, unpoisoned runtime remembers exactly what its ledger replays to, and a closed one always reopens to it. */
  lemma MemoryIsReplay(steps: seq<Step>)
    ensures var w := Run(NEW_WORLD, steps);
            && Replay(w.txns).Ok?
            && (w.memory.Some? && !w.memory.value.poisoned ==> w.memory.value.state == Replay(w.txns).value)
            && (w.memory.None? ==> Perform(w, DoOpen).memory == Some(Memory(Replay(w.txns).value, false)))
  {
    hide Run, Replay;
    RunSafe(steps);
  }

  // ---------- nothing durable is undone ----------

  ghost predicate Extends(w: World, v: World) {
    w.synced <= |w.txns| && v.synced <= |v.txns| && w.txns[..w.synced] <= v.txns[..v.synced]
  }

  lemma AppendExtends(w: World, m: Memory, txn: Transaction, write: WriteOutcome)
    requires w.synced <= |w.txns|
    ensures Extends(w, Append(w, m, txn, write).world)
  {
    hide ApplyTransaction;
    assert (w.txns + [txn])[..w.synced] == w.txns[..w.synced];
    assert (w.txns + [txn])[..|w.txns| + 1] == w.txns + [txn];
  }

  lemma ExtendsChain(a: World, b: World, c: World)
    requires Extends(a, b) && Extends(b, c)
    ensures Extends(a, c)
  {
  }

  lemma ResolveExtends(w: World, m: Memory, principal: Principal, request: ApprovalRequest, decision: Decision, now: U64,
                       prepare: WriteOutcome, boundary: Boundary, execution: Execution, settle: WriteOutcome)
    requires w.synced <= |w.txns|
    ensures Extends(w, Resolve(w, m, principal, request, decision, now, prepare, boundary, execution, settle).world)
  {
    hide PlanResolve, Append, Report, OutcomeOf;
    var plan := PlanResolve(m.state, principal, request, decision, now);
    if plan.Ok? {
      AppendExtends(w, m, plan.value, prepare);
      var prepared := Append(w, m, plan.value, prepare);
      if prepared.result.Ok? && request.call in prepared.result.value.calls {
        var s := prepared.result.value;
        var ran := prepared.world.(effects := w.effects + [Effect(request.call, s.calls[request.call].identity, request.intent.arguments.digest)]);
        AppendExtends(ran, Memory(s, false), [OutcomeOf(request.call, execution)], settle);
        assert Extends(w, ran);
        ExtendsChain(w, ran, Append(ran, Memory(s, false), [OutcomeOf(request.call, execution)], settle).world);
      }
    }
  }

  lemma StepExtends(w: World, step: Step)
    requires w.synced <= |w.txns|
    ensures Extends(w, Perform(w, step))
  {
    match step
    case DoRequest(principal, intent, write) =>
      hide PlanRequest, Append;
      if w.memory.Some? {
        var plan := PlanRequest(w.memory.value.state, principal, intent);
        if plan.Ok? && plan.value.Write? {
          AppendExtends(w, w.memory.value, plan.value.txn, write);
        }
      }
    case DoResolve(principal, request, decision, now, prepare, boundary, execution, settle) =>
      hide Resolve;
      if w.memory.Some? {
        ResolveExtends(w, w.memory.value, principal, request, decision, now, prepare, boundary, execution, settle);
      }
    case DoReconcile(principal, call, observation, write) =>
      hide PlanReconcile, Append, Find;
      if w.memory.Some? {
        var plan := PlanReconcile(w.memory.value.state, principal, call, observation);
        if plan.Ok? && plan.value.Settle? {
          AppendExtends(w, w.memory.value, plan.value.txn, write);
        }
      }
    case Crash(kept) =>
      assert w.txns[..Surviving(|w.txns|, w.synced, kept)][..w.synced] == w.txns[..w.synced];
    case DoOpen =>
      hide Replay;
  }

  lemma {:induction false} RunExtends(w: World, steps: seq<Step>)
    requires w.synced <= |w.txns|
    ensures Extends(w, Run(w, steps))
    decreases |steps|
  {
    hide Perform;
    if |steps| > 0 {
      RunExtends(w, steps[..|steps| - 1]);
      StepExtends(Run(w, steps[..|steps| - 1]), steps[|steps| - 1]);
      ExtendsChain(w, Run(w, steps[..|steps| - 1]), Run(w, steps));
    }
  }

  lemma {:induction false} RunsJoin(w: World, first: seq<Step>, second: seq<Step>)
    ensures Run(w, first + second) == Run(Run(w, first), second)
    decreases |second|
  {
    hide Perform;
    if |second| == 0 {
      assert first + second == first;
    } else {
      RunsJoin(w, first, second[..|second| - 1]);
      assert (first + second)[..|first + second| - 1] == first + second[..|second| - 1];
    }
  }

  /** Once a call is durably denied, succeeded or failed, its record is the same in every later state of any run. */
  lemma FinalForever(before: seq<Step>, after: seq<Step>, call: CallId)
    requires var w := Run(NEW_WORLD, before);
             && w.synced <= |w.txns| && Replay(w.txns[..w.synced]).Ok?
             && call in Replay(w.txns[..w.synced]).value.calls && Replay(w.txns[..w.synced]).value.calls[call].status.Final()
    ensures var s := Replay(Run(NEW_WORLD, before).txns[..Run(NEW_WORLD, before).synced]).value;
            var v := Run(NEW_WORLD, before + after);
            && Replay(v.txns).Ok? && call in Replay(v.txns).value.calls && Replay(v.txns).value.calls[call] == s.calls[call]
            && (v.memory.Some? && !v.memory.value.poisoned ==> call in v.memory.value.state.calls && v.memory.value.state.calls[call] == s.calls[call])
  {
    hide Run, Replay, Authorised;
    var w, v := Run(NEW_WORLD, before), Run(NEW_WORLD, before + after);
    RunSafe(before + after);
    RunsJoin(NEW_WORLD, before, after);
    RunExtends(w, after);
    assert w.txns[..w.synced] == v.txns[..w.synced];
    ReplayEvolves(v.txns, w.synced);
  }

  // ---------- the kernel's guard ----------

  /** The kernel asks for no new call and resolves none while some effect has no durable outcome. */
  function KernelPerform(w: World, step: Step): World {
    if (step.DoRequest? || step.DoResolve?) && w.memory.Some? && FirstPending(w.memory.value.state).Some? then w else Perform(w, step)
  }

  function KernelRun(w: World, steps: seq<Step>): World
    decreases |steps|
  {
    if |steps| == 0 then w else KernelPerform(KernelRun(w, steps[..|steps| - 1]), steps[|steps| - 1])
  }

  ghost predicate OnePending(s: ToolData) {
    forall c, d :: Pending(s, c) && Pending(s, d) ==> c == d
  }

  ghost predicate OnePendingThroughout(txns: seq<Transaction>) {
    forall k :: 0 <= k <= |txns| && Replay(txns[..k]).Ok? ==> OnePending(Replay(txns[..k]).value)
  }

  lemma OnePendingMore(txns: seq<Transaction>, txn: Transaction)
    requires OnePendingThroughout(txns)
    requires Replay(txns + [txn]).Ok? ==> OnePending(Replay(txns + [txn]).value)
    ensures OnePendingThroughout(txns + [txn])
  {
    hide Replay, OnePending;
    var more := txns + [txn];
    forall k | 0 <= k <= |more| && Replay(more[..k]).Ok?
      ensures OnePending(Replay(more[..k]).value)
    {
      if k <= |txns| {
        assert more[..k] == txns[..k];
      } else {
        assert more[..k] == more;
      }
    }
  }

  lemma OnePendingPrefix(txns: seq<Transaction>, k: nat)
    requires OnePendingThroughout(txns) && k <= |txns|
    ensures OnePendingThroughout(txns[..k])
  {
    hide Replay, OnePending;
    forall j | 0 <= j <= k && Replay(txns[..k][..j]).Ok?
      ensures OnePending(Replay(txns[..k][..j]).value)
    {
      assert txns[..k][..j] == txns[..j];
    }
  }

  lemma ApplyLast(s: ToolData, events: seq<ToolEvent>)
    requires |events| == 1
    ensures ApplyAll(s, events) == Apply(s, events[0])
  {
    hide Apply;
    if Apply(s, events[0]).Ok? {
      assert ApplyAll(Apply(s, events[0]).value, events[1..]) == Ok(Apply(s, events[0]).value);
    }
  }

  /** Which calls a transaction can leave pending: those that were, and the one it prepares. */
  lemma PendingAfter(s: ToolData, txn: Transaction)
    requires WellKept(s) && ApplyTransaction(s, txn).Ok?
    ensures forall c :: Pending(ApplyTransaction(s, txn).value, c) ==>
              Pending(s, c) || (|txn| == 2 && c == txn[0].call)
  {
    hide ValidateText, ValidateReason, ValidateBinding;
    if |txn| == 1 {
      ApplyLast(s, txn);
      SinglePending(s, txn[0]);
    } else {
      var granted := Apply(s, txn[0]).value;
      assert txn[1..][0] == txn[1];
      ApplyLast(granted, txn[1..]);
      PairPending(s, granted, txn[0], txn[1]);
    }
  }

  lemma PairPending(s: ToolData, granted: ToolData, grant: ToolEvent, prepare: ToolEvent)
    requires grant.ApprovalGranted? && prepare.EffectPrepared? && grant.call == prepare.call
    requires Apply(s, grant) == Ok(granted) && Apply(granted, prepare).Ok?
    ensures forall c :: Pending(Apply(granted, prepare).value, c) ==> Pending(s, c) || c == grant.call
  {
  }

  lemma SinglePending(s: ToolData, event: ToolEvent)
    requires WellKept(s) && Apply(s, event).Ok? && !event.EffectPrepared? && !event.ApprovalGranted?
    ensures forall c :: Pending(Apply(s, event).value, c) ==> Pending(s, c)
  {
    hide ValidateText, ValidateReason, ValidateBinding;
  }

  ghost predicate KernelSafe(w: World) {
    Safe(w) && OnePendingThroughout(w.txns)
  }

  lemma AppendKernelSafe(w: World, m: Memory, txn: Transaction, write: WriteOutcome)
    requires KernelSafe(w) && w.memory == Some(m)
    requires |txn| == 2 ==> FirstPending(m.state).None?
    ensures KernelSafe(Append(w, m, txn, write).world)
  {
    AppendSafe(w, m, txn, write);
    var after := Append(w, m, txn, write).world;
    if after.txns != w.txns {
      assert after.txns == w.txns + [txn] && !m.poisoned;
      hide ApplyTransaction, Replay, Authorised, Append;
      ReplayMore(w.txns, txn);
      ReplayKeeps(w.txns);
      assert w.txns[..|w.txns|] == w.txns;
      if ApplyTransaction(m.state, txn).Ok? {
        PendingAfter(m.state, txn);
      }
      OnePendingMore(w.txns, txn);
    }
  }

  lemma ResolveKernelSafe(w: World, m: Memory, principal: Principal, request: ApprovalRequest, decision: Decision, now: U64,
                          prepare: WriteOutcome, boundary: Boundary, execution: Execution, settle: WriteOutcome)
    requires KernelSafe(w) && w.memory == Some(m) && FirstPending(m.state).None?
    ensures OnePendingThroughout(Resolve(w, m, principal, request, decision, now, prepare, boundary, execution, settle).world.txns)
  {
    hide Safe, OnePendingThroughout, PlanResolve, Append, Report, OutcomeOf, FirstPending;
    var plan := PlanResolve(m.state, principal, request, decision, now);
    if plan.Ok? {
      AppendKernelSafe(w, m, plan.value, prepare);
      AppendSafe(w, m, plan.value, prepare);
      var prepared := Append(w, m, plan.value, prepare);
      if prepared.result.Ok? && decision.Grant? {
        OnlyWritten(w, m, plan.value, prepare);
        ExecutionSafe(w, m, principal, request, decision.expires, now);
        var s := prepared.result.value;
        var ran := prepared.world.(effects := w.effects + [Effect(request.call, s.calls[request.call].identity, request.intent.arguments.digest)]);
        AppendKernelSafe(ran, Memory(s, false), [OutcomeOf(request.call, execution)], settle);
      }
    }
  }

  lemma KernelStepSafe(w: World, step: Step)
    requires KernelSafe(w)
    ensures KernelSafe(KernelPerform(w, step))
  {
    StepSafe(w, step);
    match step
    case DoRequest(principal, intent, write) =>
      hide Safe, OnePendingThroughout, Append, FirstPending;
      if w.memory.Some? && FirstPending(w.memory.value.state).None? {
        var m := w.memory.value;
        var plan := PlanRequest(m.state, principal, intent);
        if plan.Ok? && plan.value.Write? {
          AppendKernelSafe(w, m, plan.value.txn, write);
        }
      }
    case DoResolve(principal, request, decision, now, prepare, boundary, execution, settle) =>
      hide Safe, OnePendingThroughout, Resolve, FirstPending;
      if w.memory.Some? && FirstPending(w.memory.value.state).None? {
        ResolveKernelSafe(w, w.memory.value, principal, request, decision, now, prepare, boundary, execution, settle);
      }
    case DoReconcile(principal, call, observation, write) =>
      hide Safe, OnePendingThroughout, Append, Find, FirstPending;
      if w.memory.Some? {
        var m := w.memory.value;
        var plan := PlanReconcile(m.state, principal, call, observation);
        if plan.Ok? && plan.value.Settle? {
          SettleIsSingle(m.state, principal, call, observation);
          AppendKernelSafe(w, m, plan.value.txn, write);
        }
      }
    case Crash(kept) =>
      hide Safe, OnePendingThroughout, FirstPending;
      OnePendingPrefix(w.txns, Surviving(|w.txns|, w.synced, kept));
    case DoOpen =>
      hide Safe, OnePendingThroughout, FirstPending, Replay;
  }

  lemma SettleIsSingle(s: ToolData, principal: Principal, call: CallId, observation: Observation)
    requires PlanReconcile(s, principal, call, observation).Ok? && PlanReconcile(s, principal, call, observation).value.Settle?
    ensures |PlanReconcile(s, principal, call, observation).value.txn| == 1
  {
    hide ValidateRecordAuthority, ValidateText;
  }

  lemma {:induction false} KernelRunSafe(steps: seq<Step>)
    ensures KernelSafe(KernelRun(NEW_WORLD, steps))
    decreases |steps|
  {
    if |steps| == 0 {
      RunSafe([]);
      assert Run(NEW_WORLD, []) == NEW_WORLD;
    } else {
      hide KernelSafe, KernelPerform;
      KernelRunSafe(steps[..|steps| - 1]);
      KernelStepSafe(KernelRun(NEW_WORLD, steps[..|steps| - 1]), steps[|steps| - 1]);
    }
  }

  /** Through the kernel at most one call is ever without a durable outcome, in the ledger and in memory. */
  lemma KernelOnePending(steps: seq<Step>)
    ensures var w := KernelRun(NEW_WORLD, steps);
            && Replay(w.txns).Ok? && OnePending(Replay(w.txns).value)
            && (w.memory.Some? && !w.memory.value.poisoned ==> OnePending(w.memory.value.state))
            && Once(w.effects)
  {
    hide KernelRun, Replay, Authorised, OnePending, Once;
    KernelRunSafe(steps);
    var w := KernelRun(NEW_WORLD, steps);
    assert w.txns[..|w.txns|] == w.txns;
  }

  // ---------- what one call promises ----------

  lemma IntentValidMeans(intent: Intent)
    requires ValidateIntent(intent).Ok?
    ensures ValidateText(intent.identity, MAX_CALL_IDENTITY_BYTES).Ok? && ValidateText(intent.tool, MAX_TOOL_NAME_BYTES).Ok?
    ensures ValidateBinding(BindingOf(intent.resources)).Ok?
  {
  }

  /** A request under a new identity is planned exactly when it is valid, within authority, nothing is pending and
      identifiers are left; the planned transaction always applies, leaves the call awaiting approval, and asking
      again for the same intent gives the same approval request and writes nothing. */
  lemma RequestIsIdempotent(s: ToolData, principal: Principal, intent: Intent)
    requires WellKept(s) && intent.identity !in s.identities
    ensures var plan := PlanRequest(s, principal, intent);
            && (plan.Ok? <==> && ValidateIntent(intent).Ok? && ValidateAuthority(principal.capabilities, intent).Ok?
                              && (forall c <- s.calls :: !Pending(s, c)) && s.nextCall < U64_MAX)
            && (plan.Ok? ==>
                  && plan.value.Write? && plan.value.outcome.ApprovalRequired?
                  && ApplyTransaction(s, plan.value.txn).Ok?
                  && var t := ApplyTransaction(s, plan.value.txn).value;
                  && t.nextCall == s.nextCall + 1
                  && s.nextCall in t.calls && t.calls[s.nextCall].status.AwaitingApproval?
                  && (forall c <- s.calls :: c in t.calls && t.calls[c] == s.calls[c])
                  && PlanRequest(t, principal, intent) == Ok(Answer(plan.value.outcome)))
  {
    hide ValidateIntent, ValidateAuthority, ValidateText, ValidateBinding;
    var plan := PlanRequest(s, principal, intent);
    if plan.Ok? {
      IntentValidMeans(intent);
      assert forall c <- s.calls :: c < s.nextCall;
      ApplyLast(s, plan.value.txn);
    }
  }

  /** An identity in use never makes a second call: it is matched, refused, or answered from its record. */
  lemma IdentityDecides(s: ToolData, principal: Principal, intent: Intent)
    requires WellKept(s) && intent.identity in s.identities
    ensures var plan := PlanRequest(s, principal, intent);
            var record := s.calls[s.identities[intent.identity]];
            && (plan.Ok? ==> plan.value.Answer? && record.agent == principal.agent && record.identity == intent.identity
                             && record.argumentsHash == intent.arguments.digest)
            && (plan.Ok? ==> match plan.value.outcome
                             case Existing(r) => r == record && !record.status.AwaitingApproval?
                             case ApprovalRequired(r) => r.call == record.call && record.status.AwaitingApproval?)
            && (plan == Err(IdentityConflict(intent.identity)) <==>
                  && ValidateIntent(intent).Ok? && ValidateAuthority(principal.capabilities, intent).Ok?
                  && !(&& record.agent == principal.agent && record.tool == intent.tool
                       && record.argumentsHash == intent.arguments.digest && record.binding == BindingOf(intent.resources)))
  {
    hide AxisValid;
    assert RecordKept(s, s.identities[intent.identity]);
  }

  lemma OutcomeApplies(s: ToolData, call: CallId, execution: Execution)
    requires Pending(s, call)
    ensures var applied := ApplyTransaction(s, [OutcomeOf(call, execution)]);
            && applied.Ok? && call in applied.value.calls
            && match execution
               case Returned(outputBytes, digest) =>
                 if outputBytes <= MAX_OUTPUT_BYTES
                 then applied.value.calls[call].status == Succeeded && applied.value.calls[call].digest == Some(digest)
                 else applied.value.calls[call].status == ReconciliationRequired
               case Broke => applied.value.calls[call].status == Failed
               case Unclear => applied.value.calls[call].status == ReconciliationRequired
  {
    ApplyLast(s, [OutcomeOf(call, execution)]);
  }

  /** A grant that is accepted and written runs the executor and always reaches an outcome of the executor's kind. */
  lemma GrantSettles(w: World, m: Memory, principal: Principal, request: ApprovalRequest, expires: U64, now: U64, execution: Execution)
    requires w.memory == Some(m) && !m.poisoned && PlanResolve(m.state, principal, request, Grant(expires), now).Ok?
    ensures var done := Resolve(w, m, principal, request, Grant(expires), now, Written, Survives, execution, Written);
            && done.result.Ok?
            && done.world.effects == w.effects + [Effect(request.call, m.state.calls[request.call].identity, request.intent.arguments.digest)]
            && match execution
               case Returned(outputBytes, digest) =>
                 if outputBytes <= MAX_OUTPUT_BYTES then done.result.value.SucceededWith? && done.result.value.record.digest == Some(digest)
                 else done.result.value.Unsettled?
               case Broke => done.result.value.FailedWith?
               case Unclear => done.result.value.Unsettled?
  {
    GrantPrepares(m.state, principal, request, expires, now);
    var plan := PlanResolve(m.state, principal, request, Grant(expires), now);
    var s := ApplyTransaction(m.state, plan.value).value;
    OutcomeApplies(s, request.call, execution);
    hide PlanResolve, ApplyTransaction, OutcomeOf;
  }

  /** Who may resolve a request: exactly the agent and session it was made for, still holding the authority,
      on a call still awaiting approval with the same arguments and resources. */
  lemma ResolveAccepted(s: ToolData, principal: Principal, request: ApprovalRequest, decision: Decision, now: U64)
    ensures PlanResolve(s, principal, request, decision, now).Ok? <==>
              && principal.session == request.session && principal.agent == request.session.agent
              && ValidateIntent(request.intent).Ok? && ValidateAuthority(principal.capabilities, request.intent).Ok?
              && request.argumentsHash == request.intent.arguments.digest
              && request.call in s.calls && s.calls[request.call].status.AwaitingApproval?
              && Matches(s.calls[request.call], principal.agent, request.intent, request.argumentsHash)
              && (match decision
                  case Grant(expires) => now < expires
                  case Deny(reason) => ValidateText(reason, MAX_REASON_BYTES).Ok?)
  {
    hide ValidateIntent, ValidateAuthority, ValidateText;
  }

  /** Reconciling a pending call settles it with the observed outcome; a settled call answers itself. */
  lemma ReconcileSettles(s: ToolData, principal: Principal, call: CallId, observation: Observation)
    requires call in s.calls && s.calls[call].agent == principal.agent
    requires ValidateRecordAuthority(principal.capabilities, s.calls[call]).Ok?
    ensures var plan := PlanReconcile(s, principal, call, observation);
            && (s.calls[call].status.Succeeded? || s.calls[call].status.Failed? ==> plan == Ok(Known(s.calls[call])))
            && (s.calls[call].status.AwaitingApproval? || s.calls[call].status.Denied? ==> plan == Err(InvalidTransition(call)))
            && (Pending(s, call) && plan.Ok? ==>
                  && plan.value.Settle? && ApplyTransaction(s, plan.value.txn).Ok?
                  && var t := ApplyTransaction(s, plan.value.txn).value;
                  && call in t.calls && t == s.(calls := s.calls[call := t.calls[call]])
                  && if observation.ObservedSucceeded?
                     then t.calls[call].status == Succeeded && t.calls[call].digest == Some(observation.digest)
                     else t.calls[call].status == Failed)
  {
    hide ValidateText, ValidateRecordAuthority;
    var plan := PlanReconcile(s, principal, call, observation);
    if plan.Ok? && plan.value.Settle? {
      ApplyLast(s, plan.value.txn);
    }
  }

  // ---------- without the guard ----------

  const SESSION := Session(1, 1)
  const PRINCIPAL := Principal(SESSION, 1, {Tool(Text(7, 1, true))})
  const NO_RESOURCES := Resources({}, {}, None, {}, 0)

  function SampleIntent(token: nat): Intent {
    Intent(Text(token, 1, true), Text(7, 1, true), Arguments(token, token), NO_RESOURCES)
  }

  /** Two calls already requested, both granted, both left unclear: the second grant is refused by the kernel's
      guard but not by the tool runtime, which then holds two calls without an outcome. */
  function UnguardedSteps(): seq<Step> {
    [DoOpen,
     DoRequest(PRINCIPAL, SampleIntent(1), Written), DoRequest(PRINCIPAL, SampleIntent(2), Written),
     DoResolve(PRINCIPAL, ApprovalRequest(1, SESSION, SampleIntent(1), 1), Grant(1), 0, Written, Survives, Unclear, Written),
     DoResolve(PRINCIPAL, ApprovalRequest(2, SESSION, SampleIntent(2), 2), Grant(1), 0, Written, Survives, Unclear, Written)]
  }

  lemma SampleValid(token: nat)
    ensures ValidateIntent(SampleIntent(token)) == Ok(()) && ValidateAuthority(PRINCIPAL.capabilities, SampleIntent(token)) == Ok(())
    ensures BindingOf(SampleIntent(token).resources) == Binding(0, 0, 0, false, 0)
  {
  }

  function SampleRecord(call: CallId, pending: bool): Record {
    Record(call, Text(call, 1, true), 1, Text(7, 1, true), call, Binding(0, 0, 0, false, 0),
           if pending then ReconciliationRequired else AwaitingApproval, if pending then Some(1) else None, None,
           if pending then Some(OutcomeAmbiguous) else None)
  }

  lemma SampleRequest(w: World, s: ToolData, call: CallId)
    requires w.memory == Some(Memory(s, false)) && call == s.nextCall && 1 <= call <= 2
    requires Text(call, 1, true) !in s.identities && call !in s.calls && forall c <- s.calls :: !Pending(s, c)
    ensures var t := ToolData(s.calls[call := SampleRecord(call, false)], s.identities[Text(call, 1, true) := call], call + 1);
            Perform(w, DoRequest(PRINCIPAL, SampleIntent(call), Written)).memory == Some(Memory(t, false))
  {
    SampleValid(call);
    hide ValidateIntent, ValidateAuthority, BindingOf;
    var txn := [CallRequested(call, Text(call, 1, true), 1, Text(7, 1, true), call, Binding(0, 0, 0, false, 0))];
    ApplyLast(s, txn);
    assert PlanRequest(s, PRINCIPAL, SampleIntent(call)).value.txn == txn;
  }

  lemma SampleResolve(w: World, s: ToolData, call: CallId)
    requires w.memory == Some(Memory(s, false)) && 1 <= call <= 2
    requires call in s.calls && s.calls[call] == SampleRecord(call, false)
    ensures Perform(w, DoResolve(PRINCIPAL, ApprovalRequest(call, SESSION, SampleIntent(call), call), Grant(1), 0,
                                 Written, Survives, Unclear, Written)).memory
            == Some(Memory(s.(calls := s.calls[call := SampleRecord(call, true)]), false))
  {
    SampleValid(call);
    var request := ApprovalRequest(call, SESSION, SampleIntent(call), call);
    ResolveAccepted(s, PRINCIPAL, request, Grant(1), 0);
    GrantPrepares(s, PRINCIPAL, request, 1, 0);
    var plan := PlanResolve(s, PRINCIPAL, request, Grant(1), 0);
    var prepared := ApplyTransaction(s, plan.value).value;
    ApplyLast(prepared, [OutcomeOf(call, Unclear)]);
    hide PlanResolve, ValidateRequest;
    var settled := ApplyTransaction(prepared, [OutcomeOf(call, Unclear)]);
    assert settled == Ok(prepared.(calls := prepared.calls[call := SampleRecord(call, true)]));
    assert prepared.calls[call := SampleRecord(call, true)] == s.calls[call := SampleRecord(call, true)];
  }

  /** The one-pending promise is the guard's, not the runtime's: without it this run leaves two calls pending. */
  lemma TwoPendingWithoutGuard()
    ensures var w := Run(NEW_WORLD, UnguardedSteps());
            w.memory.Some? && Pending(w.memory.value.state, 1) && Pending(w.memory.value.state, 2)
  {
    var steps := UnguardedSteps();
    hide Perform;
    assert steps[..5] == steps && Run(NEW_WORLD, steps[..0]) == NEW_WORLD;
    RunNext(NEW_WORLD, steps, 0);
    RunNext(NEW_WORLD, steps, 1);
    RunNext(NEW_WORLD, steps, 2);
    RunNext(NEW_WORLD, steps, 3);
    RunNext(NEW_WORLD, steps, 4);
    var w1 := Run(NEW_WORLD, steps[..1]);
    OpenEmpty();
    var w2 := Run(NEW_WORLD, steps[..2]);
    SampleRequest(w1, NO_CALLS, 1);
    var w3 := Run(NEW_WORLD, steps[..3]);
    SampleRequest(w2, w2.memory.value.state, 2);
    var w4 := Run(NEW_WORLD, steps[..4]);
    SampleResolve(w3, w3.memory.value.state, 1);
    SampleResolve(w4, w4.memory.value.state, 2);
  }

  lemma RunNext(w: World, steps: seq<Step>, k: nat)
    requires k < |steps|
    ensures Run(w, steps[..k + 1]) == Perform(Run(w, steps[..k]), steps[k])
  {
    hide Perform;
    assert steps[..k + 1][..k] == steps[..k];
  }

  lemma OpenEmpty()
    ensures Perform(NEW_WORLD, DoOpen).memory == Some(Memory(NO_CALLS, false))
  {
  }
}
