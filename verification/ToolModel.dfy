/**
 Tool calls as values: identities, approvals, prepared effects and outcomes,
 the events that record them, and the decisions the runtime takes over them.
 */
module ToolModel {
  import opened Prelude

  const MAX_CALL_IDENTITY_BYTES: nat := 256
  const MAX_TOOL_NAME_BYTES: nat := 256
  const MAX_RESOURCE_BYTES: nat := 1024
  const MAX_RESOURCES_PER_AXIS: nat := 64
  const MAX_REASON_BYTES: nat := 8 * 1024
  const MAX_OUTPUT_BYTES: nat := 256 * 1024

  /** Text seen only by identity, byte length, and whether it is non-empty, trimmed and free of control characters. */
  datatype Text = Text(token: nat, bytes: nat, clean: bool)

  type CallId = U64
  type AgentId = U64

  datatype Session = Session(agent: AgentId, authority: U64)

  datatype Capability = WorkspaceRead | WorkspaceWrite | Process | Network | Tool(name: Text)

  datatype Principal = Principal(session: Session, agent: AgentId, capabilities: set<Capability>)

  /** Arguments and resources carry their digests; equal digests of different contents are not excluded. */
  datatype Arguments = Arguments(token: nat, digest: nat)

  datatype Resources = Resources(readPaths: set<Text>, writePaths: set<Text>, process: Option<Text>, targets: set<Text>, fingerprint: nat)

  datatype Binding = Binding(fingerprint: nat, readCount: U16, writeCount: U16, process: bool, targetCount: U16)

  datatype Intent = Intent(identity: Text, tool: Text, arguments: Arguments, resources: Resources)

  datatype Status = AwaitingApproval | Denied | ReconciliationRequired | Succeeded | Failed {
    predicate Final() { Denied? || Succeeded? || Failed? }
  }

  datatype Reason = Given(text: Text) | NoDurableOutcome | ApprovalDenial | ExecutionFailed | OutcomeAmbiguous | OutputTooLarge | ReconciledFailed

  datatype Record = Record(
    call: CallId, identity: Text, agent: AgentId, tool: Text, argumentsHash: nat, binding: Binding,
    status: Status, expires: Option<U64>, digest: Option<nat>, reason: Option<Reason>)

  datatype ToolData = ToolData(calls: map<CallId, Record>, identities: map<Text, CallId>, nextCall: U64)

  const NO_CALLS := ToolData(map[], map[], 1)

  datatype ToolEvent =
    | CallRequested(call: CallId, identity: Text, agent: AgentId, tool: Text, argumentsHash: nat, binding: Binding)
    | ApprovalGranted(call: CallId, agent: AgentId, argumentsHash: nat, binding: Binding, expires: U64)
    | EffectPrepared(call: CallId, argumentsHash: nat)
    | ApprovalDenied(call: CallId, reason: Reason)
    | EffectSucceeded(call: CallId, digest: nat)
    | EffectFailed(call: CallId, reason: Reason)
    | EffectAmbiguous(call: CallId, reason: Reason)
    | EffectReconciledSucceeded(call: CallId, digest: nat)
    | EffectReconciledFailed(call: CallId, reason: Reason)

  datatype ToolError =
    | AppendRefused | WriterPoisoned | DurabilityAmbiguous
    | InvalidResource | InvalidText | TextTooLarge | CapabilityDenied(capability: Capability)
    | IdentityConflict(identity: Text) | UnknownCall(call: CallId) | StaleApprovalRequest | ApprovalExpired
    | PendingReconciliation(call: CallId) | ReconciliationAuthorityDenied(call: CallId) | InvalidTransition(call: CallId)
    | CorruptEvent | CorruptState | IdentifierExhausted

  type Check = Result<(), ToolError>

  function Require(condition: bool, error: ToolError): Check {
    if condition then Ok(()) else Err(error)
  }

  // ---------- validation ----------

  function ValidateText(text: Text, limit: nat): Check {
    if !text.clean then Err(InvalidText) else if text.bytes > limit then Err(TextTooLarge) else Ok(())
  }

  /** Reasons written by the runtime are short fixed texts. */
  function ValidateReason(reason: Reason): Check {
    if reason.Given? then ValidateText(reason.text, MAX_REASON_BYTES) else Ok(())
  }

  function ValidateBinding(binding: Binding): Check {
    Require(binding.readCount <= MAX_RESOURCES_PER_AXIS && binding.writeCount <= MAX_RESOURCES_PER_AXIS && binding.targetCount <= MAX_RESOURCES_PER_AXIS,
            CorruptEvent)
  }

  predicate AxisValid(axis: set<Text>) {
    |axis| <= MAX_RESOURCES_PER_AXIS && forall r <- axis :: ValidateText(r, MAX_RESOURCE_BYTES).Ok?
  }

  /** Which of several faults is reported is left open: any is `InvalidResource` here. */
  function ValidateIntent(intent: Intent): Check {
    var _ :- ValidateText(intent.identity, MAX_CALL_IDENTITY_BYTES);
    var _ :- ValidateText(intent.tool, MAX_TOOL_NAME_BYTES);
    Require(&& AxisValid(intent.resources.readPaths) && AxisValid(intent.resources.writePaths) && AxisValid(intent.resources.targets)
            && (intent.resources.process.Some? ==> ValidateText(intent.resources.process.value, MAX_RESOURCE_BYTES).Ok?),
            InvalidResource)
  }

  /** Counts are truncated to sixteen bits. */
  function BindingOf(resources: Resources): Binding {
    Binding(resources.fingerprint, |resources.readPaths| % 0x1_0000, |resources.writePaths| % 0x1_0000,
            resources.process.Some?, |resources.targets| % 0x1_0000)
  }

  function RequireCapability(capabilities: set<Capability>, needed: bool, capability: Capability): Check {
    Require(needed ==> capability in capabilities, CapabilityDenied(capability))
  }

  function ValidateAuthority(capabilities: set<Capability>, intent: Intent): Check {
    var _ :- RequireCapability(capabilities, true, Tool(intent.tool));
    var _ :- RequireCapability(capabilities, intent.resources.readPaths != {}, WorkspaceRead);
    var _ :- RequireCapability(capabilities, intent.resources.writePaths != {}, WorkspaceWrite);
    var _ :- RequireCapability(capabilities, intent.resources.process.Some?, Process);
    RequireCapability(capabilities, intent.resources.targets != {}, Network)
  }

  function ValidateRecordAuthority(capabilities: set<Capability>, record: Record): Check {
    var _ :- RequireCapability(capabilities, true, Tool(record.tool));
    var _ :- RequireCapability(capabilities, record.binding.readCount > 0, WorkspaceRead);
    var _ :- RequireCapability(capabilities, record.binding.writeCount > 0, WorkspaceWrite);
    var _ :- RequireCapability(capabilities, record.binding.process, Process);
    RequireCapability(capabilities, record.binding.targetCount > 0, Network)
  }

  // ---------- events ----------

  type Applied = Result<ToolData, ToolError>

  function Awaiting(s: ToolData, call: CallId): Result<Record, ToolError> {
    if call in s.calls && s.calls[call].status.AwaitingApproval? then Ok(s.calls[call]) else Err(CorruptState)
  }

  function Unreconciled(s: ToolData, call: CallId): Result<Record, ToolError> {
    if call in s.calls && s.calls[call].status.ReconciliationRequired? then Ok(s.calls[call]) else Err(CorruptState)
  }

  function Apply(s: ToolData, event: ToolEvent): Applied {
    match event
    case CallRequested(call, identity, agent, tool, argumentsHash, binding) =>
      if call != s.nextCall then Err(CorruptState)
      else
        var _ :- ValidateText(identity, MAX_CALL_IDENTITY_BYTES);
        var _ :- ValidateText(tool, MAX_TOOL_NAME_BYTES);
        var _ :- ValidateBinding(binding);
        if identity in s.identities || call in s.calls then Err(CorruptState)
        else if s.nextCall == U64_MAX then Err(IdentifierExhausted)
        else
          Ok(ToolData(s.calls[call := Record(call, identity, agent, tool, argumentsHash, binding, AwaitingApproval, None, None, None)],
                      s.identities[identity := call], s.nextCall + 1))
    case ApprovalGranted(call, agent, argumentsHash, binding, expires) =>
      var record :- Awaiting(s, call);
      if record.agent != agent || record.argumentsHash != argumentsHash || record.binding != binding || expires == 0 then Err(CorruptState)
      else Ok(s.(calls := s.calls[call := record.(expires := Some(expires))]))
    case EffectPrepared(call, argumentsHash) =>
      var record :- Awaiting(s, call);
      if record.argumentsHash != argumentsHash || record.expires.None? then Err(CorruptState)
      else Ok(s.(calls := s.calls[call := record.(status := ReconciliationRequired, reason := Some(NoDurableOutcome))]))
    case ApprovalDenied(call, reason) =>
      var _ :- ValidateReason(reason);
      var record :- Awaiting(s, call);
      Ok(s.(calls := s.calls[call := record.(status := Denied, reason := Some(reason))]))
    case EffectSucceeded(call, digest) => Conclude(s, call, digest)
    case EffectReconciledSucceeded(call, digest) => Conclude(s, call, digest)
    case EffectFailed(call, reason) => Abandon(s, call, reason)
    case EffectReconciledFailed(call, reason) => Abandon(s, call, reason)
    case EffectAmbiguous(call, reason) =>
      var _ :- ValidateReason(reason);
      var record :- Unreconciled(s, call);
      Ok(s.(calls := s.calls[call := record.(reason := Some(reason))]))
  }

  function Conclude(s: ToolData, call: CallId, digest: nat): Applied {
    var record :- Unreconciled(s, call);
    Ok(s.(calls := s.calls[call := record.(status := Succeeded, digest := Some(digest), reason := None)]))
  }

  function Abandon(s: ToolData, call: CallId, reason: Reason): Applied {
    var _ :- ValidateReason(reason);
    var record :- Unreconciled(s, call);
    Ok(s.(calls := s.calls[call := record.(status := Failed, reason := Some(reason))]))
  }

  function ApplyAll(s: ToolData, events: seq<ToolEvent>): Applied
    decreases |events|
  {
    if events == [] then Ok(s)
    else
      var next :- Apply(s, events[0]);
      ApplyAll(next, events[1..])
  }

  /** The transactions the runtime may write: one event, or a grant with its prepared effect. */
  function ValidateTransaction(events: seq<ToolEvent>): Check {
    Require(|| (|events| == 1 && !events[0].ApprovalGranted? && !events[0].EffectPrepared?)
            || (|events| == 2 && events[0].ApprovalGranted? && events[1].EffectPrepared? && events[0].call == events[1].call),
            CorruptState)
  }

  type Transaction = seq<ToolEvent>

  function ApplyTransaction(s: ToolData, txn: Transaction): Applied {
    var _ :- ValidateTransaction(txn);
    ApplyAll(s, txn)
  }

  /** The state a ledger of these transactions replays to. */
  function Replay(txns: seq<Transaction>): Applied
    decreases |txns|
  {
    if |txns| == 0 then Ok(NO_CALLS)
    else
      var s :- Replay(txns[..|txns| - 1]);
      ApplyTransaction(s, txns[|txns| - 1])
  }

  // ---------- decisions ----------

  function Find(s: ToolData, call: CallId): Result<Record, ToolError> {
    if call in s.calls then Ok(s.calls[call]) else Err(UnknownCall(call))
  }

  predicate Pending(s: ToolData, call: CallId) {
    call in s.calls && s.calls[call].status.ReconciliationRequired?
  }

  /** The first call in order whose effect has no durable outcome. */
  function FirstPending(s: ToolData): (found: Option<CallId>)
    ensures found.None? <==> forall c <- s.calls :: !Pending(s, c)
    ensures found.Some? ==> Pending(s, found.value) && forall c <- s.calls :: Pending(s, c) ==> found.value <= c
  {
    var pending: set<nat> := set c | c in s.calls && Pending(s, c);
    if pending == {} then
      assert forall c <- s.calls :: Pending(s, c) ==> c in pending;
      None
    else
      LeastExists(pending);
      var least :| least in pending && forall c <- pending :: least <= c;
      assert least in s.calls && Pending(s, least);
      assert forall c <- s.calls :: Pending(s, c) ==> c in pending;
      Some(least)
  }

  predicate Matches(record: Record, agent: AgentId, intent: Intent, argumentsHash: nat) {
    record.agent == agent && record.tool == intent.tool && record.argumentsHash == argumentsHash && record.binding == BindingOf(intent.resources)
  }

  datatype ApprovalRequest = ApprovalRequest(call: CallId, session: Session, intent: Intent, argumentsHash: nat)

  datatype RequestOutcome = ApprovalRequired(request: ApprovalRequest) | Existing(record: Record)

  /** Either an answer that writes nothing, or the transaction that must be durable before the answer. */
  datatype RequestPlan = Answer(outcome: RequestOutcome) | Write(txn: Transaction, outcome: RequestOutcome)

  function PlanRequest(s: ToolData, principal: Principal, intent: Intent): Result<RequestPlan, ToolError> {
    var _ :- ValidateIntent(intent);
    var _ :- ValidateAuthority(principal.capabilities, intent);
    var hash := intent.arguments.digest;
    if intent.identity in s.identities then
      var call := s.identities[intent.identity];
      if call !in s.calls then Err(CorruptState)
      else if !Matches(s.calls[call], principal.agent, intent, hash) then Err(IdentityConflict(intent.identity))
      else if s.calls[call].status.AwaitingApproval? then Ok(Answer(ApprovalRequired(ApprovalRequest(call, principal.session, intent, hash))))
      else Ok(Answer(Existing(s.calls[call])))
    else if FirstPending(s).Some? then Err(PendingReconciliation(FirstPending(s).value))
    else if s.nextCall == 0 || s.nextCall == U64_MAX then Err(IdentifierExhausted)
    else
      Ok(Write([CallRequested(s.nextCall, intent.identity, principal.agent, intent.tool, hash, BindingOf(intent.resources))],
               ApprovalRequired(ApprovalRequest(s.nextCall, principal.session, intent, hash))))
  }

  function ValidateRequest(s: ToolData, principal: Principal, request: ApprovalRequest): Check {
    if principal.session != request.session || principal.agent != request.session.agent then Err(StaleApprovalRequest)
    else
      var _ :- ValidateIntent(request.intent);
      var _ :- ValidateAuthority(principal.capabilities, request.intent);
      if request.argumentsHash != request.intent.arguments.digest then Err(StaleApprovalRequest)
      else
        var record :- Find(s, request.call);
        Require(record.status.AwaitingApproval? && Matches(record, principal.agent, request.intent, request.argumentsHash), StaleApprovalRequest)
  }

  datatype Decision = Grant(expires: U64) | Deny(reason: Text)

  /** What resolving a request must make durable first. */
  function PlanResolve(s: ToolData, principal: Principal, request: ApprovalRequest, decision: Decision, now: U64): Result<Transaction, ToolError> {
    var _ :- ValidateRequest(s, principal, request);
    match decision
    case Deny(reason) =>
      var _ :- ValidateText(reason, MAX_REASON_BYTES);
      Ok([ApprovalDenied(request.call, ApprovalDenial)])
    case Grant(expires) =>
      if expires <= now then Err(ApprovalExpired)
      else Ok([ApprovalGranted(request.call, principal.agent, request.argumentsHash, BindingOf(request.intent.resources), expires),
               EffectPrepared(request.call, request.argumentsHash)])
  }

  /** How the executor answered. */
  datatype Execution = Returned(outputBytes: nat, digest: nat) | Broke | Unclear

  function OutcomeOf(call: CallId, execution: Execution): ToolEvent {
    match execution
    case Returned(outputBytes, digest) =>
      if outputBytes <= MAX_OUTPUT_BYTES then EffectSucceeded(call, digest) else EffectAmbiguous(call, OutputTooLarge)
    case Broke => EffectFailed(call, ExecutionFailed)
    case Unclear => EffectAmbiguous(call, OutcomeAmbiguous)
  }

  datatype Observation = ObservedSucceeded(digest: nat) | ObservedFailed(reason: Text)

  datatype ReconcilePlan = Known(record: Record) | Settle(txn: Transaction)

  function PlanReconcile(s: ToolData, principal: Principal, call: CallId, observation: Observation): Result<ReconcilePlan, ToolError> {
    var record :- Find(s, call);
    if record.agent != principal.agent then Err(ReconciliationAuthorityDenied(call))
    else
      var _ :- ValidateRecordAuthority(principal.capabilities, record);
      if record.status.Succeeded? || record.status.Failed? then Ok(Known(record))
      else if !record.status.ReconciliationRequired? then Err(InvalidTransition(call))
      else
        match observation
        case ObservedSucceeded(digest) => Ok(Settle([EffectReconciledSucceeded(call, digest)]))
        case ObservedFailed(reason) =>
          var _ :- ValidateText(reason, MAX_REASON_BYTES);
          Ok(Settle([EffectReconciledFailed(call, ReconciledFailed)]))
  }
}
