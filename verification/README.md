# GreenTyper core: verified model

GreenTyper is an event-sourced runtime. Each durable component plans events, applies them to a copy of its state, checks
the copy, appends one framed transaction to its ledger, and only then publishes the copy; on restart it rebuilds the state
by replay. This project models those components and the computations they rest on, and proves what they promise: safety
over whole runs with failed writes and crashes, exact replay, round trips of every stored format, conservation of budgets,
and exact conditions where a promise holds only sometimes.

## What is modelled

* **Agent Team** (`Team*.dfy`). Tasks and agents in pairs, a delegation tree with reserved budgets, dependencies on earlier
  tasks, a bounded pool of Active agents, the scheduler, dispatch, the operation journal and recovery. `TeamModel` and
  `TeamPlan` say what each event and each request does; `TeamRuntime` does it in place and is proved equal to them.
* **Ledger** (`Bytes`, `Crc`, `Ledger*`, `FileLedger`). The file as bytes, framing, CRC32C, the scan that tolerates a torn
  tail, appends whose write may fail after any prefix, power loss, and reopening.
* **Tool runtime** (`Tool*.dfy`). Calls, approval, the executor, reconciliation, over a ledger that may refuse or tear a
  write and a process that may crash between any two steps. Runs count every execution.
* **Kernel** (`Kernel*.dfy`). One conversation: admission with a frozen fallback plan, attempts and their costs, validation
  of what a Provider answers, output, acknowledgement, blocking, retry, cancellation, fallback from admission to the last
  candidate, Context checkpoints, commit and replay. `KernelHistory` and `KernelUsage` carry results to whole logs.
* **Event codec** (`Utf8`, `RuntimeCodec`, `EventCodec`, `RuntimeCursor`, `KernelLog`, `KernelRestart`). The kernel's events
  as payload bytes, and the whole path from a file cut anywhere to the state a restart gives.
* **Usage** (`Usage*.dfy`), **Context** (`Context.dfy`), **Pricing** (`Pricing.dfy`). Cached rollups with overflow and
  saturation, reductions that must keep agreeing with canonical history, and price books that select at most one schedule.

Where the program updates an object in place the model is a class whose methods are proved against specification functions;
the theorems are about those functions and about runs of them. `Prelude`, `Strings`, `Sorting` and `Journal` hold what
several components share.

What comes from outside is a parameter: how a write ends, the clock, the digest of a text, which windows contain an
instant, what a Provider answers, what an executor does. A `Codebook` stands for the naming of texts, the digest, the codecs
of the two frozen epochs and the range of timestamps; `Codebooks` shows that one exists. Texts compared only for identity
are numbers elsewhere.

Three promises hold only under a condition a caller can check, and each is proved with that condition, both ways:
recovery after a run (`TeamRecovery.RecoverRebuildsRun`, a log shorter than the last sequence number), acknowledging right
after recovery under a larger limit (`TeamRecovery.AcknowledgeAfterRecovery`, refused in the run of
`TeamCrowding.CrowdedOut`), and pricing an attempt against a saturated counter (`UsageRollup.EvaluateAdds`).

Reading the model: a conversation state is `KernelModel.RuntimeData`, a team `TeamPlan.Team`, a ledger handle
`LedgerModel.Handle`; `Run` in `TeamPlan`, `LedgerRuns`, `ToolRuns` and `KernelPlan` folds steps into histories.

## Model

| member | source | states |
|---|---|---|
| `TeamInvariant.ApplyKeepsShape` | crates/greentyper-core/src/agent_team.rs:1900-2460 | every event the state accepts keeps identifiers gapless, dependencies earlier than their dependents, and the delegation tree narrowing |
| `TeamInvariant.ApplyKeepsDependencySafe` | crates/greentyper-core/src/agent_team.rs:2064-2122 | no accepted event starts a task before all its dependencies succeeded, and none takes a task out of Succeeded |
| `TeamInvariant.EventsKeepSafety` | crates/greentyper-core/src/agent_team.rs:1900-2460 | the same over any accepted sequence of events |
| `TeamCommands.SortOrdered` | crates/greentyper-core/src/agent_team.rs:1696-1722 | requested dependencies are stored in ascending order, none lost and none invented |
| `TeamCommands.CompletionAccepted` | crates/greentyper-core/src/agent_team.rs:1465-1486 | a planned completion is always accepted by a sound state, and leaves it sound |
| `TeamCommands.FailureAccepted` | crates/greentyper-core/src/agent_team.rs:1487-1503 | a planned failure is always accepted and leaves the state sound |
| `TeamCommands.CancellationAccepted` | crates/greentyper-core/src/agent_team.rs:1504-1537 | a planned cancellation is always accepted and leaves the state sound |
| `TeamCommands.RetryAccepted` | crates/greentyper-core/src/agent_team.rs:1538-1585 | a planned retry, by the agent itself or by its parent, is always accepted and leaves the state sound |
| `TeamGrowth.RootAccepted` | crates/greentyper-core/src/agent_team.rs:1300-1344 | a planned root team is always accepted and leaves the state sound: task and agent paired, budgets balanced |
| `TeamGrowth.DelegationAccepted` | crates/greentyper-core/src/agent_team.rs:1345-1425 | a planned delegation is always accepted and leaves the state sound: every reservation still equals what the children hold, and the child's parent is Active |
| `TeamGrowth.MessageAccepted` | crates/greentyper-core/src/agent_team.rs:1426-1464 | a planned message is always accepted and leaves the state sound |
| `TeamSchedule.ReconcileReachesQuiescence` | crates/greentyper-core/src/agent_team.rs:2655-2727 | one ascending pass and the activation loop always succeed from any owned, paired state; the result is quiescent, is a fixpoint, and every task still Ready has a larger identifier than every task just started |
| `TeamSchedule.QuiescentIsFixed` | crates/greentyper-core/src/agent_team.rs:2628-2652 | scheduling a quiescent state emits nothing and changes nothing |
| `TeamSchedule.ReconcileKeepsSound` | crates/greentyper-core/src/agent_team.rs:2655-2727 | scheduling keeps the whole validated state: ownership, live chain, budgets, Active limit |
| `TeamRuns.ReconcileTrace` | crates/greentyper-core/src/agent_team.rs:2655-2738 | the events the scheduler emits, replayed, are exactly what it did to the state |
| `TeamDispatch.CommandAccepted` | crates/greentyper-core/src/agent_team.rs:994-1051 | whatever command is planned, the state accepts it |
| `TeamDispatch.OperationAccepted` | crates/greentyper-core/src/agent_team.rs:956-973 | a planned operation is accepted exactly when its journal entry fits, and refused otherwise |
| `TeamDispatch.AcknowledgementAccepted` | crates/greentyper-core/src/agent_team.rs:974-993 | a planned acknowledgement is accepted exactly when its journal entry fits |
| `TeamDispatch.PlanIgnoresJournal` | crates/greentyper-core/src/agent_team.rs:994-1051 | planning never depends on the operation journal |
| `TeamRuns.AcknowledgedAlone` | crates/greentyper-core/src/agent_team.rs:2740-2788 | on a live runtime an acknowledgement is alone in its transaction, as the framing check demands |
| `TeamRuns.PerformDecided` | crates/greentyper-core/src/agent_team.rs:1586-1652 | a planned request is carried out exactly when its journal entry fits and identifiers remain; the scheduler and the checks never refuse it; the log grows by exactly the framed events |
| `TeamRuns.PerformKeepsLive` | crates/greentyper-core/src/agent_team.rs:1596-1694 | every request leaves the runtime sound, quiescent, and with its counters one past the largest identifier |
| `TeamRuns.RunStaysLive` | crates/greentyper-core/src/agent_team.rs:946-993 | so does every sequence of requests |
| `TeamJournal.RunKeepsJournal` | crates/greentyper-core/src/agent_team.rs:2390-2458 | no sequence of requests drops an operation, moves it to another transaction, or changes the record of an acknowledged one |
| `TeamJournal.AcknowledgedAtMostOnce` | crates/greentyper-core/src/agent_team.rs:2390-2458 | over the log of every run no operation is acknowledged twice, and every acknowledgement in the log is the one the journal holds |
| `TeamRecovery.QuiescentUnderInferredLimit` | crates/greentyper-core/src/agent_team.rs:1155-1298 | the limit a replay infers never exceeds the live one and a live state is quiescent under it, so the check cannot reject a live log |
| `TeamRecovery.ReplayAllExtends` | crates/greentyper-core/src/agent_team.rs:1155-1298 | replaying a longer log goes through the state its prefix reaches |
| `TeamRecovery.RecoverRebuildsRun` | crates/greentyper-core/src/agent_team.rs:1155-1298 | after any requests, recovery under the original or a larger limit gives the same state, log and next identifiers exactly when the log is shorter than the last sequence number, and an error otherwise |
| `TeamRecovery.AcknowledgeAfterRecovery` | crates/greentyper-core/src/agent_team.rs:2740-2788 | right after recovery under a larger limit an acknowledgement is accepted exactly when no ready task waits for one of the new slots |
| `TeamCrowding.CrowdedOut` | crates/greentyper-core/src/agent_team.rs:2740-2788 | the refusing side is reached: a two-request run whose operation can be acknowledged where it was made, yet recovered with one Active slot more to the same state, can no longer be |
| `TeamDelegation.DelegationConserves` | crates/greentyper-core/src/agent_team.rs:2582-2615 | in every reachable runtime and for every agent, unreserved budget summed over its subtree is exactly the budget it was given, on both axes |
| `TeamDelegation.EveryoneBelowRoot` | crates/greentyper-core/src/agent_team.rs:2503-2520 | every agent is in the root's subtree, so the walk over ancestors ends there |
| `TeamDelegation.AuthorityNarrows` | crates/greentyper-core/src/agent_team.rs:1345-1425 | along every chain of parents, of any length, capabilities and scope only shrink |
| `TeamDelegation.LiveChainBounded` | crates/greentyper-core/src/agent_team.rs:2616-2623 | in every reachable runtime each strict ancestor of an unfinished agent is Active, the root is running while anyone is unfinished, and no unfinished agent is deeper than the Active limit |
| `TeamDelegation.RunIsSafe` | crates/greentyper-core/src/agent_team.rs:2468-2484 | in every reachable runtime each started task has all its dependencies succeeded and authority has only narrowed |
| `TeamDelegation.PerformKeepsSuccess` | crates/greentyper-core/src/agent_team.rs:2194-2363 | no request, retries and cancellations included, moves a succeeded task |
| `TeamDelegation.RunKeepsSuccess` | crates/greentyper-core/src/agent_team.rs:2194-2363 | nor does any sequence of requests |
| `TeamRuntime.TeamState.Apply` | crates/greentyper-core/src/agent_team.rs:1900-2460 | the update in place ends with the answer and the state the specification gives, for each of the 21 kinds of event |
| `TeamRuntime.RunScheduler` | crates/greentyper-core/src/agent_team.rs:2655-2727 | the two scheduler loops compute the specified schedule and emit its events |
| `TeamRuntime.TeamRuntime.PrepareEvents` | crates/greentyper-core/src/agent_team.rs:1596-1652 | preparing works on a copy: the runtime is untouched and the prepared transaction is the specified one |
| `TeamRuntime.TeamRuntime.Publish` | crates/greentyper-core/src/agent_team.rs:1670-1694 | publishing moves log, state and counters together |
| `TeamRuntime.TeamRuntime.Perform` | crates/greentyper-core/src/agent_team.rs:946-993 | a request carried out gives exactly the specified next runtime, a refused one changes nothing |
| `TeamRuntime.ReplayLog` | crates/greentyper-core/src/agent_team.rs:1155-1298 | the outer recovery loop folds whole transactions exactly as the specification does |
| `TeamRuntime.ReplayTransaction` | crates/greentyper-core/src/agent_team.rs:1170-1270 | one transaction is replayed on a copy, and the cursor always moves on within the log |
| `TeamRuntime.Recover` | crates/greentyper-core/src/agent_team.rs:1155-1298 | recovery returns a fresh runtime equal to the specified one, or its error |
| `Crc.ComputeCrc32c` | crates/greentyper-core/src/ledger.rs:787-797 | the branch-free loop computes CRC32C as section 12.1 of RFC 3720 defines it by shift and conditional exclusive-or |
| `Crc.BitInvertible` | crates/greentyper-core/src/ledger.rs:787-797 | one bit step of the register can be undone |
| `Crc.BitLinear` | crates/greentyper-core/src/ledger.rs:787-797 | the bit step distributes over exclusive-or |
| `Crc.WindowAsWord` | crates/greentyper-core/src/ledger.rs:787-797 | feeding up to four bytes is mixing their word in once and shifting it through |
| `Crc.ShortChangeDetected` | crates/greentyper-core/src/ledger.rs:787-797 | two inputs of equal, arbitrary length that differ only inside four consecutive bytes never have the same checksum |
| `LedgerScan.TransactionRoundTrip` | crates/greentyper-core/src/ledger.rs:551-725 | whatever append writes as a body decodes, at the same head, to exactly that transaction with its numbering and payload total |
| `LedgerScan.ScanPassesImage` | crates/greentyper-core/src/ledger.rs:423-517 | the scan of any file starting with accepted frames goes through exactly their state first |
| `LedgerScan.WholeScan` | crates/greentyper-core/src/ledger.rs:423-517 | the file of any accepted appends scans back to exactly their events, head and totals |
| `LedgerScan.TornTail` | crates/greentyper-core/src/ledger.rs:423-517 | cut at any byte from the header on, the scan never reports damage, returns exactly the transactions wholly before the cut, and truncating there rescans to the same with no tail |
| `LedgerScan.ShortDamageRejected` | crates/greentyper-core/src/ledger.rs:481-492 | a change inside four consecutive bytes of any stored body is always reported as a checksum error at that frame, whatever follows |
| `LedgerModel.AppendAccepted` | crates/greentyper-core/src/ledger.rs:218-278 | an unpoisoned handle accepts a transaction exactly when it is at the head and a later scan would accept it; the receipt numbers it next |
| `LedgerModel.TornHeader` | crates/greentyper-core/src/ledger.rs:365-413 | a header torn by a crash is refused at every length but none and all; an empty file opens only when it may be created |
| `LedgerRuns.ReceiptsSurvive` | crates/greentyper-core/src/ledger.rs:105-153 | after any appends, failed writes, power losses and reopens, a repairing open recovers every receipted transaction, in order, at its number, and each failed one wholly or not at all |
| `LedgerRuns.ReceiptsPresent` | crates/greentyper-core/src/ledger.rs:218-278 | receipts name distinct rising transactions that hold exactly the events they were given for |
| `LedgerRuns.MemoryIsScan` | crates/greentyper-core/src/ledger.rs:218-278 | while a handle is usable its head, events and payload total are exactly a scan of its file |
| `LedgerRuns.PoisonLasts` | crates/greentyper-core/src/ledger.rs:218-278 | after a failed write nothing more is written or receipted on that handle |
| `LedgerRuns.HistoryGrows` | crates/greentyper-core/src/ledger.rs:218-278 | attempts and receipts are never forgotten or reordered |
| `LedgerRuns.RunLasts` | crates/greentyper-core/src/ledger.rs:105-278 | the invariant behind these over every run: the synced part of the file covers every receipt |
| `FileLedger.BodyCursor.Take` | crates/greentyper-core/src/ledger.rs:741-755 | a slice is taken exactly when it lies in the body, and only then does the cursor move |
| `FileLedger.BodyCursor.Field` | crates/greentyper-core/src/ledger.rs:757-779 | a fixed-width field is read at the cursor, little-endian |
| `FileLedger.BodyCursor.NextEvent` | crates/greentyper-core/src/ledger.rs:666-715 | one event is read and checked, and the cursor stands after its payload |
| `FileLedger.DecodeBody` | crates/greentyper-core/src/ledger.rs:619-725 | the cursor pass decodes a body exactly as the specification does, with the same error at the same offset |
| `FileLedger.ScanTransactions` | crates/greentyper-core/src/ledger.rs:423-517 | the scan loop returns exactly the specified scan or its error |
| `FileLedger.CheckEvents` | crates/greentyper-core/src/ledger.rs:530-549 | events are refused exactly when the specification refuses them |
| `FileLedger.BuildTransaction` | crates/greentyper-core/src/ledger.rs:551-611 | frame, stored events and receipt are built in one pass as specified |
| `FileLedger.FileLedger.AppendWithIo` | crates/greentyper-core/src/ledger.rs:218-278 | file, handle and answer become exactly what the append specification gives for how the write ended |
| `FileLedger.OpenWithPolicy` | crates/greentyper-core/src/ledger.rs:105-153 | opening in place leaves exactly the specified file and handle: header created, torn tail cut or refused |
| `ToolRuns.AtMostOnce` | crates/greentyper-core/src/tool_runtime.rs:851-972 | over any run of requests, resolutions, reconciliations, crashes and reopens the executor runs at most once per call and per identity, only for the approved arguments, and only once grant and preparation are durable |
| `ToolRuns.MemoryIsReplay` | crates/greentyper-core/src/tool_runtime.rs:1411-1440 | a running, unpoisoned runtime remembers exactly what its ledger replays to, and a closed one always reopens to it |
| `ToolRuns.FinalForever` | crates/greentyper-core/src/tool_runtime.rs:1233-1376 | a durably denied, succeeded or failed call has the same record in every later state of any run |
| `ToolRuns.KernelOnePending` | crates/greentyper-core/src/runtime.rs:1114-1170 | through the kernel's guards at most one call is ever without a durable outcome, in the ledger and in memory |
| `ToolRuns.TwoPendingWithoutGuard` | crates/greentyper-core/src/runtime.rs:1685-1694 | the guard is needed: without it a concrete run leaves two calls pending |
| `ToolRuns.RequestIsIdempotent` | crates/greentyper-core/src/tool_runtime.rs:747-798 | a new identity is planned exactly when valid, authorised, nothing pending and identifiers left; asking again writes nothing and gives the same approval request |
| `ToolRuns.IdentityDecides` | crates/greentyper-core/src/tool_runtime.rs:747-798 | an identity in use never makes a second call: it conflicts exactly when agent, tool, arguments or resources differ |
| `ToolRuns.ResolveAccepted` | crates/greentyper-core/src/tool_runtime.rs:877-903 | who may resolve: exactly the session it was made for, still authorised, on a call still awaiting approval with the same arguments and resources |
| `ToolRuns.GrantSettles` | crates/greentyper-core/src/tool_runtime.rs:890-972 | an accepted and written grant runs the executor exactly once and always reaches an outcome of the executor's kind |
| `ToolRuns.OutcomeApplies` | crates/greentyper-core/src/tool_runtime.rs:912-970 | every outcome, oversized output included, can be recorded for a pending call |
| `ToolRuns.ReconcileSettles` | crates/greentyper-core/src/tool_runtime.rs:974-1014 | reconciling a pending call settles it as observed, a settled one answers itself, any other is refused |
| `ToolRuntime.ToolState.ApplyEvent` | crates/greentyper-core/src/tool_runtime.rs:1233-1376 | the update in place is the specified transition or its error |
| `ToolRuntime.ReplayState` | crates/greentyper-core/src/tool_runtime.rs:1411-1440 | replay groups stored events by transaction and rebuilds the specified state on a copy |
| `ToolRuntime.ReplayFramesAgree` | crates/greentyper-core/src/tool_runtime.rs:1411-1440 | replay frame by frame is replay of the transactions that were written |
| `ToolRuntime.DurableToolRuntime.AppendEvents` | crates/greentyper-core/src/tool_runtime.rs:1058-1082 | the copy becomes the state only after the append; a failed append leaves the state object untouched |
| `ToolRuntime.DurableToolRuntime.RequestCall` | crates/greentyper-core/src/tool_runtime.rs:747-798 | the request in place changes ledger and memory exactly as the run model says |
| `ToolRuntime.DurableToolRuntime.ResolveCall` | crates/greentyper-core/src/tool_runtime.rs:851-972 | resolve in place, the executor's run included, is the run model's step |
| `ToolRuntime.DurableToolRuntime.ReconcileCall` | crates/greentyper-core/src/tool_runtime.rs:974-1014 | reconcile in place is the run model's step |
| `UsageModel.QuantityAdds` | crates/greentyper-core/src/usage.rs:530-558 | a quantity's observe and merge add unbounded tallies, with overflow shown exactly when a true sum exceeds 64 bits |
| `UsageModel.RatioObserves` | crates/greentyper-core/src/usage.rs:612-651 | observing a ratio adds to its unbounded tally, overflow of either sum included |
| `UsageModel.RatioMerges` | crates/greentyper-core/src/usage.rs:653-701 | so does merging two, numerator and denominator overflowing together |
| `UsageModel.BasisPoints` | crates/greentyper-core/src/usage.rs:703-711 | a ratio has basis points exactly when its denominator is not zero and the numerator does not exceed it, and they fit 16 bits |
| `UsageModel.DistributionObserves` | crates/greentyper-core/src/usage.rs:807-815 | observing a value adds one to its count, saturating |
| `UsageModel.DistributionMerges` | crates/greentyper-core/src/usage.rs:817-824 | merging distributions adds counts value by value, saturating |
| `UsageModel.CostObserved` | crates/greentyper-core/src/usage.rs:760-771 | observing a cost adds to its currency's tally alone |
| `UsageModel.CostsAdd` | crates/greentyper-core/src/usage.rs:773-788 | merging costs adds currency by currency |
| `UsageRollup.ObserveAdds` | crates/greentyper-core/src/usage.rs:975-1031 | observing an attempt adds exactly what it contributes to all 22 fields of a rollup |
| `UsageRollup.EvaluateAdds` | crates/greentyper-core/src/usage.rs:1051-1059 | pricing an attempt follows the true tally exactly while the count of unpriced attempts has not passed 64 bits, and not beyond |
| `UsageRollup.MergeAdds` | crates/greentyper-core/src/usage.rs:1061-1099 | merging two rollups is the rollup of both |
| `UsageRollup.MergeIsCommutativeMonoid` | crates/greentyper-core/src/usage.rs:1061-1099 | merge is commutative and associative with the empty rollup as unit, overflow and saturation included |
| `UsageRollup.SumEvaluated` | crates/greentyper-core/src/usage.rs:1499-1540 | pricing one attempt changes exactly the scopes it belongs to |
| `UsageProjection.ObserveTracks` | crates/greentyper-core/src/usage.rs:1463-1497 | recording keeps every cached scope equal to a direct fold over its attempts |
| `UsageProjection.EvaluateTracks` | crates/greentyper-core/src/usage.rs:1499-1540 | so does pricing, and every scope to update is present |
| `UsageProjection.Projection.Record` | crates/greentyper-core/src/usage.rs:1463-1497 | a new attempt is recorded once, a second of the same name changes nothing, and all caches stay equal to the folds |
| `UsageProjection.Projection.RecordCostEvaluation` | crates/greentyper-core/src/usage.rs:1499-1540 | exactly the named unpriced attempt is priced, unknown or repeated evaluations change nothing, and all caches stay equal to the folds |
| `UsageProjection.Projection.Rolling` | crates/greentyper-core/src/usage.rs:1637-1648 | merging cached instants gives the direct fold over the attempts started in the half-open window |
| `UsageProjection.PagesCover` | crates/greentyper-core/src/usage.rs:1567-1608 | following cursors visits every attempt once, in order, for every page size |
| `Context.ViewAccepted` | crates/greentyper-core/src/context.rs:353-388 | a view exists exactly for at most 4096 strictly rising items of at most 512 KiB, with exact totals |
| `Context.RecentStartIsLongest` | crates/greentyper-core/src/context.rs:409-442 | the raw tail is the longest suffix meeting both limits |
| `Context.ReductionAccepted` | crates/greentyper-core/src/context.rs:676-713 | a reduction exists exactly for at most 4096 rising items; references then raw items cover the input in order, and the tokens the references stand for plus those left raw are all the tokens |
| `Context.ReduceAgrees` | crates/greentyper-core/src/context.rs:409-442 | view then reduce equals reducing directly whenever the view exists |
| `Context.ValidateMeans` | crates/greentyper-core/src/context.rs:766-789 | a stored reduction is accepted exactly when it refers to the first items by content and repeats the rest |
| `Context.ReductionValidates` | crates/greentyper-core/src/context.rs:766-789 | every reduction is accepted against the items it was made from |
| `Context.MaterializeStable` | crates/greentyper-core/src/context.rs:791-862 | while items only rise, materialising an accepted reduction fails only on count or visible bytes; what is visible is the history after the references without leading assistant items, and archived plus visible is everything |
| `Context.UnreducedAgrees` | crates/greentyper-core/src/context.rs:618-647 | with nothing referred to, materialising equals a view of the whole conversation |
| `Context.BuildView` | crates/greentyper-core/src/context.rs:353-388 | the projection loop computes the specified view or its first error |
| `Context.FindRecentStart` | crates/greentyper-core/src/context.rs:409-442 | the backwards loop finds the specified start |
| `Context.ReadStored` | crates/greentyper-core/src/context.rs:715-763 | both reading loops accept and total exactly as specified |
| `Context.MaterializeRequest` | crates/greentyper-core/src/context.rs:791-862 | check, extension, dropping and totalling give the specified request or error |
| `Pricing.OverlapMeansAmbiguity` | crates/greentyper-core/src/pricing.rs:282-302 | the pairwise test is exact: two schedules overlap exactly when some attempt would be priced by both |
| `Pricing.BookAccepted` | crates/greentyper-core/src/pricing.rs:393-411 | a book is made exactly of at most 256 distinctly named schedules without ambiguity, and the overlap error reports exactly ambiguity |
| `Pricing.DefinitionsAccepted` | crates/greentyper-core/src/pricing.rs:136-175 | from arbitrary definitions a book comes out exactly when no range is empty, no identifier repeats, at most 256 are given and no attempt is ambiguous; nothing else about the schedules matters |
| `Pricing.OrderIrrelevant` | crates/greentyper-core/src/pricing.rs:393-411 | the order schedules are given in never changes the outcome |
| `Pricing.NewBook` | crates/greentyper-core/src/pricing.rs:393-411 | the sort and the two loops compute the specified book or error |
| `Pricing.PricedExactly` | crates/greentyper-core/src/pricing.rs:304-384 | a known amount is the exact sum of tokens times rates, and overflow is reported exactly when that sum exceeds 64 bits |
| `Pricing.ReasoningSplitIrrelevant` | crates/greentyper-core/src/pricing.rs:304-384 | with equal output and reasoning rates a missing reasoning count prices like every valid split |
| `Pricing.MissingCacheWriteIsUpperBound` | crates/greentyper-core/src/pricing.rs:304-384 | with free cache writes a missing count never prices lower than any count would |
| `Pricing.ScheduleUnique` | crates/greentyper-core/src/pricing.rs:418-455 | at most one schedule of a book applies to an attempt, and it alone decides the cost |
| `Pricing.NoneApplies` | crates/greentyper-core/src/pricing.rs:418-455 | when none applies the reason names what is missing |
| `KernelInvariant.ApplyKeeps` | crates/greentyper-core/src/runtime.rs:3583-4191 | every accepted event keeps pending Turn, Turn records, items, attempts and costs consistent |
| `KernelInvariant.ApplyAdvances` | crates/greentyper-core/src/runtime.rs:3583-4191 | every accepted event only adds: items, snapshots, acknowledgements and attempts grow, finished Turns stay |
| `KernelInvariant.FallbackProgress` | crates/greentyper-core/src/runtime.rs:3986-4026 | the fallback index moves only by one, only on a request, only off a retryable Provider block, and stays within the frozen plan |
| `KernelInvariant.NumberedKeeps` | crates/greentyper-core/src/runtime.rs:4353-4359 | every identifier in use stays below its counter |
| `KernelRuns.PlansLive` | crates/greentyper-core/src/runtime.rs:1000-1038 | every planned transaction names items in rising order, and a checkpoint in it is alone and bound to the head |
| `KernelRuns.RunSafe` | crates/greentyper-core/src/runtime.rs:2581-2598 | the run invariant: every prefix of the log replays to a consistent state at rest and memory is such a replay |
| `KernelRuns.ReplayIsLive` | crates/greentyper-core/src/runtime.rs:4322-4351 | over any run with failed writes, crashes and reopens, an unpoisoned kernel's state is exactly the replay of its log and a closed one reopens to it |
| `KernelRuns.TurnsLiveOnce` | crates/greentyper-core/src/runtime.rs:4193-4261 | at rest every Turn is exactly one of pending, completed and cancelled; completed means its delivery was acknowledged; attempts are numbered without gaps; every price is the recomputation from a frozen candidate |
| `KernelRuns.ActiveIsCandidate` | crates/greentyper-core/src/runtime.rs:1812-1852 | the pending snapshots are always those of the candidate at the durable fallback index |
| `KernelRuns.ContextNeverLost` | crates/greentyper-core/src/runtime.rs:2210-2285 | in every run items rise and the context of an unprepared Turn can always be made, however old the checkpoint |
| `KernelRuns.ContextRefusedForSizeOnly` | crates/greentyper-core/src/runtime.rs:2266-2285 | before a new Turn the context is refused for size only, never because a checkpoint stopped matching |
| `KernelRuns.ReplayGrows` | crates/greentyper-core/src/runtime.rs:4322-4351 | every later state of a log keeps what every earlier one had |
| `KernelRuns.DurableForever` | crates/greentyper-core/src/runtime.rs:2581-2598 | what a run made durable every later point still has, crashes included |
| `KernelAccepted.FallbackAccepted` | crates/greentyper-core/src/runtime.rs:1812-1852 | an advance is planned exactly when a candidate is left behind a retryable block of the right agent, and it commits to precisely the next candidate |
| `KernelAccepted.RetryAccepted` | crates/greentyper-core/src/runtime.rs:1738-1767 | a planned retry always commits and re-admits the same candidate |
| `KernelAccepted.CancelAccepted` | crates/greentyper-core/src/runtime.rs:1707-1736 | a planned cancellation always commits and ends the Turn without output |
| `KernelAccepted.AcknowledgeAccepted` | crates/greentyper-core/src/runtime.rs:1621-1648 | a planned acknowledgement always commits and completes the Turn; repeating it writes nothing |
| `KernelAccepted.BoundedReasonValid` | crates/greentyper-core/src/runtime.rs:2807-2825 | whatever a failure says, its bounded reason is one the state accepts |
| `KernelAccepted.FinishApplies` | crates/greentyper-core/src/runtime.rs:2504-2568 | finishing an attempt, priced from the frozen book, always passes the recomputation check |
| `KernelAccepted.FinishAndBlockAccepted` | crates/greentyper-core/src/runtime.rs:2482-2503 | finishing and blocking always commits and leaves the Turn blocked on the same candidate |
| `KernelAccepted.BeginAccepted` | crates/greentyper-core/src/runtime.rs:2401-2439 | beginning an attempt always commits while numbers are left; one left open by a crash is first finished as interrupted |
| `KernelAccepted.CheckpointAccepted` | crates/greentyper-core/src/runtime.rs:990-1013 | between Turns a checkpoint can be prepared exactly while there are at most 4096 items; one published at the head it was made at always commits and changes only the checkpoint, at any other head it is refused as stale |
| `KernelAdmission.PrepareAccepted` | crates/greentyper-core/src/runtime.rs:2306-2399 | output within its frozen limit always commits in one transaction with the next item and delivery |
| `KernelAnswer.Validate` | crates/greentyper-core/src/runtime.rs:2678-2741 | the loop over a Provider's events computes the specified answer or its first fault |
| `KernelAnswer.AnswerAccepted` | crates/greentyper-core/src/runtime.rs:2678-2741 | events are an answer exactly when they end in their only completion, no text is empty, at most one Tool is called, the text fits the frozen limit, and there is a call or something to read; the answer is their texts in order, their call and their usage |
| `KernelAdmission.AdmitAccepted` | crates/greentyper-core/src/runtime.rs:1873-2030 | an admission passing the driver's checks commits exactly while identifiers are left and the configuration layers allow the plan; every candidate's snapshots are then frozen as its own under fresh identifiers, the Turn is pending on the primary candidate and its user item is the latest |
| `KernelHistory.RunStaysSane` | crates/greentyper-core/src/runtime.rs:1873-2030 | a run whose admissions bring configurations as freezing makes them holds only such configurations, in its log and in memory |
| `KernelHistory.AttemptsPricedAtOnce` | crates/greentyper-core/src/runtime.rs:2504-2568 | in the log of every run each finished attempt is directly followed by its cost, and no other cost is ever recorded |
| `KernelHistory.RunCheckpoints` | crates/greentyper-core/src/runtime.rs:990-1013 | in every run, between Turns and with at most 4096 items, a checkpoint prepared under any policy and published at once commits |
| `KernelUsage.FinishRecords` | crates/greentyper-core/src/runtime.rs:4050-4132 | applying a finished attempt adds one attempt under a name not used before, unpriced, each window once: what recording asks for |
| `KernelUsage.CostEvaluates` | crates/greentyper-core/src/runtime.rs:4137-4188 | applying a cost prices an attempt recorded and not yet priced, with the recomputed cost: what evaluating asks for |
| `KernelUsage.Feed` | crates/greentyper-core/src/runtime.rs:4050-4188 | recording and pricing never refuse what an accepted event brings, and the projection keeps holding the state's attempts |
| `KernelUsage.FeedLog` | crates/greentyper-core/src/runtime.rs:4322-4351 | fed a whole log the projection holds exactly the replayed attempts, every cache being the fold over them |
| `KernelUsage.ProjectRun` | crates/greentyper-core/src/runtime.rs:4322-4351 | over every run the log feeds a projection to exactly the attempts memory holds, with total, thread, turn, agent, window and instant caches equal to the folds |
| `KernelState.RuntimeState.ApplyEvent` | crates/greentyper-core/src/runtime.rs:3583-4191 | the update in place is the specified transition or its error, for every kind of event |
| `KernelRuntime.ReplayRuntime` | crates/greentyper-core/src/runtime.rs:4322-4351 | the nested replay loops rebuild the specified state, checking rest after each group |
| `KernelRuntime.GroupsReplay` | crates/greentyper-core/src/runtime.rs:4322-4351 | grouping a stored log by transaction number accepts what replay by transactions accepts, with the same state |
| `KernelRuntime.LogReplaysToMemory` | crates/greentyper-core/src/runtime.rs:4322-4351 | replaying the stored log of any run gives exactly the state in memory |
| `KernelRuntime.RuntimeKernel.CommitEvents` | crates/greentyper-core/src/runtime.rs:2581-2598 | events are applied to a copy, checked, appended, and only then published; any failure leaves the state as it was |
| `KernelRuntime.RuntimeKernel.Act` | crates/greentyper-core/src/runtime.rs:2581-2598 | each operation in place is the run model's step |
| `KernelFallback.ContextReadiness` | crates/greentyper-core/src/runtime.rs:2210-2264 | at rest an admitted Turn always has its request context, unless its frozen configuration is not of the executable mode |
| `KernelFallback.CheckPlan` | crates/greentyper-core/src/runtime.rs:1777-1795 | the plan is refused exactly when its size is wrong or, pair by pair, some Provider is not the candidate's |
| `KernelFallback.AdmittedServed` | crates/greentyper-core/src/runtime.rs:1797-1811 | right after admission the Turn is at its primary candidate with no attempt yet, and every frozen candidate is executable and matches the Provider given for it |
| `KernelFallback.DrivePending` | crates/greentyper-core/src/runtime.rs:2031-2086 | each result has its exact cause: no context, a Provider that is not the frozen one, a failed Provider, an answer refused for that fault, a Tool the text-only interface refuses, or output prepared; the first two change nothing, the next three leave the Turn blocked on the same candidate at the reported stage |
| `KernelFallback.ExecuteWithFallbacks` | crates/greentyper-core/src/runtime.rs:1221-1259 | from admission on: refused before admission exactly for an invalid or mismatched plan; the loop ends; candidates are driven at most once in plan order; its local index equals the durable one; once admitted neither context nor identity can fail; a Provider failure is reported only when none is left or the stage forbids another |
| `Utf8.DecodesExactly` | crates/greentyper-core/src/runtime.rs:5406-5417 | bytes read as a text exactly when they are that text in UTF-8 as RFC 3629 defines it |
| `Utf8.EncodedLength` | crates/greentyper-core/src/runtime.rs:5345-5350 | a text's length in bytes is what its length field counts |
| `RuntimeCodec.UsageInverse` | crates/greentyper-core/src/runtime.rs:4490-4550 | usage records: reading gives back exactly what was written for valid records and accepts nothing else |
| `RuntimeCodec.CheckpointWritten` | crates/greentyper-core/src/runtime.rs:4381-4411 | a checkpoint made from its stored parts reads back |
| `RuntimeCodec.CheckpointRead` | crates/greentyper-core/src/runtime.rs:4413-4471 | whatever reads as a checkpoint is one that writes back to the same bytes |
| `EventCodec.DecodesItself` | crates/greentyper-core/src/runtime.rs:2965-3163 | an encoded event decodes to itself exactly when it is within the decoder's bounds; within them encoding never fails |
| `EventCodec.DecodedReencodes` | crates/greentyper-core/src/runtime.rs:3165-3370 | no other bytes decode to an event: decoding then encoding gives the same kind and payload |
| `RuntimeCursor.Encoder.Text` | crates/greentyper-core/src/runtime.rs:5345-5350 | a text is appended with its length, or refused exactly when 32 bits cannot count it |
| `RuntimeCursor.Encoder.UsageRecord` | crates/greentyper-core/src/runtime.rs:4490-4509 | appends exactly the specified bytes of a usage record |
| `RuntimeCursor.Encoder.AttemptStarted` | crates/greentyper-core/src/runtime.rs:3093-3101 | appends exactly the bytes of a started attempt |
| `RuntimeCursor.Encoder.ContextCheckpoint` | crates/greentyper-core/src/runtime.rs:4381-4411 | the two loops append exactly the specified bytes of a checkpoint |
| `RuntimeCursor.Decoder.Take` | crates/greentyper-core/src/runtime.rs:5371-5382 | a slice is taken exactly when that many bytes are left, and the position moves past it |
| `RuntimeCursor.Decoder.Text` | crates/greentyper-core/src/runtime.rs:5406-5417 | reads exactly the specified text: bounded, whole, and UTF-8 |
| `RuntimeCursor.Decoder.ContextCheckpoint` | crates/greentyper-core/src/runtime.rs:4413-4471 | the counted loops read exactly the specified checkpoint or its error |
| `RuntimeCursor.Decoder.Finish` | crates/greentyper-core/src/runtime.rs:5419-5427 | bytes left over are an error |
| `KernelLog.AcceptedInBounds` | crates/greentyper-core/src/runtime.rs:3583-4191 | an event the kernel accepts is within the decoder's bounds, given only what constructing its parts guarantees |
| `KernelLog.ReductionStorable` | crates/greentyper-core/src/runtime.rs:990-1013 | every reduction of a conversation's items can be stored as a checkpoint and read back |
| `KernelLog.PlansWellMade` | crates/greentyper-core/src/runtime.rs:2504-2568 | every planned event keeps what constructing its parts guarantees |
| `KernelLog.RestartFromBytes` | crates/greentyper-core/src/runtime.rs:2581-2598 | over any run the log encodes, decodes to itself, and replays to what an unpoisoned kernel still remembers |
| `Codebooks.FaithfulExists` | crates/greentyper-core/src/runtime.rs:2965-3163 | some faithful codebook stores any given configuration, provider and digest, so nothing proved of faithful codebooks is empty |
| `KernelRestart.LedgerReads` | crates/greentyper-core/src/runtime.rs:4322-4351 | the events a ledger of these frames holds decode, with their numbering, to the kernel's log |
| `KernelRestart.GuardIsLedger` | crates/greentyper-core/src/ledger.rs:218-278 | one more transaction can be held exactly when the ledger's append accepts its frame at its head |
| `KernelRestart.GuardedHolds` | crates/greentyper-core/src/ledger.rs:218-278 | a run whose ledger refuses what has no room, before a byte is written, always leaves a log that ledger holds |
| `KernelRestart.CutFileRestarts` | crates/greentyper-core/src/runtime.rs:4322-4351 | over any run against a ledger with its own limits, cut its file at any byte from the header on: scan, decode and replay succeed, with exactly the state after the last transaction wholly before the cut |
| `KernelRestart.FileRestarts` | crates/greentyper-core/src/runtime.rs:4322-4351 | over any such run the uncut file restarts to exactly what an unpoisoned kernel has in memory |

## Left out

- File system calls, locks, permissions, path checks, `sync_data`: a write is an abstract step that is refused, kept up to some prefix, or synced.
- `DurableTeamRuntime` and the persistence of Team events: not part of this model; the Team log is a sequence of events.
- The Provider decoders, the configuration editor, layering of configuration, HTTP, credentials, the command line and every user interface.
- SHA-256, JSON canonicalisation and the Tool event payload codec: arguments and resources carry their digest as a number about which nothing is assumed.
- Time zones and `UsageWindow::contains`: which windows contain an instant is an input.
- `ContextPressure::project`: admission takes whether pressure is hard as an input.
- Config and Provider Epoch encodings: parameters of the codec; an epoch is asked only to decode to itself.
- EventCodec.DecodesItself: events of schemas 1 to 13 are refused here, where the program still reads them, and the encodings of the two epochs are parameters; the legacy usage and legacy block branches are therefore not modelled, nor is `cost_evaluation_required`, always true at the current schema.
- EventCodec.DecodedReencodes: does not cover the two epoch events, whose encodings are parameters.
- KernelFallback.DrivePending: the text-only interface alone; in the interactive one (runtime.rs 2088-2207) a Tool call parses arguments, maps resources and asks for approval, which is not part of this model.
- KernelFallback.ExecuteWithFallbacks: what resolving layers, selections and presets into candidates checks before admission is not part of this model.
- Pricing.DefinitionsAccepted: the syntax of a schedule's texts, its trusted source and its fingerprint are not modelled; only its two ranges can be refused.
- Text in the Team model is a token with its lengths; which of several faults of one text or intent is reported first is not distinguished.
- Validation failures of a whole Team state, and corrupt kernel events, each carry one error, without the message naming the rule.
- Team capsules: their lists are a count and a total size.
- `DelegateWithModelPreset` and `Delegate` are one command with an optional preset.
- Session and outcome values a Team command returns, snapshots, and Display texts.
- The kernel's Team is not composed with the kernel's own runs; its Tool calls are composed only through the guards that serialise them.
- KernelUsage.Feed: the program keeps the projection inside the conversation state; here that state holds the attempts and the projection is fed beside it.
- Usage reports: summary fields other than the rollups they copy, and the textual form of a cursor.
- UsageRollup: a rollup is a value the projection's methods replace in their maps, so aliasing between rollups is not modelled.
- TeamPlan.Recover: its errors carry the transaction or sequence number, not the positions and sizes the program also reports, and running out of runtime authorities is not modelled.
- KernelPlan.ReplayTransaction: checks a checkpoint's binding before applying any event of its transaction; `KernelRuntime.ReplayRuntime` checks it event by event, as the program does.
