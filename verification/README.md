# V-Loop control plane: verified model

V-Loop runs a bounded task through a typed graph that is compiled from a contract. This project models
the deterministic core of that control plane and proves what it is for. It has five parts.

**The graph kernel.** `Paths`, `Search` and `Tarjan` give directed graphs, path existence, the worklist
searches and the depth-first search for cyclic components, each proved against paths. `GraphSchema`,
`Manifest` and `StaticCheck` hold the typed graph and the static check, whose verdict is equated with
declarative conditions. `Monitor` is the transition system with two-phase steps and ALL, ANY and threshold
joins. `ControlGraph`, `ControlGraphShape`, `ControlGraphValid` and `ControlGraphAccepted` lay out the graph
of a contract of any size and prove when the check accepts it; `CompiledSafety` proves what every run of such
a graph guarantees, `CompiledReach` that its ends can be reached, and `StaticSoundness` and `StaticMeaning` what the
check guarantees for manifests nobody compiled, at run time and along every path. `CompiledContents` reads the nodes and edges of a compiled graph off its contract.
`Attestations`, `Scheduler` and `SchedulerSafety` are the durable scheduler over interleaved runs and
iterations, `SchedulerExactness` what each call leaves behind, `SchedulerOverlay` a run of it; `Certificate`, `CertificateReplay` and `CertifiedRuns` replay its traces and carry safety through
to a certificate, and `AttestedRuns` traces acceptance back to what the owners of the nodes signed.

**Effects at most once.** `EffectStore` and `EffectProtocol` are the idempotency and nonce stores and the
enforcement point as small steps of many callers with crashes and lease expiry; `EffectExactness` writes an
undisturbed execution out and says what a crash leaves. `RunState`,
`ControllerProtocol`, `ControllerSafety`, `ControllerDecisions`, `ControllerAccounting`, `ControllerEvidence` and
`ControllerExactness` are the compare-and-swap checkpoints and the controllers that share them: what every
run keeps, what stands behind each dispatch and decision, and for which contracts. `ControllerExecution` writes
a whole call out, and `Controller` is the controller object, proved against both.

**Authority.** `Prefixes` gives path prefixes their meaning in components. `Authority` and `ContractCompiler`
intersect overlapping server authorities into rules; `PolicyGate` enforces the rules, consumes approvals and
spends the budgets. `CompilerExactness` and `GateExactness` write out what both decide.

**Evidence.** `Completion` decides the task from the freshest receipts, `HybridVerification` compares the
phased verifier with an exhaustive one, `Provenance` checks and builds argument provenance graphs.

**The ledger.** `Ledger` is the hash chain and its lease outbox.

Each `BEGIN IMMEDIATE ... COMMIT` block is one atomic step and each `ROLLBACK` is no change. Times are
arbitrary inputs. The classes follow the objects of the source; their methods are proved against
functions over the stored values, and those functions are what the theorems quantify over.

## Hypotheses

- Digests are function parameters: instance, event and list digests are assumed injective where a lemma says so,
  and the ledger digest also never to be the genesis value (`Ledger.Collisionless`). A schema digest is a
  constructor of the schema name. Signature checks are opaque predicates.
- `CertificateReplay.Clean` and `CleanCall`: no edge predicate, caller payload or signed fact uses the key
  `lifecycle`, which the scheduler writes into events. `CertifiedRuns.CompiledClean` proves the first for compiled graphs.
- `AttestedRuns.FollowsGraph`: the verifier assigns each node the owner role its graph metadata names. The theorems
  about literal roles ask it; without it they still give the signatures.
- Python's `int()` and `str.isalnum()` are parameters (`parse`, `alnum`).
- Payload and argument values are scalars, or lists of texts for argument vectors.

## Where the code falls short of a property

- The static check looks at the first join declared for the barrier and the monitor keeps the last. The
  soundness theorem therefore asks that the last one cannot be satisfied without a required guard, as any
  join does that waits for all its predecessors (`WaitingCovers`, `WaitsForAllMeans`); `SecondJoinWeakens` is
  a manifest that fails.
- `reconcile_effect` saves the instance's own counters instead of the stored ones. Over all runs of a contract
  the tool-call budget is kept if and only if it is at least the permitted iterations (`BudgetExact`), and
  each outcome is admitted at most once if and only if one tool call is permitted (`EvidenceExact`); the
  failing runs are built for every other contract. On a single run it is enough that the instance counts
  no fewer calls than are stored (`BudgetsHold`), and that it has not evaluated the outcome it reconciles
  (`EvidenceAdmittedOnce`). The bound on dispatches per iteration needs no condition.
- The run loop compares the tool-call budget before it looks at a reconciled outcome, so an effect reconciled
  on the last permitted call ends the run unevaluated. No outcome is dropped if and only if the contract
  permits more tool calls than iterations, even when every reconciliation restores the stored counters
  (`EvaluatedExact`).
- Intersecting argument rules drops a required rule of an authority when a closed authority does not list
  that argument. `IntersectionExact` states the exact condition, `RequirementDropped` an instance.
- `advance` with a completion lets the caller's payload override the derived success: `SuccessIsSigned` is the
  exact condition, `SuccessOverridden` a run.
- `validate` raises instead of reporting when a barrier predecessor is no node: `StaticCheck.Validate`, and
  `DanglingRaises` for such a manifest.
- Evaluator and receipt tokens are not de-duplicated, so compilation raises when they collide
  (`LayoutAccepted`); a guard that is also a required verifier always collides (`GuardAsVerifier`).
- A certificate checks the last event's node but not that it completed. It completed exactly when the last
  event is not a reservation (`LastEventCompleted`, `CertifiedAccept`); `ReservedAccept` builds, for every
  compiled graph, a trace that certifies an acceptance that was only reserved.
- An approval receipt is consumed before the use budgets are asked, so it is lost exactly when one of them is
  exhausted: `ApprovalSpentOnce`, `ReceiptLost`.

- Action rules of one tool, effect and prefix share a use counter, which each capability raises once per rule, so a
  rule listed n times covers fewer capabilities than its limit says. `CounterExact` gives the exact count and
  `CopiesShareBudget` an instance; a rule listed once gets exactly its limit (`IssuedExactly`).

## Model

| member | source | states |
|---|---|---|
| Search.ReachableFrom | src/vloop/graph.py:360-370 | The worklist search returns exactly the nodes some start reaches by a path, and terminates on every graph. |
| Search.Reaches | src/vloop/graph.py:372-455 | The five goal searches of the checker in one: true exactly when a goal node is reachable from the start. |
| Search.ReachableWithout | src/vloop/graph.py:457-470 | False exactly when every path from an entry to the target meets the excluded set: the dominance test. |
| Search.NotReachableWithout | src/vloop/graph.py:457-470 | A set closed under edges up to the excluded nodes that misses the target rules every avoiding path out. |
| Tarjan.CyclicComponents | src/vloop/graph.py:472-505 | The depth-first search returns exactly the strongly connected components that contain a cycle, pairwise disjoint; the result is empty exactly for acyclic graphs. |
| Tarjan.ComponentSearch.Visit | src/vloop/graph.py:478-500 | One visit keeps the invariants of the search (numbering, stack order, low links, recorded components) and records every cyclic component it closes. |
| Tarjan.PoppedIsComponent | src/vloop/graph.py:491-500 | What is popped when the low link equals the index is mutually reachable and cannot be extended: a component. |
| Tarjan.PoppedCyclic | src/vloop/graph.py:499-500 | A popped component is kept exactly when it contains a cycle. |
| StaticCheck.Validate | src/vloop/graph.py:227-358 | The check raises exactly when the accept barrier names a predecessor that is no node, and reports no finding exactly when the manifest meets every condition, stated over paths and components. |
| StaticCheck.CheckBarrier | src/vloop/graph.py:306-312 | The barrier of the accept decision: guards carried by its predecessors, and no path to acceptance around them. |
| StaticCheck.CheckEffects | src/vloop/graph.py:273-290 | Side effects need an authority path and a reconciliation path; declared approvals and human exits must be reachable. |
| StaticCheck.CheckCycles | src/vloop/graph.py:320-332 | No finding exactly when every cyclic component has budgets, timeouts and an escalation edge out of it. |
| StaticMeaning.AcceptedExactly | src/vloop/graph.py:225-358 | The verdict written out over ways, in both directions: unique identities, edges of the listed kinds between ports of one schema, every node entered, ends declared, side effects authorised and recoverable, approvals and human exits in place, acceptance behind one ALL join that carries every demand and that every way crosses, joins declared, cycles bounded and left by escalation, untrusted nodes apart from authority, memory within its origins. |
| StaticMeaning.PairsListed | src/vloop/graph.py:120-158 | The pairs of ends each restricted kind of edge may join are exactly the nineteen listed. |
| StaticMeaning.MemoryBounded | src/vloop/graph.py:339-357 | Along any chain of derivations, memory never claims more authority than what stands at its origin. |
| GraphSchema.JoinMeaning | src/vloop/graph_schema.py:107-113 | An ALL join is satisfied exactly when every predecessor is completed, an ANY join exactly when one is. |
| GraphSchema.QuorumMeaning | src/vloop/graph_schema.py:107-113 | A quorum or threshold join is satisfied exactly when as many of its predecessors as it says are completed. |
| GraphSchema.WaitsForAllMeans | src/vloop/graph_schema.py:107-113 | A join is satisfied only by sets holding all its predecessors exactly when it is ALL, an ANY join of one predecessor, or a threshold join as high as their number. |
| GraphSchema.JoinMonotone | src/vloop/graph_schema.py:107-113 | More completed predecessors never unsatisfy a join. |
| GraphSchema.EvaluateMeans | src/vloop/graph_schema.py:76-85 | What a predicate asks of a payload: presence and truth, or a written form, numbers in decimal without leading zeros and a missing field as None. |
| Monitor.EnabledIgnoresPayload | src/vloop/graph_monitor.py:43-57 | In every reachable state, whether a node is enabled does not depend on the payload its caller offers. |
| Monitor.NodeEnabled | src/vloop/graph_monitor.py:43-57 | In a reachable state a node without a join is enabled exactly when it is untouched and every edge into it is followed from what its source recorded; without such edges, only before anything is completed. |
| Monitor.JoinEnabled | src/vloop/graph_monitor.py:46-53 | A join node is enabled exactly when it is untouched and all, one, or as many as its threshold of the predecessors of its last declared join arrived over followed edges. |
| Monitor.RunInv | src/vloop/graph_monitor.py:43-90 | After any sequence of advance, reserve and complete calls: started and completed are disjoint, events are kept for exactly the completed nodes, and the enabling condition of every touched node holds. |
| Monitor.RunExtends | src/vloop/graph_monitor.py:59-90 | Over any further calls completed nodes stay completed and what they recorded never changes. |
| Monitor.AdmittedBound | src/vloop/graph_monitor.py:43-90 | No sequence of calls gets more than two moves per node admitted. |
| Monitor.PredecessorsFirst | src/vloop/graph_monitor.py:54-57 | A touched node that is no join has every predecessor completed with its condition met: completion order extends the edge relation. |
| StaticSoundness.GuardsCompleted | src/vloop/graph.py:291-312 | For every accepted manifest whose last declared barrier join cannot be satisfied without a node carrying each required guard, whatever its policy, a touched accept decision has such completed nodes, in every reachable state. |
| StaticSoundness.WaitingCovers | src/vloop/graph.py:302-312 | A last join that waits for all its predecessors is one of those, by what the check found of the first. |
| StaticSoundness.AcceptNeedsGuards | src/vloop/graph.py:291-312 | The same for distinct join identities with no further condition: the static ALL-join check is sound at run time. |
| StaticSoundness.SecondJoinWeakens | src/vloop/graph.py:302-304 | Without that condition it fails: an accepted manifest that declares its barrier twice runs to acceptance with a guard missing, because the monitor keeps the last join (src/vloop/graph_monitor.py:34). |
| StaticSoundness.DanglingRaises | src/vloop/graph.py:306-308 | A manifest every constructor accepts, on which the check raises instead of reporting. |
| ControlGraph.NameInjective | src/vloop/graph.py:541-711 | Node identities of different positions of the compiled graph differ, for any number of rules, guards and evaluators. |
| ControlGraphShape.IdsUnique | src/vloop/graph.py:541-711 | Identities of the laid out graph are unique exactly when the evaluator and receipt tokens are. |
| ControlGraphValid.LayoutWellFormed | src/vloop/graph.py:541-711 | Every node, edge and join of a laid out graph passes its constructor. |
| ControlGraphValid.ArcEdgeOk | src/vloop/graph.py:235-251 | Every edge of a laid out graph joins compatible ends over ports of one schema. |
| ControlGraphAccepted.NoCycle | src/vloop/graph.py:541-711 | Every laid out graph is acyclic. |
| ControlGraphAccepted.ReachedFromTask | src/vloop/graph.py:541-711 | Every node of a laid out graph is reached from the task contract, its only entry. |
| ControlGraphAccepted.NoBypass | src/vloop/graph.py:311-312 | Every path from the entry to the accept decision passes a criterion. |
| ControlGraphAccepted.JoinsOk | src/vloop/graph.py:313-319 | The declared predecessors of each compiled join are the sources of its edges. |
| ControlGraphAccepted.LayoutAccepted | src/vloop/graph.py:541-711 | For every contract and plan, the static check accepts the laid out graph exactly when the tokens are distinct. |
| ControlGraphAccepted.Compile | src/vloop/graph.py:541-711 | Compilation returns a graph exactly for non-blank plans with distinct tokens and a profile digest of 64 characters or none; the graph is well formed and accepted. |
| CompiledContents.SpecsAre | src/vloop/graph.py:568-575 | A check is evaluated exactly if the contract names it as required verifier or guard, and then under its own receipt, or if it is planned, and then under the receipt it is first planned with. |
| CompiledContents.NodesAre | src/vloop/graph.py:577-665 | The nodes of a compiled graph, up to ports, are exactly the listed ones: identity, type, effect, authority, demands, owner and metadata of each, for the contract's rules, guards, checks and receipts. |
| CompiledContents.EdgesAre | src/vloop/graph.py:666-700 | Its edges are exactly the listed ones with their kinds, ports, conditions and predicates, for any number of rules, guards and checks. |
| CompiledContents.TokenMeans | src/vloop/graph.py:562-563 | A token is the name from its first to its last letter or digit with dashes in between, or the word unnamed where there is none. |
| ControlGraphAccepted.GuardAsVerifier | src/vloop/graph.py:568-575 | No contract that names one of its guards as a required verifier compiles, whatever receipts are planned. |
| ControlGraphAccepted.RefusedContract | src/vloop/graph.py:568-575 | Such a contract exists: its constructor accepts it. |
| CompiledSafety.NoAcceptWithoutAllGuards | src/vloop/graph_formal.py:59-61 | In every run of every compiled graph, a reserved or completed accept decision has behind it every criterion passed, every receipt and evaluator, the snapshot, the artifact manifest and an executor result recorded as successful. |
| CompiledSafety.NoEffectWithoutCapability | src/vloop/graph_formal.py:59-61 | A touched dispatch has behind it the capability, the principal, exactly one action rule, the one whose index the intent recorded, and either no approval required or a completed approval. |
| CompiledSafety.AcceptExcludesEscalate | src/vloop/graph.py:666-709 | No run both accepts and escalates. |
| CompiledSafety.EscalateBehind | src/vloop/graph.py:682-683 | An active escalation has a reconciliation and an executor result that did not succeed behind it. |
| CompiledReach.AcceptReachable | src/vloop/graph.py:541-711 | No part of a compiled graph is dead: for any number of guards, evaluators and rules, through each rule and with or without an approval, a run completes the accept decision. |
| CompiledReach.EscalateReachable | src/vloop/graph.py:541-711 | Likewise a run through each rule completes the escalate decision. |
| CompiledReach.ReadyEnabled | src/vloop/graph_monitor.py:43-57 | A position whose incoming edges, or for a join enough of them, come from completed positions and pass is enabled whatever its caller offers. |
| Scheduler.DurableGraphScheduler.Advance | src/vloop/graph_runtime.py:135-206 | One transaction: the row and the event table change together as the specified step says, or the call raises and nothing changes. |
| Scheduler.DurableGraphScheduler.Reserve | src/vloop/graph_runtime.py:208-245 | Reserves an enabled node under a stored instance and attempt, atomically with its event. |
| Scheduler.DurableGraphScheduler.CompleteDirect | src/vloop/graph_runtime.py:268-332 | Completes a reserved node only on a completion validated against the stored instance, atomically with its event. |
| SchedulerSafety.StepMoves | src/vloop/graph_runtime.py:135-332 | Every successful call makes exactly one monitor move in its own row and appends one event; a completion it relies on verifies under its producer, a trusted workload active at that time in a role it holds and the node is assigned to, and is bound to that instance, unexpired and not too long lived. |
| SchedulerSafety.ValidatesOwned | src/vloop/attestations.py:205-238 | The verifier accepts a completion exactly when it is bound to the instance and signed by the node's active owner, all conditions written out. |
| SchedulerExactness.ReserveExactly | src/vloop/graph_runtime.py:208-245 | On a reachable database a reservation succeeds exactly for a named run, a counted iteration, an enabled node and a fresh event; the row, the stamp and the event it leaves are given field by field. |
| SchedulerExactness.AdvanceExactly | src/vloop/graph_runtime.py:152-206 | The same for a node the controller completes itself. |
| SchedulerExactness.CompleteExactly | src/vloop/graph_runtime.py:268-332 | A node produced outside is completed exactly when it is reserved, its owner signed a completion bound to that reservation, and the event is fresh; the row and the event it leaves are given field by field. |
| SchedulerExactness.OutsideExternal | src/vloop/graph_runtime.py:101-155 | A node is produced outside exactly when a verifier is configured and its declared role is neither the controller's nor the scheduler's; an undeclared role is the controller's. |
| Attestations.RecordMeans | src/vloop/graph_runtime.py:305-317 | What a completion records, key by key: the caller's payload over what the completion says over its signed facts. |
| SchedulerSafety.RowsAreRuns | src/vloop/graph_runtime.py:120-133 | Every stored row is a run of the monitor, whatever calls of other runs and iterations are interleaved. |
| SchedulerSafety.DbRunGrows | src/vloop/graph_runtime.py:341-348 | Rows only grow and events are only appended. |
| SchedulerSafety.EventsOfFirstAttempts | src/vloop/graph_events.py:16-27 | Every stored event is attempt 1 of a node its iteration has touched, carries that node's instance, and has an identity of its own. |
| SchedulerSafety.InstancesUnique | src/vloop/graph_events.py:16-27 | Events of one instance belong to one node of one iteration of one run. |
| SchedulerSafety.CompletionAdmittedOnce | src/vloop/attestations.py:205-238 | No two completions of one instance are ever admitted, so each signed completion is admitted at most once across all runs, with no nonce store. |
| SchedulerSafety.CompletionAfterReservation | src/vloop/graph_runtime.py:287-299 | Every admitted completion follows an accepted reservation of the same instance. |
| SchedulerSafety.ExternalByOwner | src/vloop/graph_runtime.py:152-170 | A completed node of an external role was completed by a validated completion of its owner. |
| SchedulerSafety.SuccessIsSigned | src/vloop/graph_runtime.py:308-317 | The recorded success is the signed result exactly when the caller lays no other success over it; through the completion entry point it always is. |
| SchedulerOverlay.SuccessOverridden | src/vloop/graph_runtime.py:308-317 | The other case occurs: a scheduler over an accepted manifest completes a worker's node on a signed success and records false. |
| SchedulerSafety.IterationEventsBounded | src/vloop/graph_runtime.py:135-332 | An iteration of a run emits at most two events per node of the graph. |
| Certificate.Validate | src/vloop/execution_certificate.py:74-121 | Accepts exactly the signed certificates whose digests match the trace, whose causal parents are in it, whose manifest passes the static check, whose trace replays and which end in their decision. |
| Certificate.ValidMeans | src/vloop/execution_certificate.py:74-121 | Validity written out: one signature and key, one run and graph, unique identities, no missing parent, the digest of every event in order and of the instances in any order, the terminal node of the decision, and a trace that follows the graph named. |
| Certificate.ReplayTrace | src/vloop/execution_certificate.py:98-115 | The replay loop succeeds exactly when every event is a move the monitor admits in its iteration. |
| CertificateReplay.TraceReplays | src/vloop/graph_runtime.py:135-332 | Simulation: for every interleaving of scheduler calls, each run's trace replays, and the replay ends with the stored completed nodes, reservations and events, but for the reserved key. |
| CertificateReplay.EmittedTraceValid | src/vloop/execution_certificate.py:124-152 | A signed certificate over an emitted trace is accepted exactly when the trace is non-empty, its parents are inside it and it ends in the decision: the replay never fails. |
| CertificateReplay.CertificatePinsRun | src/vloop/execution_certificate.py:91-92 | Whatever trace is presented with the certificate of a run the scheduler emitted, if it validates it is that run's trace, event for event, and its replay is the state the scheduler stored: nothing can be left out, added, changed or reordered. |
| CertificateReplay.MovesReplay | src/vloop/execution_certificate.py:98-115 | Any sequence of admitted moves, written as events, replays to the state it runs to. |
| CertificateReplay.ReplayIsRun | src/vloop/execution_certificate.py:98-115 | Every iteration of a replayed trace, forged or not, is a run of the monitor. |
| CertifiedRuns.CertifiedAccept | src/vloop/execution_certificate.py:116-121 | A valid certificate of acceptance over a compiled graph proves the whole chain of evidence and that its iteration did not escalate; the accept decision itself is completed exactly when the trace does not end in a reservation. |
| CertifiedRuns.CertifiedEscalate | src/vloop/execution_certificate.py:116-121 | A valid certificate of escalation over a compiled graph proves a reconciliation of an outcome that failed or is unknown, and that its iteration did not accept. |
| CertificateReplay.LastEventCompleted | src/vloop/execution_certificate.py:106-113 | In every replaying trace of every graph, the node of the last event is completed exactly when that event is not a reservation. |
| CertifiedRuns.ReservedAccept | src/vloop/execution_certificate.py:116-121 | The other case occurs for every compiled graph: a trace that certifies acceptance, once signed, and leaves the accept decision reserved. |
| CertifiedRuns.StoredAcceptEvidenced | src/vloop/graph_runtime.py:135-332 | Every accepting row in every reachable database of a compiled graph has the whole chain of evidence. |
| AttestedRuns.AcceptanceAttested | src/vloop/attestations.py:205-238 | End to end: if no call overlays signed results, every accepting row of a compiled graph has, for each guard, a criterion, a receipt and evaluators signed by the owners in their literal roles for that very instance, the criterion as passed, and a signed snapshot, artifact manifest and successful executor result. |
| AttestedRuns.DispatchAttested | src/vloop/graph.py:585-625 | Every touched dispatch of a compiled graph has behind it completions signed in the literal owner roles of the principal, the policy decision, the capability, the prepared operation and the rule its intent named, and of an approval unless none was required. |
| AttestedRuns.DecisionsAttested | src/vloop/graph.py:658-665 | A completed accept decision is itself signed in its role, and so is the reconciliation behind an escalation. |
| AttestedRuns.PositionExternal | src/vloop/graph.py:585-665 | Exactly the positions other than the task contract, the intent, the joins, the dispatch, the snapshot request and the escalation, listed one by one, can be completed only by their owner. |
| CertifiedRuns.CompiledTraceValid | src/vloop/execution_certificate.py:74-121 | For compiled graphs the hypotheses of the simulation are met by construction. |
| EffectStore.SQLiteIdempotencyStore.Reserve | src/vloop/executor.py:114-169 | Only a missing row is reserved; an expired reservation is given up as indeterminate and never handed out again. |
| EffectStore.SQLiteIdempotencyStore.Complete | src/vloop/executor.py:171-188 | An outcome is recorded only over the caller's own open reservation; otherwise it raises and nothing changes. |
| EffectStore.SQLiteIdempotencyStore.MarkIndeterminate | src/vloop/executor.py:190-207 | The same for an outcome that is unknown. |
| EffectStore.InMemoryIdempotencyStore.Reserve | src/vloop/executor.py:53-66 | The development store answers as the durable one does before any lease expires. |
| EffectStore.NonceStore.Consume | src/vloop/authorization.py:143-153 | A nonce is consumed once. |
| EffectProtocol.CapabilityEnforcingExecutor.Execute | src/vloop/executor.py:349-430 | An uninterrupted execution, with its exception paths, is the specified sequence of protocol steps, and its answer is the one those steps give. |
| EffectExactness.ExecutionExact | src/vloop/executor.py:349-430 | An uninterrupted execution never raises, and what it answers, records, spends and runs is written out without the protocol's steps: refusals, replays, unknown outcomes and runs with their exact reasons and metadata. |
| EffectExactness.EveryExecutionIsRun | src/vloop/executor.py:349-430 | After any interleaving, any new request can be carried through with exactly that result. |
| EffectProtocol.RawAtMostOnce | src/vloop/executor.py:349-430 | Under every interleaving of callers of any number of executors, crashes and lease expiries, a raw executor runs at most once per executor, contract and idempotency key; each run consumed a nonce of its own and was signed for its exact intent and audience. |
| EffectProtocol.RawAuthorised | src/vloop/executor.py:388-395 | Every raw run was preceded by its capability verifying for its audience and exact intent, within its lifetime, with its nonce spent then for the first time. |
| EffectProtocol.SuccessReturned | src/vloop/executor.py:366-430 | A success is answered only where the raw executor returned that success for the very effect and intent asked for. |
| EffectProtocol.LeaseRuns | src/vloop/executor.py:140-166 | Until a lease ends the same intent waits; from then on its effect is given up as unknown; another intent conflicts throughout. |
| EffectExactness.CrashIsFinal | src/vloop/executor.py:78-169 | When a caller crashes between reserving its effect and recording the outcome, the effect is never run again and never recorded as completed, whatever happens later. |
| EffectExactness.LateResultUnknown | src/vloop/executor.py:416-429 | Whoever lost its reservation to an expired lease records nothing and answers that the outcome is unknown. |
| EffectProtocol.RunSettles | src/vloop/executor.py:114-207 | A recorded outcome and the intent of a row never change again. |
| EffectProtocol.SettledAnswers | src/vloop/executor.py:366-387 | Once an outcome is recorded, every later request is answered from it: the same intent by replay, another intent by conflict. |
| EffectProtocol.AloneIsRun | src/vloop/executor.py:349-430 | An uninterrupted execution is one of the interleavings. |
| RunState.SQLiteRunStateStore.Save | src/vloop/run_state.py:204-286 | Compare-and-swap: a save succeeds exactly on the revision it was read at, raises that revision by one, and leaves other runs alone. |
| Controller.VerifiedController.Run | src/vloop/controller.py:172-626 | The run loop takes steps of the phase machine and leaves exactly what a whole execution, written out without the machine, leaves behind, on every answer of planner, gate, executor and verifiers; it sends only what the gate granted. |
| Controller.VerifiedController.RestoreOrStart | src/vloop/controller.py:628-715 | A checkpoint is created, restored, blocked or refused as the phase machine says; an effect that may have run is never resumed. |
| Controller.VerifiedController.ReconcileEffect | src/vloop/controller.py:1181-1227 | Reconciliation stores the attested outcome together with the instance's own counters, then runs on, leaving exactly what is written out for it. |
| Controller.VerifiedController.CancelRun | src/vloop/controller.py:1229-1240 | Cancellation restores the counters before it ends the run. |
| Controller.StepsAreRun | src/vloop/controller.py:172-317 | A controller left alone is one of the interleavings. |
| ControllerExecution.ExecutionLeads | src/vloop/controller.py:172-317 | The steps of the machine, undisturbed, lead to what the whole execution leaves: row, log of grants and dispatches, counters, copy and answer. |
| Controller.CallIsRun | src/vloop/controller.py:172-317 | After any interleaving an undisturbed call of an idle instance ends as written out, and a busy instance ignores calls. |
| ControllerDecisions.DispatchGranted | src/vloop/controller.py:252-317 | Over every interleaving, each dispatched effect was granted by the gate for that very intent in that iteration to the controller that sends it, after its operation was stored as pending. |
| ControllerDecisions.RefusalEnds | src/vloop/controller.py:259-268 | A denial ends the run as escalated and a demand for approval leaves it waiting for the intent, unless another controller moved on first; neither dispatches anything. |
| ControllerDecisions.DecisionBehind | src/vloop/controller.py:495-626 | A stored terminal decision has its reason behind it: an acceptance a successful reported outcome judged done, an escalation a denial or a hopeless verdict. |
| ControllerDecisions.EvidenceBehind | src/vloop/controller.py:488-500 | Every entry of stored evidence was admitted by evaluating a successful outcome reported before for that iteration and intent. |
| ControllerDecisions.AnswerIsStored | src/vloop/controller.py:1584-1604 | What a call answers is what is stored when it answers. |
| ControllerSafety.DispatchedAtMostOnce | src/vloop/controller.py:172-317 | With any number of controllers sharing one run, failing and crashing anywhere, an effect is dispatched at most once per iteration, at most maximum_iterations times in all, and only after its iteration was recorded as pending. |
| ControllerAccounting.BudgetsHold | src/vloop/controller.py:1034-1068 | On every run in which no reconciling instance counts fewer tool calls than are stored, dispatches never exceed the stored calls, nor these the budget. |
| ControllerAccounting.SpentNeverFalls | src/vloop/controller.py:1206-1214 | Over any continuation of any run the checkpoint is never lost or moved back, and on those runs the stored count of tool calls never falls. |
| ControllerExactness.BudgetExact | src/vloop/controller.py:1206-1214 | Exactly the contracts that permit no more iterations than tool calls keep their tool-call budget on every run; for every other contract a run that exceeds it is built. |
| ControllerExactness.AllDispatched | src/vloop/controller.py:1206-1214 | Whatever the tool-call budget, some run dispatches an effect in every permitted iteration: instances that reconcile without restoring forget each call. |
| ControllerEvidence.EvidenceAdmittedOnce | src/vloop/controller.py:1206-1214 | Each iteration's outcome is admitted into the stored evidence at most once on every run in which no instance reconciles an outcome it has evaluated and could evaluate again, and on every run where one tool call is permitted. |
| ControllerEvidence.FaithfulNeverEvaluated | src/vloop/controller.py:1206-1214 | Reconciling with the stored account is enough for that. |
| ControllerExactness.EvidenceExact | src/vloop/controller.py:1206-1214 | Exactly the contracts that permit one tool call admit each outcome at most once on every run; for every other contract a run that admits one twice is built. |
| ControllerExactness.EvaluatedExact | src/vloop/controller.py:177-184 | Exactly the contracts that permit more tool calls than iterations evaluate every reconciled outcome, on every run and also on every run whose reconciliations restore the stored account; for every other contract a run that drops one is built. |
| Authority.CombinedExact | src/vloop/contract_compiler.py:199-224 | Rules of one kind and name combine to a rule that accepts a value exactly when every one of them does. |
| Authority.AcceptsByValue | src/vloop/models.py:112-144 | What a rule accepts, by the kind of value: texts, absolute paths without a parent component, enumerated values, integers in range, booleans, and lists of texts without NUL. |
| Authority.CombineFails | src/vloop/contract_compiler.py:199-224 | Combining fails exactly where two rules are of different kinds, one demands more than another permits, or no value is common to the enumerations. |
| Authority.UncombinableRejectsAll | src/vloop/contract_compiler.py:203-224 | Where enumerations share no value or integer bounds cross, the refusal loses nothing: no value satisfies every rule. |
| ContractCompiler.IntersectArgumentRules | src/vloop/contract_compiler.py:183-225 | The gathering and combining loops compute the intersection, and raise exactly when some kept name cannot be combined. |
| ContractCompiler.IntersectionExact | src/vloop/contract_compiler.py:183-225 | The compiled argument rules accept a call exactly when every covering authority does, except that a requirement for an argument some closed authority leaves out is forgotten; the condition is exact in both directions. |
| ContractCompiler.RequirementDropped | src/vloop/contract_compiler.py:187-198 | The exception occurs: authorities, and a call their compiled rule accepts although one of them rejects it. |
| Prefixes.TargetByParts | src/vloop/policy.py:570-575 | A target matches a prefix exactly when the components of the prefix, slashes at its end aside, begin the components of the target. |
| Prefixes.WithinByParts | src/vloop/contract_compiler.py:227-231 | A requested prefix lies within a permitted one exactly when the components of the permitted one begin its own. |
| Prefixes.SharedTargetNests | src/vloop/policy.py:570-575 | Prefixes that share a target are nested. |
| Prefixes.TargetTransitive | src/vloop/contract_compiler.py:227-231 | A target under a prefix lies under everything the prefix lies within. |
| Prefixes.JoinParts | src/vloop/policy.py:570-575 | Components are exactly what lies between slashes: no other list of slash-free texts joins to the path. |
| ContractCompiler.Compile | src/vloop/contract_compiler.py:109-135 | A contract's rules are compiled one per requested action, in order, or compilation raises. |
| CompilerExactness.CompileExactly | src/vloop/contract_compiler.py:109-225 | A requested action is refused exactly when nothing permits it, rules for one argument conflict, the tool or the prefix is ill formed, or an authority allows no use; otherwise its rule asks for approval, is open and is limited as all permitting authorities together say. |
| ContractCompiler.GateAttenuates | src/vloop/policy.py:444-454 | An intent the gate authorises lies inside every server authority covering the action its rule came from: tool, effect, a permitted prefix whose components begin the target's, argument names, approval and use limit. |
| PolicyGate.InMemoryPolicyUseCounterStore.Consume | src/vloop/policy.py:320-326 | All listed budgets are checked before any is spent; a refusal changes no counter. |
| PolicyGate.SQLitePolicyUseCounterStore.Consume | src/vloop/policy.py:351-380 | The durable store does exactly the same whenever limits are at least 1; it lets a missing row pass whatever the limit. |
| PolicyGate.LimitsPositive | src/vloop/models.py:157-164 | Well-formed rules have limits of at least 1, so the two stores agree on every attempt. |
| PolicyGate.ApprovalConsumptionStore.Consume | src/vloop/policy.py:72-115 | A receipt is consumed once. |
| PolicyGate.PolicyGate.IsApproved | src/vloop/policy.py:526-549 | The loop over presented approvals settles on the first usable one and consumes that one alone. |
| PolicyGate.PolicyGate.Authorize | src/vloop/policy.py:422-503 | A capability is issued exactly when the static checks, the approvals and the budgets permit it, and only then are budgets spent; a receipt is consumed before the budgets are asked. |
| GateExactness.IssuedExactly | src/vloop/policy.py:422-503 | After any attempts a capability is issued exactly for a lawful intent, approved by a genuine unused receipt where effect, taint or a rule demands it, for which every covering rule has room; rules, arguments, trust and lifetimes are written out. |
| GateExactness.ConsumedExactly | src/vloop/policy.py:526-549 | An attempt consumes the first good receipt as soon as the intent is lawful and must be approved, and otherwise nothing. |
| GateExactness.CounterExact | src/vloop/policy.py:485-493 | Over any attempts the counter of a rule stands at the capabilities issued under it times the number of copies of the rule in the contract. |
| GateExactness.CopiesShareBudget | src/vloop/policy.py:485-493 | A rule listed twice does share its counter: of two uses permitted, one is refused. |
| PolicyGate.BudgetBounds | src/vloop/policy.py:485-493 | Over any sequence of attempts, a rule limited to k uses covers at most k issued capabilities. |
| PolicyGate.ApprovalSpentOnce | src/vloop/policy.py:478-493 | Over any sequence of attempts each consumed receipt is accounted for exactly once: one capability issued on it, or lost to an exhausted budget; none authorises two. |
| PolicyGate.ApprovalsConserved | src/vloop/policy.py:478-493 | The receipts consumed are as many as the capabilities issued on receipts and the receipts lost together. |
| PolicyGate.IssuedConsumes | src/vloop/policy.py:526-549 | Where a verifier is configured, no capability that needs an approval is issued without consuming a receipt. |
| PolicyGate.ReceiptLost | src/vloop/policy.py:478-493 | Receipts are lost: the second approval of an action permitted once is consumed and no capability is issued on it. |
| Completion.EvidenceAccumulator.Append | src/vloop/completion.py:53-79 | Evidence is only appended and numbered without gaps; a workspace digest is recorded exactly where some signed receipt names it and none names another. |
| Completion.LatestOf | src/vloop/completion.py:247-257 | The selected receipt is one than which none is later by issue time and then sequence. |
| Completion.FreshStatuses | src/vloop/completion.py:230-258 | There is a status for exactly the checks with evidence among the relevant actions; it is pass or fail exactly where all latest receipts say so, and inconclusive otherwise. |
| Completion.FreshlyMeans | src/vloop/completion.py:230-258 | A status is fresh exactly when a newest check of the name on the final workspace exists and all newest ones have it; newest by receipt time and then by the action's number. |
| Completion.OthersIrrelevant | src/vloop/completion.py:233-239 | Evidence of other workspaces decides nothing: adding or removing it changes no status. |
| Completion.Verify | src/vloop/completion.py:176-228 | The final verifier is inconclusive exactly when the bindings do not cover the conditions, and otherwise passes exactly on completion, which implies a pass on the final workspace itself, or on the last action where that is not known, for every bound check and guard. |
| Completion.CompleteMeans | src/vloop/completion.py:176-258 | Completion written out: some action exists, and for everything bound to a condition and every guard the newest checks on the final workspace exist and pass. |
| Completion.CompleteSame | src/vloop/completion.py:233-239 | The verdict does not depend on evidence of other workspaces. |
| HybridVerification.Verify | src/vloop/verifiers.py:367-438 | The phased loop with its early break reports the checks it ran, an inconclusive result for every mandatory one that did not run, and the category verdicts, and raises exactly on a repeated name. |
| HybridVerification.ExecutedExact | src/vloop/verifiers.py:383-404 | What ran are the checks up to and including the first of phase 0 or 1 that does not pass, or all of them. |
| HybridVerification.CompletedMeans | src/vloop/verifiers.py:406-421 | The completed report holds what ran, and for each requirement without a result one that is absent. |
| HybridVerification.StatusMeans | src/vloop/verifiers.py:423-430 | A category fails exactly if a check of it fails, and passes exactly if all of it pass and, for correctness, there is one. |
| HybridVerification.AcceptedMeans | src/vloop/verifiers.py:423-438 | A report is accepted exactly when every result passes, correctness was checked, and nothing mandatory is missing. |
| HybridVerification.ShortCircuitExact | src/vloop/verifiers.py:403-404 | Stopping at the first hard failure changes no verdict: acceptance is that of running every check. |
| Provenance.Construct | src/vloop/models.py:266-313 | The nodes and their graph are constructed exactly when each node lists distinct parents other than itself, identities are unique, parents are inside and the parent relation is acyclic. |
| Provenance.ValidMeans | src/vloop/models.py:266-313 | Validity written out: some node, as many identities as nodes, visible names, no parent twice, every parent a node, no way from a node back to itself. |
| Provenance.Visitor.Visit | src/vloop/models.py:298-313 | The visiting/visited search reports a cycle only where there is one, and otherwise leaves only nodes on no cycle visited. |
| Provenance.BoundValid | src/vloop/controller.py:1306-1379 | The controller's own binding always builds a valid graph, whatever the context, the taint and the value. |
| Provenance.BoundSources | src/vloop/controller.py:1306-1379 | The bound graph holds one source per context item in order, under its position and the start of its digest, a declared taint if any, the planner only where there is neither, and last the derivation, whose parents are all of them. |
| Ledger.EvidenceLedger.Append | src/vloop/ledger.py:123-170 | An append extends the events, the head and the outbox together, or rolls back. |
| Ledger.EvidenceLedger.VerifyChain | src/vloop/ledger.py:315-334 | True exactly when every event is linked to its predecessor's hash and the head is the last one. |
| Ledger.EvidenceLedger.ClaimAnchorOperations | src/vloop/ledger.py:172-211 | Exactly the first pending or expired rows up to the limit are leased to the worker. |
| Ledger.EvidenceLedger.CompleteAnchorOperation | src/vloop/ledger.py:213-225 | Succeeds exactly when the worker holds the row's lease; otherwise nothing changes. |
| Ledger.EvidenceLedger.ReleaseAnchorOperation | src/vloop/ledger.py:227-237 | Returns only the worker's own leased row to pending. |
| Ledger.AppendMeans | src/vloop/ledger.py:123-170 | On a verified ledger an append adds one event behind the history, moves the head to it and queues one pending, never attempted row. |
| Ledger.ClaimLeases | src/vloop/ledger.py:181-206 | A claim leases exactly the pending and expired rows that fewer than limit such rows precede, until its lease ends, counting the attempt, and touches no other row. |
| Ledger.LeaseHeld | src/vloop/ledger.py:184-190 | Until it expires, a lease can be ended only by its own worker completing or releasing that row. |
| Ledger.SettleMeans | src/vloop/ledger.py:213-237 | Completing delivers, and releasing returns to pending, exactly the row of that hash leased to that worker, with its attempts kept. |
| Ledger.CanDeliver | src/vloop/ledger.py:172-225 | No row is stuck: once its lease has run out, any worker that claims far enough and completes it delivers it. |
| Ledger.AppendKeeps | src/vloop/ledger.py:123-170 | On a verified ledger an append never clashes and leaves the chain verified. |
| Ledger.HeadPinsHistory | src/vloop/ledger.py:315-334 | Verified ledgers with equal heads hold identical event sequences. |
| Ledger.EqualHeadsEqualEvents | src/vloop/ledger.py:123-170 | Any two histories of operations that reach one head went through the same events. |
| Ledger.RunAllKeeps | src/vloop/ledger.py:123-237 | After any interleaving of appends, claims, completions and releases the chain verifies and there is exactly one outbox row per event. |
| Ledger.RunAdvances | src/vloop/ledger.py:172-237 | History is append-only and delivered rows never change. |
| Ledger.DeliveredByOwner | src/vloop/ledger.py:172-225 | Over every interleaving, a delivered row was completed under its own hash by a worker that had claimed it earlier and held its lease at every moment between. |

## Left out

- Cryptography, hashing, encodings, JSON and SQL text, clocks, and the native back ends: parameters or atomic steps, as above.
- HTTP clients, virtual machine launch, sandboxes, local commands, workspace snapshots and git state: input and output.
- Model clients, the neural verifier, delegation, learning, probe bodies and benchmark statistics: untrusted or advisory code.
- The exported TLA+ text as a refinement target: its transitions require all predecessors where the runtime has ANY joins. Its two safety properties are proved of the runtime itself.
- Progress after a crash: a reservation left open cannot be reserved again, so none is promised.
- `DynamicSubgraphPolicy.admit`: its acyclicity test is `Tarjan.CyclicComponents`; the rest is a list of threshold checks.
- Graph digest, version and metadata fields of a manifest, and the scheduler's optional `joins` argument: the joins are the manifest's.
- Scheduler.DurableGraphScheduler.Advance: does not model the JSON form of the stored state, which is taken to decode to what was encoded.
- StaticSoundness.GuardsCompleted: that a join which can do without a guard lets some run accept is shown for one manifest, not for every manifest, because other conditions of a manifest may rule such a run out.
- Certificate.Validate: contract, harness, workspace, authority and evidence digests of a certificate are omitted, as the validator never compares them.
- EffectStore.InMemoryIdempotencyStore.Reserve: its `complete` may overwrite a settled record; only its answers and its effect on open records are equated with the durable store.
- Controller.VerifiedController.Run: history and seen failures travel with the counters and are omitted; the answers of planner, gate, final verifier and repair are inputs; ledger, graph and memory calls inside a step appear only as a point where the step may fail; runs without a state store are not modelled.
- ControllerProtocol: checkpoints of different contracts or graphs under one run id, which the source refuses on load, do not occur; the conditions of the checkpoint constructor are built into the phases.
- PolicyGate.PolicyGate.Authorize: expiry, contract version, inline secrets and provenance completeness are one input of an attempt, and so is taint; the clock an approval is validated at is the attempt's; the non-blank fields and the fixed scope of a receipt are taken from its constructor; the fields of the capability itself are not returned.
- ContractCompiler.Compile: goal, success conditions and profile fields of a contract are copied or checked for presence only and omitted; order and duplicates of enumeration values are not kept.
- Completion.Verify: the payload of the final check is omitted, only its status is modelled.
- HybridVerification.Verify: the checks are given in phase order with their results; sorting and running them are omitted.
- Provenance.BoundSources: parents are listed in source order, where the source sorts them; content digests and source names, with the checks of their form, are omitted.
- Ledger.EvidenceLedger.Append: timestamps and error texts of outbox rows are omitted.
- Ledger.EvidenceLedger.ClaimAnchorOperations: the list of claimed rows is not returned; the outbox holds them.
- CompiledContents.NodesAre: ports are left to `ControlGraphValid.ArcEdgeOk`.
- Memory retrieval, projections and harness promotion: they repeat the lease pattern of the ledger or a single compare-and-swap.
