# Runlane kernel model

Runlane runs operational changes on a fleet: agents enrol with a control plane, pull read-only collect tasks for their
node, and hand back evidence; an analyzer turns the evidence into one typed proposal; a person approves it; a
privileged helper carries it out under a signed lease; verification follows, and an operator receipt is folded out of
an append-only audit ledger. This project models the in-memory kernel that carries those guarantees, the Rust crate
`runlane-core`, and proves what holds over every input, every sequence of calls and every schedule.

## How the model is built

* Each stateful component has a value-level state and one function per operation (`Runtime.Pull`, `Approval.Approve`,
  `Receipt.ApplyKind`, `Durable.Append`, ...). They have the branches, the order of checks and the error results of the
  code.
* The code's mutable objects are classes (`ControlPlanes.ControlPlane`, `Approval.ApprovalStore`,
  `Ledger.AuditLedger`, `ReceiptAccumulator.ReceiptParts`, `Durable.LocalServerState`, `Lifecycle.Run`). Every method
  is proved to turn the old state into exactly the new state and result of its function, so that whatever is proved
  about the functions holds of the objects.
* A whole run is a fold over a sequence of calls (`RuntimeRuns.After`, `ApprovalRuns.After`), of transition attempts
  (`Lifecycle.Visited`), or of start and finish moves (`SchedulerRuns.After`). Calls may fail, may be repeated, and
  may carry any ids, times and payloads, duplicates included.

The files, by component:

* control plane: `Runtime` (state, operations, invariant), `RuntimeInvariant` (every operation keeps it),
  `ControlPlane` (the object), `RuntimeRuns` (theorems about runs)
* lease scheduler: `Scheduler` (the decision for one task), `SchedulerRuns` (schedules of a task set)
* approvals and helper: `Analyzer`, `Approval`, `ApprovalRuns`, `Helper`, `Binding` (the chain through all four)
* receipt and durable ledger: `Ledger`, `Receipt`, `ReceiptParts`, `ReceiptProofs`, `Durable`
* planning: `Overlay`, `Verification`, `Runbooks`, `RunbookRuns` (their schedules), `PlanReach` (what they may touch)
* the journey that joins them: `E2e` (the evidence loop), `RunbookEvidence` (over the planned runs), `Journey` (the
  run's ledger), `JourneyRuns` (the whole journey and its receipt), `JourneyExact` and `OwnEvidence` (when it succeeds)
* the run lifecycle: `Lifecycle`
* every answer, case by case: `RuntimeAnswers`, `SchedulerAnswers`, `AnalyzerAnswers`, `ApprovalAnswers` (with the
  helper), `ReceiptAnswers`, `VerificationAnswers`, `RunbookAnswers`, `E2eAnswers` and `JourneyAnswers` say on the fields
  of the arguments what each operation returns and records, errors and reasons included
* vocabulary and stock: `Domain`, `Wrappers`, `Seqs`, `Strings`, `StableSort`

## What the code does, where one might expect otherwise

These are results about the code as it is; each has its exact condition.

* A rejected pull leaves the expired task where it is. It then stays at the head of its node's queue for good, and the
  node pulls nothing more, as long as the clock does not run back (`RuntimeRuns.ExpiredHeadBlocks`). A pull succeeds
  exactly when the head is unexpired (`RuntimeRuns.PullExact`).
* An accepted result need not come from the node its envelope was made for, because the submission's node is compared
  with the caller's identity only. `RuntimeRuns.ForeignResultAccepted` is such a run;
  `RuntimeRuns.ResultsFromOwnersExact` says exactly when all results come from their envelopes' nodes.
* Disruption from below is looked at only when the upper-layer task starts, so a drain may start on top of a running
  upper-layer mutation that depends on it (`SchedulerRuns.DrainMayStartDuringWrite`).
  `SchedulerRuns.CalmExactly` says exactly which runs keep running tasks undisturbed throughout.
* A maximal schedule completes every task exactly when the dependencies are closed and acyclic
  (`SchedulerRuns.CompletesExactly`); otherwise every maximal schedule leaves the same tasks undone
  (`SchedulerRuns.MaximalRunsAgree`).
* A record that is requested in another state than pending is lost to the ledger for good
  (`ApprovalRuns.ClosedRequestIsLost`). A run's ledger rebuilds its records exactly when all were requested pending, as
  `ApprovalRecord::new` makes them (`ApprovalRuns.LedgerRebuildsStore`).
* The node that an approval binds its lease to is the proposal's node exactly when the node id has no slash
  (`Binding.NodeReadBack`); otherwise it is the part before the slash (`Binding.SlashedNodeIsCut`).
* The evidence loop stops working at the 91st collect task, when its clock reaches the fixed expiry of its envelopes
  (`E2e.EvidenceLoopExact`).
* `append_ledger` on a store that holds anything changes nothing, because the first event already has the wrong number
  (`Durable.PersistAllOrNothing`).
* A restart of a service whose name, or whose node's name, contains `package-db` is verified by package checks instead
  of a check that the service is active, and exactly such a restart is (`RunbookRuns.RestartBranch`).
* `docs/execution-semantics.md:98-105` also asks for capabilities before a start, and its matrix at lines 109-115 allows
  a reboot lease beside a drain lease only within the same run. `decide_task` looks at neither
  (`Scheduler.DecisionIgnoresRunsAndCapabilities`, with the concrete `Scheduler.ForeignDrainAdmitsReboot`), and the
  model follows the code. `Scheduler.DocumentedMatrixExact` says exactly when a `Run` verdict also honours the
  documented matrix.

## Model

| member | source | states |
|---|---|---|
| RuntimeRuns.AtMostOnce | crates/runlane-core/src/runtime.rs:274-323 | in every run the accepted nonces are distinct and are those of the accepted results in order, no envelope id is accepted twice even if envelope ids repeat, each accepted result agrees with a pulled task on envelope, task, run and nonce, and accepted ≤ pulled ≤ enqueued |
| RuntimeRuns.ReplayRefused | crates/runlane-core/src/runtime.rs:285-313 | after any run a submission that repeats an accepted nonce or envelope id is refused, whoever sends it and whenever |
| RuntimeRuns.LedgerTellsAll | crates/runlane-core/src/runtime.rs:186-376 | in every run accepted results stand behind their pull and an enrolment of their node, pulls behind an enrolment, enrolments behind a token for that node; the tokens, agents, pulled tasks, results and spooled items are the projections of the ledger by event kind, in order; sequence numbers have no gap and event ids are distinct |
| RuntimeRuns.LedgerGrows | crates/runlane-core/src/runtime.rs:365-376 | the ledger before any calls is a prefix of the ledger after them |
| RuntimeRuns.EnrolledUnderToken | crates/runlane-core/src/runtime.rs:186-231 | in every run the tokens and spooled items are exactly those handed in, in order, and each agent entered under an issued token for its node, operating system and trust root |
| RuntimeRuns.FifoPerNode | crates/runlane-core/src/runtime.rs:234-271 | in every run and for every node, the tasks pulled followed by the tasks pending are exactly the tasks enqueued for it, in that order, and over all nodes no task is lost or made up |
| RuntimeRuns.PullExact | crates/runlane-core/src/runtime.rs:239-271 | a pull succeeds exactly for a known identity whose node's oldest task is unexpired, and then hands out that task and takes it from the front of the node's queue; a failed pull changes at most the ledger, and expiry is the only envelope rejection |
| RuntimeRuns.PullIsLocal | crates/runlane-core/src/runtime.rs:245-266 | a pull leaves what every other node has pulled and will pull as it was |
| RuntimeRuns.ExpiredHeadBlocks | crates/runlane-core/src/runtime.rs:252-258 | an expired task at the head of a node's queue stays there and the node pulls nothing more, through any calls whose pulls for that node are not earlier than the expiry |
| RuntimeRuns.SubmitExact | crates/runlane-core/src/runtime.rs:274-323 | a result is accepted exactly when the caller is known, the submission's node is the caller's, its nonce is unseen, and the first pulled task with its envelope id is unexpired and agrees on task, run and nonce; acceptance adds one nonce and one result, refusal changes at most the ledger |
| RuntimeRuns.ResultsFromOwnersExact | crates/runlane-core/src/runtime.rs:274-323 | after any run every accepted result comes from the node of the first pulled envelope with its id if and only if every accepted submission was made by an identity of that node |
| RuntimeRuns.ForeignResultAccepted | crates/runlane-core/src/runtime.rs:281-300 | a concrete run in which node b's agent has the result of a task that node a pulled accepted |
| RuntimeRuns.EnrollExact | crates/runlane-core/src/runtime.rs:196-231 | an enrolment succeeds exactly when the first token with that secret is live and agrees on node, operating system and trust root; a refused one changes nothing |
| RuntimeRuns.RunKeepsInv | crates/runlane-core/src/runtime.rs:157-376 | every reachable state, under any interleaving of calls, satisfies the control-plane invariant against the history of enqueued tasks |
| ControlPlanes.ControlPlane.CreateEnrollmentToken | crates/runlane-core/src/runtime.rs:186-193 | the object records the token and its event and keeps the invariant; the append error never arises |
| ControlPlanes.ControlPlane.EnrollAgent | crates/runlane-core/src/runtime.rs:196-231 | the object's new state and result are those of the specified enrolment, invariant kept |
| ControlPlanes.ControlPlane.EnqueueTask | crates/runlane-core/src/runtime.rs:234-236 | the task joins the queue and the history, nothing is logged, invariant kept |
| ControlPlanes.ControlPlane.PullTask | crates/runlane-core/src/runtime.rs:239-271 | search and removal from the middle of the queue give the specified new state and result, invariant kept |
| ControlPlanes.ControlPlane.SubmitResult | crates/runlane-core/src/runtime.rs:274-323 | the checks in the code's order give the specified new state and result, invariant kept |
| ControlPlanes.ControlPlane.SpoolResult | crates/runlane-core/src/runtime.rs:326-333 | the item is kept, logged and handed back, invariant kept |
| Runtime.RequireAgent | crates/runlane-core/src/runtime.rs:341-352 | an identity passes exactly when the first agent of its node has its fingerprint |
| RuntimeAnswers.IdentityAnswers | crates/runlane-core/src/runtime.rs:341-352 | an identity without an agent for its node is unknown, one whose node's first agent has another fingerprint is a mismatch, and every other one passes; there is no fourth case |
| RuntimeAnswers.EnvelopeAnswers | crates/runlane-core/src/lib.rs:651-675 | an envelope is refused for its node first, then for its expiry, then for its nonce, each under its name |
| RuntimeAnswers.CreateTokenAnswers | crates/runlane-core/src/runtime.rs:186-193 | the token joins the list and exactly one event, with its place as number and name, records its id and node |
| RuntimeAnswers.EnrollWithoutToken | crates/runlane-core/src/runtime.rs:200-205 | without a token of the presented secret the enrolment is refused as a token mismatch and nothing happens |
| RuntimeAnswers.EnrollAnswers | crates/runlane-core/src/runtime.rs:207-231 | the first token of the secret decides: expiry, node, system and trust root are refused in this order and without effect, and otherwise the agent is entered with its own fingerprint and one event |
| RuntimeAnswers.PullRefusals | crates/runlane-core/src/runtime.rs:244-249 | which of the three errors a pull without a known identity or without a task gives, and that nothing is recorded |
| RuntimeAnswers.PullAnswers | crates/runlane-core/src/runtime.rs:250-271 | the node's first task is rejected as expired, with exactly that event and no other effect, or else handed out, taken from its place in the queue and recorded with its ids and node |
| RuntimeAnswers.SubmitByStranger | crates/runlane-core/src/runtime.rs:280-280 | a submission by an unknown identity or with another fingerprint gets that error and leaves no trace |
| RuntimeAnswers.SubmitRefusals | crates/runlane-core/src/runtime.rs:281-297 | another node's result and a repeated nonce are refused in this order, each with exactly one rejection event that names envelope and reason; a result for an envelope nobody pulled is refused without one |
| RuntimeAnswers.SubmitAnswers | crates/runlane-core/src/runtime.rs:298-323 | against the first pulled envelope: expiry, task, run and nonce are refused in this order, each with exactly one rejection event and its reason, and otherwise the result is accepted, with its nonce and one event |
| RuntimeAnswers.SpoolAnswers | crates/runlane-core/src/runtime.rs:326-333 | the item is kept and exactly one event records its id and reason |
| Scheduler.CompatibleSymmetric | crates/runlane-core/src/lib.rs:262-279 | the matrix is symmetric; its pairs stated directly; two mutating modes coexist only as drain with reboot, and reboot coexists with drain alone |
| Scheduler.EffectiveLeaseRequests | crates/runlane-core/src/lib.rs:2510-2526 | explicit requests replace the defaults; by default each read is observed, each write is exclusive, and nothing else is requested |
| Scheduler.MutatedResourceIds | crates/runlane-core/src/lib.rs:2528-2537 | exactly the written resources and those of explicit mutating requests |
| Scheduler.DecideTask | crates/runlane-core/src/lib.rs:2433-2505 | `Run` if and only if every dependency is completed, every effective request is compatible with every active lease on its resource and no drain or reboot lease reaches the task through a path; a wait names an obstacle of the first kind present, and the first incomplete dependency |
| Scheduler.ConflictIsFirst | crates/runlane-core/src/lib.rs:2448-2466 | a reported conflict is that of the first request that conflicts at all, with the first lease in its way |
| Scheduler.DisruptionIsFirst | crates/runlane-core/src/lib.rs:2486-2504 | a reported disruption is that of the first disruptive lease, through the first path on which it disrupts |
| SchedulerAnswers.RunsExactly | crates/runlane-core/src/lib.rs:2433-2505 | a task runs if and only if every dependency is completed, each request may share its resource with every active lease there, and it is a system task or no active drain or reboot lease is on a path's lower resource whose upper resource it writes or explicitly asks to hold exclusively, drain or reboot; modes and layers are written out |
| SchedulerAnswers.RequestAnswers | crates/runlane-core/src/lib.rs:2510-2526 | explicit requests as they are, or else one observe request per read and then one exclusive request per write, in their order and with their reasons |
| SchedulerAnswers.WaitsForDependency | crates/runlane-core/src/lib.rs:2434-2445 | the first incomplete dependency is named before anything else |
| SchedulerAnswers.WaitsForLease | crates/runlane-core/src/lib.rs:2447-2467 | next the first blocked request is named, with the first lease that blocks it and both modes |
| SchedulerAnswers.WaitsForLowerLayer | crates/runlane-core/src/lib.rs:2469-2504 | last the first drain or reboot lease that undermines the task is named, on its first such path |
| Scheduler.DecisionMonotone | crates/runlane-core/src/lib.rs:2433-2484 | removing leases or paths, or adding completed tasks, never turns `Run` into `Wait` |
| Scheduler.DecisionIgnoresOrder | crates/runlane-core/src/lib.rs:2433-2484 | whether a task runs does not depend on the order of completed tasks, leases or paths |
| Scheduler.DecisionIgnoresRunsAndCapabilities | crates/runlane-core/src/lib.rs:2433-2505 | the whole verdict, reasons included, stays the same when leases change hands between runs or the task needs other capabilities |
| Scheduler.DocumentedMatrixExact | docs/execution-semantics.md:107-115 | a `Run` verdict honours the documented matrix if and only if no other run holds a drain lease on a resource that the task asks to reboot |
| Scheduler.DocumentedIsCompatible | docs/execution-semantics.md:107-115 | whatever the documented matrix allows to observe, write or reboot is compatible |
| Scheduler.ForeignDrainAdmitsReboot | crates/runlane-core/src/lib.rs:2448-2466 | a concrete task that gets `Run` for a reboot beside another run's drain lease, with a capability that nobody reported |
| SchedulerRuns.LeaseSafety | crates/runlane-core/src/lib.rs:2433-2526 | when tasks start only on `Run` and hold their effective requests until they finish, the leases of two different running tasks on one resource are compatible in every reachable state |
| SchedulerRuns.NoConcurrentWriters | crates/runlane-core/src/lib.rs:2510-2526 | two running tasks whose writes are covered by exclusive requests never write one resource at once |
| SchedulerRuns.DefaultsSerializeWrites | crates/runlane-core/src/lib.rs:2510-2526 | default requests cover the writes, as `NoConcurrentWriters` asks |
| SchedulerRuns.RebootSharesOnlyWithDrain | crates/runlane-core/src/lib.rs:268-279 | while a task holds a reboot lease, another running task requests that resource only as a drain |
| SchedulerRuns.StartKeepsCalmExactly | crates/runlane-core/src/lib.rs:2486-2505 | starting a task leaves every running upper-layer mutation undisturbed exactly when the starter itself disrupts none of them |
| SchedulerRuns.CalmExactly | crates/runlane-core/src/lib.rs:2486-2505 | every state of a run is free of disruption between running tasks if and only if each start in it disrupts no task then running |
| SchedulerRuns.DrainMayStartDuringWrite | crates/runlane-core/src/lib.rs:2486-2505 | a concrete two-task run in which a drain starts below a running deployment |
| SchedulerRuns.RunsAreShort | docs/execution-semantics.md:98-105 | 2·unstarted + running falls by one on each start or finish and never below zero |
| SchedulerRuns.RunsCanBeCompleted | docs/execution-semantics.md:98-105 | every run extends to one after which nothing can move |
| SchedulerRuns.SomeTaskCanRun | crates/runlane-core/src/lib.rs:2433-2484 | with closed acyclic dependencies and no outside leases, some unfinished task gets `Run` whenever nothing is running |
| SchedulerRuns.FinalLeavesStuck | crates/runlane-core/src/lib.rs:2433-2445 | when nothing can move, nothing is running and the unfinished tasks wait for each other or for ids nobody provides |
| SchedulerRuns.StuckNeverStarts | crates/runlane-core/src/lib.rs:2433-2445 | tasks that wait for each other never start, whatever else happens |
| SchedulerRuns.MaximalRunsAgree | crates/runlane-core/src/lib.rs:2433-2484 | all maximal runs of a task set finish the same tasks, whatever order they choose |
| SchedulerRuns.CompletesExactly | crates/runlane-core/src/lib.rs:2433-2484 | a maximal run completes every task if and only if the dependencies are closed and acyclic, and then takes two moves per task |
| Analyzer.AnalyzeServiceUnhealthy | crates/runlane-core/src/analyzer.rs:104-204 | for any evidence: one action, on the service's own resource, valid under the service policy, needing approval exactly when a helper can perform it; a restart exactly for unhealthy, not active, not unsupported evidence |
| Analyzer.AnalyzeDiskPressure | crates/runlane-core/src/analyzer.rs:208-284 | for any evidence: one action, valid under the disk policy, needing approval exactly when a helper can perform it; a cleanup exactly when the evidence shows pressure and a candidate and the requested resource is allowlisted, and then of that resource |
| Analyzer.ValidateProposal | crates/runlane-core/src/analyzer.rs:287-309 | passes exactly the non-empty proposals whose every action is allowed and marked for approval as the policy says; otherwise reports the first fault |
| AnalyzerAnswers.TextAnswers | crates/runlane-core/src/analyzer.rs:115-119 | each further piece of evidence adds its lower-cased body on a line of its own to the text that is searched |
| AnalyzerAnswers.ReferenceAnswers | crates/runlane-core/src/analyzer.rs:111-124 | the references are the sources in order, and the excerpt holds the bodies whose source speaks of logs, unchanged and in order |
| AnalyzerAnswers.PhraseAnswers | crates/runlane-core/src/analyzer.rs:126-135 | the phrases that make evidence active, unhealthy, unsupported, pressed or a cleanup candidate |
| AnalyzerAnswers.ServiceAnswers | crates/runlane-core/src/analyzer.rs:137-204 | takeover, more logs, restart or leaving alone, each with its hypothesis, confidence, action, lease request, references and excerpt, depending on what the text says, in this order |
| AnalyzerAnswers.DiskAnswers | crates/runlane-core/src/analyzer.rs:233-284 | the cleanup or a takeover of the mount, each with its hypothesis, confidence, action, lease request, references and excerpt |
| AnalyzerAnswers.ServicePolicyAnswers | crates/runlane-core/src/analyzer.rs:66-79 | the service policy allows exactly approved restarts and reloads, and more logs and takeovers without approval |
| AnalyzerAnswers.DiskPolicyAnswers | crates/runlane-core/src/analyzer.rs:83-91 | the disk policy allows exactly approved cleanups, and takeovers without approval |
| AnalyzerAnswers.ValidationAnswers | crates/runlane-core/src/analyzer.rs:287-309 | an empty proposal is refused as empty, and the first action that is not allowed for its kind or else for its approval |
| Approval.NewApproval | crates/runlane-core/src/approval.rs:41-81 | a pending record that carries the first proposed action with that id, its target and its lease request, or else an exclusive one on the target, and the impact, verification and evidence it was asked with |
| Approval.ApproveExact | crates/runlane-core/src/approval.rs:140-177 | an approval is granted exactly for a known, pending, unexpired record with the expected action and a helper for it; the claims carry the record's action, target, node, run and expiry and the caller's allowlist entry and nonce, only that record's state changes, and a refusal changes nothing |
| ApprovalAnswers.ApproveAnswers | crates/runlane-core/src/approval.rs:140-177 | for the first record with the id: not pending, stale, another action and no helper are refused in this order without effect; otherwise every field of the claims, the new state, and the one decision event with its actor |
| ApprovalAnswers.RejectAnswers | crates/runlane-core/src/approval.rs:180-195 | not pending and stale are refused in this order without effect; otherwise the new state and the one decision event with its actor |
| ApprovalAnswers.ExpireAnswers | crates/runlane-core/src/approval.rs:198-210 | not pending and not yet expired are refused in this order without effect, the latter as stale; otherwise the new state and the one event |
| ApprovalAnswers.SupersedeAnswers | crates/runlane-core/src/approval.rs:213-223 | not pending is refused without effect; otherwise the new state and the one event, which names the newer approval |
| ApprovalAnswers.UnknownAnswers | crates/runlane-core/src/approval.rs:237-242 | every call on an id that was never requested answers that it is unknown and does nothing |
| ApprovalAnswers.RequestAnswers | crates/runlane-core/src/approval.rs:114-122 | the record joins the list and exactly one event records its id, proposal and action |
| ApprovalAnswers.AdapterRejectionAnswers | crates/runlane-core/src/approval.rs:226-235 | the records stay and exactly one event records the adapter and its reason |
| ApprovalAnswers.NodeAnswers | crates/runlane-core/src/approval.rs:325-331 | a target's node stands between the fixed prefix and the next slash, and any other target has the unknown node |
| ApprovalAnswers.HelperActionAnswers | crates/runlane-core/src/analyzer.rs:46-53 | restart, reload and cleanup have their helper actions, and more logs and takeover have none |
| Approval.ApprovalStore.RequestApproval | crates/runlane-core/src/approval.rs:114-122 | the object's new state is that of the specified request, which cannot fail |
| Approval.ApprovalStore.ApproveAction | crates/runlane-core/src/approval.rs:140-177 | the object's new state, claims and errors are those of the specified approval |
| Approval.ApprovalStore.RejectApproval | crates/runlane-core/src/approval.rs:180-195 | the object's new state and result are those of the specified rejection |
| Approval.ApprovalStore.ExpireApproval | crates/runlane-core/src/approval.rs:198-210 | the object's new state and result are those of the specified expiry |
| Approval.ApprovalStore.SupersedeApproval | crates/runlane-core/src/approval.rs:213-223 | the object's new state and result are those of the specified superseding |
| Approval.ApprovalStore.RejectFromAdapter | crates/runlane-core/src/approval.rs:226-235 | an adapter's rejection is logged and no record changes |
| ApprovalRuns.LedgerRebuildsStore | crates/runlane-core/src/approval.rs:114-268 | after any run, folding the approval ledger from nothing gives back each record's id, proposal, action and state, in order, if and only if every record was requested pending |
| ApprovalRuns.LedgerTellsOfStore | crates/runlane-core/src/approval.rs:114-268 | after any run at all the fold gives back id, proposal and action of every record, in order, and errs on a state only by taking a closed record for pending |
| ApprovalRuns.RequestReplayExact | crates/runlane-core/src/approval.rs:114-122 | one request on any store that its ledger rebuilds keeps it so if and only if the record arrives pending |
| ApprovalRuns.ClosedRequestIsLost | crates/runlane-core/src/approval.rs:114-122 | every record requested in another state is replayed as pending, and nothing in the ledger has closed it |
| ApprovalRuns.ClosedAtMostOnce | crates/runlane-core/src/approval.rs:140-223 | in every run at most one closing event appears per approval id, behind a request for it, and only for ids no longer pending; one lease is issued per approved decision, and lease ids are distinct |
| ApprovalRuns.ClosedIdsExact | crates/runlane-core/src/approval.rs:114-223 | after any run the closed ids are exactly those no longer pending if and only if the first request for each id brought a pending record |
| ApprovalRuns.LedgerIsSequenced | crates/runlane-core/src/approval.rs:257-268 | in every run the approval ledger has no gap and its event ids are distinct |
| ApprovalRuns.FailureChangesNothing | crates/runlane-core/src/approval.rs:140-255 | a failed call changes neither records nor ledger |
| ApprovalRuns.DecisionsAreFinal | crates/runlane-core/src/approval.rs:140-255 | records keep their place and binding through any calls, and one that is no longer pending never changes again |
| ApprovalRuns.ClosingExact | crates/runlane-core/src/approval.rs:180-223 | superseding is possible exactly while an approval is pending, rejecting exactly while it is pending and unexpired, expiring exactly while it is pending and no longer unexpired, so that of the last two exactly one is possible; each changes that record's state and no other record |
| ApprovalRuns.ClosedForGood | crates/runlane-core/src/approval.rs:140-255 | once an approval is closed no call on its id ever succeeds again, whatever happens in between and even if the id is requested again |
| Helper.ValidateHelperRequest | crates/runlane-core/src/lib.rs:2199-2245 | a request is accepted exactly when the signature is valid, the lease is live, its nonce unseen, its node this one, lease id, action and target agree and the local allowlist permits it; the invocation is what was claimed |
| ApprovalAnswers.HelperAnswers | crates/runlane-core/src/lib.rs:2199-2245 | the eight refusals in their order, and otherwise every field of the accepted invocation |
| ApprovalAnswers.NonceIsRemembered | crates/runlane-core/src/lib.rs:2212-2218 | a helper that has seen the nonce given to the approval refuses its lease, as replayed when signature and expiry are in order, and a helper that has not seen it never refuses the lease as replayed |
| Binding.NodeReadBack | crates/runlane-core/src/approval.rs:325-331 | the node read back from a service target is the node it was built for if and only if that has no slash |
| Binding.SlashedNodeIsCut | crates/runlane-core/src/approval.rs:325-331 | a node id with a slash is read back as the part before its first slash |
| Binding.ApprovalFollowsProposal | crates/runlane-core/src/analyzer.rs:104-204 | for any evidence the service proposal is policy-valid, and a timely approve of the record asked for it succeeds exactly when the proposal needs approval and fails as unsupported exactly when it does not |
| Binding.InvocationIsBound | crates/runlane-core/src/approval.rs:140-177 | what a helper accepts under an approval's claims has the record's action, target and id, a time before the record's expiry, and runs on the node read from the record's target |
| Binding.EvidenceToHelper | crates/runlane-core/src/analyzer.rs:104-204 | for a node id without a slash, whatever a helper does under an approval asked for the service proposal is a restart of that service on that node before the approval's expiry, and the evidence indicated a restart |
| Binding.EvidenceToCleanup | crates/runlane-core/src/analyzer.rs:208-284 | whatever a helper does under an approval asked for the disk proposal is the removal, before the approval's expiry, of the proposed resource, which the fleet allowlisted, and the evidence showed pressure and a candidate |
| Ledger.AuditLedger.Append | crates/runlane-core/src/lib.rs:2064-2074 | exactly the event with the next sequence number is accepted and added; any other is refused with both numbers and changes nothing |
| Ledger.WrittenByOneSource | crates/runlane-core/src/lib.rs:2056-2087 | a ledger written by one component has no gap and no two events with one id |
| Receipt.PartsOfAppend | crates/runlane-core/src/receipt.rs:102-164 | applying one more event to the parts gives the parts that directly describe the longer event list |
| ReceiptAccumulator.ReceiptParts.Apply | crates/runlane-core/src/receipt.rs:102-164 | the accumulator's update of its fields is the specified application of one event |
| ReceiptAccumulator.CollectReceiptParts | crates/runlane-core/src/receipt.rs:89-99 | the loop over the shared log ends with the parts that describe the run's own events |
| ReceiptAccumulator.ReceiptParts.FinalizeReceipt | crates/runlane-core/src/receipt.rs:166-230 | sorting and deduplicating in place gives the specified receipt, or the first missing part |
| ReceiptAccumulator.GenerateOperatorReceipt | crates/runlane-core/src/receipt.rs:82-88 | the whole computation yields the specified receipt of the run |
| ReceiptProofs.OtherRunsDoNotMatter | crates/runlane-core/src/receipt.rs:89-99 | an event of another run, wherever it is interleaved, does not change the receipt |
| ReceiptProofs.ReceiptFromOwnEvents | crates/runlane-core/src/receipt.rs:89-99 | the receipt is that of the run's own events alone |
| ReceiptProofs.ReceiptEventIsNeutral | crates/runlane-core/src/e2e.rs:752-767 | recording that a receipt was generated leaves the receipt as it was |
| ReceiptProofs.DefinedExactly | crates/runlane-core/src/receipt.rs:102-199 | a receipt exists if and only if the run has an incident, evidence, a proposal, an issued lease, an action result, a selected plan with a required check and a completed check, in any order; three of the declared missing-part errors never occur |
| ReceiptProofs.StaysDefined | crates/runlane-core/src/receipt.rs:166-199 | appending events never makes a receipt undefined |
| ReceiptProofs.ChangedResourcesExact | crates/runlane-core/src/receipt.rs:200-211 | the changed resources are the resources of the grants and action results, once each and in dictionary order |
| ReceiptProofs.SkippedChecksExact | crates/runlane-core/src/receipt.rs:200-211 | the skipped checks hold one entry per skipped id, in dictionary order of the ids, with the first reason in ledger order |
| ReceiptProofs.ApprovalIdExact | crates/runlane-core/src/receipt.rs:102-164 | the approval id is that of the last approved decision, or else of the first issued lease |
| Strings.AtMostExact | crates/runlane-core/src/receipt.rs:200-211 | the order of texts is that of a dictionary: a text comes before those it begins, and otherwise the first difference decides |
| ReceiptAnswers.KindsAnswers | crates/runlane-core/src/receipt.rs:89-99 | one more event is taken up, last and by what it says, exactly if it is the run's own |
| ReceiptAnswers.PartsAnswers | crates/runlane-core/src/receipt.rs:102-164 | what each kind of event changes in the parts, field by field, and that all other kinds change nothing |
| ReceiptAnswers.MissingAnswers | crates/runlane-core/src/receipt.rs:166-199 | the first missing part in the order of the receipt, and the name it is reported under |
| ReceiptAnswers.FinalizeAnswers | crates/runlane-core/src/receipt.rs:200-246 | a receipt is made exactly when nothing is missing; it carries over every part, is of the system layer, and has the cleanup notes exactly for a cleanup |
| StableSort.SortIsStable | crates/runlane-core/src/receipt.rs:200-211 | the sort yields a sorted permutation that keeps elements with one key in order |
| StableSort.SortedUnique | crates/runlane-core/src/lib.rs:144-145 | there is only one such arrangement, so any stable sort gives it |
| StableSort.SortDedupKeepsFirsts | crates/runlane-core/src/receipt.rs:200-211 | sorting and then removing neighbours with one key leaves the first element of each key, strictly sorted |
| Durable.LoadExact | crates/runlane-core/src/durable.rs:128-156 | a stream loads if and only if its k-th document decodes and carries sequence k, and then yields the stored events |
| Durable.FirstBadDocumentDecides | crates/runlane-core/src/durable.rs:144-155 | the first unacceptable document decides the error, whatever follows it |
| Durable.AppendThenLoad | crates/runlane-core/src/durable.rs:80-117 | an append passes exactly when the file loads and the event carries the next number; then exactly that event is added to what loads, and otherwise nothing changes |
| Durable.PersistRoundTrip | crates/runlane-core/src/durable.rs:120-125 | persisting any sequenced ledger to an empty store passes and reads back as that ledger |
| Durable.PersistAllOrNothing | crates/runlane-core/src/durable.rs:120-125 | persisting a ledger passes exactly on an empty store or for an empty ledger, reproduces the ledger then, and changes nothing otherwise |
| Durable.LoadRefusals | crates/runlane-core/src/durable.rs:128-156 | a missing file, an undecodable document and a wrong number are answered as such, the latter with the expected and the actual number |
| Durable.AppendAnswers | crates/runlane-core/src/durable.rs:80-117 | an append extends the stored documents by exactly one, or answers why the file does not load or which number was expected |
| Durable.PersistRefusals | crates/runlane-core/src/durable.rs:120-125 | persisting to a missing file or to a store of n events answers so, the latter with n + 1 expected and 1 given |
| Durable.ReceiptSurvivesRestart | crates/runlane-core/src/durable.rs:159-162 | the receipt rendered after a restart is the one from memory, or the same error, even with the receipt's own event appended |
| Durable.LocalServerState.AppendEvent | crates/runlane-core/src/durable.rs:80-117 | the stored file and the result are those of the specified append |
| Durable.LocalServerState.AppendLedger | crates/runlane-core/src/durable.rs:120-125 | the loop that stops at the first failure leaves the specified file and result |
| Durable.LocalServerState.LoadLedger | crates/runlane-core/src/durable.rs:128-156 | building the ledger document by document gives the specified events or the first error |
| Durable.LocalServerState.RenderReceipt | crates/runlane-core/src/durable.rs:159-162 | the receipt is that of the loaded events, or the load's error |
| Overlay.TiersInOrder | crates/runlane-core/src/lib.rs:53-62 | each tier ranks below the next, from global to node |
| Overlay.TiersAreLevel | crates/runlane-core/src/lib.rs:53-62 | fragments of one tier have one rank, whatever they name |
| Overlay.ResolveFleetOverlays | crates/runlane-core/src/lib.rs:141-160 | the sort and the insert loops yield the specified intent |
| Overlay.WinnerDecides | crates/runlane-core/src/lib.rs:141-160 | the value of a key is its last setting in the last fragment among the highest-ranked fragments that mention it |
| Overlay.WinnerExists | crates/runlane-core/src/lib.rs:141-160 | a key that some fragment mentions has such a deciding fragment |
| Overlay.DecidingSettingResolves | crates/runlane-core/src/lib.rs:141-160 | the last setting of a key in the last fragment of the highest rank that sets it, given by its positions, is an entry of the result |
| Overlay.ResolvedKeysExact | crates/runlane-core/src/lib.rs:147-159 | the entries come in dictionary order of their keys, once each, and are for exactly the keys that some fragment sets |
| Overlay.ReorderingIsHarmless | crates/runlane-core/src/lib.rs:144-145 | any reordering that keeps fragments of one rank in order resolves to the same intent |
| Overlay.ResolutionIsIdempotent | crates/runlane-core/src/lib.rs:141-160 | resolving a resolved intent again, as a fragment of any tier, returns it |
| Verification.PlansAreCoherent | crates/runlane-core/src/lib.rs:1394-1642 | for every action, impact and policy: no check id is both required and skipped, at least one check is required, and every required resource is a declared write or may-affect resource, or the unknown fallback when there are no writes |
| Verification.PackageAuditFollowsPolicy | crates/runlane-core/src/lib.rs:1394-1550 | the broad package audit is required exactly in the package branch under a policy that asks for it |
| Verification.BuildSystemPackageUpdate | crates/runlane-core/src/lib.rs:1480-1549 | building the vectors step by step gives the specified package plan |
| VerificationAnswers.ResourceAnswers | crates/runlane-core/src/lib.rs:1644-1658 | the first write or the layer's unknown resource, and the first resource that may be affected or else that |
| VerificationAnswers.NamedResourceAnswers | crates/runlane-core/src/lib.rs:1660-1685 | package and reboot resources are the first such among writes and then affected ones, service resources the first such among affected ones |
| VerificationAnswers.ApplicationAnswers | crates/runlane-core/src/lib.rs:1425-1445 | every check, resource, tier and skip of an application's restart or reload |
| VerificationAnswers.ServiceAnswers | crates/runlane-core/src/lib.rs:1616-1633 | every check, resource and tier of the other restarts and reloads |
| VerificationAnswers.ReloadAnswers | crates/runlane-core/src/lib.rs:1447-1474 | every check, resource, tier and skip of a platform reload, with the canary exactly where the policy asks for it |
| VerificationAnswers.CleanupAnswers | crates/runlane-core/src/lib.rs:1585-1614 | the four checks of a cleanup on their resources |
| VerificationAnswers.RebootAnswers | crates/runlane-core/src/lib.rs:1551-1583 | the four checks of a reboot on their resources, and its skip |
| VerificationAnswers.PackageAnswers | crates/runlane-core/src/lib.rs:1480-1549 | every check, resource, tier and skip of a package change, for package updates and other system actions that write the package database |
| VerificationAnswers.OtherAnswers | crates/runlane-core/src/lib.rs:1635-1642 | everything else is checked for the helper's result alone |
| Runbooks.SelectServiceCapabilities | crates/runlane-core/src/lib.rs:1144-1181 | capabilities are selected exactly when the operating system has a driver and the node reports all six, each the one of that system; otherwise the error names the unknown system or the first capability missing |
| Runbooks.SelectDiskCapabilities | crates/runlane-core/src/lib.rs:1183-1203 | capabilities are selected exactly when the operating system has a driver and the node reports all three, each the one of that system; otherwise the error names missing storage, then the unknown system, then the first capability missing |
| Runbooks.MountFragmentIsSegment | crates/runlane-core/src/lib.rs:1326-1332 | whatever the mount point, the fragment that names its filesystem is one segment of a resource path |
| RunbookAnswers.MountAnswers | crates/runlane-core/src/lib.rs:1326-1332 | the fragment is `root` for the root, and otherwise the mount point without its outer slashes and with dashes for the inner ones |
| RunbookAnswers.CapabilityAnswers | crates/runlane-core/src/lib.rs:1205-1308 | the capability of each native system by name, and that no other system has a driver |
| RunbookAnswers.ServiceCollectorAnswers | crates/runlane-core/src/lib.rs:972-989 | each of the five collectors with its own capability and its own resource, and with nothing else |
| RunbookAnswers.ServiceMutatorAnswers | crates/runlane-core/src/lib.rs:990-1008 | the restart's capabilities, target, lease request, dependencies, impact and verification |
| RunbookAnswers.ServiceImpactAnswers | crates/runlane-core/src/lib.rs:943-956 | what a restart writes, may affect and does not affect |
| RunbookAnswers.ServiceVerificationAnswers | crates/runlane-core/src/lib.rs:958-969 | the planned verification of the restart, with two more skips and their reasons |
| RunbookAnswers.ServiceRunAnswers | crates/runlane-core/src/lib.rs:1010-1030 | a new run of the system layer that carries the goal, the tasks, the impact and the verification |
| RunbookAnswers.DiskCollectorAnswers | crates/runlane-core/src/lib.rs:1085-1101 | each of the four collectors with its own capability and resources, and with nothing else |
| RunbookAnswers.DiskMutatorAnswers | crates/runlane-core/src/lib.rs:1102-1117 | the cleanup's capability, target, lease request, dependencies, impact and verification |
| RunbookAnswers.DiskImpactAnswers | crates/runlane-core/src/lib.rs:1051-1070 | what a cleanup writes, may affect and does not affect |
| PlanReach.ServicePlanReach | crates/runlane-core/src/lib.rs:930-1036 | every task of a planned service run needs only reported capabilities, reads only the requested node's resources and changes nothing but the resource that the analyzer targets for that service, whatever the evidence; the last task alone writes it, under an exclusive request, with the run's own impact and verification |
| PlanReach.DiskPlanReach | crates/runlane-core/src/lib.rs:1038-1142 | the same for a planned disk run, whose only change is to the requested cleanup resource |
| PlanReach.HelperActsAsPlanned | crates/runlane-core/src/lib.rs:2199-2245 | for a node id without a slash, what a helper accepts for a service proposal acts on the reporting node, on exactly the resource that the planned run's mutator writes and holds exclusively |
| RunbookRuns.PlansExact | crates/runlane-core/src/lib.rs:930-1203 | from the request and the report alone: each planner returns a run for the reported node when that has a native driver and reports everything needed, and otherwise the first thing found wrong |
| RunbookRuns.ServicePlanShape | crates/runlane-core/src/lib.rs:930-1036 | a planned service run is distinct read-only collectors without dependencies, followed by one exclusive mutator that depends on all of them |
| RunbookRuns.DiskPlanShape | crates/runlane-core/src/lib.rs:1038-1142 | the same shape for a planned disk run |
| RunbookRuns.MutationComesLast | crates/runlane-core/src/lib.rs:2433-2445 | in every schedule of such a run the mutating task starts only after every collector has finished |
| RunbookRuns.CollectorsNeverWait | crates/runlane-core/src/lib.rs:2433-2484 | in every schedule an unstarted collector may start at once, whichever others are running |
| RunbookRuns.CollectorsRunTogether | crates/runlane-core/src/lib.rs:2433-2484 | there is a schedule in which all collectors are running at the same time |
| RunbookRuns.AllComplete | crates/runlane-core/src/lib.rs:2433-2484 | in every maximal schedule of such a run all tasks complete |
| RunbookRuns.ServiceRunsScheduleWell | crates/runlane-core/src/lib.rs:930-1036 | whenever the service planner returns a run, all of this holds of each of its schedules, over any dependency paths |
| RunbookRuns.DiskRunsScheduleWell | crates/runlane-core/src/lib.rs:1038-1142 | whenever the disk planner returns a run, all of this holds of each of its schedules, over any dependency paths |
| RunbookRuns.RunbookVerificationCoherent | crates/runlane-core/src/lib.rs:958-969 | both runbooks' plans stay coherent after adding their own skipped checks, whichever verification branch they take |
| RunbookRuns.RestartWritesPackageDb | crates/runlane-core/src/lib.rs:1410-1417 | a planned restart counts as a package mutation if and only if the node's or the service's name contains `package-db` |
| RunbookRuns.RestartBranch | crates/runlane-core/src/lib.rs:1394-1423 | a planned restart requires the service to be checked as active if and only if neither name contains `package-db`, and the package database to be checked if and only if one does |
| Lifecycle.TransitionsExact | crates/runlane-core/src/lib.rs:2646-2665 | the sixteen allowed transitions, and no others |
| Lifecycle.Run.TransitionTo | crates/runlane-core/src/lib.rs:2574-2584 | the state moves exactly when the lifecycle allows it; a refused attempt changes nothing and reports both states |
| Lifecycle.AtMostTenTransitions | crates/runlane-core/src/lib.rs:2646-2665 | in any sequence of attempts at most ten succeed and no state repeats |
| Lifecycle.ExecutionNeedsApproval | crates/runlane-core/src/lib.rs:2646-2665 | `Executing` is always the eighth state, right behind `WaitingForApproval` and `Approved` |
| Lifecycle.OnlyReviewedIsFinal | crates/runlane-core/src/lib.rs:2646-2665 | `Reviewed` is the only state without a successor |
| Lifecycle.ReviewedStaysReachable | crates/runlane-core/src/lib.rs:2646-2665 | from every state some legal path leads to `Reviewed` |
| E2e.StepExact | crates/runlane-core/src/e2e.rs:433-465 | one pass of the loop succeeds exactly for the enrolled target agent and a task that is equipped, has evidence, a new id and a position below 90 |
| E2e.CollectEvidenceFor | crates/runlane-core/src/e2e.rs:422-476 | the loop over the mutable plane gives the specified plane and result, whatever was on the plane before |
| E2e.EvidenceLoopExact | crates/runlane-core/src/e2e.rs:422-521 | on a plane where nothing has been queued or accepted, collecting succeeds if and only if there are no collect tasks, or the agent is the enrolled target and there are at most 90 collect tasks with distinct ids, each with a capability, a read and evidence; it then returns one envelope per task, in task order |
| E2eAnswers.CollectorAnswers | crates/runlane-core/src/e2e.rs:430-437 | the loop takes exactly the tasks whose id begins with `collect-`, in their order |
| E2eAnswers.EnvelopeIs | crates/runlane-core/src/e2e.rs:478-512 | every field of a collect task's envelope |
| E2eAnswers.QueuedAnswers | crates/runlane-core/src/e2e.rs:478-512 | a task without capability and then one without read is refused, and otherwise the first of each is collected |
| E2eAnswers.LoopAnswers | crates/runlane-core/src/e2e.rs:433-466 | on a fresh plane with a ready agent, the first task that cannot go through decides the error: its missing capability or read, its evidence, a replayed nonce for a repeated id, or expiry |
| E2eAnswers.LoopLeaves | crates/runlane-core/src/e2e.rs:433-466 | a completed loop leaves the agents as they were, an empty queue, and for each task its envelope pulled, its nonce and its result accepted |
| E2eAnswers.AcceptedAnswers | crates/runlane-core/src/e2e.rs:514-521 | the evidence of each successful result of the run is handed over, in order |
| Journey.AppendRuntimeEvents | crates/runlane-core/src/e2e.rs:781-790 | another component's events are appended to the run in order, keeping only what they say |
| Journey.RecordVerification | crates/runlane-core/src/e2e.rs:713-750 | the plan of that action for that impact under the minimal policy, with the given skips in place of its own, is recorded first, then each required check as completed and each skip as skipped, in order |
| Journey.FinishReceipt | crates/runlane-core/src/e2e.rs:752-767 | without a receipt nothing is recorded; with one, its event is appended and the ledger still yields the same receipt |
| Journey.RecordedKinds | crates/runlane-core/src/e2e.rs:769-779 | what is recorded for one run is appended to that run's events and to no other run's |
| Journey.PlaneIsSilent | crates/runlane-core/src/runtime.rs:186-376 | in every run nothing that the control plane records can influence a receipt |
| Journey.ApprovalEvents | crates/runlane-core/src/approval.rs:114-177 | one request and its approval leave exactly a request event and an approved decision for the claims' approval |
| Journey.StoryEndsInReceipt | crates/runlane-core/src/receipt.rs:82-230 | a run whose events tell a journey has a receipt if and only if it gathered evidence and required a check; the receipt reports exactly that journey's incident, evidence, proposal, approval, lease, action, single resource and checks, and each skipped check once with its first reason |
| RunbookEvidence.ServiceRunCollectable | crates/runlane-core/src/e2e.rs:792-806 | with the service runbook's own evidence, the loop over its planned run succeeds exactly for the enrolled agent of the planned node |
| RunbookEvidence.ServiceRunCollects | crates/runlane-core/src/e2e.rs:422-476 | with any evidence, that loop succeeds exactly for that agent and evidence for all five collectors, which it returns in order |
| RunbookEvidence.DiskRunCollectable | crates/runlane-core/src/e2e.rs:808-829 | with the disk runbook's own evidence, the loop over its planned run succeeds exactly for the enrolled agent of the planned node |
| RunbookEvidence.DiskRunCollects | crates/runlane-core/src/e2e.rs:422-476 | with any evidence, that loop succeeds exactly for that agent and evidence for all four collectors, which it returns in order |
| JourneyRuns.AppendObservedEvidence | crates/runlane-core/src/e2e.rs:523-540 | the plane's events and then the evidence sources are appended to the run, in order |
| JourneyRuns.ApproveActionFor | crates/runlane-core/src/e2e.rs:613-664 | the fresh store's events and the lease are appended for exactly the claims that the specified approval grants |
| JourneyRuns.AuthoriseExact | crates/runlane-core/src/e2e.rs:613-645 | the approval is granted if and only if the action asked for was proposed and a helper can do it; the claims carry that action to its target on the journey's terms |
| JourneyRuns.HelperExact | crates/runlane-core/src/e2e.rs:666-699 | the helper accepts if and only if it sits on the claims' node and agrees on action, subject and allowlist entry before the expiry |
| JourneyRuns.RunJourney | crates/runlane-core/src/e2e.rs:82-142 | driving the plane, a ledger and an approval store step by step gives the specified ledger and receipt, or the specified error |
| JourneyRuns.JourneyEndsInReceipt | crates/runlane-core/src/e2e.rs:82-142 | after any calls to the plane, a journey that passes all its steps ends in a receipt if and only if it gathered evidence; the receipt tells what the steps found and did, and the final ledger still yields it |
| JourneyExact.ServiceJourneyExact | crates/runlane-core/src/e2e.rs:82-142 | over any enrolment and any evidence, the journey of a planned service run succeeds if and only if the node's agent is enrolled, there is evidence for all five collectors and it indicates a restart, and the helper sits on the node named by the target and agrees on subject and allowlist entry |
| JourneyExact.DiskJourneyExact | crates/runlane-core/src/e2e.rs:145-223 | the same for the journey of a planned disk run, whose evidence must show pressure and a candidate for an allowlisted resource |
| OwnEvidence.ServiceJourneyWithOwnEvidence | crates/runlane-core/src/e2e.rs:792-806 | with the evidence the journey brings along, only the enrolled agent and the helper's place are left as conditions |
| OwnEvidence.DiskJourneyWithOwnEvidence | crates/runlane-core/src/e2e.rs:808-829 | with the evidence the journey brings along, only the enrolled agent, the allowlist and the helper's place are left as conditions |
| JourneyAnswers.RecordAllAnswers | crates/runlane-core/src/e2e.rs:769-779 | every recorded event is numbered and named by its place, belongs to the run and says what was recorded |
| JourneyAnswers.StoryAnswers | crates/runlane-core/src/e2e.rs:82-142 | the kinds that a journey records, one by one and in order |
| JourneyAnswers.LedgerAnswers | crates/runlane-core/src/e2e.rs:752-767 | a successful journey's ledger holds its kinds in order and then the receipt's own id; without a receipt the journey answers with the missing part |
| JourneyAnswers.StoryIs | crates/runlane-core/src/e2e.rs:82-142 | every part of what a journey tells comes from the step that gave it, and its plan is that of the action and the task's impact under the minimal policy with the task's skips |
| JourneyAnswers.FindingAnswers | crates/runlane-core/src/e2e.rs:410-476 | a missing agent, failed evidence and an invalid proposal are answered in this order |
| JourneyAnswers.EnactingAnswers | crates/runlane-core/src/e2e.rs:606-711 | a missing task, a refused approval and a refusing helper are answered in this order |
| JourneyAnswers.AskingAnswers | crates/runlane-core/src/e2e.rs:613-645 | an action that was not proposed cannot be asked for, and one without a helper is refused |
| JourneyAnswers.GrantingAnswers | crates/runlane-core/src/e2e.rs:613-645 | a granted approval has recorded its request and the operator's decision |
| JourneyAnswers.ActingAnswers | crates/runlane-core/src/e2e.rs:666-699 | what the helper is asked, under which lease, and in which context |
| JourneyAnswers.ServiceJourneyReports | crates/runlane-core/src/e2e.rs:82-142 | unless a name mentions `package-db`, the receipt of a successful service journey reports exactly the checks `helper_result_matches_request` and `service_active` on the service, both completed, the restart of that one resource under its approval and lease, and the two skips with their reasons |
| JourneyAnswers.DiskJourneyReports | crates/runlane-core/src/e2e.rs:145-223 | the receipt of a successful disk journey reports exactly the four cleanup checks on the cleaned resource and its filesystem, all completed, the cleanup of that one resource under its approval and lease, and the two skips with their reasons |

## Left out

- HTTP server, agent process, helper process, command lines, `xtask` and scripts: plumbing around the kernel.
- Fleet loading and its shape checks (`fleet.rs`): fragments, nodes and allowlists are taken as given.
- The Telegram adapter (`telegram.rs`): an identity map in front of the approval store.
- YAML text and file failures in `durable.rs`: a file is a sequence of documents, each undecodable or decoding to the event it encodes, and reading and writing do not fail; a missing file is modelled.
- Signature checking: whether a lease's signature is valid is an input of the helper check.
- Clocks: every time is a parameter of the call that reads it.
- Integer width: sequence numbers and times are unbounded naturals where the code has `u64`.
- Text rendering of receipts, errors and displays; evidence-loop errors keep their cause instead of its message, and the receipt keeps which of its two sets of closing notes applies instead of their wording.
- The reason text of a missing capability; the error keeps which capability is missing.
- Rust's standard sort and ordered map: a stable insertion sort and a key-ordered list; `StableSort.SortedUnique` shows that every stable sort gives the same arrangement.
- The protocol around the scheduler's decision: the code supplies the decision only, so starting, holding and finishing are modelled as steps after `docs/execution-semantics.md:98-105`.
- The two simulations' fixed ids and their loading of the fleet: the journey is modelled for any ids, tasks, enrolment and evidence.
- Panics: asking for approval of an action that was not proposed panics in `ApprovalRecord::new`; the journey reports it as an error of its own.
