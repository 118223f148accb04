/** Shared vocabulary of the control kernel: resources, leases, envelopes, verification and audit events. */
module Domain {
  import opened Wrappers

  datatype OperationalLayer = System | Platform | Application

  datatype OperatingSystem = Linux | FreeBsd | OpenBsd | Solaris | Illumos | Unknown

  datatype Capability = Capability(id: string)

  // ----- Leases -----

  datatype LeaseMode = Observe | Intent | Exclusive | Drain | Reboot

  datatype ResourceLease = ResourceLease(
    id: string,
    runId: string,
    taskId: Option<string>,
    resourceId: string,
    mode: LeaseMode,
    reason: string)

  datatype ResourceLeaseRequest = ResourceLeaseRequest(resourceId: string, mode: LeaseMode, reason: string)

  // ----- Impact and verification -----

  datatype ImpactSet = ImpactSet(
    layer: OperationalLayer,
    writes: seq<string>,
    mayAffect: seq<string>,
    doesNotAffect: seq<string>)

  datatype VerificationTier = Precondition | DirectImpact | Dependent | BroadRegression

  datatype VerificationCheck = VerificationCheck(id: string, resourceId: string, tier: VerificationTier)

  datatype SkippedVerification = SkippedVerification(checkId: string, reason: string)

  datatype VerificationPlan = VerificationPlan(
    required: seq<VerificationCheck>,
    conditional: seq<VerificationCheck>,
    skipped: seq<SkippedVerification>)

  // ----- Tasks and runs -----

  datatype Task = Task(
    id: string,
    layer: OperationalLayer,
    requiredCapabilities: seq<Capability>,
    readsFrom: seq<string>,
    writesTo: seq<string>,
    leaseRequests: seq<ResourceLeaseRequest>,
    dependencies: seq<string>,
    impact: ImpactSet,
    verification: VerificationPlan)

  datatype RunState =
    | Created
    | Planned
    | CollectingEvidence
    | EvidenceCollected
    | ProposalGenerated
    | WaitingForApproval
    | Approved
    | Rejected
    | Executing
    | Verifying
    | Resolved
    | Failed
    | Escalated
    | Reviewed

  datatype RunRecord = RunRecord(
    id: string,
    goal: string,
    targetLayer: OperationalLayer,
    state: RunState,
    tasks: seq<Task>,
    leases: seq<ResourceLease>,
    impact: ImpactSet,
    verification: VerificationPlan)

  function EmptyImpact(layer: OperationalLayer): ImpactSet {
    ImpactSet(layer, [], [], [])
  }

  const EMPTY_VERIFICATION := VerificationPlan([], [], [])

  function NewTask(id: string, layer: OperationalLayer): Task {
    Task(id, layer, [], [], [], [], [], EmptyImpact(layer), EMPTY_VERIFICATION)
  }

  function NewRun(id: string, goal: string, layer: OperationalLayer): RunRecord {
    RunRecord(id, goal, layer, RunState.Created, [], [], EmptyImpact(layer), EMPTY_VERIFICATION)
  }

  // ----- Agent protocol -----

  datatype EvidenceEnvelope = EvidenceEnvelope(source: string, contentType: string, body: string, truncated: bool)

  function TextEvidence(source: string, body: string): EvidenceEnvelope {
    EvidenceEnvelope(source, "text/plain", body, false)
  }

  datatype AgentIdentity = AgentIdentity(nodeId: string, certificateFingerprint: string)

  datatype AgentTaskEnvelope = AgentTaskEnvelope(
    envelopeId: string,
    runId: string,
    taskId: string,
    nodeId: string,
    issuedAt: nat,
    expiresAt: nat,
    nonce: string,
    requiredCapabilities: seq<Capability>,
    auditCorrelationId: string)

  datatype AgentResultStatus = ResultSucceeded | ResultFailed

  datatype AgentResultSubmission = AgentResultSubmission(
    envelopeId: string,
    runId: string,
    taskId: string,
    nodeId: string,
    nonce: string,
    status: AgentResultStatus,
    evidence: seq<EvidenceEnvelope>,
    auditCorrelationId: string)

  datatype SpoolReason = ServerUnavailable | SubmissionRejected(why: string)

  datatype LocalSpoolItem = LocalSpoolItem(spoolId: string, reason: SpoolReason, result: AgentResultSubmission)

  // ----- Typed actions -----

  datatype ActionKind =
    | ServiceRestart
    | ServiceReload
    | PackageUpdate
    | NodeReboot
    | RunAllowlistedScript
    | RemoveAllowlistedFile

  datatype ActionTarget = ActionTarget(resourceId: string, subject: string)

  datatype CapabilityLeaseClaims = CapabilityLeaseClaims(
    leaseId: string,
    runId: string,
    approvalId: string,
    nodeId: string,
    action: ActionKind,
    target: ActionTarget,
    allowlistEntryId: string,
    expiresAt: nat,
    nonce: string)

  datatype HelperActionStatus = HelperSucceeded | HelperFailed | HelperDenied

  // ----- Scheduling verdicts -----

  datatype SchedulerWaitReason =
    | DependencyIncomplete(dependencyId: string)
    | ResourceConflict(resourceId: string, existingLeaseId: string, existingMode: LeaseMode, requestedMode: LeaseMode)
    | LowerLayerDisruption(
        lowerResourceId: string, upperResourceId: string, existingLeaseId: string, existingMode: LeaseMode)

  datatype SchedulerDecision =
    | Run(taskId: string)
    | Wait(taskId: string, reason: SchedulerWaitReason)

  // ----- Audit events -----

  datatype ApprovalOutcome = OutcomeApproved | OutcomeRejected

  datatype AuditEventKind =
    | EnrollmentTokenCreated(tokenId: string, nodeId: string)
    | AgentEnrolled(nodeId: string, os: OperatingSystem)
    | AgentTaskPulled(envelopeId: string, taskId: string, nodeId: string)
    | AgentTaskRejected(nodeId: string, reason: string)
    | AgentResultAccepted(envelopeId: string, taskId: string, nodeId: string)
    | AgentResultRejected(envelopeId: string, reason: string)
    | AgentResultSpooled(spoolId: string, spoolReason: SpoolReason)
    | IncidentCreated(incidentId: string, nodeId: string, runbook: string)
    | EvidenceRecorded(source: string)
    | ProposalRecorded(proposalId: string, hypothesis: string)
    | CapabilityLeaseIssued(leaseId: string, approvalId: string)
    | VerificationCompleted(checkId: string, resourceId: string)
    | RunStateTransition(fromState: RunState, toState: RunState)
    | ResourceLeaseRequested(taskId: string, resourceId: string, mode: LeaseMode)
    | ResourceLeaseGranted(leaseId: string, resourceId: string, mode: LeaseMode)
    | ResourceLeaseDenied(resourceId: string, mode: LeaseMode, reason: string)
    | SchedulerDecided(decision: SchedulerDecision)
    | VerificationSelected(plan: VerificationPlan)
    | VerificationSkipped(skipped: SkippedVerification)
    | ApprovalDecision(approvalId: string, actor: string, outcome: ApprovalOutcome)
    | ApprovalRequested(approvalId: string, proposalId: string, actionId: string)
    | ApprovalExpired(approvalId: string)
    | ApprovalSuperseded(approvalId: string, supersededBy: string)
    | ApprovalAdapterRejected(adapter: string, reason: string)
    | ActionResult(action: ActionKind, target: ActionTarget, status: HelperActionStatus)
    | CognitiveReceiptGenerated(receiptId: string)

  datatype AuditEvent = AuditEvent(id: string, runId: string, sequence: nat, kind: AuditEventKind)
}
