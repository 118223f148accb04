/** The operator receipt: one run's events folded out of a shared ledger. */
module Receipt {
  import opened Wrappers
  import opened Seqs
  import opened Strings
  import opened StableSort
  import opened Domain

  /** Which of the two fixed texts on residual risk and takeover the receipt carries. */
  datatype OperatorNotes = CleanupNotes | ServiceNotes

  datatype OperatorReceipt = OperatorReceipt(
    runId: string,
    incidentId: string,
    nodeId: string,
    layer: OperationalLayer,
    changedResources: seq<string>,
    evidenceReferences: seq<string>,
    proposalId: string,
    hypothesis: string,
    approvalId: string,
    leaseId: string,
    helperAction: ActionKind,
    helperStatus: HelperActionStatus,
    verificationChecks: seq<VerificationCheck>,
    verificationCompleted: seq<string>,
    skippedChecks: seq<SkippedVerification>,
    notes: OperatorNotes)

  datatype ReceiptError = MissingEvent(event: string)

  /** What has been read off the ledger so far. */
  datatype Parts = Parts(
    incidentId: Option<string>,
    nodeId: Option<string>,
    evidenceReferences: seq<string>,
    proposalId: Option<string>,
    hypothesis: Option<string>,
    approvalId: Option<string>,
    leaseId: Option<string>,
    changedResources: seq<string>,
    helperAction: Option<ActionKind>,
    helperStatus: Option<HelperActionStatus>,
    verificationChecks: seq<VerificationCheck>,
    verificationCompleted: seq<string>,
    skippedChecks: seq<SkippedVerification>)

  const NO_PARTS := Parts(None, None, [], None, None, None, None, [], None, None, [], [], [])

  function OfRun(runId: string): AuditEvent -> bool {
    (e: AuditEvent) => e.runId == runId
  }

  /** The payloads of one run's events, in ledger order. */
  function Kinds(runId: string, events: seq<AuditEvent>): seq<AuditEventKind> {
    Map(Filter(events, OfRun(runId)), (e: AuditEvent) => e.kind)
  }

  // ----- What each part is, read off the run's events directly -----

  function IncidentOf(k: AuditEventKind): Option<string> {
    if k.IncidentCreated? then Some(k.incidentId) else None
  }

  function NodeOf(k: AuditEventKind): Option<string> {
    if k.IncidentCreated? then Some(k.nodeId) else None
  }

  function EvidenceOf(k: AuditEventKind): Option<string> {
    if k.EvidenceRecorded? then Some(k.source) else None
  }

  function ProposalOf(k: AuditEventKind): Option<string> {
    if k.ProposalRecorded? then Some(k.proposalId) else None
  }

  function HypothesisOf(k: AuditEventKind): Option<string> {
    if k.ProposalRecorded? then Some(k.hypothesis) else None
  }

  function ApprovedOf(k: AuditEventKind): Option<string> {
    if k.ApprovalDecision? && k.outcome == OutcomeApproved then Some(k.approvalId) else None
  }

  function LeaseOf(k: AuditEventKind): Option<string> {
    if k.CapabilityLeaseIssued? then Some(k.leaseId) else None
  }

  function LeaseApprovalOf(k: AuditEventKind): Option<string> {
    if k.CapabilityLeaseIssued? then Some(k.approvalId) else None
  }

  function ChangedOf(k: AuditEventKind): Option<string> {
    if k.ResourceLeaseGranted? then Some(k.resourceId)
    else if k.ActionResult? then Some(k.target.resourceId)
    else None
  }

  function ActionOf(k: AuditEventKind): Option<ActionKind> {
    if k.ActionResult? then Some(k.action) else None
  }

  function StatusOf(k: AuditEventKind): Option<HelperActionStatus> {
    if k.ActionResult? then Some(k.status) else None
  }

  function ChecksOf(k: AuditEventKind): seq<VerificationCheck> {
    if k.VerificationSelected? then k.plan.required else []
  }

  function CompletedOf(k: AuditEventKind): Option<string> {
    if k.VerificationCompleted? then Some(k.checkId + ":" + k.resourceId) else None
  }

  function SkippedOf(k: AuditEventKind): seq<SkippedVerification> {
    if k.VerificationSelected? then k.plan.skipped
    else if k.VerificationSkipped? then [k.skipped]
    else []
  }

  /** The last approved decision, or else the approval of the first issued lease. */
  function ApprovalFor(kinds: seq<AuditEventKind>): Option<string> {
    OrElse(Last(Project(kinds, ApprovedOf)), First(Project(kinds, LeaseApprovalOf)))
  }

  function PartsOf(kinds: seq<AuditEventKind>): Parts {
    Parts(
      Last(Project(kinds, IncidentOf)),
      Last(Project(kinds, NodeOf)),
      Project(kinds, EvidenceOf),
      Last(Project(kinds, ProposalOf)),
      Last(Project(kinds, HypothesisOf)),
      ApprovalFor(kinds),
      Last(Project(kinds, LeaseOf)),
      Project(kinds, ChangedOf),
      Last(Project(kinds, ActionOf)),
      Last(Project(kinds, StatusOf)),
      Gather(kinds, ChecksOf),
      Project(kinds, CompletedOf),
      Gather(kinds, SkippedOf))
  }

  // ----- The fold -----

  /** Each part takes up what the event says about it; an approval from a lease never displaces a known one. */
  function ApplyKind(p: Parts, k: AuditEventKind): Parts {
    Parts(
      OrElse(IncidentOf(k), p.incidentId),
      OrElse(NodeOf(k), p.nodeId),
      Extend(p.evidenceReferences, EvidenceOf(k)),
      OrElse(ProposalOf(k), p.proposalId),
      OrElse(HypothesisOf(k), p.hypothesis),
      OrElse(ApprovedOf(k), OrElse(p.approvalId, LeaseApprovalOf(k))),
      OrElse(LeaseOf(k), p.leaseId),
      Extend(p.changedResources, ChangedOf(k)),
      OrElse(ActionOf(k), p.helperAction),
      OrElse(StatusOf(k), p.helperStatus),
      p.verificationChecks + ChecksOf(k),
      Extend(p.verificationCompleted, CompletedOf(k)),
      p.skippedChecks + SkippedOf(k))
  }

  /** One more event changes the described parts exactly as the fold does. */
  lemma PartsOfAppend(kinds: seq<AuditEventKind>, k: AuditEventKind)
    ensures PartsOf(kinds + [k]) == ApplyKind(PartsOf(kinds), k)
  {
    hide Project, Gather;
    ProjectAppend(kinds, k, IncidentOf);
    ProjectAppend(kinds, k, NodeOf);
    ProjectAppend(kinds, k, EvidenceOf);
    ProjectAppend(kinds, k, ProposalOf);
    ProjectAppend(kinds, k, HypothesisOf);
    ProjectAppend(kinds, k, ApprovedOf);
    ProjectAppend(kinds, k, LeaseOf);
    ProjectAppend(kinds, k, LeaseApprovalOf);
    ProjectAppend(kinds, k, ChangedOf);
    ProjectAppend(kinds, k, ActionOf);
    ProjectAppend(kinds, k, StatusOf);
    ProjectAppend(kinds, k, CompletedOf);
    GatherAppend(kinds, k, ChecksOf);
    GatherAppend(kinds, k, SkippedOf);
  }

  // ----- Finalizing -----

  function ById(a: SkippedVerification, b: SkippedVerification): bool {
    AtMost(a.checkId, b.checkId)
  }

  lemma OrdersAreTotal()
    ensures TotalPreorder(AtMost) && TotalPreorder(ById)
  {
    forall a, b
      ensures AtMost(a, b) || AtMost(b, a)
    {
      AtMostTotal(a, b);
    }
    forall a, b, c | AtMost(a, b) && AtMost(b, c)
      ensures AtMost(a, c)
    {
      AtMostTransitive(a, b, c);
    }
  }

  function NotesFor(action: ActionKind): OperatorNotes {
    if action.RemoveAllowlistedFile? then CleanupNotes else ServiceNotes
  }

  /** The first thing a receipt needs and `p` does not have. */
  function Missing(p: Parts): Option<string> {
    if p.incidentId.None? then Some("incident_created")
    else if p.nodeId.None? then Some("incident_node")
    else if p.evidenceReferences == [] then Some("evidence_collected")
    else if p.proposalId.None? then Some("proposal_generated")
    else if p.hypothesis.None? then Some("proposal_hypothesis")
    else if p.approvalId.None? then Some("approval_approved")
    else if p.leaseId.None? then Some("capability_lease_issued")
    else if p.helperAction.None? then Some("helper_action_result")
    else if p.helperStatus.None? then Some("helper_action_status")
    else if p.verificationChecks == [] then Some("verification_selected")
    else if p.verificationCompleted == [] then Some("verification_completed")
    else None
  }

  function SortedResources(resources: seq<string>): seq<string> {
    Dedup(Sort(resources, AtMost), AtMost)
  }

  function SortedSkips(skips: seq<SkippedVerification>): seq<SkippedVerification> {
    Dedup(Sort(skips, ById), ById)
  }

  /** The receipt of complete parts. */
  function Assemble(p: Parts, runId: string): OperatorReceipt
    requires Missing(p).None?
  {
    OperatorReceipt(
      runId, p.incidentId.value, p.nodeId.value, System, SortedResources(p.changedResources),
      p.evidenceReferences, p.proposalId.value, p.hypothesis.value, p.approvalId.value, p.leaseId.value,
      p.helperAction.value, p.helperStatus.value, p.verificationChecks, p.verificationCompleted,
      SortedSkips(p.skippedChecks), NotesFor(p.helperAction.value))
  }

  function Finalize(p: Parts, runId: string): Result<OperatorReceipt, ReceiptError> {
    match Missing(p)
    case Some(event) => Err(MissingEvent(event))
    case None => Ok(Assemble(p, runId))
  }

  function ReceiptFor(runId: string, events: seq<AuditEvent>): Result<OperatorReceipt, ReceiptError> {
    Finalize(PartsOf(Kinds(runId, events)), runId)
  }
}
