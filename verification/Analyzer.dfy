/** Typed proposals from untrusted evidence, and the policy they must satisfy. */
module Analyzer {
  import opened Wrappers
  import opened Seqs
  import opened Strings
  import opened Domain

  datatype ProposedActionKind =
    | ProposeRestart
    | ProposeReload
    | ProposeRemoveAllowlistedFile
    | ProposeMoreLogs
    | ProposeTakeover

  datatype ProposedAction = ProposedAction(
    id: string,
    kind: ProposedActionKind,
    targetResourceId: string,
    requiresApproval: bool,
    leaseRequest: Option<ResourceLeaseRequest>)

  datatype StructuredProposal = StructuredProposal(
    id: string,
    hypothesis: string,
    evidenceReferences: seq<string>,
    proposedActions: seq<ProposedAction>,
    confidencePercent: nat,
    approvalRequired: bool,
    untrustedEvidenceExcerpt: seq<string>)

  datatype ProposalPolicy = ProposalPolicy(
    allowedActions: seq<ProposedActionKind>,
    approvalRequired: seq<ProposedActionKind>)

  datatype ProposalValidationError =
    | UnsupportedAction(actionId: string)
    | ApprovalRequirementMismatch(actionId: string)
    | EmptyProposal

  /** The helper action that carries out a proposed action, when a helper can. */
  function HelperAction(kind: ProposedActionKind): Option<ActionKind> {
    match kind
    case ProposeRestart => Some(ServiceRestart)
    case ProposeReload => Some(ServiceReload)
    case ProposeRemoveAllowlistedFile => Some(RemoveAllowlistedFile)
    case ProposeMoreLogs => None
    case ProposeTakeover => None
  }

  predicate ActionAllowed(action: ProposedAction, policy: ProposalPolicy) {
    && action.kind in policy.allowedActions
    && (action.kind in policy.approvalRequired <==> action.requiresApproval)
  }

  /** The policy accepts a proposal: what `ValidateProposal` decides. */
  ghost predicate PolicyValid(proposal: StructuredProposal, policy: ProposalPolicy) {
    proposal.proposedActions != [] && forall a :: a in proposal.proposedActions ==> ActionAllowed(a, policy)
  }

  const SERVICE_UNHEALTHY_POLICY := ProposalPolicy(
    [ProposeRestart, ProposeReload, ProposeMoreLogs, ProposeTakeover],
    [ProposeRestart, ProposeReload])

  const DISK_PRESSURE_POLICY := ProposalPolicy(
    [ProposeRemoveAllowlistedFile, ProposeTakeover],
    [ProposeRemoveAllowlistedFile])

  function ServiceResource(node: string, service: string): string {
    "system:node/" + node + "/service/" + service
  }

  /** The lower-cased evidence bodies, one per line. */
  function Normalized(evidence: seq<EvidenceEnvelope>): string {
    Join(Map(evidence, (e: EvidenceEnvelope) => ToLower(e.body)), "\n")
  }

  function Sources(evidence: seq<EvidenceEnvelope>): seq<string> {
    Map(evidence, (e: EvidenceEnvelope) => e.source)
  }

  function LogExcerpt(evidence: seq<EvidenceEnvelope>): seq<string> {
    Map(Filter(evidence, (e: EvidenceEnvelope) => Contains(e.source, "logs")), (e: EvidenceEnvelope) => e.body)
  }

  predicate ServiceActive(text: string) {
    Contains(text, "service=active") || Contains(text, "activestate=active")
    || Contains(text, "is running") || Contains(text, "(ok)")
  }

  predicate ServiceUnhealthy(text: string) {
    Contains(text, "service=not-active") || Contains(text, "activestate=failed") || Contains(text, "failed")
    || Contains(text, "exited") || Contains(text, "connection refused")
  }

  /** The evidence speaks of an unhealthy service, and of neither an active one nor a lack of support. */
  predicate RestartIndicated(text: string) {
    ServiceUnhealthy(text) && !ServiceActive(text) && !Unsupported(text)
  }

  predicate Unsupported(text: string) {
    Contains(text, "unsupported") || Contains(text, "not available")
  }

  predicate DiskPressed(text: string) {
    Contains(text, "disk_pressure=high") || Contains(text, "usage=92") || Contains(text, "free_space=low")
  }

  predicate CleanupPresent(text: string) {
    Contains(text, "cleanup_candidate=present")
  }

  function Propose(
      id: string, hypothesis: string, evidence: seq<EvidenceEnvelope>, confidence: nat, action: ProposedAction)
    : StructuredProposal
  {
    StructuredProposal(
      id, hypothesis, Sources(evidence), [action], confidence, action.requiresApproval, LogExcerpt(evidence))
  }

  // ----- Hypotheses, one per branch -----

  function UnsupportedHypothesis(node: string, service: string): string {
    service + " evidence collection is unsupported or unavailable on " + node
  }

  function ConflictHypothesis(node: string, service: string): string {
    service + " has conflicting status and log evidence on " + node
  }

  function UnhealthyHypothesis(node: string, service: string): string {
    service + " appears unhealthy on " + node + "; restart is the typed recovery action"
  }

  function HealthyHypothesis(node: string, service: string): string {
    service + " appears healthy on " + node + "; no restart proposed"
  }

  function PressureHypothesis(node: string, mount: string): string {
    node + " has disk pressure on " + mount + "; cleanup is limited to the declared allowlist path"
  }

  function NoMatchHypothesis(node: string): string {
    node + " disk pressure evidence does not match an allowlisted cleanup path"
  }

  // ----- Actions, one per kind -----

  function Takeover(resource: string): (r: ProposedAction)
    ensures r.kind.ProposeTakeover? && r.targetResourceId == resource && !r.requiresApproval
  {
    ProposedAction("manual-takeover", ProposeTakeover, resource, false, None)
  }

  function MoreLogs(resource: string): (r: ProposedAction)
    ensures r.kind.ProposeMoreLogs? && r.targetResourceId == resource && !r.requiresApproval
  {
    ProposedAction("collect-more-logs", ProposeMoreLogs, resource, false, None)
  }

  function Restart(resource: string): (r: ProposedAction)
    ensures r.kind.ProposeRestart? && r.targetResourceId == resource && r.requiresApproval
  {
    ProposedAction(
      "restart-service", ProposeRestart, resource, true,
      Some(ResourceLeaseRequest(resource, Exclusive, "service-unhealthy analyzer proposed serialized restart")))
  }

  function Cleanup(resource: string): (r: ProposedAction)
    ensures r.kind.ProposeRemoveAllowlistedFile? && r.targetResourceId == resource && r.requiresApproval
  {
    ProposedAction(
      "remove-allowlisted-cleanup-path", ProposeRemoveAllowlistedFile, resource, true,
      Some(ResourceLeaseRequest(resource, Exclusive, "disk-pressure analyzer proposed allowlisted cleanup")))
  }

  function MountResource(node: string, mount: string): string {
    "system:node/" + node + "/filesystem/" + mount
  }

  // ----- The analyzers -----

  /**
   Whatever the evidence says, the proposal satisfies its policy, targets the service, and asks for approval exactly
   when a helper can carry it out.
   */
  function AnalyzeServiceUnhealthy(id: string, node: string, service: string, evidence: seq<EvidenceEnvelope>)
    : (r: StructuredProposal)
    ensures |r.proposedActions| == 1
    ensures r.proposedActions[0].targetResourceId == ServiceResource(node, service)
    ensures !r.proposedActions[0].kind.ProposeReload?
    ensures PolicyValid(r, SERVICE_UNHEALTHY_POLICY)
    ensures r.approvalRequired <==> HelperAction(r.proposedActions[0].kind).Some?
    ensures r.proposedActions[0].kind.ProposeRestart? <==> RestartIndicated(Normalized(evidence))
  {
    hide Contains, Normalized, LogExcerpt, ServiceResource, UnsupportedHypothesis, ConflictHypothesis,
      UnhealthyHypothesis, HealthyHypothesis, Takeover, MoreLogs, Restart;
    var resource := ServiceResource(node, service);
    var text := Normalized(evidence);
    if Unsupported(text) then
      Propose(id, UnsupportedHypothesis(node, service), evidence, 55, Takeover(resource))
    else if ServiceActive(text) && ServiceUnhealthy(text) then
      Propose(id, ConflictHypothesis(node, service), evidence, 45, MoreLogs(resource))
    else if ServiceUnhealthy(text) then
      Propose(id, UnhealthyHypothesis(node, service), evidence, 82, Restart(resource))
    else
      Propose(id, HealthyHypothesis(node, service), evidence, 70, MoreLogs(resource))
  }

  /** Cleanup is proposed exactly under pressure, with a candidate, for a resource on the allowlist. */
  function AnalyzeDiskPressure(
      id: string, node: string, mount: string, cleanup: string, evidence: seq<EvidenceEnvelope>, allowed: seq<string>)
    : (r: StructuredProposal)
    ensures |r.proposedActions| == 1
    ensures PolicyValid(r, DISK_PRESSURE_POLICY)
    ensures r.approvalRequired <==> HelperAction(r.proposedActions[0].kind).Some?
    ensures r.proposedActions[0].kind.ProposeRemoveAllowlistedFile? <==>
              DiskPressed(Normalized(evidence)) && CleanupPresent(Normalized(evidence)) && cleanup in allowed
    ensures r.proposedActions[0].kind.ProposeRemoveAllowlistedFile? ==>
              r.proposedActions[0].targetResourceId == cleanup
  {
    hide DiskPressed, CleanupPresent, Normalized, LogExcerpt, PressureHypothesis, NoMatchHypothesis,
      MountResource, Takeover, Cleanup;
    var text := Normalized(evidence);
    if DiskPressed(text) && CleanupPresent(text) && cleanup in allowed then
      Propose(id, PressureHypothesis(node, mount), evidence, 84, Cleanup(cleanup))
    else
      Propose(id, NoMatchHypothesis(node), evidence, 50, Takeover(MountResource(node, mount)))
  }

  // ----- Validation -----

  function FaultOf(action: ProposedAction, policy: ProposalPolicy): ProposalValidationError {
    if action.kind in policy.allowedActions then ApprovalRequirementMismatch(action.id)
    else UnsupportedAction(action.id)
  }

  /** The first action that the policy does not allow decides, and is blamed for the right reason. */
  function ValidationOf(proposal: StructuredProposal, policy: ProposalPolicy): (r: Outcome<ProposalValidationError>)
    ensures r.Pass? <==> PolicyValid(proposal, policy)
    ensures r.Fail? && r.error.EmptyProposal? <==> proposal.proposedActions == []
  {
    if proposal.proposedActions == [] then Fail(EmptyProposal)
    else
      match Position(proposal.proposedActions, (a: ProposedAction) => !ActionAllowed(a, policy))
      case None => Pass
      case Some(k) => Fail(FaultOf(proposal.proposedActions[k], policy))
  }

  /** Accepts exactly the non-empty proposals whose every action the policy allows on its own approval terms. */
  method ValidateProposal(proposal: StructuredProposal, policy: ProposalPolicy)
    returns (r: Outcome<ProposalValidationError>)
    ensures r == ValidationOf(proposal, policy)
    ensures r.Pass? <==> PolicyValid(proposal, policy)
    ensures r.Fail? && r.error.EmptyProposal? <==> proposal.proposedActions == []
    ensures r.Fail? && !r.error.EmptyProposal? ==>
              exists k :: 0 <= k < |proposal.proposedActions|
                          && FirstFault(proposal.proposedActions, policy, k, r.error)
  {
    if proposal.proposedActions == [] {
      return Fail(EmptyProposal);
    }
    for n := 0 to |proposal.proposedActions|
      invariant forall i :: 0 <= i < n ==> ActionAllowed(proposal.proposedActions[i], policy)
    {
      var action := proposal.proposedActions[n];
      if !ActionAllowed(action, policy) {
        PositionUnique(proposal.proposedActions, (a: ProposedAction) => !ActionAllowed(a, policy), n);
      }
      if action.kind !in policy.allowedActions {
        assert FirstFault(proposal.proposedActions, policy, n, UnsupportedAction(action.id));
        return Fail(UnsupportedAction(action.id));
      }
      var approvalRequired := action.kind in policy.approvalRequired;
      if approvalRequired != action.requiresApproval {
        assert FirstFault(proposal.proposedActions, policy, n, ApprovalRequirementMismatch(action.id));
        return Fail(ApprovalRequirementMismatch(action.id));
      }
    }
    return Pass;
  }

  /** `error` blames the first action that the policy does not allow, for the right reason. */
  ghost predicate FirstFault(
      actions: seq<ProposedAction>, policy: ProposalPolicy, k: nat, error: ProposalValidationError)
    requires k < |actions|
  {
    && !ActionAllowed(actions[k], policy)
    && (forall i :: 0 <= i < k ==> ActionAllowed(actions[i], policy))
    && error == (if actions[k].kind in policy.allowedActions then ApprovalRequirementMismatch(actions[k].id)
                 else UnsupportedAction(actions[k].id))
  }
}
