/** The chain from untrusted evidence over proposal and approval to the privileged helper. */
module Binding {
  import opened Wrappers
  import opened Seqs
  import opened Strings
  import opened Domain
  import opened Analyzer
  import opened Approval
  import opened Helper

  /** What an approval is asked for besides the proposed action. */
  datatype ApprovalTerms = ApprovalTerms(
    id: string,
    runId: string,
    layer: OperationalLayer,
    subject: string,
    impact: ImpactSet,
    verification: VerificationPlan,
    requestedAt: nat,
    expiresAt: nat)

  /** The approval asked for the one action that an analyzer proposes. */
  function ApprovalOf(proposal: StructuredProposal, terms: ApprovalTerms): (r: ApprovalRecord)
    requires |proposal.proposedActions| == 1
    ensures r.action == proposal.proposedActions[0].kind && r.actionId == proposal.proposedActions[0].id
    ensures r.target == ActionTarget(proposal.proposedActions[0].targetResourceId, terms.subject)
    ensures r.id == terms.id && r.runId == terms.runId && r.state == Pending && r.expiresAt == terms.expiresAt
  {
    var action := proposal.proposedActions[0];
    assert action in proposal.proposedActions && action.id == action.id;
    NewApproval(
      terms.id, terms.runId, proposal, action.id, terms.layer, terms.subject, terms.impact, terms.verification,
      terms.requestedAt, terms.expiresAt)
  }

  /** The node read back from a service target is the node it was built for exactly when that has no slash. */
  lemma NodeReadBack(node: string, service: string)
    ensures NodeFromTarget(ServiceResource(node, service)) == node <==> '/' !in node
  {
    var target := ServiceResource(node, service);
    var rest := target[|NODE_PREFIX|..];
    assert StartsWith(target, NODE_PREFIX);
    assert rest == node + ['/'] + ("service/" + service);
    if '/' !in node {
      BeforeSeparator(node, '/', "service/" + service);
    }
  }

  /** A node id with a slash is read back as its part before the slash. */
  lemma SlashedNodeIsCut(before: string, after: string, service: string)
    requires '/' !in before
    ensures NodeFromTarget(ServiceResource(before + "/" + after, service)) == before
  {
    var target := ServiceResource(before + "/" + after, service);
    assert target[|NODE_PREFIX|..] == before + ['/'] + (after + "/service/" + service);
    BeforeSeparator(before, '/', after + "/service/" + service);
  }

  /**
   For any evidence the service proposal is policy-valid, and a timely, matching approval of it is refused as
   unsupported exactly when the proposal needs no approval; otherwise it is granted.
   */
  lemma ApprovalFollowsProposal(
      id: string, node: string, service: string, evidence: seq<EvidenceEnvelope>, s: StoreState, terms: ApprovalTerms,
      actor: string, now: nat, entry: string, nonce: string)
    requires Show(s, terms.id) == Some(ApprovalOf(AnalyzeServiceUnhealthy(id, node, service, evidence), terms))
    requires now < terms.expiresAt
    ensures var p := AnalyzeServiceUnhealthy(id, node, service, evidence);
            var r := Approve(s, terms.id, p.proposedActions[0].id, actor, now, entry, nonce).1;
            && PolicyValid(p, SERVICE_UNHEALTHY_POLICY)
            && (r == Err(UnsupportedHelperAction) <==> !p.approvalRequired)
            && (r.Ok? <==> p.approvalRequired)
  {
    hide AnalyzeServiceUnhealthy, ApprovalOf;
    var record := ApprovalOf(AnalyzeServiceUnhealthy(id, node, service, evidence), terms);
    ApproveExact(s, record.id, record.actionId, actor, now, entry, nonce);
    assert IndexOf(s.records, record.id).Some?;
  }

  /**
   Any helper invocation accepted under the claims of an approval has the approved action and target, comes before
   the approval's expiry, and runs on the node that the target names.
   */
  lemma InvocationIsBound(
      s: StoreState, record: ApprovalRecord, expectedActionId: string, actor: string, now: nat, entry: string,
      nonce: string, request: HelperActionRequest, lease: SignedCapabilityLease, context: HelperValidationContext)
    requires Show(s, record.id) == Some(record)
    requires Approve(s, record.id, expectedActionId, actor, now, entry, nonce).1 == Ok(lease.claims)
    requires ValidateHelperRequest(request, lease, context).Ok?
    ensures var invocation := ValidateHelperRequest(request, lease, context).value;
            && HelperAction(record.action) == Some(invocation.action)
            && invocation.target == record.target && invocation.approvalId == record.id
            && context.now < record.expiresAt
            && context.nodeId == NodeFromTarget(record.target.resourceId)
  {
    ApproveExact(s, record.id, expectedActionId, actor, now, entry, nonce);
  }

  /** The whole chain: what a helper does for a service proposal is what was proposed, where it was proposed. */
  lemma EvidenceToHelper(
      id: string, node: string, service: string, evidence: seq<EvidenceEnvelope>, s: StoreState, terms: ApprovalTerms,
      expectedActionId: string, actor: string, now: nat, entry: string, nonce: string,
      request: HelperActionRequest, lease: SignedCapabilityLease, context: HelperValidationContext)
    requires '/' !in node
    requires Show(s, terms.id) == Some(ApprovalOf(AnalyzeServiceUnhealthy(id, node, service, evidence), terms))
    requires Approve(s, terms.id, expectedActionId, actor, now, entry, nonce).1 == Ok(lease.claims)
    requires ValidateHelperRequest(request, lease, context).Ok?
    ensures request.action == ServiceRestart
    ensures request.target == ActionTarget(ServiceResource(node, service), terms.subject)
    ensures context.nodeId == node && context.now < terms.expiresAt
    ensures RestartIndicated(Normalized(evidence))
  {
    hide AnalyzeServiceUnhealthy, Approve, ApprovalOf, RestartIndicated, NodeFromTarget, ServiceResource;
    var p := AnalyzeServiceUnhealthy(id, node, service, evidence);
    InvocationIsBound(s, ApprovalOf(p, terms), expectedActionId, actor, now, entry, nonce, request, lease, context);
    NodeReadBack(node, service);
    assert ActionAllowed(p.proposedActions[0], SERVICE_UNHEALTHY_POLICY);
  }

  /** The same chain for cleanup: a helper removes only what the fleet's allowlist declared. */
  lemma EvidenceToCleanup(
      id: string, node: string, mount: string, cleanup: string, evidence: seq<EvidenceEnvelope>, allowed: seq<string>,
      s: StoreState, terms: ApprovalTerms, expectedActionId: string, actor: string, now: nat, entry: string,
      nonce: string, request: HelperActionRequest, lease: SignedCapabilityLease, context: HelperValidationContext)
    requires var p := AnalyzeDiskPressure(id, node, mount, cleanup, evidence, allowed);
             Show(s, terms.id) == Some(ApprovalOf(p, terms))
    requires Approve(s, terms.id, expectedActionId, actor, now, entry, nonce).1 == Ok(lease.claims)
    requires ValidateHelperRequest(request, lease, context).Ok?
    ensures request.action == RemoveAllowlistedFile
    ensures request.target == ActionTarget(cleanup, terms.subject) && cleanup in allowed
    ensures context.nodeId == NodeFromTarget(cleanup) && context.now < terms.expiresAt
    ensures DiskPressed(Normalized(evidence)) && CleanupPresent(Normalized(evidence))
  {
    hide AnalyzeDiskPressure, Approve, ApprovalOf, NodeFromTarget, DiskPressed, CleanupPresent;
    var p := AnalyzeDiskPressure(id, node, mount, cleanup, evidence, allowed);
    InvocationIsBound(s, ApprovalOf(p, terms), expectedActionId, actor, now, entry, nonce, request, lease, context);
    assert ActionAllowed(p.proposedActions[0], DISK_PRESSURE_POLICY);
  }
}
