/** The helper-side check of a request against its signed lease and the local allowlist. */
module Helper {
  import opened Wrappers
  import opened Seqs
  import opened Domain

  datatype SignedCapabilityLease = SignedCapabilityLease(
    claims: CapabilityLeaseClaims, keyId: string, signature: string)

  datatype LeaseSignatureStatus = SignatureValid | SignatureInvalid

  datatype HelperAllowlistEntry = HelperAllowlistEntry(id: string, action: ActionKind, targetResourceId: string)

  datatype HelperArgument = HelperArgument(name: string, value: string)

  datatype HelperActionRequest = HelperActionRequest(
    leaseId: string, action: ActionKind, target: ActionTarget, arguments: seq<HelperArgument>)

  datatype HelperValidationContext = HelperValidationContext(
    nodeId: string,
    now: nat,
    signatureStatus: LeaseSignatureStatus,
    seenNonces: seq<string>,
    allowlist: seq<HelperAllowlistEntry>)

  datatype HelperRejection =
    | InvalidSignature
    | ExpiredLease
    | ReplayedLeaseNonce
    | LeaseNodeMismatch
    | LeaseMismatch
    | HelperActionMismatch
    | TargetMismatch
    | LocalAllowlistDenied

  datatype AcceptedHelperInvocation = AcceptedHelperInvocation(
    leaseId: string, runId: string, approvalId: string, action: ActionKind, target: ActionTarget)

  predicate Permits(allowlist: seq<HelperAllowlistEntry>, entryId: string, action: ActionKind, target: ActionTarget) {
    exists e :: e in allowlist && e.id == entryId && e.action == action && e.targetResourceId == target.resourceId
  }

  /** Accepts exactly the requests that agree with live, unreplayed, locally allowed claims for this node. */
  function ValidateHelperRequest(
      request: HelperActionRequest, lease: SignedCapabilityLease, context: HelperValidationContext)
    : (r: Result<AcceptedHelperInvocation, HelperRejection>)
    ensures r.Ok? <==>
      && context.signatureStatus == SignatureValid
      && context.now < lease.claims.expiresAt
      && lease.claims.nonce !in context.seenNonces
      && lease.claims.nodeId == context.nodeId
      && lease.claims.leaseId == request.leaseId
      && lease.claims.action == request.action
      && lease.claims.target == request.target
      && Permits(context.allowlist, lease.claims.allowlistEntryId, request.action, request.target)
    ensures r.Ok? ==> r.value.action == request.action && r.value.target == request.target
                      && r.value.leaseId == request.leaseId && r.value.approvalId == lease.claims.approvalId
  {
    var claims := lease.claims;
    if context.signatureStatus != SignatureValid then Err(InvalidSignature)
    else if claims.expiresAt <= context.now then Err(ExpiredLease)
    else if claims.nonce in context.seenNonces then Err(ReplayedLeaseNonce)
    else if claims.nodeId != context.nodeId then Err(LeaseNodeMismatch)
    else if claims.leaseId != request.leaseId then Err(LeaseMismatch)
    else if claims.action != request.action then Err(HelperActionMismatch)
    else if claims.target != request.target then Err(TargetMismatch)
    else if !Permits(context.allowlist, claims.allowlistEntryId, request.action, request.target) then
      Err(LocalAllowlistDenied)
    else Ok(AcceptedHelperInvocation(claims.leaseId, claims.runId, claims.approvalId, claims.action, claims.target))
  }
}
