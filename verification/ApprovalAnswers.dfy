/** What every call of the approval store answers and records, and how a helper answers the claims. */
module ApprovalAnswers {
  import opened Wrappers
  import opened Seqs
  import opened Strings
  import opened Domain
  import opened Ledger
  import opened Analyzer
  import opened Approval
  import opened Helper

  /** The call appended exactly one event, numbered and named by its place. */
  ghost predicate Records(before: StoreState, after: StoreState, kind: AuditEventKind) {
    after.ledger
    == before.ledger
       + [AuditEvent("approval-event-" + Decimal(|before.ledger| + 1), "approval", |before.ledger| + 1, kind)]
  }

  /** The call gave the k-th record another state, appended one event, and did nothing else. */
  ghost predicate Settles(before: StoreState, after: StoreState, k: nat, state: ApprovalState, kind: AuditEventKind)
    requires k < |before.records|
  {
    after.records == before.records[k := before.records[k].(state := state)] && Records(before, after, kind)
  }

  /** The k-th record is the first with this id. */
  ghost predicate RecordAt(s: StoreState, k: nat, id: string)
    requires k < |s.records|
  {
    s.records[k].id == id && forall i :: 0 <= i < k ==> s.records[i].id != id
  }

  lemma LogRecords(s: StoreState, kind: AuditEventKind)
    ensures Log(s, kind).records == s.records && Records(s, Log(s, kind), kind)
  {
    assert "approval" + "-event-" == "approval-event-";
  }

  lemma CloseSettles(s: StoreState, k: nat, state: ApprovalState, kind: AuditEventKind)
    requires k < |s.records|
    ensures Settles(s, Close(s, k, state, kind), k, state, kind)
  {
    LogRecords(s, kind);
    assert "approval" + "-event-" == "approval-event-";
  }

  lemma IndexAt(s: StoreState, k: nat, id: string)
    requires k < |s.records| && RecordAt(s, k, id)
    ensures IndexOf(s.records, id) == Some(k) && Show(s, id) == Some(s.records[k])
  {
    PositionUnique(s.records, HasId(id), k);
  }

  // ----- Helpers' actions -----

  /** The helper can restart, reload and clean up, and nothing else. */
  lemma HelperActionAnswers()
    ensures HelperAction(ProposeRestart) == Some(ServiceRestart) && HelperAction(ProposeReload) == Some(ServiceReload)
    ensures HelperAction(ProposeRemoveAllowlistedFile) == Some(RemoveAllowlistedFile)
    ensures HelperAction(ProposeMoreLogs) == None && HelperAction(ProposeTakeover) == None
  {}

  /** The node of a target stands between its fixed prefix and the next slash; other targets have none. */
  lemma NodeAnswers(rest: string, other: string)
    requires !("system:node/" <= other)
    ensures '/' !in rest ==> NodeFromTarget("system:node/" + rest) == rest
    ensures '/' in rest ==>
              var node := NodeFromTarget("system:node/" + rest);
              node + "/" <= rest && '/' !in node
    ensures NodeFromTarget(other) == "unknown-node"
  {
    var target := "system:node/" + rest;
    assert target[|NODE_PREFIX|..] == rest;
    assert StartsWith(target, NODE_PREFIX);
    if '/' in rest {
      var node := Before(rest, '/');
      assert rest[..|node| + 1] == node + "/";
    }
  }

  // ----- The store's calls -----

  lemma RequestAnswers(s: StoreState, record: ApprovalRecord)
    ensures Request(s, record).records == s.records + [record]
    ensures Records(s, Request(s, record), ApprovalRequested(record.id, record.proposalId, record.actionId))
  {
    LogRecords(s, ApprovalRequested(record.id, record.proposalId, record.actionId));
  }

  lemma AdapterRejectionAnswers(s: StoreState, adapter: string, reason: string)
    ensures RecordAdapterRejection(s, adapter, reason).records == s.records
    ensures Records(s, RecordAdapterRejection(s, adapter, reason), ApprovalAdapterRejected(adapter, reason))
  {
    LogRecords(s, ApprovalAdapterRejected(adapter, reason));
  }

  /** Nothing happens to an id that was never requested. */
  lemma UnknownAnswers(
      s: StoreState, id: string, actionId: string, actor: string, now: nat, entry: string, nonce: string,
      newer: string)
    requires forall i :: 0 <= i < |s.records| ==> s.records[i].id != id
    ensures Show(s, id) == None
    ensures Approve(s, id, actionId, actor, now, entry, nonce) == (s, Err(UnknownApproval))
    ensures Reject(s, id, actor, now) == (s, Fail(UnknownApproval))
    ensures Expire(s, id, now) == (s, Fail(UnknownApproval))
    ensures Supersede(s, id, newer) == (s, Fail(UnknownApproval))
  {
    assert forall i :: 0 <= i < |s.records| ==> !HasId(id)(s.records[i]);
  }

  /** An approval is checked for state, expiry, action and helper, in this order, and then yields its claims. */
  lemma ApproveAnswers(
      s: StoreState, k: nat, id: string, actionId: string, actor: string, now: nat, entry: string, nonce: string)
    requires k < |s.records| && RecordAt(s, k, id)
    ensures var (record, (s', r)) := (s.records[k], Approve(s, id, actionId, actor, now, entry, nonce));
            if record.state != Pending then s' == s && r == Err(NotPending)
            else if record.expiresAt <= now then s' == s && r == Err(StaleApproval)
            else if record.actionId != actionId then s' == s && r == Err(ActionMismatch)
            else if HelperAction(record.action).None? then s' == s && r == Err(UnsupportedHelperAction)
            else
              && r == Ok(CapabilityLeaseClaims(
                           "lease-" + id, record.runId, id, NodeFromTarget(record.target.resourceId),
                           HelperAction(record.action).value, record.target, entry, record.expiresAt, nonce))
              && Settles(s, s', k, ApprovalState.Approved, ApprovalDecision(id, actor, OutcomeApproved))
  {
    IndexAt(s, k, id);
    CloseSettles(s, k, ApprovalState.Approved, ApprovalDecision(id, actor, OutcomeApproved));
    hide Close, Settles, NodeFromTarget, Show, IndexOf;
  }

  lemma RejectAnswers(s: StoreState, k: nat, id: string, actor: string, now: nat)
    requires k < |s.records| && RecordAt(s, k, id)
    ensures var (record, (s', r)) := (s.records[k], Reject(s, id, actor, now));
            if record.state != Pending then s' == s && r == Fail(NotPending)
            else if record.expiresAt <= now then s' == s && r == Fail(StaleApproval)
            else
              r == Pass && Settles(s, s', k, ApprovalState.Rejected, ApprovalDecision(id, actor, OutcomeRejected))
  {
    IndexAt(s, k, id);
    CloseSettles(s, k, ApprovalState.Rejected, ApprovalDecision(id, actor, OutcomeRejected));
    hide Close, Settles, Show, IndexOf;
  }

  /** An expiry that comes too early is answered as stale. */
  lemma ExpireAnswers(s: StoreState, k: nat, id: string, now: nat)
    requires k < |s.records| && RecordAt(s, k, id)
    ensures var (record, (s', r)) := (s.records[k], Expire(s, id, now));
            if record.state != Pending then s' == s && r == Fail(NotPending)
            else if now < record.expiresAt then s' == s && r == Fail(StaleApproval)
            else r == Pass && Settles(s, s', k, Expired, ApprovalExpired(id))
  {
    IndexAt(s, k, id);
    CloseSettles(s, k, Expired, ApprovalExpired(id));
    hide Close, Settles, Show, IndexOf;
  }

  lemma SupersedeAnswers(s: StoreState, k: nat, id: string, newer: string)
    requires k < |s.records| && RecordAt(s, k, id)
    ensures var (record, (s', r)) := (s.records[k], Supersede(s, id, newer));
            if record.state != Pending then s' == s && r == Fail(NotPending)
            else r == Pass && Settles(s, s', k, Superseded, ApprovalSuperseded(id, newer))
  {
    IndexAt(s, k, id);
    CloseSettles(s, k, Superseded, ApprovalSuperseded(id, newer));
    hide Close, Settles, Show, IndexOf;
  }

  // ----- The helper's check -----

  /** The allowlist has the entry for this action on this resource. */
  ghost predicate Listed(context: HelperValidationContext, entry: string, action: ActionKind, resource: string) {
    exists i :: 0 <= i < |context.allowlist| && context.allowlist[i] == HelperAllowlistEntry(entry, action, resource)
  }

  /** The helper's checks come in this order, each with its own refusal; what passes them is what was claimed. */
  lemma HelperAnswers(
      request: HelperActionRequest, lease: SignedCapabilityLease, context: HelperValidationContext)
    ensures var (c, r) := (lease.claims, ValidateHelperRequest(request, lease, context));
            if context.signatureStatus == SignatureInvalid then r == Err(InvalidSignature)
            else if c.expiresAt <= context.now then r == Err(ExpiredLease)
            else if c.nonce in context.seenNonces then r == Err(ReplayedLeaseNonce)
            else if c.nodeId != context.nodeId then r == Err(LeaseNodeMismatch)
            else if c.leaseId != request.leaseId then r == Err(LeaseMismatch)
            else if c.action != request.action then r == Err(HelperActionMismatch)
            else if c.target != request.target then r == Err(TargetMismatch)
            else if !Listed(context, c.allowlistEntryId, request.action, request.target.resourceId) then
              r == Err(LocalAllowlistDenied)
            else r == Ok(AcceptedHelperInvocation(c.leaseId, c.runId, c.approvalId, c.action, c.target))
  {
    var c := lease.claims;
    if Permits(context.allowlist, c.allowlistEntryId, request.action, request.target) {
      var e :| e in context.allowlist && e.id == c.allowlistEntryId && e.action == request.action
               && e.targetResourceId == request.target.resourceId;
      assert e == HelperAllowlistEntry(c.allowlistEntryId, request.action, request.target.resourceId);
    }
    if Listed(context, c.allowlistEntryId, request.action, request.target.resourceId) {
      assert HelperAllowlistEntry(c.allowlistEntryId, request.action, request.target.resourceId) in context.allowlist;
    }
  }

  /**
   The nonce with which an approval was granted is the one that helpers remember: a helper that has seen it refuses a
   valid, live lease as replayed, and one that has not seen it never does.
   */
  lemma NonceIsRemembered(
      s: StoreState, id: string, actionId: string, actor: string, now: nat, entry: string, nonce: string,
      request: HelperActionRequest, lease: SignedCapabilityLease, context: HelperValidationContext)
    requires Approve(s, id, actionId, actor, now, entry, nonce).1 == Ok(lease.claims)
    ensures var r := ValidateHelperRequest(request, lease, context);
            && (nonce in context.seenNonces ==> r.Err?)
            && (nonce !in context.seenNonces ==> r != Err(ReplayedLeaseNonce))
            && (nonce in context.seenNonces ==>
                  context.signatureStatus == SignatureInvalid || lease.claims.expiresAt <= context.now
                  || r == Err(ReplayedLeaseNonce))
  {
    assert lease.claims.nonce == nonce by {
      hide Close, NodeFromTarget;
    }
    HelperAnswers(request, lease, context);
  }
}
