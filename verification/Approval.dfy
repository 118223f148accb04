/** The approval store: an event-logged state machine with expiry, whose approvals yield helper lease claims. */
module Approval {
  import opened Wrappers
  import opened Seqs
  import opened Strings
  import opened Domain
  import opened Ledger
  import opened Analyzer

  datatype ApprovalState = Pending | Approved | Rejected | Expired | Superseded

  datatype ApprovalRecord = ApprovalRecord(
    id: string,
    runId: string,
    proposalId: string,
    actionId: string,
    action: ProposedActionKind,
    layer: OperationalLayer,
    target: ActionTarget,
    impact: ImpactSet,
    leaseRequest: ResourceLeaseRequest,
    verification: VerificationPlan,
    evidenceReferences: seq<string>,
    state: ApprovalState,
    requestedAt: nat,
    expiresAt: nat)

  datatype ApprovalError =
    | UnknownApproval
    | NotPending
    | StaleApproval
    | ActionMismatch
    | UnsupportedHelperAction
    | ApprovalAuditAppend(cause: AuditAppendError)

  function ActionOf(proposal: StructuredProposal, actionId: string): Option<ProposedAction> {
    Find(proposal.proposedActions, (a: ProposedAction) => a.id == actionId)
  }

  ghost predicate IsFirstAction(actions: seq<ProposedAction>, k: nat, actionId: string)
    requires k < |actions|
  {
    actions[k].id == actionId && forall i :: 0 <= i < k ==> actions[i].id != actionId
  }

  /** A pending approval bound to one action of a proposal. */
  function NewApproval(
      id: string, runId: string, proposal: StructuredProposal, actionId: string, layer: OperationalLayer,
      subject: string, impact: ImpactSet, verification: VerificationPlan, requestedAt: nat, expiresAt: nat)
    : (r: ApprovalRecord)
    requires ActionOf(proposal, actionId).Some?
    ensures r.state == Pending && r.actionId == actionId && r.proposalId == proposal.id
    ensures r.id == id && r.runId == runId && r.requestedAt == requestedAt && r.expiresAt == expiresAt
    ensures r.layer == layer && r.impact == impact && r.verification == verification
    ensures r.evidenceReferences == proposal.evidenceReferences && r.target.subject == subject
    ensures exists k :: 0 <= k < |proposal.proposedActions| && IsFirstAction(proposal.proposedActions, k, actionId)
                        && r.action == proposal.proposedActions[k].kind
                        && r.target.resourceId == proposal.proposedActions[k].targetResourceId
                        && (proposal.proposedActions[k].leaseRequest.Some? ==>
                              proposal.proposedActions[k].leaseRequest.value == r.leaseRequest)
                        && (proposal.proposedActions[k].leaseRequest.None? ==>
                              r.leaseRequest == ResourceLeaseRequest(
                                r.target.resourceId, Exclusive, "approval-bound default exclusive lease"))
  {
    var action := ActionOf(proposal, actionId).value;
    var lease := match action.leaseRequest
                 case Some(request) => request
                 case None => ResourceLeaseRequest(
                   action.targetResourceId, Exclusive, "approval-bound default exclusive lease");
    ApprovalRecord(
      id, runId, proposal.id, action.id, action.kind, layer, ActionTarget(action.targetResourceId, subject), impact,
      lease, verification, proposal.evidenceReferences, Pending, requestedAt, expiresAt)
  }

  const NODE_PREFIX := "system:node/"

  /** The node named by a target resource. */
  function NodeFromTarget(resourceId: string): string {
    if StartsWith(resourceId, NODE_PREFIX) then Before(resourceId[|NODE_PREFIX|..], '/') else "unknown-node"
  }

  datatype StoreState = StoreState(records: seq<ApprovalRecord>, ledger: seq<AuditEvent>)

  const EMPTY_STORE := StoreState([], [])

  function HasId(id: string): ApprovalRecord -> bool {
    (r: ApprovalRecord) => r.id == id
  }

  function IndexOf(records: seq<ApprovalRecord>, id: string): Option<nat> {
    Position(records, HasId(id))
  }

  function Show(s: StoreState, id: string): Option<ApprovalRecord> {
    Find(s.records, HasId(id))
  }

  function Log(s: StoreState, kind: AuditEventKind): StoreState {
    s.(ledger := Recorded(s.ledger, "approval", "approval", kind))
  }

  function Close(s: StoreState, index: nat, state: ApprovalState, kind: AuditEventKind): StoreState
    requires index < |s.records|
  {
    Log(s.(records := s.records[index := s.records[index].(state := state)]), kind)
  }

  function PendingNotStale(record: ApprovalRecord, now: nat): Outcome<ApprovalError> {
    if record.state != Pending then Fail(NotPending)
    else if record.expiresAt <= now then Fail(StaleApproval)
    else Pass
  }

  function Request(s: StoreState, record: ApprovalRecord): StoreState {
    Log(s, ApprovalRequested(record.id, record.proposalId, record.actionId)).(records := s.records + [record])
  }

  function ClaimsFor(record: ApprovalRecord, id: string, action: ActionKind, allowlistEntryId: string, nonce: string)
    : CapabilityLeaseClaims
  {
    CapabilityLeaseClaims(
      "lease-" + id, record.runId, record.id, NodeFromTarget(record.target.resourceId), action, record.target,
      allowlistEntryId, record.expiresAt, nonce)
  }

  function Approve(
      s: StoreState, id: string, expectedActionId: string, actor: string, now: nat, allowlistEntryId: string,
      nonce: string)
    : (StoreState, Result<CapabilityLeaseClaims, ApprovalError>)
  {
    match IndexOf(s.records, id)
    case None => (s, Err(UnknownApproval))
    case Some(index) =>
      var record := s.records[index];
      var pending := PendingNotStale(record, now);
      if pending.Fail? then (s, Err(pending.error))
      else if record.actionId != expectedActionId then (s, Err(ActionMismatch))
      else
        match HelperAction(record.action)
        case None => (s, Err(UnsupportedHelperAction))
        case Some(action) =>
          (Close(s, index, ApprovalState.Approved, ApprovalDecision(id, actor, OutcomeApproved)),
           Ok(ClaimsFor(record, id, action, allowlistEntryId, nonce)))
  }

  function Reject(s: StoreState, id: string, actor: string, now: nat): (StoreState, Outcome<ApprovalError>) {
    match IndexOf(s.records, id)
    case None => (s, Fail(UnknownApproval))
    case Some(index) =>
      var pending := PendingNotStale(s.records[index], now);
      if pending.Fail? then (s, pending)
      else (Close(s, index, ApprovalState.Rejected, ApprovalDecision(id, actor, OutcomeRejected)), Pass)
  }

  function Expire(s: StoreState, id: string, now: nat): (StoreState, Outcome<ApprovalError>) {
    match IndexOf(s.records, id)
    case None => (s, Fail(UnknownApproval))
    case Some(index) =>
      if s.records[index].state != Pending then (s, Fail(NotPending))
      else if s.records[index].expiresAt > now then (s, Fail(StaleApproval))
      else (Close(s, index, Expired, ApprovalExpired(id)), Pass)
  }

  function Supersede(s: StoreState, id: string, supersededBy: string): (StoreState, Outcome<ApprovalError>) {
    match IndexOf(s.records, id)
    case None => (s, Fail(UnknownApproval))
    case Some(index) =>
      if s.records[index].state != Pending then (s, Fail(NotPending))
      else (Close(s, index, Superseded, ApprovalSuperseded(id, supersededBy)), Pass)
  }

  function RecordAdapterRejection(s: StoreState, adapter: string, reason: string): StoreState {
    Log(s, ApprovalAdapterRejected(adapter, reason))
  }

  /** An approval is granted exactly to a known, pending, unexpired record of the expected, helper-backed action. */
  lemma ApproveExact(
      s: StoreState, id: string, expectedActionId: string, actor: string, now: nat, allowlistEntryId: string,
      nonce: string)
    ensures var (s', r) := Approve(s, id, expectedActionId, actor, now, allowlistEntryId, nonce);
            var record := Show(s, id);
            && (r.Ok? <==>
                  && record.Some? && record.value.state == Pending && now < record.value.expiresAt
                  && record.value.actionId == expectedActionId && HelperAction(record.value.action).Some?)
            && (r.Ok? ==>
                  && HelperAction(record.value.action) == Some(r.value.action)
                  && r.value.target == record.value.target && r.value.approvalId == id
                  && r.value.expiresAt == record.value.expiresAt && r.value.runId == record.value.runId
                  && r.value.nonce == nonce && r.value.allowlistEntryId == allowlistEntryId
                  && r.value.leaseId == "lease-" + id
                  && r.value.nodeId == NodeFromTarget(record.value.target.resourceId)
                  && s'.records
                     == s.records[IndexOf(s.records, id).value := record.value.(state := ApprovalState.Approved)])
            && (r.Err? ==> s' == s)
  {}

  /** A store that a caller mutates through its methods. */
  class ApprovalStore {
    var records: seq<ApprovalRecord>
    const ledger: AuditLedger

    ghost function State(): StoreState
      reads this, ledger
    {
      StoreState(records, ledger.events)
    }

    constructor ()
      ensures ledger.Valid() && fresh(ledger) && State() == EMPTY_STORE
    {
      records := [];
      ledger := new AuditLedger();
    }

    method RequestApproval(record: ApprovalRecord) returns (r: Outcome<ApprovalError>)
      requires ledger.Valid()
      modifies this, ledger
      ensures ledger.Valid() && r.Pass? && State() == Request(old(State()), record)
    {
      r := AppendEvent(ApprovalRequested(record.id, record.proposalId, record.actionId));
      records := records + [record];
    }

    method ApproveAction(
        id: string, expectedActionId: string, actor: string, now: nat, allowlistEntryId: string, nonce: string)
      returns (r: Result<CapabilityLeaseClaims, ApprovalError>)
      requires ledger.Valid()
      modifies this, ledger
      ensures ledger.Valid()
      ensures (State(), r) == Approve(old(State()), id, expectedActionId, actor, now, allowlistEntryId, nonce)
    {
      var position := IndexOf(records, id);
      if position.None? {
        return Err(UnknownApproval);
      }
      var index := position.value;
      var record := records[index];
      var pending := PendingNotStale(record, now);
      if pending.Fail? {
        return Err(pending.error);
      }
      if record.actionId != expectedActionId {
        return Err(ActionMismatch);
      }
      var action := HelperAction(record.action);
      if action.None? {
        return Err(UnsupportedHelperAction);
      }
      var claims := CapabilityLeaseClaims(
        "lease-" + id, record.runId, record.id, NodeFromTarget(record.target.resourceId), action.value, record.target,
        allowlistEntryId, record.expiresAt, nonce);
      records := records[index := records[index].(state := ApprovalState.Approved)];
      var logged := AppendEvent(ApprovalDecision(id, actor, OutcomeApproved));
      return Ok(claims);
    }

    method RejectApproval(id: string, actor: string, now: nat) returns (r: Outcome<ApprovalError>)
      requires ledger.Valid()
      modifies this, ledger
      ensures ledger.Valid() && (State(), r) == Reject(old(State()), id, actor, now)
    {
      var position := IndexOf(records, id);
      if position.None? {
        return Fail(UnknownApproval);
      }
      :- PendingNotStale(records[position.value], now);
      records := records[position.value := records[position.value].(state := ApprovalState.Rejected)];
      r := AppendEvent(ApprovalDecision(id, actor, OutcomeRejected));
    }

    method ExpireApproval(id: string, now: nat) returns (r: Outcome<ApprovalError>)
      requires ledger.Valid()
      modifies this, ledger
      ensures ledger.Valid() && (State(), r) == Expire(old(State()), id, now)
    {
      var position := IndexOf(records, id);
      if position.None? {
        return Fail(UnknownApproval);
      }
      if records[position.value].state != Pending {
        return Fail(NotPending);
      }
      if records[position.value].expiresAt > now {
        return Fail(StaleApproval);
      }
      records := records[position.value := records[position.value].(state := Expired)];
      r := AppendEvent(ApprovalExpired(id));
    }

    method SupersedeApproval(id: string, supersededBy: string) returns (r: Outcome<ApprovalError>)
      requires ledger.Valid()
      modifies this, ledger
      ensures ledger.Valid() && (State(), r) == Supersede(old(State()), id, supersededBy)
    {
      var position := IndexOf(records, id);
      if position.None? {
        return Fail(UnknownApproval);
      }
      if records[position.value].state != Pending {
        return Fail(NotPending);
      }
      records := records[position.value := records[position.value].(state := Superseded)];
      r := AppendEvent(ApprovalSuperseded(id, supersededBy));
    }

    method RejectFromAdapter(adapter: string, reason: string) returns (r: Outcome<ApprovalError>)
      requires ledger.Valid()
      modifies ledger
      ensures ledger.Valid() && r.Pass? && State() == RecordAdapterRejection(old(State()), adapter, reason)
    {
      r := AppendEvent(ApprovalAdapterRejected(adapter, reason));
    }

    method AppendEvent(kind: AuditEventKind) returns (r: Outcome<ApprovalError>)
      requires ledger.Valid()
      modifies ledger
      ensures ledger.Valid() && r == Pass && State() == Log(old(State()), kind)
    {
      var appended := ledger.Record("approval", "approval", kind);
      r := FromAppend(appended);
    }
  }

  function FromAppend(appended: Outcome<AuditAppendError>): Outcome<ApprovalError> {
    match appended
    case Pass => Pass
    case Fail(error) => Fail(ApprovalAuditAppend(error))
  }
}
