/** The control plane: enrolment, per-node task queues, pulls, and results accepted at most once. */
module Runtime {
  import opened Wrappers
  import opened Seqs
  import opened Domain
  import opened Ledger

  datatype EnrollmentToken = EnrollmentToken(
    tokenId: string,
    token: string,
    nodeId: string,
    os: OperatingSystem,
    serverTrustRoot: string,
    expiresAt: nat,
    nonce: string)

  datatype AgentEnrollmentRequest = AgentEnrollmentRequest(
    token: string,
    nodeId: string,
    os: OperatingSystem,
    certificateFingerprint: string,
    serverTrustRoot: string,
    now: nat)

  datatype AgentIdentityRecord = AgentIdentityRecord(
    nodeId: string,
    os: OperatingSystem,
    certificateFingerprint: string,
    serverTrustRoot: string)

  datatype TypedTaskPayload =
    | CollectEvidence(capability: Capability, resourceId: string)
    | ExecuteTypedHelperRequest(action: string, targetResourceId: string)
    | Verify(checkId: string, resourceId: string)

  datatype PendingAgentTask = PendingAgentTask(envelope: AgentTaskEnvelope, payload: TypedTaskPayload)

  datatype AgentTaskRejection = NodeMismatch | ExpiredEnvelope | ReplayedNonce

  datatype RuntimeError =
    | ExpiredEnrollmentToken
    | EnrollmentTokenMismatch
    | EnrollmentNodeMismatch
    | EnrollmentOsMismatch
    | EnrollmentTrustRootMismatch
    | UnknownAgent
    | AgentIdentityMismatch
    | NoTaskAvailable
    | TaskEnvelopeRejected(rejection: AgentTaskRejection)
    | UnknownEnvelope
    | ResultEnvelopeMismatch
    | ResultTaskMismatch
    | ResultRunMismatch
    | ResultNodeMismatch
    | ResultExpired
    | ResultNonceReplay
    | AuditAppend(cause: AuditAppendError)

  /** Everything the control plane remembers, as a value. */
  datatype PlaneState = PlaneState(
    tokens: seq<EnrollmentToken>,
    agents: seq<AgentIdentityRecord>,
    pending: seq<PendingAgentTask>,
    pulled: seq<PendingAgentTask>,
    nonces: seq<string>,
    results: seq<AgentResultSubmission>,
    spooled: seq<LocalSpoolItem>,
    ledger: seq<AuditEvent>)

  const EMPTY_PLANE := PlaneState([], [], [], [], [], [], [], [])

  // ----- First-match lookups -----

  function FirstToken(tokens: seq<EnrollmentToken>, secret: string): Option<EnrollmentToken> {
    Find(tokens, (t: EnrollmentToken) => t.token == secret)
  }

  function FirstAgent(agents: seq<AgentIdentityRecord>, nodeId: string): (r: Option<AgentIdentityRecord>)
    ensures r.None? <==> forall i :: 0 <= i < |agents| ==> agents[i].nodeId != nodeId
    ensures r.Some? ==> exists k :: 0 <= k < |agents| && agents[k] == r.value && r.value.nodeId == nodeId
                                    && forall i :: 0 <= i < k ==> agents[i].nodeId != nodeId
  {
    Find(agents, (a: AgentIdentityRecord) => a.nodeId == nodeId)
  }

  function ForNode(nodeId: string): PendingAgentTask -> bool {
    (t: PendingAgentTask) => t.envelope.nodeId == nodeId
  }

  function WithEnvelope(envelopeId: string): PendingAgentTask -> bool {
    (t: PendingAgentTask) => t.envelope.envelopeId == envelopeId
  }

  // ----- Checks -----

  /** Why an agent task envelope is refused, if it is. */
  function EnvelopeRejection(envelope: AgentTaskEnvelope, nodeId: string, now: nat, seenNonces: seq<string>)
    : (r: Option<AgentTaskRejection>)
    ensures r.None? <==> envelope.nodeId == nodeId && now < envelope.expiresAt && envelope.nonce !in seenNonces
  {
    if envelope.nodeId != nodeId then Some(NodeMismatch)
    else if envelope.expiresAt <= now then Some(ExpiredEnvelope)
    else if envelope.nonce in seenNonces then Some(ReplayedNonce)
    else None
  }

  function RejectionName(rejection: AgentTaskRejection): string {
    match rejection
    case NodeMismatch => "NodeMismatch"
    case ExpiredEnvelope => "ExpiredEnvelope"
    case ReplayedNonce => "ReplayedNonce"
  }

  /** An identity is accepted exactly when the first agent of its node has its fingerprint. */
  function RequireAgent(agents: seq<AgentIdentityRecord>, identity: AgentIdentity): (r: Outcome<RuntimeError>)
    ensures r.Pass? <==>
              var agent := FirstAgent(agents, identity.nodeId);
              agent.Some? && agent.value.certificateFingerprint == identity.certificateFingerprint
    ensures r.Pass? ==> exists a :: a in agents && a.nodeId == identity.nodeId
                                    && a.certificateFingerprint == identity.certificateFingerprint
  {
    match FirstAgent(agents, identity.nodeId)
    case None => Fail(UnknownAgent)
    case Some(agent) =>
      if agent.certificateFingerprint == identity.certificateFingerprint then Pass
      else Fail(AgentIdentityMismatch)
  }

  // ----- Operations as state transformers -----

  function Log(s: PlaneState, kind: AuditEventKind): PlaneState {
    s.(ledger := Recorded(s.ledger, "runtime", "runtime", kind))
  }

  function CreateToken(s: PlaneState, token: EnrollmentToken): PlaneState {
    Log(s, EnrollmentTokenCreated(token.tokenId, token.nodeId)).(tokens := s.tokens + [token])
  }

  function EnrollmentRefusal(token: EnrollmentToken, request: AgentEnrollmentRequest): Option<RuntimeError> {
    if token.expiresAt <= request.now then Some(ExpiredEnrollmentToken)
    else if token.nodeId != request.nodeId then Some(EnrollmentNodeMismatch)
    else if token.os != request.os then Some(EnrollmentOsMismatch)
    else if token.serverTrustRoot != request.serverTrustRoot then Some(EnrollmentTrustRootMismatch)
    else None
  }

  function Enroll(s: PlaneState, request: AgentEnrollmentRequest)
    : (PlaneState, Result<AgentIdentityRecord, RuntimeError>)
  {
    match FirstToken(s.tokens, request.token)
    case None => (s, Err(EnrollmentTokenMismatch))
    case Some(token) =>
      match EnrollmentRefusal(token, request)
      case Some(error) => (s, Err(error))
      case None =>
        var agent := AgentIdentityRecord(
          request.nodeId, request.os, request.certificateFingerprint, request.serverTrustRoot);
        (Log(s, AgentEnrolled(agent.nodeId, agent.os)).(agents := s.agents + [agent]), Ok(agent))
  }

  function Enqueue(s: PlaneState, task: PendingAgentTask): PlaneState {
    s.(pending := s.pending + [task])
  }

  function Pull(s: PlaneState, identity: AgentIdentity, now: nat)
    : (PlaneState, Result<PendingAgentTask, RuntimeError>)
  {
    var known := RequireAgent(s.agents, identity);
    if known.Fail? then (s, Err(known.error))
    else
      match Position(s.pending, ForNode(identity.nodeId))
      case None => (s, Err(NoTaskAvailable))
      case Some(index) =>
        var task := s.pending[index];
        match EnvelopeRejection(task.envelope, identity.nodeId, now, [])
        case Some(rejection) =>
          (Log(s, AgentTaskRejected(identity.nodeId, RejectionName(rejection))), Err(TaskEnvelopeRejected(rejection)))
        case None =>
          var e := task.envelope;
          (Log(s, AgentTaskPulled(e.envelopeId, e.taskId, e.nodeId))
           .(pending := RemoveAt(s.pending, index), pulled := s.pulled + [task]),
           Ok(task))
  }

  /** The audited refusal of a result against the first pulled envelope with its id. */
  function ResultRefusal(e: AgentTaskEnvelope, submission: AgentResultSubmission, now: nat)
    : Option<(string, RuntimeError)>
  {
    if e.expiresAt <= now then Some(("result envelope expired", ResultExpired))
    else if e.taskId != submission.taskId then Some(("result task mismatch", ResultTaskMismatch))
    else if e.runId != submission.runId then Some(("result run mismatch", ResultRunMismatch))
    else if e.nonce != submission.nonce then Some(("result nonce mismatch", ResultEnvelopeMismatch))
    else None
  }

  function RejectResult(s: PlaneState, submission: AgentResultSubmission, reason: string): PlaneState {
    Log(s, AgentResultRejected(submission.envelopeId, reason))
  }

  function Submit(s: PlaneState, identity: AgentIdentity, submission: AgentResultSubmission, now: nat)
    : (PlaneState, Outcome<RuntimeError>)
  {
    var known := RequireAgent(s.agents, identity);
    if known.Fail? then (s, known)
    else if submission.nodeId != identity.nodeId then
      (RejectResult(s, submission, "result node mismatch"), Fail(ResultNodeMismatch))
    else if submission.nonce in s.nonces then
      (RejectResult(s, submission, "result nonce replay"), Fail(ResultNonceReplay))
    else
      match Position(s.pulled, WithEnvelope(submission.envelopeId))
      case None => (s, Fail(UnknownEnvelope))
      case Some(index) =>
        match ResultRefusal(s.pulled[index].envelope, submission, now)
        case Some(refusal) => (RejectResult(s, submission, refusal.0), Fail(refusal.1))
        case None =>
          (Log(s, AgentResultAccepted(submission.envelopeId, submission.taskId, submission.nodeId))
           .(nonces := s.nonces + [submission.nonce], results := s.results + [submission]),
           Pass)
  }

  function Spool(s: PlaneState, item: LocalSpoolItem): PlaneState {
    Log(s, AgentResultSpooled(item.spoolId, item.reason)).(spooled := s.spooled + [item])
  }

  // ----- The invariant -----

  function TokenOf(e: AuditEvent): Option<(string, string)> {
    match e.kind case EnrollmentTokenCreated(id, node) => Some((id, node)) case _ => None
  }

  function EnrolledOf(e: AuditEvent): Option<(string, OperatingSystem)> {
    match e.kind case AgentEnrolled(node, os) => Some((node, os)) case _ => None
  }

  function PulledOf(e: AuditEvent): Option<(string, string, string)> {
    match e.kind case AgentTaskPulled(envelope, task, node) => Some((envelope, task, node)) case _ => None
  }

  function AcceptedOf(e: AuditEvent): Option<(string, string, string)> {
    match e.kind case AgentResultAccepted(envelope, task, node) => Some((envelope, task, node)) case _ => None
  }

  function SpooledOf(e: AuditEvent): Option<(string, SpoolReason)> {
    match e.kind case AgentResultSpooled(id, reason) => Some((id, reason)) case _ => None
  }

  function TokenKey(t: EnrollmentToken): (string, string) { (t.tokenId, t.nodeId) }

  function AgentKey(a: AgentIdentityRecord): (string, OperatingSystem) { (a.nodeId, a.os) }

  function TaskKey(t: PendingAgentTask): (string, string, string) {
    (t.envelope.envelopeId, t.envelope.taskId, t.envelope.nodeId)
  }

  function ResultKey(r: AgentResultSubmission): (string, string, string) { (r.envelopeId, r.taskId, r.nodeId) }

  function SpoolKey(i: LocalSpoolItem): (string, SpoolReason) { (i.spoolId, i.reason) }

  /** The ledger, read by event kind, gives back every list in order. */
  ghost predicate LedgerAgrees(s: PlaneState) {
    && WrittenBy(s.ledger, "runtime", "runtime")
    && Project(s.ledger, TokenOf) == Map(s.tokens, TokenKey)
    && Project(s.ledger, EnrolledOf) == Map(s.agents, AgentKey)
    && Project(s.ledger, PulledOf) == Map(s.pulled, TaskKey)
    && Project(s.ledger, AcceptedOf) == Map(s.results, ResultKey)
    && Project(s.ledger, SpooledOf) == Map(s.spooled, SpoolKey)
  }

  ghost predicate TokenBefore(events: seq<AuditEvent>, k: nat, node: string)
    requires k <= |events|
  {
    exists j :: 0 <= j < k && events[j].kind.EnrollmentTokenCreated? && events[j].kind.nodeId == node
  }

  ghost predicate EnrolledBefore(events: seq<AuditEvent>, k: nat, node: string)
    requires k <= |events|
  {
    exists j :: 0 <= j < k && events[j].kind.AgentEnrolled? && events[j].kind.nodeId == node
  }

  ghost predicate PulledBefore(events: seq<AuditEvent>, k: nat, envelope: string, task: string)
    requires k <= |events|
  {
    exists j :: 0 <= j < k && events[j].kind.AgentTaskPulled?
                && events[j].kind.envelopeId == envelope && events[j].kind.taskId == task
  }

  /** The events that must stand before an event of this kind at position `k`. */
  ghost predicate Caused(events: seq<AuditEvent>, k: nat, kind: AuditEventKind)
    requires k <= |events|
  {
    match kind
    case AgentEnrolled(node, _) => TokenBefore(events, k, node)
    case AgentTaskPulled(_, _, node) => EnrolledBefore(events, k, node)
    case AgentTaskRejected(node, _) => EnrolledBefore(events, k, node)
    case AgentResultAccepted(envelope, task, node) =>
      PulledBefore(events, k, envelope, task) && EnrolledBefore(events, k, node)
    case _ => true
  }

  ghost predicate Causal(events: seq<AuditEvent>) {
    forall k :: 0 <= k < |events| ==> Caused(events, k, events[k].kind)
  }

  /** A result agrees with the first pulled envelope carrying its envelope id. */
  ghost predicate MatchesPulled(pulled: seq<PendingAgentTask>, r: AgentResultSubmission) {
    var k := Position(pulled, WithEnvelope(r.envelopeId));
    k.Some? && var e := pulled[k.value].envelope;
      e.envelopeId == r.envelopeId && e.taskId == r.taskId && e.runId == r.runId && e.nonce == r.nonce
  }

  ghost predicate ResultsSound(s: PlaneState) {
    && |s.nonces| == |s.results|
    && (forall i :: 0 <= i < |s.results| ==> s.nonces[i] == s.results[i].nonce)
    && Distinct(s.nonces)
    && (forall r :: r in s.results ==> MatchesPulled(s.pulled, r))
  }

  /** Per node, what was pulled followed by what is pending is what was enqueued, in order. */
  ghost predicate Conserved(s: PlaneState, history: seq<PendingAgentTask>) {
    && multiset(s.pulled) + multiset(s.pending) == multiset(history)
    && forall node ::
         Filter(s.pulled, ForNode(node)) + Filter(s.pending, ForNode(node)) == Filter(history, ForNode(node))
  }

  /** `history` is the sequence of all tasks ever enqueued. */
  ghost predicate Inv(s: PlaneState, history: seq<PendingAgentTask>) {
    LedgerAgrees(s) && Causal(s.ledger) && ResultsSound(s) && Conserved(s, history)
  }
}
