/** What every call of the control plane answers and records, case by case. */
module RuntimeAnswers {
  import opened Wrappers
  import opened Seqs
  import opened Strings
  import opened Domain
  import opened Ledger
  import opened Runtime

  /** The call appended exactly one event, numbered and named by its place. */
  ghost predicate Records(before: PlaneState, after: PlaneState, kind: AuditEventKind) {
    after.ledger
    == before.ledger
       + [AuditEvent("runtime-event-" + Decimal(|before.ledger| + 1), "runtime", |before.ledger| + 1, kind)]
  }

  /** The call did nothing but append one event. */
  ghost predicate OnlyRecords(before: PlaneState, after: PlaneState, kind: AuditEventKind) {
    after == before.(ledger := after.ledger) && Records(before, after, kind)
  }

  lemma LogRecords(s: PlaneState, kind: AuditEventKind)
    ensures OnlyRecords(s, Log(s, kind), kind)
  {
    assert "runtime" + "-event-" == "runtime-event-";
  }

  // ----- First matches, by position -----

  ghost predicate TokenAt(s: PlaneState, k: nat, secret: string)
    requires k < |s.tokens|
  {
    s.tokens[k].token == secret && forall i :: 0 <= i < k ==> s.tokens[i].token != secret
  }

  ghost predicate AgentAt(s: PlaneState, k: nat, node: string)
    requires k < |s.agents|
  {
    s.agents[k].nodeId == node && forall i :: 0 <= i < k ==> s.agents[i].nodeId != node
  }

  ghost predicate PendingAt(s: PlaneState, k: nat, node: string)
    requires k < |s.pending|
  {
    s.pending[k].envelope.nodeId == node && forall i :: 0 <= i < k ==> s.pending[i].envelope.nodeId != node
  }

  ghost predicate PulledAt(s: PlaneState, k: nat, envelopeId: string)
    requires k < |s.pulled|
  {
    && s.pulled[k].envelope.envelopeId == envelopeId
    && forall i :: 0 <= i < k ==> s.pulled[i].envelope.envelopeId != envelopeId
  }

  /** No agent has enrolled for the node. */
  ghost predicate NobodyFor(s: PlaneState, node: string) {
    forall i :: 0 <= i < |s.agents| ==> s.agents[i].nodeId != node
  }

  /** The first agent of the identity's node has this fingerprint. */
  ghost predicate Known(s: PlaneState, identity: AgentIdentity) {
    exists k :: 0 <= k < |s.agents| && AgentAt(s, k, identity.nodeId)
                && s.agents[k].certificateFingerprint == identity.certificateFingerprint
  }

  /** The first agent of the identity's node has another fingerprint. */
  ghost predicate Stranger(s: PlaneState, identity: AgentIdentity) {
    exists k :: 0 <= k < |s.agents| && AgentAt(s, k, identity.nodeId)
                && s.agents[k].certificateFingerprint != identity.certificateFingerprint
  }

  lemma FirstAgentAt(s: PlaneState, k: nat, node: string)
    requires k < |s.agents| && AgentAt(s, k, node)
    ensures FirstAgent(s.agents, node) == Some(s.agents[k])
  {
    PositionUnique(s.agents, (a: AgentIdentityRecord) => a.nodeId == node, k);
  }

  lemma FirstAgentExists(s: PlaneState, node: string) returns (k: nat)
    requires !NobodyFor(s, node)
    ensures k < |s.agents| && AgentAt(s, k, node)
  {
    var p := (a: AgentIdentityRecord) => a.nodeId == node;
    k := Position(s.agents, p).value;
    assert p(s.agents[k]) && forall i :: 0 <= i < k ==> !p(s.agents[i]);
  }

  /** The plane answers an identity as unknown, as a stranger, or not at all. */
  lemma IdentityAnswers(s: PlaneState, identity: AgentIdentity)
    ensures NobodyFor(s, identity.nodeId) ==> RequireAgent(s.agents, identity) == Fail(UnknownAgent)
    ensures Stranger(s, identity) ==> RequireAgent(s.agents, identity) == Fail(AgentIdentityMismatch)
    ensures Known(s, identity) ==> RequireAgent(s.agents, identity) == Pass
    ensures NobodyFor(s, identity.nodeId) || Stranger(s, identity) || Known(s, identity)
  {
    hide FirstAgent;
    if !NobodyFor(s, identity.nodeId) {
      var k := FirstAgentExists(s, identity.nodeId);
      assert s.agents[k].certificateFingerprint == identity.certificateFingerprint ==> Known(s, identity);
      assert s.agents[k].certificateFingerprint != identity.certificateFingerprint ==> Stranger(s, identity);
    }
    if k :| 0 <= k < |s.agents| && AgentAt(s, k, identity.nodeId) {
      FirstAgentAt(s, k, identity.nodeId);
    }
  }

  /** An envelope is checked for its node, its expiry and its nonce, in this order; each refusal has its name. */
  lemma EnvelopeAnswers(e: AgentTaskEnvelope, node: string, now: nat, seen: seq<string>)
    ensures EnvelopeRejection(e, node, now, seen)
            == if e.nodeId != node then Some(NodeMismatch)
               else if e.expiresAt <= now then Some(ExpiredEnvelope)
               else if e.nonce in seen then Some(ReplayedNonce)
               else None
    ensures RejectionName(NodeMismatch) == "NodeMismatch" && RejectionName(ExpiredEnvelope) == "ExpiredEnvelope"
    ensures RejectionName(ReplayedNonce) == "ReplayedNonce"
  {}

  // ----- Tokens, queue and spool -----

  lemma CreateTokenAnswers(s: PlaneState, token: EnrollmentToken)
    ensures var s' := CreateToken(s, token);
            && s' == s.(tokens := s.tokens + [token], ledger := s'.ledger)
            && Records(s, s', EnrollmentTokenCreated(token.tokenId, token.nodeId))
  {
    LogRecords(s, EnrollmentTokenCreated(token.tokenId, token.nodeId));
  }

  lemma EnqueueAnswers(s: PlaneState, task: PendingAgentTask)
    ensures Enqueue(s, task) == s.(pending := s.pending + [task])
  {}

  lemma SpoolAnswers(s: PlaneState, item: LocalSpoolItem)
    ensures var s' := Spool(s, item);
            && s' == s.(spooled := s.spooled + [item], ledger := s'.ledger)
            && Records(s, s', AgentResultSpooled(item.spoolId, item.reason))
  {
    LogRecords(s, AgentResultSpooled(item.spoolId, item.reason));
  }

  // ----- Enrolment -----

  /** Without a token of that secret an enrolment is refused and nothing happens. */
  lemma EnrollWithoutToken(s: PlaneState, request: AgentEnrollmentRequest)
    requires forall i :: 0 <= i < |s.tokens| ==> s.tokens[i].token != request.token
    ensures Enroll(s, request) == (s, Err(EnrollmentTokenMismatch))
  {}

  /** The first token of that secret is checked for expiry, node, system and trust root, in this order. */
  lemma EnrollAnswers(s: PlaneState, request: AgentEnrollmentRequest, k: nat)
    requires k < |s.tokens| && TokenAt(s, k, request.token)
    ensures var (t, (s', r)) := (s.tokens[k], Enroll(s, request));
            if t.expiresAt <= request.now then s' == s && r == Err(ExpiredEnrollmentToken)
            else if t.nodeId != request.nodeId then s' == s && r == Err(EnrollmentNodeMismatch)
            else if t.os != request.os then s' == s && r == Err(EnrollmentOsMismatch)
            else if t.serverTrustRoot != request.serverTrustRoot then s' == s && r == Err(EnrollmentTrustRootMismatch)
            else
              && r == Ok(AgentIdentityRecord(t.nodeId, t.os, request.certificateFingerprint, t.serverTrustRoot))
              && s' == s.(agents := s.agents + [r.value], ledger := s'.ledger)
              && Records(s, s', AgentEnrolled(t.nodeId, t.os))
  {
    PositionUnique(s.tokens, (t: EnrollmentToken) => t.token == request.token, k);
    LogRecords(s, AgentEnrolled(request.nodeId, request.os));
  }

  // ----- Pulling -----

  /** Without a known identity, or without a task for its node, a pull is refused and nothing happens. */
  lemma PullRefusals(s: PlaneState, identity: AgentIdentity, now: nat)
    ensures NobodyFor(s, identity.nodeId) ==> Pull(s, identity, now) == (s, Err(UnknownAgent))
    ensures Stranger(s, identity) ==> Pull(s, identity, now) == (s, Err(AgentIdentityMismatch))
    ensures Known(s, identity) && (forall i :: 0 <= i < |s.pending| ==> s.pending[i].envelope.nodeId != identity.nodeId)
            ==> Pull(s, identity, now) == (s, Err(NoTaskAvailable))
  {
    IdentityAnswers(s, identity);
    hide RequireAgent, NobodyFor, Stranger, Known;
  }

  /** The first task of the node is rejected and recorded as expired, or else handed out and recorded as pulled. */
  lemma PullAnswers(s: PlaneState, identity: AgentIdentity, now: nat, k: nat)
    requires Known(s, identity) && k < |s.pending| && PendingAt(s, k, identity.nodeId)
    ensures var (e, (s', r)) := (s.pending[k].envelope, Pull(s, identity, now));
            if e.expiresAt <= now then
              && r == Err(TaskEnvelopeRejected(ExpiredEnvelope))
              && OnlyRecords(s, s', AgentTaskRejected(identity.nodeId, "ExpiredEnvelope"))
            else
              && r == Ok(s.pending[k])
              && s' == s.(pending := s.pending[..k] + s.pending[k + 1..], pulled := s.pulled + [s.pending[k]],
                          ledger := s'.ledger)
              && Records(s, s', AgentTaskPulled(e.envelopeId, e.taskId, e.nodeId))
  {
    IdentityAnswers(s, identity);
    hide RequireAgent, Known, Log, OnlyRecords;
    var e := s.pending[k].envelope;
    PositionUnique(s.pending, ForNode(identity.nodeId), k);
    LogRecords(s, AgentTaskRejected(identity.nodeId, "ExpiredEnvelope"));
    LogRecords(s, AgentTaskPulled(e.envelopeId, e.taskId, e.nodeId));
    OnlyRecordsFacts(s, Log(s, AgentTaskPulled(e.envelopeId, e.taskId, e.nodeId)),
                     AgentTaskPulled(e.envelopeId, e.taskId, e.nodeId));
  }

  lemma OnlyRecordsFacts(s: PlaneState, s': PlaneState, kind: AuditEventKind)
    requires OnlyRecords(s, s', kind)
    ensures s' == s.(ledger := s'.ledger) && Records(s, s', kind)
  {}

  // ----- Submitting -----

  /** The submission was refused with `error`, and only the refusal was recorded, for this reason. */
  ghost predicate RefusedFor(
      s: PlaneState, answer: (PlaneState, Outcome<RuntimeError>), submission: AgentResultSubmission, reason: string,
      error: RuntimeError)
  {
    answer.1 == Fail(error) && OnlyRecords(s, answer.0, AgentResultRejected(submission.envelopeId, reason))
  }

  /** Without a known identity a submission is refused and nothing happens. */
  lemma SubmitByStranger(s: PlaneState, identity: AgentIdentity, submission: AgentResultSubmission, now: nat)
    ensures NobodyFor(s, identity.nodeId) ==> Submit(s, identity, submission, now) == (s, Fail(UnknownAgent))
    ensures Stranger(s, identity) ==> Submit(s, identity, submission, now) == (s, Fail(AgentIdentityMismatch))
  {
    IdentityAnswers(s, identity);
    hide RequireAgent, NobodyFor, Stranger;
  }

  /**
   A known identity is refused, on the record, for another node's result and for a nonce accepted before; a result for
   an envelope that nobody pulled is refused off the record.
   */
  lemma SubmitRefusals(s: PlaneState, identity: AgentIdentity, submission: AgentResultSubmission, now: nat)
    requires Known(s, identity)
    ensures var answer := Submit(s, identity, submission, now);
            if submission.nodeId != identity.nodeId then
              RefusedFor(s, answer, submission, "result node mismatch", ResultNodeMismatch)
            else if submission.nonce in s.nonces then
              RefusedFor(s, answer, submission, "result nonce replay", ResultNonceReplay)
            else if forall i :: 0 <= i < |s.pulled| ==> s.pulled[i].envelope.envelopeId != submission.envelopeId then
              answer == (s, Fail(UnknownEnvelope))
            else true
  {
    IdentityAnswers(s, identity);
    LogRecords(s, AgentResultRejected(submission.envelopeId, "result node mismatch"));
    LogRecords(s, AgentResultRejected(submission.envelopeId, "result nonce replay"));
    hide RequireAgent, Known, Log, OnlyRecords;
  }

  /**
   A new result is held against the first pulled envelope with its id: its expiry, task, run and nonce are checked in
   this order, each refusal on the record, and otherwise the result is accepted.
   */
  lemma SubmitAnswers(s: PlaneState, identity: AgentIdentity, submission: AgentResultSubmission, now: nat, k: nat)
    requires Known(s, identity) && submission.nodeId == identity.nodeId && submission.nonce !in s.nonces
    requires k < |s.pulled| && PulledAt(s, k, submission.envelopeId)
    ensures var (e, answer) := (s.pulled[k].envelope, Submit(s, identity, submission, now));
            if e.expiresAt <= now then RefusedFor(s, answer, submission, "result envelope expired", ResultExpired)
            else if e.taskId != submission.taskId then
              RefusedFor(s, answer, submission, "result task mismatch", ResultTaskMismatch)
            else if e.runId != submission.runId then
              RefusedFor(s, answer, submission, "result run mismatch", ResultRunMismatch)
            else if e.nonce != submission.nonce then
              RefusedFor(s, answer, submission, "result nonce mismatch", ResultEnvelopeMismatch)
            else
              && answer.1 == Pass
              && answer.0 == s.(nonces := s.nonces + [submission.nonce], results := s.results + [submission],
                                ledger := answer.0.ledger)
              && Records(
                   s, answer.0, AgentResultAccepted(submission.envelopeId, submission.taskId, submission.nodeId))
  {
    IdentityAnswers(s, identity);
    PositionUnique(s.pulled, WithEnvelope(submission.envelopeId), k);
    hide RequireAgent, Known, Log, OnlyRecords;
    LogRecords(s, AgentResultRejected(submission.envelopeId, "result envelope expired"));
    LogRecords(s, AgentResultRejected(submission.envelopeId, "result task mismatch"));
    LogRecords(s, AgentResultRejected(submission.envelopeId, "result run mismatch"));
    LogRecords(s, AgentResultRejected(submission.envelopeId, "result nonce mismatch"));
    var accepted := AgentResultAccepted(submission.envelopeId, submission.taskId, submission.nodeId);
    LogRecords(s, accepted);
    OnlyRecordsFacts(s, Log(s, accepted), accepted);
  }

  /** An envelope that was pulled at all was pulled first somewhere, so that no submission is left out. */
  lemma FirstPulledExists(s: PlaneState, envelopeId: string) returns (k: nat)
    requires exists i :: 0 <= i < |s.pulled| && s.pulled[i].envelope.envelopeId == envelopeId
    ensures k < |s.pulled| && PulledAt(s, k, envelopeId)
  {
    k := Position(s.pulled, WithEnvelope(envelopeId)).value;
    assert forall i :: 0 <= i < k ==> !WithEnvelope(envelopeId)(s.pulled[i]);
  }
}
