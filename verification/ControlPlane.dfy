/** The in-process control plane as a mutable object, proved against the state transformers of Runtime. */
module ControlPlanes {
  import opened Wrappers
  import opened Seqs
  import opened Domain
  import opened Ledger
  import opened Runtime
  import opened RuntimeInvariant

  function FromAppend(appended: Outcome<AuditAppendError>): Outcome<RuntimeError> {
    match appended
    case Pass => Pass
    case Fail(error) => Fail(AuditAppend(error))
  }

  class ControlPlane {
    var enrollmentTokens: seq<EnrollmentToken>
    var agents: seq<AgentIdentityRecord>
    var pendingTasks: seq<PendingAgentTask>
    var pulledTasks: seq<PendingAgentTask>
    var acceptedResultNonces: seq<string>
    var acceptedResults: seq<AgentResultSubmission>
    var spooledResults: seq<LocalSpoolItem>
    const ledger: AuditLedger
    ghost var enqueued: seq<PendingAgentTask>

    ghost function State(): PlaneState
      reads this, ledger
    {
      PlaneState(enrollmentTokens, agents, pendingTasks, pulledTasks, acceptedResultNonces, acceptedResults,
                 spooledResults, ledger.events)
    }

    ghost predicate Valid()
      reads this, ledger
    {
      ledger.Valid() && Inv(State(), enqueued)
    }

    constructor ()
      ensures Valid() && fresh(ledger)
      ensures State() == EMPTY_PLANE && enqueued == []
    {
      enrollmentTokens, agents, pendingTasks, pulledTasks := [], [], [], [];
      acceptedResultNonces, acceptedResults, spooledResults := [], [], [];
      ledger := new AuditLedger();
      enqueued := [];
      new;
      EmptyKeepsInv();
    }

    method CreateEnrollmentToken(token: EnrollmentToken) returns (r: Outcome<RuntimeError>)
      requires Valid()
      modifies this, ledger
      ensures Valid() && enqueued == old(enqueued)
      ensures r.Pass? && State() == CreateToken(old(State()), token)
    {
      CreateTokenKeepsInv(State(), enqueued, token);
      var logged := AppendEvent(EnrollmentTokenCreated(token.tokenId, token.nodeId));
      enrollmentTokens := enrollmentTokens + [token];
      return Pass;
    }

    method EnrollAgent(request: AgentEnrollmentRequest) returns (r: Result<AgentIdentityRecord, RuntimeError>)
      requires Valid()
      modifies this, ledger
      ensures Valid() && enqueued == old(enqueued)
      ensures (State(), r) == Enroll(old(State()), request)
    {
      EnrollKeepsInv(State(), enqueued, request);
      var found := FirstToken(enrollmentTokens, request.token);
      if found.None? {
        return Err(EnrollmentTokenMismatch);
      }
      var token := found.value;
      if token.expiresAt <= request.now {
        return Err(ExpiredEnrollmentToken);
      }
      if token.nodeId != request.nodeId {
        return Err(EnrollmentNodeMismatch);
      }
      if token.os != request.os {
        return Err(EnrollmentOsMismatch);
      }
      if token.serverTrustRoot != request.serverTrustRoot {
        return Err(EnrollmentTrustRootMismatch);
      }
      var record := AgentIdentityRecord(
        request.nodeId, request.os, request.certificateFingerprint, request.serverTrustRoot);
      var logged := AppendEvent(AgentEnrolled(record.nodeId, record.os));
      agents := agents + [record];
      return Ok(record);
    }

    method EnqueueTask(task: PendingAgentTask)
      requires Valid()
      modifies this
      ensures Valid() && enqueued == old(enqueued) + [task]
      ensures State() == Enqueue(old(State()), task)
    {
      EnqueueKeepsInv(State(), enqueued, task);
      pendingTasks := pendingTasks + [task];
      enqueued := enqueued + [task];
    }

    method PullTask(identity: AgentIdentity, now: nat) returns (r: Result<PendingAgentTask, RuntimeError>)
      requires Valid()
      modifies this, ledger
      ensures Valid() && enqueued == old(enqueued)
      ensures (State(), r) == Pull(old(State()), identity, now)
    {
      PullKeepsInv(State(), enqueued, identity, now);
      r := TakeTask(identity, now);
    }

    method TakeTask(identity: AgentIdentity, now: nat) returns (r: Result<PendingAgentTask, RuntimeError>)
      requires ledger.Valid()
      modifies this, ledger
      ensures ledger.Valid() && enqueued == old(enqueued)
      ensures (State(), r) == Pull(old(State()), identity, now)
    {
      var known := RequireAgent(agents, identity);
      if known.Fail? {
        return Err(known.error);
      }
      var position := Position(pendingTasks, ForNode(identity.nodeId));
      if position.None? {
        return Err(NoTaskAvailable);
      }
      var index := position.value;
      var task := pendingTasks[index];
      var rejection := EnvelopeRejection(task.envelope, identity.nodeId, now, []);
      if rejection.Some? {
        var logged := AppendEvent(AgentTaskRejected(identity.nodeId, RejectionName(rejection.value)));
        return Err(TaskEnvelopeRejected(rejection.value));
      }
      pendingTasks := RemoveAt(pendingTasks, index);
      var logged := AppendEvent(
        AgentTaskPulled(task.envelope.envelopeId, task.envelope.taskId, task.envelope.nodeId));
      pulledTasks := pulledTasks + [task];
      return Ok(task);
    }

    method SubmitResult(identity: AgentIdentity, submission: AgentResultSubmission, now: nat)
      returns (r: Outcome<RuntimeError>)
      requires Valid()
      modifies this, ledger
      ensures Valid() && enqueued == old(enqueued)
      ensures (State(), r) == Submit(old(State()), identity, submission, now)
    {
      SubmitKeepsInv(State(), enqueued, identity, submission, now);
      r := CheckResult(identity, submission, now);
    }

    method CheckResult(identity: AgentIdentity, submission: AgentResultSubmission, now: nat)
      returns (r: Outcome<RuntimeError>)
      requires ledger.Valid()
      modifies this, ledger
      ensures ledger.Valid() && enqueued == old(enqueued)
      ensures (State(), r) == Submit(old(State()), identity, submission, now)
    {
      var known := RequireAgent(agents, identity);
      if known.Fail? {
        return known;
      }
      if submission.nodeId != identity.nodeId {
        var logged := AuditResultRejection(submission, "result node mismatch");
        return Fail(ResultNodeMismatch);
      }
      if submission.nonce in acceptedResultNonces {
        var logged := AuditResultRejection(submission, "result nonce replay");
        return Fail(ResultNonceReplay);
      }
      var position := Position(pulledTasks, WithEnvelope(submission.envelopeId));
      if position.None? {
        return Fail(UnknownEnvelope);
      }
      var envelope := pulledTasks[position.value].envelope;
      if envelope.expiresAt <= now {
        var logged := AuditResultRejection(submission, "result envelope expired");
        return Fail(ResultExpired);
      }
      if envelope.taskId != submission.taskId {
        var logged := AuditResultRejection(submission, "result task mismatch");
        return Fail(ResultTaskMismatch);
      }
      if envelope.runId != submission.runId {
        var logged := AuditResultRejection(submission, "result run mismatch");
        return Fail(ResultRunMismatch);
      }
      if envelope.nonce != submission.nonce {
        var logged := AuditResultRejection(submission, "result nonce mismatch");
        return Fail(ResultEnvelopeMismatch);
      }
      var logged := AppendEvent(AgentResultAccepted(submission.envelopeId, submission.taskId, submission.nodeId));
      acceptedResultNonces := acceptedResultNonces + [submission.nonce];
      acceptedResults := acceptedResults + [submission];
      return Pass;
    }

    method SpoolResult(item: LocalSpoolItem) returns (r: Result<LocalSpoolItem, RuntimeError>)
      requires Valid()
      modifies this, ledger
      ensures Valid() && enqueued == old(enqueued)
      ensures r == Ok(item) && State() == Spool(old(State()), item)
    {
      SpoolKeepsInv(State(), enqueued, item);
      var logged := AppendEvent(AgentResultSpooled(item.spoolId, item.reason));
      spooledResults := spooledResults + [item];
      return Ok(item);
    }

    method AuditResultRejection(submission: AgentResultSubmission, reason: string)
      returns (r: Outcome<RuntimeError>)
      requires ledger.Valid()
      modifies ledger
      ensures ledger.Valid() && r.Pass?
      ensures State() == RejectResult(old(State()), submission, reason)
    {
      r := AppendEvent(AgentResultRejected(submission.envelopeId, reason));
    }

    /** The ledger's own next number is used, so the append error is never returned. */
    method AppendEvent(kind: AuditEventKind) returns (r: Outcome<RuntimeError>)
      requires ledger.Valid()
      modifies ledger
      ensures ledger.Valid() && r.Pass?
      ensures State() == Log(old(State()), kind)
    {
      var appended := ledger.Record("runtime", "runtime", kind);
      r := FromAppend(appended);
    }
  }
}
