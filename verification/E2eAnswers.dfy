/** What the evidence loop sends, what it leaves on the plane, and which task's failure it answers with. */
module E2eAnswers {
  import opened Wrappers
  import opened Seqs
  import opened Strings
  import opened Domain
  import opened Runtime
  import opened RuntimeAnswers
  import opened E2e
  import opened RunbookEvidence

  // ----- What is sent -----

  /** The loop takes the tasks whose id begins with the collectors' prefix, in their order. */
  lemma CollectorAnswers(tasks: seq<Task>, task: Task)
    ensures Collectors([]) == []
    ensures Collectors(tasks + [task])
            == if "collect-" <= task.id then Collectors(tasks) + [task] else Collectors(tasks)
  {
    FilterAppend(tasks, task, IsCollect);
  }

  /** The envelope of a collect task names it throughout, and lives from 100 to 200. */
  lemma EnvelopeIs(runId: string, target: string, task: Task)
    ensures var e := EnvelopeFor(runId, target, task);
            && e.envelopeId == "env-demo-" + task.id && e.nonce == "nonce-demo-" + task.id
            && e.auditCorrelationId == "audit-demo-" + task.id
            && e.runId == runId && e.taskId == task.id && e.nodeId == target
            && e.issuedAt == 100 && e.expiresAt == 200 && e.requiredCapabilities == task.requiredCapabilities
  {}

  /** A task needs a capability and then a read; its payload collects the first of each. */
  lemma QueuedAnswers(runId: string, target: string, task: Task)
    ensures QueuedFor(runId, target, task)
            == if task.requiredCapabilities == [] then Err(MissingCapability(task.id))
               else if task.readsFrom == [] then Err(MissingRead(task.id))
               else Ok(PendingAgentTask(
                         EnvelopeFor(runId, target, task),
                         CollectEvidence(task.requiredCapabilities[0], task.readsFrom[0])))
  {}

  /** The result repeats its envelope, reports success and carries the one piece of evidence. */
  lemma ResultIs(e: AgentTaskEnvelope, evidence: EvidenceEnvelope)
    ensures var r := ResultFor(e, evidence);
            && r.envelopeId == e.envelopeId && r.runId == e.runId && r.taskId == e.taskId && r.nodeId == e.nodeId
            && r.nonce == e.nonce && r.auditCorrelationId == e.auditCorrelationId
            && r.status == ResultSucceeded && r.evidence == [evidence]
  {}

  /** The evidence of each accepted, successful result of the run is handed over, in order. */
  lemma AcceptedAnswers(results: seq<AgentResultSubmission>, r: AgentResultSubmission, runId: string)
    ensures AcceptedEvidence([], runId) == []
    ensures AcceptedEvidence(results + [r], runId)
            == if r.runId == runId && r.status == ResultSucceeded then AcceptedEvidence(results, runId) + r.evidence
               else AcceptedEvidence(results, runId)
  {
    var p := (x: AgentResultSubmission) => OfRunSucceeded(runId, x);
    var f := (x: AgentResultSubmission) => x.evidence;
    FilterAppend(results, r, p);
    if p(r) {
      GatherAppend(Filter(results, p), r, f);
    }
    assert Gather(Filter([], p), f) == [];
  }

  // ----- One task -----

  /** The first thing that goes wrong with a task is answered: its needs, the pull, the evidence, or the submission. */
  lemma StepAnswers(
      s: PlaneState, identity: AgentIdentity, runId: string, target: string, task: Task, index: nat,
      source: EvidenceSource)
    ensures var step := CollectStep(s, identity, runId, target, task, index, source);
            match QueuedFor(runId, target, task)
            case Err(error) => step == (s, Fail(error))
            case Ok(queued) =>
              var (s1, pulled) := Pull(s.(pending := s.pending + [queued]), identity, 101 + index);
              match pulled
              case Err(error) => step == (s1, Fail(PlaneRefused(error)))
              case Ok(got) =>
                if !got.payload.CollectEvidence? then step == (s1, Fail(NonEvidencePayload(got.envelope.taskId)))
                else if source(got.envelope.taskId).Err? then
                  step == (s1, Fail(source(got.envelope.taskId).error))
                else
                  var result := ResultFor(got.envelope, source(got.envelope.taskId).value);
                  var (s2, submitted) := Submit(s1, identity, result, 110 + index);
                  && step.0 == s2
                  && (submitted.Pass? ==> step.1 == Pass)
                  && (submitted.Fail? ==> step.1 == Fail(PlaneRefused(submitted.error)))
  {
    hide Pull, Submit;
  }

  /** What a ready agent's task fails with on a plane that its predecessors left behind. */
  ghost predicate FailsWith(
      error: E2eError, collectors: seq<Task>, n: nat, source: EvidenceSource)
    requires n < |collectors|
  {
    var task := collectors[n];
    if task.requiredCapabilities == [] then error == MissingCapability(task.id)
    else if task.readsFrom == [] then error == MissingRead(task.id)
    else if source(task.id).Err? then error == source(task.id).error
    else if !IsNew(collectors, n) then error == PlaneRefused(ResultNonceReplay)
    else error == PlaneRefused(ResultExpired)
  }

  lemma StepFailsWith(
      s: PlaneState, agents: seq<AgentIdentityRecord>, runId: string, target: string, collectors: seq<Task>, n: nat,
      source: EvidenceSource, identity: AgentIdentity)
    requires n < |collectors| && n <= 90 && Collected(s, agents, runId, target, collectors, n, source)
    requires AgentReady(agents, identity, target)
    requires !StepReady(agents, identity, target, collectors, n, source)
    ensures var r := CollectStep(s, identity, runId, target, collectors[n], n, source).1;
            r.Fail? && FailsWith(r.error, collectors, n, source)
  {
    hide Submit, Pull, Log, IsNew, RequireAgent;
    StepAnswers(s, identity, runId, target, collectors[n], n, source);
    var task := collectors[n];
    if task.requiredCapabilities != [] && task.readsFrom != [] {
      var queued := QueuedFor(runId, target, task).value;
      PullFresh(s, identity, queued, 101 + n);
      var s1 := Pull(s.(pending := s.pending + [queued]), identity, 101 + n).0;
      if source(task.id).Ok? {
        SubmitFails(
          s, s1, agents, runId, target, collectors, n, source, identity, queued, source(task.id).value);
      }
    }
  }

  /** A result that is not accepted repeats a nonce of the loop, or else comes when time has run out. */
  lemma SubmitFails(
      s: PlaneState, s1: PlaneState, agents: seq<AgentIdentityRecord>, runId: string, target: string,
      collectors: seq<Task>, n: nat, source: EvidenceSource, identity: AgentIdentity, queued: PendingAgentTask,
      evidence: EvidenceEnvelope)
    requires n < |collectors| && n <= 90 && Collected(s, agents, runId, target, collectors, n, source)
    requires AgentReady(agents, identity, target) && !(IsNew(collectors, n) && n < 90)
    requires queued.envelope == EnvelopeFor(runId, target, collectors[n])
    requires s1 == s.(pulled := s.pulled + [queued], ledger := s1.ledger)
    ensures Submit(s1, identity, ResultFor(queued.envelope, evidence), 110 + n).1
            == if !IsNew(collectors, n) then Fail(ResultNonceReplay) else Fail(ResultExpired)
  {
    hide Log, RequireAgent;
    var result := ResultFor(queued.envelope, evidence);
    if IsNew(collectors, n) {
      NewNonce(s, agents, runId, target, collectors, n, source);
      PositionUnique(s1.pulled, WithEnvelope(result.envelopeId), n);
    } else {
      var i :| 0 <= i < n && collectors[i].id == collectors[n].id;
      assert s.nonces[i] == result.nonce;
    }
  }

  lemma NewNonce(
      s: PlaneState, agents: seq<AgentIdentityRecord>, runId: string, target: string, collectors: seq<Task>, n: nat,
      source: EvidenceSource)
    requires n < |collectors| && Collected(s, agents, runId, target, collectors, n, source) && IsNew(collectors, n)
    ensures "nonce-demo-" + collectors[n].id !in s.nonces
    ensures forall i :: 0 <= i < n ==> s.pulled[i].envelope.envelopeId != "env-demo-" + collectors[n].id
  {
    forall i | 0 <= i < n
      ensures s.nonces[i] != "nonce-demo-" + collectors[n].id
      ensures s.pulled[i].envelope.envelopeId != "env-demo-" + collectors[n].id
    {
      PrefixedDistinct("nonce-demo-", collectors[i].id, collectors[n].id);
      PrefixedDistinct("env-demo-", collectors[i].id, collectors[n].id);
    }
  }

  // ----- The whole loop -----

  /** The first task that cannot go through decides the answer of the loop. */
  lemma {:induction false} FirstFailureAnswers(
      s: PlaneState, agents: seq<AgentIdentityRecord>, identity: AgentIdentity, runId: string, target: string,
      collectors: seq<Task>, n: nat, k: nat, source: EvidenceSource)
    requires n <= k < |collectors| && Collected(s, agents, runId, target, collectors, n, source)
    requires AgentReady(agents, identity, target)
    requires forall i :: n <= i < k ==> StepReady(agents, identity, target, collectors, i, source)
    requires !StepReady(agents, identity, target, collectors, k, source)
    ensures var r := CollectFrom(s, identity, runId, target, collectors, n, source).1;
            r.Fail? && FailsWith(r.error, collectors, k, source)
    decreases k - n
  {
    hide CollectStep, Collected, StepReady, AgentReady, FailsWith;
    if n == k {
      BoundReached(s, agents, runId, target, collectors, n, source);
      StepFailsWith(s, agents, runId, target, collectors, n, source, identity);
    } else {
      StepExact(s, agents, runId, target, collectors, n, source, identity);
      var s' := CollectStep(s, identity, runId, target, collectors[n], n, source).0;
      FirstFailureAnswers(s', agents, identity, runId, target, collectors, n + 1, k, source);
    }
  }

  lemma BoundReached(
      s: PlaneState, agents: seq<AgentIdentityRecord>, runId: string, target: string, collectors: seq<Task>, n: nat,
      source: EvidenceSource)
    requires n <= |collectors| && Collected(s, agents, runId, target, collectors, n, source)
    ensures n <= 90
  {}

  /** On a fresh plane, the loop of a ready agent answers with the failure of its first task that cannot go through. */
  lemma LoopAnswers(
      s: PlaneState, identity: AgentIdentity, runId: string, target: string, collectors: seq<Task>, k: nat,
      source: EvidenceSource)
    requires s.pending == [] && s.pulled == [] && s.results == [] && ResultsSound(s) && k < |collectors|
    requires AgentReady(s.agents, identity, target)
    requires forall i :: 0 <= i < k ==> StepReady(s.agents, identity, target, collectors, i, source)
    requires !StepReady(s.agents, identity, target, collectors, k, source)
    ensures var r := CollectAll(s, identity, runId, target, collectors, source).1;
            r.Err? && FailsWith(r.error, collectors, k, source)
  {
    NothingCollected(s, runId, target, collectors, source);
    hide CollectFrom, Collected, StepReady, AgentReady, FailsWith;
    FirstFailureAnswers(s, s.agents, identity, runId, target, collectors, 0, k, source);
  }

  /** What a completed loop leaves behind: the agents as they were, an empty queue, and one result per task. */
  lemma LoopLeaves(
      s: PlaneState, identity: AgentIdentity, runId: string, target: string, collectors: seq<Task>,
      source: EvidenceSource)
    requires s.pending == [] && s.pulled == [] && s.results == [] && ResultsSound(s)
    requires CollectAll(s, identity, runId, target, collectors, source).1.Ok?
    ensures Collected(
              CollectAll(s, identity, runId, target, collectors, source).0, s.agents, runId, target, collectors,
              |collectors|, source)
  {
    hide *;
    CompletedLoop(s, identity, runId, target, collectors, source);
    NothingCollected(s, runId, target, collectors, source);
    CollectFromExact(s, s.agents, identity, runId, target, collectors, 0, source);
  }

  lemma CompletedLoop(
      s: PlaneState, identity: AgentIdentity, runId: string, target: string, collectors: seq<Task>,
      source: EvidenceSource)
    requires CollectAll(s, identity, runId, target, collectors, source).1.Ok?
    ensures CollectFrom(s, identity, runId, target, collectors, 0, source).1.Pass?
    ensures CollectAll(s, identity, runId, target, collectors, source).0
            == CollectFrom(s, identity, runId, target, collectors, 0, source).0
  {
    hide CollectFrom, AcceptedEvidence;
  }

  // ----- The runbooks' own evidence -----

  function Text(source: string, body: string): Result<EvidenceEnvelope, E2eError> {
    Ok(EvidenceEnvelope(source, "text/plain", body, false))
  }

  lemma ServiceEvidenceAnswers(other: string)
    requires other !in ["collect-service-status", "collect-recent-logs", "collect-disk-snapshot",
                        "collect-process-snapshot", "collect-socket-snapshot"]
    ensures ServiceEvidence("collect-service-status") == Text("service_status", "service=not-active")
    ensures ServiceEvidence("collect-recent-logs") == Text("recent_logs", "sshd failed with connection refused")
    ensures ServiceEvidence("collect-disk-snapshot") == Text("disk_snapshot", "disk=present / 40%")
    ensures ServiceEvidence("collect-process-snapshot") == Text("process_snapshot", "process=present sshd missing")
    ensures ServiceEvidence("collect-socket-snapshot") == Text("socket_snapshot", "socket=present port 22 absent")
    ensures ServiceEvidence(other) == Err(UnsupportedEvidenceTask(other))
  {}

  lemma DiskEvidenceAnswers(other: string)
    requires other !in ["collect-disk-usage", "collect-cleanup-candidate", "collect-disk-pressure-logs",
                        "collect-pre-action-snapshot"]
    ensures DiskEvidence("collect-disk-usage") == Text("disk_usage", "disk_pressure=high mount=/ usage=92")
    ensures DiskEvidence(other) == Err(UnsupportedEvidenceTask(other))
  {}

  lemma CandidateEvidenceAnswers()
    ensures DiskEvidence("collect-cleanup-candidate")
            == Text(
                 "cleanup_candidate", "cleanup_candidate=present path=/var/tmp/runlane-demo-cache bytes=524288000")
  {
    assert |"collect-disk-usage"| != |"collect-cleanup-candidate"|;
  }

  lemma DiskLogEvidenceAnswers()
    ensures DiskEvidence("collect-disk-pressure-logs")
            == Text("disk_pressure_logs", "log=present disk pressure detected; no deletion command supplied")
  {
    assert |"collect-disk-usage"| == 18 && |"collect-cleanup-candidate"| == 25;
    assert |"collect-disk-pressure-logs"| == 26;
  }

  lemma SnapshotEvidenceAnswers()
    ensures DiskEvidence("collect-pre-action-snapshot")
            == Text("pre_action_snapshot", "pre_action_snapshot=present free_space=low cleanup_candidate=present")
  {
    assert |"collect-disk-usage"| == 18 && |"collect-cleanup-candidate"| == 25;
    assert |"collect-disk-pressure-logs"| == 26 && |"collect-pre-action-snapshot"| == 27;
  }
}
