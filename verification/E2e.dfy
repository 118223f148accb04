/** The journey that drives the control plane, the analyzers, the approval store and the receipt for one run. */
module E2e {
  import opened Wrappers
  import opened Seqs
  import opened Strings
  import opened Domain
  import opened Ledger
  import opened Runtime
  import opened ControlPlanes
  import opened Receipt
  import opened ReceiptAccumulator
  import Analyzer
  import Approval
  import Helper

  datatype E2eError =
    | MissingCapability(taskId: string)
    | MissingRead(taskId: string)
    | PlaneRefused(cause: RuntimeError)
    | NonEvidencePayload(taskId: string)
    | UnsupportedEvidenceTask(taskId: string)
    | EvidenceCount(expected: nat, got: nat)
    | AgentMissing(nodeId: string)
    | ProposalRefused(fault: Analyzer.ProposalValidationError)
    | TaskMissing(taskId: string)
    | ActionNotProposed(actionId: string)
    | ApprovalRefused(refusal: Approval.ApprovalError)
    | HelperRefused(rejection: Helper.HelperRejection)
    | ReceiptRefused(receiptError: ReceiptError)

  type EvidenceSource = string -> Result<EvidenceEnvelope, E2eError>

  // ----- Collecting evidence -----

  predicate IsCollect(task: Task) {
    StartsWith(task.id, "collect-")
  }

  function Collectors(tasks: seq<Task>): seq<Task> {
    Filter(tasks, IsCollect)
  }

  function EnvelopeFor(runId: string, target: string, task: Task): AgentTaskEnvelope {
    AgentTaskEnvelope(
      "env-demo-" + task.id, runId, task.id, target, 100, 200, "nonce-demo-" + task.id, task.requiredCapabilities,
      "audit-demo-" + task.id)
  }

  function QueuedFor(runId: string, target: string, task: Task): Result<PendingAgentTask, E2eError> {
    if task.requiredCapabilities == [] then Err(MissingCapability(task.id))
    else if task.readsFrom == [] then Err(MissingRead(task.id))
    else Ok(PendingAgentTask(
              EnvelopeFor(runId, target, task), CollectEvidence(task.requiredCapabilities[0], task.readsFrom[0])))
  }

  function ResultFor(e: AgentTaskEnvelope, evidence: EvidenceEnvelope): AgentResultSubmission {
    AgentResultSubmission(
      e.envelopeId, e.runId, e.taskId, e.nodeId, e.nonce, ResultSucceeded, [evidence], e.auditCorrelationId)
  }

  /** Queue, pull, gather and submit one collect task, the `index`-th of the loop. */
  function CollectStep(
      s: PlaneState, identity: AgentIdentity, runId: string, target: string, task: Task, index: nat,
      source: EvidenceSource)
    : (PlaneState, Outcome<E2eError>)
  {
    match QueuedFor(runId, target, task)
    case Err(error) => (s, Fail(error))
    case Ok(queued) =>
      var (s1, pulled) := Pull(Enqueue(s, queued), identity, 101 + index);
      match pulled
      case Err(error) => (s1, Fail(PlaneRefused(error)))
      case Ok(got) =>
        if !got.payload.CollectEvidence? then (s1, Fail(NonEvidencePayload(got.envelope.taskId)))
        else
          match source(got.envelope.taskId)
          case Err(error) => (s1, Fail(error))
          case Ok(evidence) =>
            var (s2, submitted) := Submit(s1, identity, ResultFor(got.envelope, evidence), 110 + index);
            (s2, if submitted.Fail? then Fail(PlaneRefused(submitted.error)) else Pass)
  }

  predicate OfRunSucceeded(runId: string, r: AgentResultSubmission) {
    r.runId == runId && r.status == ResultSucceeded
  }

  function AcceptedEvidence(results: seq<AgentResultSubmission>, runId: string): seq<EvidenceEnvelope> {
    Gather(Filter(results, (r: AgentResultSubmission) => OfRunSucceeded(runId, r)),
           (r: AgentResultSubmission) => r.evidence)
  }

  /** The evidence loop from its `n`-th collect task on, stopping at the first step that fails. */
  function CollectFrom(
      s: PlaneState, identity: AgentIdentity, runId: string, target: string, collectors: seq<Task>, n: nat,
      source: EvidenceSource)
    : (PlaneState, Outcome<E2eError>)
    requires n <= |collectors|
    decreases |collectors| - n
  {
    if n == |collectors| then (s, Pass)
    else
      var (s', step) := CollectStep(s, identity, runId, target, collectors[n], n, source);
      if step.Fail? then (s', step) else CollectFrom(s', identity, runId, target, collectors, n + 1, source)
  }

  function CollectAll(
      s: PlaneState, identity: AgentIdentity, runId: string, target: string, collectors: seq<Task>,
      source: EvidenceSource)
    : (PlaneState, Result<seq<EvidenceEnvelope>, E2eError>)
  {
    var (s', step) := CollectFrom(s, identity, runId, target, collectors, 0, source);
    if step.Fail? then (s', Err(step.error))
    else
      var evidence := AcceptedEvidence(s'.results, runId);
      (s', if |evidence| != |collectors| then Err(EvidenceCount(|collectors|, |evidence|)) else Ok(evidence))
  }

  // ----- When collecting succeeds -----

  /** The agent is known under this identity and is the target. */
  ghost predicate AgentReady(agents: seq<AgentIdentityRecord>, identity: AgentIdentity, target: string) {
    RequireAgent(agents, identity).Pass? && identity.nodeId == target
  }

  predicate TaskReady(task: Task, source: EvidenceSource) {
    task.requiredCapabilities != [] && task.readsFrom != [] && source(task.id).Ok?
  }

  ghost predicate IdsUpTo(tasks: seq<Task>, n: nat)
    requires n <= |tasks|
  {
    forall i, j :: 0 <= i < j < n ==> tasks[i].id != tasks[j].id
  }

  /** The exact condition: at most 90 collect tasks with distinct ids, each equipped and each with evidence. */
  ghost predicate Collectable(
      agents: seq<AgentIdentityRecord>, identity: AgentIdentity, target: string, collectors: seq<Task>,
      source: EvidenceSource)
  {
    collectors != [] ==>
      && AgentReady(agents, identity, target)
      && |collectors| <= 90
      && IdsUpTo(collectors, |collectors|)
      && forall i :: 0 <= i < |collectors| ==> TaskReady(collectors[i], source)
  }

  /** The plane after the first `n` collect tasks have gone through. */
  ghost predicate Collected(
      s: PlaneState, agents: seq<AgentIdentityRecord>, runId: string, target: string, collectors: seq<Task>, n: nat,
      source: EvidenceSource)
    requires n <= |collectors|
  {
    && s.agents == agents && s.pending == []
    && |s.pulled| == n && |s.nonces| == n && |s.results| == n
    && (n > 0 ==> n <= 90)
    && IdsUpTo(collectors, n)
    && (forall i :: 0 <= i < n ==>
          && TaskReady(collectors[i], source)
          && s.pulled[i].envelope == EnvelopeFor(runId, target, collectors[i])
          && s.nonces[i] == "nonce-demo-" + collectors[i].id
          && s.results[i] == ResultFor(EnvelopeFor(runId, target, collectors[i]), source(collectors[i].id).value))
  }

  lemma PrefixedDistinct(prefix: string, a: string, b: string)
    requires a != b
    ensures prefix + a != prefix + b
  {
    assert (prefix + a)[|prefix|..] == a && (prefix + b)[|prefix|..] == b;
  }

  /** Pulling right after queueing one task into an empty queue. */
  lemma PullFresh(s: PlaneState, identity: AgentIdentity, queued: PendingAgentTask, now: nat)
    requires s.pending == []
    ensures var (s', r) := Pull(Enqueue(s, queued), identity, now);
            && (r.Ok? <==> RequireAgent(s.agents, identity).Pass? && queued.envelope.nodeId == identity.nodeId
                           && now < queued.envelope.expiresAt)
            && (r.Ok? ==> r.value == queued && s' == s.(pulled := s.pulled + [queued], ledger := s'.ledger))
  {
    var s1 := Enqueue(s, queued);
    assert s1.pending == [queued];
    assert ForNode(identity.nodeId)(queued) <==> queued.envelope.nodeId == identity.nodeId;
    if queued.envelope.nodeId == identity.nodeId {
      PositionUnique(s1.pending, ForNode(identity.nodeId), 0);
      assert RemoveAt(s1.pending, 0) == [];
    }
  }

  /** The freshly pulled task is the first with its envelope id exactly because its task id is new. */
  lemma FirstEnvelope(pulled: seq<PendingAgentTask>, envelopeId: string)
    requires pulled != [] && pulled[|pulled| - 1].envelope.envelopeId == envelopeId
    requires forall i :: 0 <= i < |pulled| - 1 ==> pulled[i].envelope.envelopeId != envelopeId
    ensures Position(pulled, WithEnvelope(envelopeId)) == Some(|pulled| - 1)
  {
    PositionUnique(pulled, WithEnvelope(envelopeId), |pulled| - 1);
  }

  ghost predicate IsNew(collectors: seq<Task>, n: nat)
    requires n < |collectors|
  {
    forall i :: 0 <= i < n ==> collectors[i].id != collectors[n].id
  }

  /** Submitting the result of the task just pulled is accepted exactly when its id is new and time has not run out. */
  lemma SubmitFresh(
      s: PlaneState, agents: seq<AgentIdentityRecord>, runId: string, target: string, collectors: seq<Task>, n: nat,
      source: EvidenceSource, identity: AgentIdentity, queued: PendingAgentTask, evidence: EvidenceEnvelope, now: nat)
    requires n < |collectors| && Collected(s, agents, runId, target, collectors, n, source)
    requires AgentReady(agents, identity, target)
    requires queued.envelope == EnvelopeFor(runId, target, collectors[n])
    ensures var s1 := s.(pulled := s.pulled + [queued]);
            var submission := ResultFor(queued.envelope, evidence);
            var (s', r) := Submit(s1, identity, submission, now);
            && (r.Pass? <==> IsNew(collectors, n) && now < 200)
            && (r.Pass? ==> s' == s1.(nonces := s.nonces + [submission.nonce], results := s.results + [submission],
                                      ledger := s'.ledger))
  {
    var s1 := s.(pulled := s.pulled + [queued]);
    var submission := ResultFor(queued.envelope, evidence);
    if IsNew(collectors, n) {
      forall i | 0 <= i < n
        ensures s.nonces[i] != submission.nonce && s1.pulled[i].envelope.envelopeId != submission.envelopeId
      {
        PrefixedDistinct("nonce-demo-", collectors[i].id, collectors[n].id);
        PrefixedDistinct("env-demo-", collectors[i].id, collectors[n].id);
      }
      FirstEnvelope(s1.pulled, submission.envelopeId);
    } else {
      var i :| 0 <= i < n && collectors[i].id == collectors[n].id;
      assert s.nonces[i] == submission.nonce;
    }
  }

  /** The agent, equipment, evidence, time and id conditions of one more task. */
  ghost predicate StepReady(
      agents: seq<AgentIdentityRecord>, identity: AgentIdentity, target: string, collectors: seq<Task>, n: nat,
      source: EvidenceSource)
    requires n < |collectors|
  {
    AgentReady(agents, identity, target) && TaskReady(collectors[n], source) && IsNew(collectors, n) && n < 90
  }

  lemma StepExact(
      s: PlaneState, agents: seq<AgentIdentityRecord>, runId: string, target: string, collectors: seq<Task>, n: nat,
      source: EvidenceSource, identity: AgentIdentity)
    requires n < |collectors| && Collected(s, agents, runId, target, collectors, n, source)
    ensures var (s', r) := CollectStep(s, identity, runId, target, collectors[n], n, source);
            && (r.Pass? <==> StepReady(agents, identity, target, collectors, n, source))
            && (r.Pass? ==> Collected(s', agents, runId, target, collectors, n + 1, source))
  {
    hide Submit, Pull, Log;
    var task := collectors[n];
    if task.requiredCapabilities != [] && task.readsFrom != [] {
      var queued := QueuedFor(runId, target, task).value;
      PullFresh(s, identity, queued, 101 + n);
      var (s1, pulled) := Pull(Enqueue(s, queued), identity, 101 + n);
      if pulled.Ok? && source(task.id).Ok? {
        var t := s.(ledger := s1.ledger);
        assert s1 == t.(pulled := t.pulled + [queued]);
        assert Collected(t, agents, runId, target, collectors, n, source);
        SubmitFresh(t, agents, runId, target, collectors, n, source, identity, queued, source(task.id).value, 110 + n);
        var (s2, submitted) := Submit(s1, identity, ResultFor(queued.envelope, source(task.id).value), 110 + n);
        var (s', r) := CollectStep(s, identity, runId, target, collectors[n], n, source);
        assert s' == s2 && r.Pass? == submitted.Pass?;
        assert r.Pass? ==> IdsUpTo(collectors, n + 1);
      }
    }
  }

  lemma {:induction false} AcceptedEvidenceExact(
      results: seq<AgentResultSubmission>, runId: string, evidence: seq<EvidenceEnvelope>)
    requires |results| == |evidence|
    requires forall i :: 0 <= i < |results| ==>
      OfRunSucceeded(runId, results[i]) && results[i].evidence == [evidence[i]]
    ensures AcceptedEvidence(results, runId) == evidence
  {
    var p := (r: AgentResultSubmission) => OfRunSucceeded(runId, r);
    var f := (r: AgentResultSubmission) => r.evidence;
    FilterAll(results, p);
    GatherSingles(results, evidence, f);
    assert AcceptedEvidence(results, runId) == Gather(Filter(results, p), f);
  }

  lemma {:induction false} GatherSingles<T, U>(s: seq<T>, us: seq<U>, f: T -> seq<U>)
    requires |s| == |us| && forall i :: 0 <= i < |s| ==> f(s[i]) == [us[i]]
    ensures Gather(s, f) == us
  {
    if s != [] {
      GatherSingles(s[..|s| - 1], us[..|us| - 1], f);
    }
  }

  /** One pass of the evidence loop on the plane. */
  method CollectOne(
      plane: ControlPlane, identity: AgentIdentity, runId: string, target: string, task: Task, index: nat,
      source: EvidenceSource)
    returns (r: Outcome<E2eError>)
    requires plane.Valid()
    modifies plane, plane.ledger
    ensures plane.Valid()
    ensures (plane.State(), r) == CollectStep(old(plane.State()), identity, runId, target, task, index, source)
  {
    hide Submit, Pull, Inv, Log;
    var queued := QueuedFor(runId, target, task);
    if queued.Err? {
      return Fail(queued.error);
    }
    plane.EnqueueTask(queued.value);
    var pulled := plane.PullTask(identity, 101 + index);
    if pulled.Err? {
      return Fail(PlaneRefused(pulled.error));
    }
    var envelope := pulled.value.envelope;
    if !pulled.value.payload.CollectEvidence? {
      return Fail(NonEvidencePayload(envelope.taskId));
    }
    var evidence := source(envelope.taskId);
    if evidence.Err? {
      return Fail(evidence.error);
    }
    var submitted := plane.SubmitResult(identity, ResultFor(envelope, evidence.value), 110 + index);
    return if submitted.Fail? then Fail(PlaneRefused(submitted.error)) else Pass;
  }

  /** Runs the evidence loop and hands over what the plane has accepted for the run. */
  method CollectEvidenceFor(
      plane: ControlPlane, identity: AgentIdentity, runId: string, target: string, tasks: seq<Task>,
      source: EvidenceSource)
    returns (r: Result<seq<EvidenceEnvelope>, E2eError>)
    requires plane.Valid()
    modifies plane, plane.ledger
    ensures plane.Valid()
    ensures (plane.State(), r) == CollectAll(old(plane.State()), identity, runId, target, Collectors(tasks), source)
  {
    var collectors := Collectors(tasks);
    ghost var start := plane.State();
    hide Inv, CollectStep, Filter;
    for index := 0 to |collectors|
      invariant plane.Valid()
      invariant CollectFrom(plane.State(), identity, runId, target, collectors, index, source)
                == CollectFrom(start, identity, runId, target, collectors, 0, source)
    {
      var step := CollectOne(plane, identity, runId, target, collectors[index], index, source);
      if step.Fail? {
        return Err(step.error);
      }
    }
    var evidence := AcceptedEvidence(plane.acceptedResults, runId);
    if |evidence| != |collectors| {
      return Err(EvidenceCount(|collectors|, |evidence|));
    }
    return Ok(evidence);
  }

  /** The loop passes exactly when every remaining task is collectable, and then everything has gone through. */
  lemma {:induction false} CollectFromExact(
      s: PlaneState, agents: seq<AgentIdentityRecord>, identity: AgentIdentity, runId: string, target: string,
      collectors: seq<Task>, n: nat, source: EvidenceSource)
    requires n <= |collectors| && Collected(s, agents, runId, target, collectors, n, source)
    requires n > 0 ==> AgentReady(agents, identity, target)
    ensures var (s', r) := CollectFrom(s, identity, runId, target, collectors, n, source);
            && (r.Pass? <==> Collectable(agents, identity, target, collectors, source))
            && (r.Pass? ==> Collected(s', agents, runId, target, collectors, |collectors|, source))
    decreases |collectors| - n
  {
    hide CollectStep, Collected, Collectable, StepReady, AgentReady;
    if n == |collectors| {
      AllCollected(s, agents, identity, runId, target, collectors, source);
    } else {
      StepExact(s, agents, runId, target, collectors, n, source, identity);
      var (s', step) := CollectStep(s, identity, runId, target, collectors[n], n, source);
      if step.Fail? {
        FailedStepBlocks(agents, identity, target, collectors, n, source);
      } else {
        PassedStepIsReady(agents, identity, target, collectors, n, source);
        CollectFromExact(s', agents, identity, runId, target, collectors, n + 1, source);
      }
    }
  }

  /**
   On a plane where nothing has been queued or accepted, collecting succeeds exactly under `Collectable` and then
   returns one envelope per collect task, in task order.
   */
  lemma EvidenceLoopExact(
      s: PlaneState, identity: AgentIdentity, runId: string, target: string, collectors: seq<Task>,
      source: EvidenceSource)
    requires s.pending == [] && s.pulled == [] && s.results == [] && ResultsSound(s)
    ensures var r := CollectAll(s, identity, runId, target, collectors, source).1;
            && (r.Ok? <==> Collectable(s.agents, identity, target, collectors, source))
            && (r.Ok? ==> |r.value| == |collectors|)
            && (r.Ok? ==> forall i :: 0 <= i < |collectors| ==> source(collectors[i].id) == Ok(r.value[i]))
  {
    NothingCollected(s, runId, target, collectors, source);
    hide CollectFrom, Collected, Collectable, AgentReady, AcceptedEvidence;
    CollectFromExact(s, s.agents, identity, runId, target, collectors, 0, source);
    var (s', step) := CollectFrom(s, identity, runId, target, collectors, 0, source);
    if step.Pass? {
      if collectors != [] {
        CollectableIsReady(s.agents, identity, target, collectors, source);
      }
      AllCollected(s', s.agents, identity, runId, target, collectors, source);
    }
  }

  lemma CollectableIsReady(
      agents: seq<AgentIdentityRecord>, identity: AgentIdentity, target: string, collectors: seq<Task>,
      source: EvidenceSource)
    requires Collectable(agents, identity, target, collectors, source) && collectors != []
    ensures AgentReady(agents, identity, target)
  {}

  lemma NothingCollected(
      s: PlaneState, runId: string, target: string, collectors: seq<Task>, source: EvidenceSource)
    requires s.pending == [] && s.pulled == [] && s.results == [] && ResultsSound(s)
    ensures Collected(s, s.agents, runId, target, collectors, 0, source)
  {}

  /** When every collect task has gone through, the condition held and the evidence is complete and in order. */
  lemma AllCollected(
      s: PlaneState, agents: seq<AgentIdentityRecord>, identity: AgentIdentity, runId: string, target: string,
      collectors: seq<Task>, source: EvidenceSource)
    requires Collected(s, agents, runId, target, collectors, |collectors|, source)
    requires collectors != [] ==> AgentReady(agents, identity, target)
    ensures Collectable(agents, identity, target, collectors, source)
    ensures |AcceptedEvidence(s.results, runId)| == |collectors|
    ensures forall i :: 0 <= i < |collectors| ==> source(collectors[i].id) == Ok(AcceptedEvidence(s.results, runId)[i])
  {
    hide Filter, Gather;
    var expected := seq(|collectors|, i requires 0 <= i < |collectors| && source(collectors[i].id).Ok? =>
      source(collectors[i].id).value);
    AcceptedEvidenceExact(s.results, runId, expected);
  }

  lemma FailedStepBlocks(
      agents: seq<AgentIdentityRecord>, identity: AgentIdentity, target: string, collectors: seq<Task>, n: nat,
      source: EvidenceSource)
    requires n < |collectors| && !StepReady(agents, identity, target, collectors, n, source)
    ensures !Collectable(agents, identity, target, collectors, source)
  {}

  lemma PassedStepIsReady(
      agents: seq<AgentIdentityRecord>, identity: AgentIdentity, target: string, collectors: seq<Task>, n: nat,
      source: EvidenceSource)
    requires n < |collectors| && StepReady(agents, identity, target, collectors, n, source)
    ensures AgentReady(agents, identity, target)
  {}
}
