/** A whole journey, from enrolled agents to the operator receipt, and exactly when it succeeds. */
module JourneyRuns {
  import opened Wrappers
  import opened Seqs
  import opened Domain
  import opened Ledger
  import opened Receipt
  import opened ReceiptProofs
  import opened Verification
  import opened E2e
  import opened Journey
  import opened ControlPlanes
  import Analyzer
  import Approval
  import Helper
  import Runtime
  import RuntimeRuns

  /** What a journey is told from outside: the ids, the operator's terms, and the helper's surroundings. */
  datatype JourneyTerms = JourneyTerms(
    runId: string,
    incidentId: string,
    node: string,
    runbook: string,
    mutatorId: string,
    actionId: string,
    action: ActionKind,
    approvalId: string,
    subject: string,
    allowlistEntryId: string,
    leaseNonce: string,
    helperNode: string,
    helperSubject: string,
    helperEntryId: string,
    argument: Helper.HelperArgument,
    receiptId: string)

  type Proposer = seq<EvidenceEnvelope> -> Analyzer.StructuredProposal

  // ----- The steps -----

  /** Asks a fresh store for approval and has it granted; an action that was not proposed cannot be asked for. */
  function Authorise(t: JourneyTerms, proposal: Analyzer.StructuredProposal, task: Task)
    : Result<(seq<AuditEvent>, CapabilityLeaseClaims), E2eError>
  {
    if Approval.ActionOf(proposal, t.actionId).None? then Err(ActionNotProposed(t.actionId))
    else
      var record := Approval.NewApproval(
        t.approvalId, t.runId, proposal, t.actionId, System, t.subject, task.impact, task.verification, 120, 200);
      var (store, approved) := Approval.Approve(
        Approval.Request(Approval.EMPTY_STORE, record), t.approvalId, t.actionId, "operator", 150, t.allowlistEntryId,
        t.leaseNonce);
      match approved
      case Err(error) => Err(ApprovalRefused(error))
      case Ok(claims) => Ok((store.ledger, claims))
  }

  function SignedLeaseOf(claims: CapabilityLeaseClaims): Helper.SignedCapabilityLease {
    Helper.SignedCapabilityLease(claims, "demo-key", "demo-signature")
  }

  function RequestOf(t: JourneyTerms, claims: CapabilityLeaseClaims): Helper.HelperActionRequest {
    Helper.HelperActionRequest(
      claims.leaseId, t.action, ActionTarget(claims.target.resourceId, t.helperSubject), [t.argument])
  }

  function ContextOf(t: JourneyTerms, claims: CapabilityLeaseClaims): Helper.HelperValidationContext {
    Helper.HelperValidationContext(
      t.helperNode, 150, Helper.SignatureValid, [],
      [Helper.HelperAllowlistEntry(t.helperEntryId, t.action, claims.target.resourceId)])
  }

  /** The approved action, once the helper has accepted it. */
  function CarriedOut(t: JourneyTerms, proposal: Analyzer.StructuredProposal, task: Task)
    : Result<(seq<AuditEvent>, CapabilityLeaseClaims), E2eError>
  {
    match Authorise(t, proposal, task)
    case Err(error) => Err(error)
    case Ok((approvals, claims)) =>
      match Helper.ValidateHelperRequest(RequestOf(t, claims), SignedLeaseOf(claims), ContextOf(t, claims))
      case Err(rejection) => Err(HelperRefused(rejection))
      case Ok(_) => Ok((approvals, claims))
  }

  /** What a journey has found out when it has a valid proposal. */
  datatype Finding = Finding(
    planeKinds: seq<AuditEventKind>, sources: seq<string>, proposal: Analyzer.StructuredProposal)

  /** Gathers evidence from the node's agent and has a valid proposal drawn from it. */
  function FindingOf(
      t: JourneyTerms, s: Runtime.PlaneState, tasks: seq<Task>, source: EvidenceSource, propose: Proposer,
      policy: Analyzer.ProposalPolicy)
    : Result<Finding, E2eError>
  {
    var agent := Runtime.FirstAgent(s.agents, t.node);
    if agent.None? then Err(AgentMissing(t.node))
    else
      var identity := AgentIdentity(agent.value.nodeId, agent.value.certificateFingerprint);
      var (plane, collected) := CollectAll(s, identity, t.runId, t.node, Collectors(tasks), source);
      match collected
      case Err(error) => Err(error)
      case Ok(evidence) =>
        var proposal := propose(evidence);
        match Analyzer.ValidationOf(proposal, policy)
        case Fail(fault) => Err(ProposalRefused(fault))
        case Pass => Ok(Finding(PayloadsOf(plane.ledger), Analyzer.Sources(evidence), proposal))
  }

  /** Everything a journey learns and does, up to its receipt. */
  function StoryOf(
      t: JourneyTerms, s: Runtime.PlaneState, tasks: seq<Task>, source: EvidenceSource, propose: Proposer,
      policy: Analyzer.ProposalPolicy)
    : Result<Story, E2eError>
  {
    match FindingOf(t, s, tasks, source, propose, policy)
    case Err(error) => Err(error)
    case Ok(finding) =>
      match Find(tasks, (x: Task) => x.id == t.mutatorId)
      case None => Err(TaskMissing(t.mutatorId))
      case Some(task) =>
        match CarriedOut(t, finding.proposal, task)
        case Err(error) => Err(error)
        case Ok((approvals, claims)) =>
          Ok(Story(
               t.incidentId, t.node, t.runbook, finding.planeKinds, finding.sources, finding.proposal.id,
               finding.proposal.hypothesis, PayloadsOf(approvals), claims, t.action, t.helperSubject, HelperSucceeded,
               JourneyPlan(t.action, task.impact, task.verification.skipped)))
  }

  function KindsOf(story: Story): seq<AuditEventKind> {
    Diagnosis(story) + Authority(story) + Verified(story)
  }

  /** The whole journey: its ledger and its receipt. */
  function WholeJourney(
      t: JourneyTerms, s: Runtime.PlaneState, tasks: seq<Task>, source: EvidenceSource, propose: Proposer,
      policy: Analyzer.ProposalPolicy)
    : Result<(seq<AuditEvent>, OperatorReceipt), E2eError>
  {
    match StoryOf(t, s, tasks, source, propose, policy)
    case Err(error) => Err(error)
    case Ok(story) =>
      var events := RecordAll([], t.runId, KindsOf(story));
      match ReceiptFor(t.runId, events)
      case Err(error) => Err(ReceiptRefused(error))
      case Ok(receipt) =>
        Ok((Recorded(events, "e2e", t.runId, CognitiveReceiptGenerated(t.receiptId)), receipt))
  }

  // ----- The steps on the run's ledger -----

  lemma {:induction false} RecordAllConcat(
      events: seq<AuditEvent>, runId: string, a: seq<AuditEventKind>, b: seq<AuditEventKind>)
    ensures RecordAll(RecordAll(events, runId, a), runId, b) == RecordAll(events, runId, a + b)
  {
    hide Recorded;
    if b == [] {
      assert a + b == a;
    } else {
      var rest := b[..|b| - 1];
      RecordAllConcat(events, runId, a, rest);
      assert (a + b)[..|a + b| - 1] == a + rest;
    }
  }

  lemma RecordAllOne(events: seq<AuditEvent>, runId: string, a: seq<AuditEventKind>, k: AuditEventKind)
    ensures Recorded(RecordAll(events, runId, a), "e2e", runId, k) == RecordAll(events, runId, a + [k])
  {
    RecordAllAppend(events, runId, a, k);
  }

  /** Copies what the plane recorded, and then records the evidence by its source. */
  method AppendObservedEvidence(
      ledger: AuditLedger, runId: string, planeEvents: seq<AuditEvent>, evidence: seq<EvidenceEnvelope>)
    requires ledger.Valid()
    modifies ledger
    ensures ledger.Valid()
    ensures ledger.events
            == RecordAll(old(ledger.events), runId, PayloadsOf(planeEvents) + EvidenceKinds(Analyzer.Sources(evidence)))
  {
    hide RecordAll, PayloadsOf, EvidenceKinds, Analyzer.Sources;
    AppendRuntimeEvents(ledger, runId, planeEvents);
    ghost var copied := PayloadsOf(planeEvents);
    NoSources();
    for n := 0 to |evidence|
      invariant ledger.Valid()
      invariant ledger.events
                == RecordAll(old(ledger.events), runId, copied + EvidenceKinds(Analyzer.Sources(evidence[..n])))
    {
      AppendKind(ledger, runId, EvidenceRecorded(evidence[n].source));
      RecordAllOne(
        old(ledger.events), runId, copied + EvidenceKinds(Analyzer.Sources(evidence[..n])),
        EvidenceRecorded(evidence[n].source));
      OneMoreSource(evidence, n);
      assert copied + EvidenceKinds(Analyzer.Sources(evidence[..n + 1]))
          == (copied + EvidenceKinds(Analyzer.Sources(evidence[..n]))) + [EvidenceRecorded(evidence[n].source)];
    }
    assert evidence[..|evidence|] == evidence;
  }

  lemma NoSources()
    ensures forall kinds: seq<AuditEventKind>, evidence: seq<EvidenceEnvelope> ::
              kinds + EvidenceKinds(Analyzer.Sources(evidence[..0])) == kinds
  {}

  lemma OneMoreSource(evidence: seq<EvidenceEnvelope>, n: nat)
    requires n < |evidence|
    ensures EvidenceKinds(Analyzer.Sources(evidence[..n + 1]))
            == EvidenceKinds(Analyzer.Sources(evidence[..n])) + [EvidenceRecorded(evidence[n].source)]
  {}

  function LeaseKinds(claims: CapabilityLeaseClaims): seq<AuditEventKind> {
    [CapabilityLeaseIssued(claims.leaseId, claims.approvalId),
     ResourceLeaseGranted(claims.leaseId, claims.target.resourceId, Exclusive)]
  }

  /** Asks a fresh store, copies its events, and records the lease. */
  method ApproveActionFor(ledger: AuditLedger, t: JourneyTerms, proposal: Analyzer.StructuredProposal, task: Task)
    returns (r: Result<CapabilityLeaseClaims, E2eError>)
    requires ledger.Valid()
    modifies ledger
    ensures ledger.Valid()
    ensures match Authorise(t, proposal, task)
            case Err(error) => r == Err(error)
            case Ok((approvals, claims)) =>
              && r == Ok(claims)
              && ledger.events == RecordAll(old(ledger.events), t.runId, PayloadsOf(approvals) + LeaseKinds(claims))
  {
    hide Approval.NewApproval, Approval.ActionOf, Approval.Approve, Approval.Request, RecordAll, PayloadsOf;
    if Approval.ActionOf(proposal, t.actionId).None? {
      return Err(ActionNotProposed(t.actionId));
    }
    var store := new Approval.ApprovalStore();
    var record := Approval.NewApproval(
      t.approvalId, t.runId, proposal, t.actionId, System, t.subject, task.impact, task.verification, 120, 200);
    var requested := store.RequestApproval(record);
    var approved := store.ApproveAction(
      t.approvalId, t.actionId, "operator", 150, t.allowlistEntryId, t.leaseNonce);
    if approved.Err? {
      return Err(ApprovalRefused(approved.error));
    }
    var claims := approved.value;
    ghost var copied := PayloadsOf(store.ledger.events);
    AppendRuntimeEvents(ledger, t.runId, store.ledger.events);
    AppendKind(ledger, t.runId, LeaseKinds(claims)[0]);
    RecordAllOne(old(ledger.events), t.runId, copied, LeaseKinds(claims)[0]);
    AppendKind(ledger, t.runId, LeaseKinds(claims)[1]);
    RecordAllOne(old(ledger.events), t.runId, copied + [LeaseKinds(claims)[0]], LeaseKinds(claims)[1]);
    assert copied + [LeaseKinds(claims)[0]] + [LeaseKinds(claims)[1]] == copied + LeaseKinds(claims);
    return Ok(claims);
  }

  /** What approving and acting record. */
  function ActedKinds(t: JourneyTerms, approvals: seq<AuditEvent>, claims: CapabilityLeaseClaims): seq<AuditEventKind> {
    PayloadsOf(approvals) + LeaseKinds(claims)
    + [ActionResult(t.action, ActionTarget(claims.target.resourceId, t.helperSubject), HelperSucceeded)]
  }

  /** Has the action approved and accepted by the helper, and records all of it. */
  method CarryOut(
      ledger: AuditLedger, t: JourneyTerms, proposal: Analyzer.StructuredProposal, task: Task,
      ghost before: seq<AuditEventKind>)
    returns (r: Result<CapabilityLeaseClaims, E2eError>)
    requires ledger.Valid() && ledger.events == RecordAll([], t.runId, before)
    modifies ledger
    ensures ledger.Valid()
    ensures match CarriedOut(t, proposal, task)
            case Err(error) => r == Err(error)
            case Ok((approvals, claims)) =>
              && r == Ok(claims)
              && ledger.events == RecordAll([], t.runId, before + ActedKinds(t, approvals, claims))
  {
    hide Authorise, Helper.ValidateHelperRequest, RequestOf, SignedLeaseOf, ContextOf, RecordAll, PayloadsOf,
      LeaseKinds;
    var approved := ApproveActionFor(ledger, t, proposal, task);
    if approved.Err? {
      return Err(approved.error);
    }
    var claims := approved.value;
    var validated := Helper.ValidateHelperRequest(RequestOf(t, claims), SignedLeaseOf(claims), ContextOf(t, claims));
    if validated.Err? {
      return Err(HelperRefused(validated.error));
    }
    ghost var authorised := PayloadsOf(Authorise(t, proposal, task).value.0) + LeaseKinds(claims);
    RecordAllConcat([], t.runId, before, authorised);
    var acted := ActionResult(t.action, ActionTarget(claims.target.resourceId, t.helperSubject), HelperSucceeded);
    AppendKind(ledger, t.runId, acted);
    RecordAllOne([], t.runId, before + authorised, acted);
    assert (before + authorised) + [acted] == before + (authorised + [acted]);
    return Ok(claims);
  }

  lemma KindsInOrder(t: JourneyTerms, story: Story, finding: Finding, approvals: seq<AuditEvent>)
    requires story.approvalKinds == PayloadsOf(approvals) && story.action == t.action
    requires story.subject == t.helperSubject && story.status == HelperSucceeded
    requires story.incidentId == t.incidentId && story.nodeId == t.node && story.runbook == t.runbook
    requires story.planeKinds == finding.planeKinds && story.sources == finding.sources
    requires story.proposalId == finding.proposal.id && story.hypothesis == finding.proposal.hypothesis
    ensures KindsOf(story)
            == FindingKinds(t, finding) + ActedKinds(t, approvals, story.claims) + VerifiedKinds(story.plan)
  {
    hide PayloadsOf, EvidenceKinds, VerifiedKinds;
  }

  /** Records the verification of an action as the story of the journey tells it. */
  method RecordVerificationOf(
      ledger: AuditLedger, runId: string, action: ActionKind, task: Task, ghost before: seq<AuditEventKind>)
    requires ledger.Valid() && ledger.events == RecordAll([], runId, before)
    modifies ledger
    ensures ledger.Valid()
    ensures ledger.events
            == RecordAll([], runId, before + VerifiedKinds(JourneyPlan(action, task.impact, task.verification.skipped)))
  {
    hide RecordAll, Plan, CompletedKinds, SkippedKinds;
    RecordVerification(ledger, runId, action, task.impact, task.verification.skipped);
    ghost var plan := JourneyPlan(action, task.impact, task.verification.skipped);
    ghost var a, b := [VerificationSelected(plan)], CompletedKinds(plan.required);
    RecordAllOne([], runId, before, VerificationSelected(plan));
    RecordAllConcat([], runId, before + a, b);
    RecordAllConcat([], runId, before + a + b, SkippedKinds(plan.skipped));
    assert before + a + b + SkippedKinds(plan.skipped) == before + VerifiedKinds(plan);
  }

  function FindingKinds(t: JourneyTerms, finding: Finding): seq<AuditEventKind> {
    [IncidentCreated(t.incidentId, t.node, t.runbook)] + (finding.planeKinds + EvidenceKinds(finding.sources))
    + [ProposalRecorded(finding.proposal.id, finding.proposal.hypothesis)]
  }

  /** Opens the run's ledger with the incident and records everything up to the proposal. */
  method FindOut(
      ledger: AuditLedger, plane: ControlPlane, t: JourneyTerms, tasks: seq<Task>, source: EvidenceSource,
      propose: Proposer, policy: Analyzer.ProposalPolicy)
    returns (r: Result<Analyzer.StructuredProposal, E2eError>)
    requires plane.Valid() && ledger.Valid() && ledger.events == [] && ledger != plane.ledger
    modifies plane, plane.ledger, ledger
    ensures plane.Valid() && ledger.Valid()
    ensures match FindingOf(t, old(plane.State()), tasks, source, propose, policy)
            case Err(error) => r == Err(error)
            case Ok(finding) =>
              r == Ok(finding.proposal) && ledger.events == RecordAll([], t.runId, FindingKinds(t, finding))
  {
    hide CollectAll, Collectors, Analyzer.ValidationOf, Runtime.FirstAgent, PayloadsOf, Analyzer.Sources, RecordAll,
      EvidenceKinds;
    AppendKind(ledger, t.runId, IncidentCreated(t.incidentId, t.node, t.runbook));
    ghost var incident := [IncidentCreated(t.incidentId, t.node, t.runbook)];
    OpenedLedger(t.runId, incident[0]);
    var agent := Runtime.FirstAgent(plane.agents, t.node);
    if agent.None? {
      return Err(AgentMissing(t.node));
    }
    var identity := AgentIdentity(agent.value.nodeId, agent.value.certificateFingerprint);
    var collected := CollectEvidenceFor(plane, identity, t.runId, t.node, tasks, source);
    if collected.Err? {
      return Err(collected.error);
    }
    AppendObservedEvidence(ledger, t.runId, plane.ledger.events, collected.value);
    ghost var observed := PayloadsOf(plane.ledger.events) + EvidenceKinds(Analyzer.Sources(collected.value));
    RecordAllConcat([], t.runId, incident, observed);
    var proposal := propose(collected.value);
    var valid := Analyzer.ValidateProposal(proposal, policy);
    if valid.Fail? {
      return Err(ProposalRefused(valid.error));
    }
    AppendKind(ledger, t.runId, ProposalRecorded(proposal.id, proposal.hypothesis));
    RecordAllOne([], t.runId, incident + observed, ProposalRecorded(proposal.id, proposal.hypothesis));
    return Ok(proposal);
  }

  /** Drives the plane, a fresh ledger and a fresh approval store through the whole journey. */
  method RunJourney(
      plane: ControlPlane, t: JourneyTerms, tasks: seq<Task>, source: EvidenceSource, propose: Proposer,
      policy: Analyzer.ProposalPolicy)
    returns (r: Result<(seq<AuditEvent>, OperatorReceipt), E2eError>)
    requires plane.Valid()
    modifies plane, plane.ledger
    ensures plane.Valid()
    ensures r == WholeJourney(t, old(plane.State()), tasks, source, propose, policy)
  {
    hide FindingOf, CarriedOut, JourneyPlan, PayloadsOf, RecordAll, VerifiedKinds, ReceiptFor, FindingKinds, ActedKinds;
    var ledger := new AuditLedger();
    var proposal := FindOut(ledger, plane, t, tasks, source, propose, policy);
    if proposal.Err? {
      return Err(proposal.error);
    }
    ghost var finding := FindingOf(t, old(plane.State()), tasks, source, propose, policy).value;
    var task := Find(tasks, (x: Task) => x.id == t.mutatorId);
    if task.None? {
      return Err(TaskMissing(t.mutatorId));
    }
    var carried := CarryOut(ledger, t, proposal.value, task.value, FindingKinds(t, finding));
    if carried.Err? {
      return Err(carried.error);
    }
    ghost var approvals := CarriedOut(t, proposal.value, task.value).value.0;
    RecordVerificationOf(
      ledger, t.runId, t.action, task.value, FindingKinds(t, finding) + ActedKinds(t, approvals, carried.value));
    ghost var story := StoryOf(t, old(plane.State()), tasks, source, propose, policy).value;
    KindsInOrder(t, story, finding, approvals);
    var receipt := FinishReceipt(ledger, t.runId, t.receiptId);
    if receipt.Err? {
      return Err(receipt.error);
    }
    return Ok((ledger.events, receipt.value));
  }

  lemma OpenedLedger(runId: string, k: AuditEventKind)
    ensures Recorded([], "e2e", runId, k) == RecordAll([], runId, [k])
  {
    RecordAllOne([], runId, [], k);
    assert [] + [k] == [k];
  }

  // ----- What a journey's receipt says -----

  /** The evidence loop records nothing that weighs in a receipt. */
  lemma {:induction false} CollectingIsSilent(
      s: Runtime.PlaneState, identity: AgentIdentity, runId: string, target: string, collectors: seq<Task>, n: nat,
      source: EvidenceSource)
    requires n <= |collectors| && forall k :: k in PayloadsOf(s.ledger) ==> Silent(k)
    ensures var s' := CollectFrom(s, identity, runId, target, collectors, n, source).0;
            forall k :: k in PayloadsOf(s'.ledger) ==> Silent(k)
    decreases |collectors| - n
  {
    hide CollectStep, Silent, PayloadsOf;
    if n < |collectors| {
      StepCollectsSilently(s, identity, runId, target, collectors[n], n, source);
      var (s', step) := CollectStep(s, identity, runId, target, collectors[n], n, source);
      if step.Pass? {
        CollectingIsSilent(s', identity, runId, target, collectors, n + 1, source);
      }
    }
  }

  lemma StepCollectsSilently(
      s: Runtime.PlaneState, identity: AgentIdentity, runId: string, target: string, task: Task, index: nat,
      source: EvidenceSource)
    requires forall k :: k in PayloadsOf(s.ledger) ==> Silent(k)
    ensures var s' := CollectStep(s, identity, runId, target, task, index, source).0;
            forall k :: k in PayloadsOf(s'.ledger) ==> Silent(k)
  {
    hide Runtime.Pull, Runtime.Submit, Silent, PayloadsOf;
    if QueuedFor(runId, target, task).Ok? {
      var queued := QueuedFor(runId, target, task).value;
      var s1 := Runtime.Enqueue(s, queued);
      StepIsSilent(s, RuntimeRuns.CallEnqueue(queued));
      StepIsSilent(s1, RuntimeRuns.CallPull(identity, 101 + index));
      var (s2, pulled) := Runtime.Pull(s1, identity, 101 + index);
      if pulled.Ok? && source(pulled.value.envelope.taskId).Ok? {
        var submission := ResultFor(pulled.value.envelope, source(pulled.value.envelope.taskId).value);
        StepIsSilent(s2, RuntimeRuns.CallSubmit(identity, submission, 110 + index));
      }
    }
  }

  /** An approval that was granted is the last thing its store has recorded, and belongs to the claims. */
  lemma AuthorisedEndsApproved(t: JourneyTerms, proposal: Analyzer.StructuredProposal, task: Task)
    requires Authorise(t, proposal, task).Ok?
    ensures var (approvals, claims) := Authorise(t, proposal, task).value;
            EndsApproved(PayloadsOf(approvals), claims.approvalId)
  {
    hide Approval.Approve, Approval.Request, Approval.NewApproval, Approval.ActionOf;
    var record := Approval.NewApproval(
      t.approvalId, t.runId, proposal, t.actionId, System, t.subject, task.impact, task.verification, 120, 200);
    ApprovalEvents(record, "operator", 150, t.allowlistEntryId, t.leaseNonce);
  }

  /** What is known of every story that a journey on an enrolled plane gets to tell. */
  ghost predicate SoundStory(t: JourneyTerms, story: Story) {
    && EndsApproved(story.approvalKinds, story.claims.approvalId)
    && (forall k :: k in story.planeKinds ==> Silent(k))
    && story.plan.required != []
    && story.incidentId == t.incidentId && story.nodeId == t.node && story.action == t.action
  }

  lemma StoryIsSound(
      t: JourneyTerms, enrolment: seq<RuntimeRuns.Call>, tasks: seq<Task>, source: EvidenceSource, propose: Proposer,
      policy: Analyzer.ProposalPolicy)
    requires StoryOf(t, RuntimeRuns.After(Runtime.EMPTY_PLANE, enrolment), tasks, source, propose, policy).Ok?
    ensures SoundStory(
              t, StoryOf(t, RuntimeRuns.After(Runtime.EMPTY_PLANE, enrolment), tasks, source, propose, policy).value)
  {
    hide CollectFrom, Collectors, Authorise, Plan, Silent, PayloadsOf, EndsApproved, RuntimeRuns.After,
      Runtime.FirstAgent, Helper.ValidateHelperRequest, Analyzer.ValidationOf, AcceptedEvidence;
    var s := RuntimeRuns.After(Runtime.EMPTY_PLANE, enrolment);
    var agent := Runtime.FirstAgent(s.agents, t.node).value;
    var identity := AgentIdentity(agent.nodeId, agent.certificateFingerprint);
    PlaneIsSilent(enrolment);
    CollectingIsSilent(s, identity, t.runId, t.node, Collectors(tasks), 0, source);
    var collected := CollectAll(s, identity, t.runId, t.node, Collectors(tasks), source).1.value;
    var task := Find(tasks, (x: Task) => x.id == t.mutatorId).value;
    AuthorisedEndsApproved(t, propose(collected), task);
    JourneyPlanRequires(t.action, task.impact, task.verification.skipped);
  }

  lemma JourneyPlanRequires(action: ActionKind, impact: ImpactSet, skipped: seq<SkippedVerification>)
    ensures JourneyPlan(action, impact, skipped).required != []
  {
    PlansAreCoherent(MINIMAL_POLICY, action, impact);
    hide Plan;
  }

  /** The run's ledger tells the story and nothing else. */
  lemma StoryIsRecorded(runId: string, story: Story)
    ensures Kinds(runId, RecordAll([], runId, KindsOf(story))) == KindsOf(story)
  {
    RecordedKinds([], runId, KindsOf(story), runId);
    NoKinds(runId);
    hide KindsOf, RecordAll, Kinds;
  }

  lemma NoKinds(runId: string)
    ensures Kinds(runId, []) == []
  {}

  /**
   A journey that gets to tell its story ends in a receipt exactly when evidence was gathered; the receipt tells the
   story, and the final ledger, which records the receipt as well, still yields it.
   */
  lemma JourneyEndsInReceipt(
      t: JourneyTerms, enrolment: seq<RuntimeRuns.Call>, tasks: seq<Task>, source: EvidenceSource, propose: Proposer,
      policy: Analyzer.ProposalPolicy)
    requires StoryOf(t, RuntimeRuns.After(Runtime.EMPTY_PLANE, enrolment), tasks, source, propose, policy).Ok?
    ensures var s := RuntimeRuns.After(Runtime.EMPTY_PLANE, enrolment);
            var story := StoryOf(t, s, tasks, source, propose, policy).value;
            var r := WholeJourney(t, s, tasks, source, propose, policy);
            && (r.Ok? <==> story.sources != [])
            && (r.Ok? ==> Tells(r.value.1, t.runId, story) && ReceiptFor(t.runId, r.value.0) == Ok(r.value.1))
  {
    hide StoryOf, KindsOf, ReceiptFor, RuntimeRuns.After, Silent, EndsApproved, Tells, RecordAll;
    var s := RuntimeRuns.After(Runtime.EMPTY_PLANE, enrolment);
    var story := StoryOf(t, s, tasks, source, propose, policy).value;
    var events := RecordAll([], t.runId, KindsOf(story));
    StoryIsSound(t, enrolment, tasks, source, propose, policy);
    StoryIsRecorded(t.runId, story);
    KindsAreStory(story);
    StoryEndsInReceipt(t.runId, events, story);
    ReceiptEventIsNeutral(t.runId, events, NextEvent(events, "e2e", t.runId, CognitiveReceiptGenerated(t.receiptId)));
  }

  lemma KindsAreStory(story: Story)
    ensures KindsOf(story) == Diagnosis(story) + Authority(story) + Verified(story)
  {}

  // ----- When a journey succeeds -----

  /** The action asked for is proposed, and a helper can do it. */
  ghost predicate Askable(t: JourneyTerms, proposal: Analyzer.StructuredProposal) {
    && Approval.ActionOf(proposal, t.actionId).Some?
    && Analyzer.HelperAction(Approval.ActionOf(proposal, t.actionId).value.kind).Some?
  }

  /** The claims carry the proposed action to its target, on the journey's terms. */
  ghost predicate ClaimsFor(t: JourneyTerms, proposal: Analyzer.StructuredProposal, claims: CapabilityLeaseClaims) {
    Askable(t, proposal)
    && var action := Approval.ActionOf(proposal, t.actionId).value;
       && Analyzer.HelperAction(action.kind) == Some(claims.action)
       && claims.target == ActionTarget(action.targetResourceId, t.subject)
       && claims.nodeId == Approval.NodeFromTarget(action.targetResourceId)
       && claims.expiresAt == 200 && claims.allowlistEntryId == t.allowlistEntryId
       && claims.leaseId == "lease-" + t.approvalId && claims.approvalId == t.approvalId && claims.runId == t.runId
       && claims.nonce == t.leaseNonce
  }

  lemma AuthoriseExact(t: JourneyTerms, proposal: Analyzer.StructuredProposal, task: Task)
    ensures Authorise(t, proposal, task).Ok? <==> Askable(t, proposal)
    ensures Authorise(t, proposal, task).Ok? ==> ClaimsFor(t, proposal, Authorise(t, proposal, task).value.1)
    ensures Authorise(t, proposal, task).Err? ==>
              Authorise(t, proposal, task).error in {ActionNotProposed(t.actionId),
                                                     ApprovalRefused(Approval.UnsupportedHelperAction)}
  {
    if Approval.ActionOf(proposal, t.actionId).Some? {
      var record := Approval.NewApproval(
        t.approvalId, t.runId, proposal, t.actionId, System, t.subject, task.impact, task.verification, 120, 200);
      ApprovalAsAsked(t, proposal, task);
      hide Approval.NewApproval, Approval.ActionOf, Approval.NodeFromTarget;
      GrantedAtOnce(record, t.allowlistEntryId, t.leaseNonce);
    }
  }

  lemma ApprovalAsAsked(t: JourneyTerms, proposal: Analyzer.StructuredProposal, task: Task)
    requires Approval.ActionOf(proposal, t.actionId).Some?
    ensures var record := Approval.NewApproval(
              t.approvalId, t.runId, proposal, t.actionId, System, t.subject, task.impact, task.verification, 120, 200);
            var action := Approval.ActionOf(proposal, t.actionId).value;
            && record.action == action.kind && record.target == ActionTarget(action.targetResourceId, t.subject)
  {}

  /** A record asked for in an empty store is granted exactly when a helper can carry it out. */
  lemma GrantedAtOnce(record: Approval.ApprovalRecord, entry: string, nonce: string)
    requires record.state == Approval.Pending && 150 < record.expiresAt
    ensures var s := Approval.Request(Approval.EMPTY_STORE, record);
            var r := Approval.Approve(s, record.id, record.actionId, "operator", 150, entry, nonce).1;
            && (r.Ok? <==> Analyzer.HelperAction(record.action).Some?)
            && (r.Ok? ==>
                  && Analyzer.HelperAction(record.action) == Some(r.value.action)
                  && r.value.target == record.target && r.value.expiresAt == record.expiresAt
                  && r.value.nodeId == Approval.NodeFromTarget(record.target.resourceId)
                  && r.value.allowlistEntryId == entry && r.value.nonce == nonce
                  && r.value.leaseId == "lease-" + record.id && r.value.approvalId == record.id
                  && r.value.runId == record.runId)
            && (r.Err? ==> r.error == Approval.UnsupportedHelperAction)
  {
    hide Recorded, Approval.NodeFromTarget, Analyzer.HelperAction;
    var s := Approval.Request(Approval.EMPTY_STORE, record);
    assert s.records == [record];
    PositionUnique(s.records, Approval.HasId(record.id), 0);
  }

  /** The helper accepts exactly its own node, the approved action and subject, and the approved allowlist entry. */
  lemma HelperExact(t: JourneyTerms, claims: CapabilityLeaseClaims)
    ensures Helper.ValidateHelperRequest(RequestOf(t, claims), SignedLeaseOf(claims), ContextOf(t, claims)).Ok?
            <==> && 150 < claims.expiresAt && claims.nodeId == t.helperNode && claims.action == t.action
                 && claims.target.subject == t.helperSubject && claims.allowlistEntryId == t.helperEntryId
  {
    var allowlist := ContextOf(t, claims).allowlist;
    assert allowlist[0] in allowlist;
  }

  /** The helper's surroundings are those that the approval was asked for. */
  ghost predicate HelperAgrees(t: JourneyTerms, proposal: Analyzer.StructuredProposal)
    requires Askable(t, proposal)
  {
    var action := Approval.ActionOf(proposal, t.actionId).value;
    && Analyzer.HelperAction(action.kind) == Some(t.action)
    && Approval.NodeFromTarget(action.targetResourceId) == t.helperNode
    && t.helperSubject == t.subject && t.helperEntryId == t.allowlistEntryId
  }

  lemma ActingExact(t: JourneyTerms, proposal: Analyzer.StructuredProposal, task: Task)
    requires Askable(t, proposal)
    ensures var claims := Authorise(t, proposal, task).value.1;
            Helper.ValidateHelperRequest(RequestOf(t, claims), SignedLeaseOf(claims), ContextOf(t, claims)).Ok?
            <==> HelperAgrees(t, proposal)
    ensures Authorise(t, proposal, task).Ok?
  {
    AuthoriseExact(t, proposal, task);
    hide Authorise, Helper.ValidateHelperRequest, RequestOf, SignedLeaseOf, ContextOf, Approval.ActionOf,
      Approval.NodeFromTarget;
    HelperExact(t, Authorise(t, proposal, task).value.1);
  }

  /** The identity under which the journey's node enrolled. */
  function IdentityOf(t: JourneyTerms, s: Runtime.PlaneState): AgentIdentity
    requires Runtime.FirstAgent(s.agents, t.node).Some?
  {
    var agent := Runtime.FirstAgent(s.agents, t.node).value;
    AgentIdentity(agent.nodeId, agent.certificateFingerprint)
  }

  /** The proposal is valid and its action, which some task stands for, can be asked for and acted on. */
  ghost predicate Actionable(
      t: JourneyTerms, tasks: seq<Task>, proposal: Analyzer.StructuredProposal, policy: Analyzer.ProposalPolicy)
  {
    && Analyzer.PolicyValid(proposal, policy)
    && (exists i :: 0 <= i < |tasks| && tasks[i].id == t.mutatorId)
    && Askable(t, proposal) && HelperAgrees(t, proposal)
  }

  ghost predicate ToldExactly(
      t: JourneyTerms, tasks: seq<Task>, evidence: seq<EvidenceEnvelope>, propose: Proposer,
      policy: Analyzer.ProposalPolicy, r: Result<Story, E2eError>)
  {
    && (r.Ok? <==> Actionable(t, tasks, propose(evidence), policy))
    && (r.Ok? ==> r.value.sources == Analyzer.Sources(evidence))
  }

  /** A journey gets to tell its story exactly when every one of its components agrees. */
  lemma StoryExact(
      t: JourneyTerms, s: Runtime.PlaneState, tasks: seq<Task>, source: EvidenceSource, propose: Proposer,
      policy: Analyzer.ProposalPolicy)
    requires Runtime.FirstAgent(s.agents, t.node).Some?
    requires CollectAll(s, IdentityOf(t, s), t.runId, t.node, Collectors(tasks), source).1.Ok?
    ensures ToldExactly(
              t, tasks, CollectAll(s, IdentityOf(t, s), t.runId, t.node, Collectors(tasks), source).1.value, propose,
              policy, StoryOf(t, s, tasks, source, propose, policy))
  {
    hide CollectAll, Collectors, Authorise, Analyzer.ValidationOf, Analyzer.PolicyValid, Helper.ValidateHelperRequest,
      JourneyPlan, Askable, HelperAgrees, Runtime.FirstAgent, PayloadsOf, RequestOf, SignedLeaseOf, ContextOf,
      Analyzer.Sources;
    var proposal := propose(CollectAll(s, IdentityOf(t, s), t.runId, t.node, Collectors(tasks), source).1.value);
    var task := Find(tasks, (x: Task) => x.id == t.mutatorId);
    if task.Some? {
      AuthoriseExact(t, proposal, task.value);
      if Askable(t, proposal) {
        ActingExact(t, proposal, task.value);
      }
    }
  }

  /** Without an enrolled agent, or without its evidence, there is no story. */
  lemma NoStoryWithoutEvidence(
      t: JourneyTerms, s: Runtime.PlaneState, tasks: seq<Task>, source: EvidenceSource, propose: Proposer,
      policy: Analyzer.ProposalPolicy)
    requires StoryOf(t, s, tasks, source, propose, policy).Ok?
    ensures Runtime.FirstAgent(s.agents, t.node).Some?
    ensures CollectAll(s, IdentityOf(t, s), t.runId, t.node, Collectors(tasks), source).1.Ok?
  {
    hide CollectAll, Collectors, Authorise, Analyzer.ValidationOf, Helper.ValidateHelperRequest, JourneyPlan,
      Runtime.FirstAgent, PayloadsOf, RequestOf, SignedLeaseOf, ContextOf, Analyzer.Sources;
  }
}
