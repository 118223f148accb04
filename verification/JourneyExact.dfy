/** Exactly when the journeys of the two planned runbooks succeed. */
module JourneyExact {
  import opened Wrappers
  import opened Seqs
  import opened Strings
  import opened Domain
  import opened Receipt
  import opened Runtime
  import opened Runbooks
  import opened E2e
  import opened RunbookEvidence
  import opened Journey
  import opened JourneyRuns
  import Analyzer
  import Approval
  import Binding
  import RuntimeRuns

  /** Calls that issue tokens and enrol agents, in any order and number. */
  ghost predicate Enrolling(calls: seq<RuntimeRuns.Call>) {
    forall call :: call in calls ==> call.CallCreateToken? || call.CallEnroll?
  }

  lemma {:induction false} NothingQueuedYet(enrolment: seq<RuntimeRuns.Call>)
    requires Enrolling(enrolment)
    ensures var s := RuntimeRuns.After(EMPTY_PLANE, enrolment);
            s.pending == [] && s.pulled == [] && s.results == [] && s.nonces == []
  {
    hide CreateToken, Enroll;
    if enrolment != [] {
      var rest, last := enrolment[..|enrolment| - 1], enrolment[|enrolment| - 1];
      NothingQueuedYet(rest);
      EnrollingQueuesNothing(RuntimeRuns.After(EMPTY_PLANE, rest), last);
    }
  }

  lemma EnrollingQueuesNothing(s: PlaneState, call: RuntimeRuns.Call)
    requires call.CallCreateToken? || call.CallEnroll?
    ensures var s' := RuntimeRuns.Step(s, call);
            s'.pending == s.pending && s'.pulled == s.pulled && s'.results == s.results && s'.nonces == s.nonces
  {}

  /** The evidence gathered for collectors with these names. */
  function Gathered(names: seq<string>, source: EvidenceSource): seq<EvidenceEnvelope>
    requires forall i :: 0 <= i < |names| ==> source(names[i]).Ok?
  {
    seq(|names|, i requires 0 <= i < |names| => source(names[i]).value)
  }

  /** The agent is enrolled, the evidence is there, and the proposal drawn from it can be asked for and acted on. */
  ghost predicate Succeeds(
      t: JourneyTerms, s: PlaneState, tasks: seq<Task>, names: seq<string>, source: EvidenceSource, propose: Proposer,
      policy: Analyzer.ProposalPolicy)
  {
    && FirstAgent(s.agents, t.node).Some?
    && (forall i :: 0 <= i < |names| ==> source(names[i]).Ok?)
    && Actionable(t, tasks, propose(Gathered(names, source)), policy)
  }

  /** The identity that the journey takes from the plane is one that the plane accepts. */
  lemma IdentityIsReady(t: JourneyTerms, s: PlaneState)
    requires FirstAgent(s.agents, t.node).Some?
    ensures AgentReady(s.agents, IdentityOf(t, s), t.node)
  {
    hide FirstAgent, RequireAgent;
  }

  lemma GatheredIs(names: seq<string>, source: EvidenceSource, evidence: seq<EvidenceEnvelope>)
    requires |evidence| == |names| && forall i :: 0 <= i < |names| ==> source(names[i]) == Ok(evidence[i])
    ensures Gathered(names, source) == evidence
  {}

  /** A journey over collectors and one other task succeeds exactly when all its components agree. */
  lemma CollectingJourneyExact(
      t: JourneyTerms, enrolment: seq<RuntimeRuns.Call>, tasks: seq<Task>, names: seq<string>, source: EvidenceSource,
      propose: Proposer, policy: Analyzer.ProposalPolicy)
    requires Enrolling(enrolment) && names != []
    requires var s := RuntimeRuns.After(EMPTY_PLANE, enrolment);
             FirstAgent(s.agents, t.node).Some? ==>
               LoopExact(s, IdentityOf(t, s), t.runId, t.node, tasks, names, source)
    ensures var s := RuntimeRuns.After(EMPTY_PLANE, enrolment);
            WholeJourney(t, s, tasks, source, propose, policy).Ok?
            <==> Succeeds(t, s, tasks, names, source, propose, policy)
  {
    var s := RuntimeRuns.After(EMPTY_PLANE, enrolment);
    hide CollectAll, Collectors, FirstAgent, AgentReady, StoryOf, Askable, HelperAgrees, Analyzer.PolicyValid,
      RuntimeRuns.After, Tells, IdentityOf, WholeJourney;
    if FirstAgent(s.agents, t.node).Some? {
      IdentityIsReady(t, s);
      var r := CollectAll(s, IdentityOf(t, s), t.runId, t.node, Collectors(tasks), source).1;
      if r.Ok? {
        GatheredIs(names, source, r.value);
        StoryExact(t, s, tasks, source, propose, policy);
      }
    }
    if StoryOf(t, s, tasks, source, propose, policy).Ok? {
      NoStoryWithoutEvidence(t, s, tasks, source, propose, policy);
      JourneyEndsInReceipt(t, enrolment, tasks, source, propose, policy);
      SourcesCount(Gathered(names, source));
    } else {
      NoJourneyWithoutStory(t, s, tasks, source, propose, policy);
    }
  }

  lemma SourcesCount(evidence: seq<EvidenceEnvelope>)
    ensures |Analyzer.Sources(evidence)| == |evidence|
  {}

  lemma NoJourneyWithoutStory(
      t: JourneyTerms, s: PlaneState, tasks: seq<Task>, source: EvidenceSource, propose: Proposer,
      policy: Analyzer.ProposalPolicy)
    requires StoryOf(t, s, tasks, source, propose, policy).Err?
    ensures WholeJourney(t, s, tasks, source, propose, policy).Err?
  {
    hide StoryOf;
  }

  /** The helper sits on the node named by the target and agrees on subject and allowlist entry. */
  predicate HelperInPlace(t: JourneyTerms, target: string) {
    && Approval.NodeFromTarget(target) == t.helperNode
    && t.helperSubject == t.subject && t.helperEntryId == t.allowlistEntryId
  }

  // ----- The service runbook -----

  /**
   The node's agent is enrolled, the five pieces of evidence are there and indicate a restart, and the helper is in
   place.
   */
  ghost predicate RestartReady(
      t: JourneyTerms, request: ServiceUnhealthyRequest, s: PlaneState, source: EvidenceSource)
  {
    && FirstAgent(s.agents, request.nodeId).Some?
    && (forall i :: 0 <= i < |SERVICE_COLLECTORS| ==> source(SERVICE_COLLECTORS[i]).Ok?)
    && Analyzer.RestartIndicated(Analyzer.Normalized(Gathered(SERVICE_COLLECTORS, source)))
    && HelperInPlace(t, Analyzer.ServiceResource(request.nodeId, request.service))
  }

  function ServiceProposer(id: string, node: string, service: string): Proposer {
    (evidence: seq<EvidenceEnvelope>) => Analyzer.AnalyzeServiceUnhealthy(id, node, service, evidence)
  }

  /** The journey of a planned service run after the given enrolment. */
  function ServiceJourney(
      t: JourneyTerms, request: ServiceUnhealthyRequest, report: CapabilityReport, enrolment: seq<RuntimeRuns.Call>,
      source: EvidenceSource, proposalId: string)
    : Result<(seq<AuditEvent>, OperatorReceipt), E2eError>
    requires PlanServiceUnhealthy(request, report).Ok?
  {
    WholeJourney(
      t, RuntimeRuns.After(EMPTY_PLANE, enrolment), PlanServiceUnhealthy(request, report).value.run.tasks, source,
      ServiceProposer(proposalId, request.nodeId, request.service), Analyzer.SERVICE_UNHEALTHY_POLICY)
  }

  /** The journey is about the request and asks for a restart. */
  predicate AsksForRestart(t: JourneyTerms, request: ServiceUnhealthyRequest) {
    t.runId == request.runId && t.node == request.nodeId && t.mutatorId == "restart-service"
    && t.actionId == "restart-service" && t.action == ServiceRestart
  }

  lemma RestartIsAskable(t: JourneyTerms, node: string, service: string, id: string, evidence: seq<EvidenceEnvelope>)
    requires t.actionId == "restart-service" && t.action == ServiceRestart
    ensures var p := Analyzer.AnalyzeServiceUnhealthy(id, node, service, evidence);
            && (Askable(t, p) <==> Analyzer.RestartIndicated(Analyzer.Normalized(evidence)))
            && (Askable(t, p) ==>
                  (HelperAgrees(t, p) <==> HelperInPlace(t, Analyzer.ServiceResource(node, service))))
  {
    var p := Analyzer.AnalyzeServiceUnhealthy(id, node, service, evidence);
    ServiceActionName(id, node, service, evidence);
    hide Analyzer.AnalyzeServiceUnhealthy, Analyzer.RestartIndicated, Approval.NodeFromTarget, Analyzer.ServiceResource;
    OnlyAction(p, t.actionId);
  }

  lemma OnlyAction(p: Analyzer.StructuredProposal, actionId: string)
    requires |p.proposedActions| == 1
    ensures Approval.ActionOf(p, actionId)
            == if p.proposedActions[0].id == actionId then Some(p.proposedActions[0]) else None
  {
    assert p.proposedActions[0] in p.proposedActions;
  }

  /** Only a restart goes by the restart's name. */
  lemma ServiceActionName(id: string, node: string, service: string, evidence: seq<EvidenceEnvelope>)
    ensures var action := Analyzer.AnalyzeServiceUnhealthy(id, node, service, evidence).proposedActions[0];
            action.id == "restart-service" <==> action.kind.ProposeRestart?
  {
    hide Analyzer.Unsupported, Analyzer.ServiceActive, Analyzer.ServiceUnhealthy, Analyzer.Normalized,
      Analyzer.ServiceResource, Analyzer.UnsupportedHypothesis, Analyzer.ConflictHypothesis,
      Analyzer.UnhealthyHypothesis, Analyzer.HealthyHypothesis, Analyzer.Sources, Analyzer.LogExcerpt;
    assert "manual-takeover"[0] == 'm' && "collect-more-logs"[0] == 'c' && "restart-service"[0] == 'r';
  }

  /** The journey of a planned service run succeeds exactly when a restart is ready to be carried out. */
  lemma ServiceJourneyExact(
      t: JourneyTerms, request: ServiceUnhealthyRequest, report: CapabilityReport,
      enrolment: seq<RuntimeRuns.Call>, source: EvidenceSource, proposalId: string)
    requires PlanServiceUnhealthy(request, report).Ok? && Enrolling(enrolment)
    requires AsksForRestart(t, request)
    ensures ServiceJourney(t, request, report, enrolment, source, proposalId).Ok?
            <==> RestartReady(t, request, RuntimeRuns.After(EMPTY_PLANE, enrolment), source)
  {
    hide *;
    ServiceJourneyTerms(t, request, report, enrolment, source, proposalId);
    var s := RuntimeRuns.After(EMPTY_PLANE, enrolment);
    var tasks := PlanServiceUnhealthy(request, report).value.run.tasks;
    var propose := ServiceProposer(proposalId, request.nodeId, request.service);
    ServiceNamesDiffer();
    NothingQueuedYet(enrolment);
    PlaneIsSound(enrolment);
    if FirstAgent(s.agents, t.node).Some? {
      ServiceRunCollects(request, report, s, IdentityOf(t, s), source);
    }
    CollectingJourneyExact(
      t, enrolment, tasks, SERVICE_COLLECTORS, source, propose, Analyzer.SERVICE_UNHEALTHY_POLICY);
    ServiceSucceeds(t, request, report, s, source, proposalId);
  }

  lemma ServiceJourneyTerms(
      t: JourneyTerms, request: ServiceUnhealthyRequest, report: CapabilityReport, enrolment: seq<RuntimeRuns.Call>,
      source: EvidenceSource, proposalId: string)
    requires PlanServiceUnhealthy(request, report).Ok? && AsksForRestart(t, request)
    ensures t.runId == request.runId && t.node == request.nodeId
    ensures ServiceJourney(t, request, report, enrolment, source, proposalId)
            == WholeJourney(
                 t, RuntimeRuns.After(EMPTY_PLANE, enrolment), PlanServiceUnhealthy(request, report).value.run.tasks,
                 source, ServiceProposer(proposalId, request.nodeId, request.service),
                 Analyzer.SERVICE_UNHEALTHY_POLICY)
  {}

  lemma DiskJourneyTerms(
      t: JourneyTerms, request: DiskPressureRequest, report: CapabilityReport, enrolment: seq<RuntimeRuns.Call>,
      source: EvidenceSource, proposalId: string, allowed: seq<string>)
    requires PlanDiskPressure(request, report).Ok? && AsksForCleanup(t, request)
    ensures t.runId == request.runId && t.node == request.nodeId
    ensures DiskJourney(t, request, report, enrolment, source, proposalId, allowed)
            == WholeJourney(
                 t, RuntimeRuns.After(EMPTY_PLANE, enrolment), PlanDiskPressure(request, report).value.run.tasks,
                 source, DiskProposer(proposalId, request.nodeId, request.mount, request.cleanupResourceId, allowed),
                 Analyzer.DISK_PRESSURE_POLICY)
  {}

  lemma PlaneIsSound(calls: seq<RuntimeRuns.Call>)
    ensures ResultsSound(RuntimeRuns.After(EMPTY_PLANE, calls))
  {
    RuntimeRuns.RunKeepsInv(calls);
    hide RuntimeRuns.After, ResultsSound;
  }

  lemma RestartIsPlanned(request: ServiceUnhealthyRequest, report: CapabilityReport)
    requires PlanServiceUnhealthy(request, report).Ok?
    ensures var tasks := PlanServiceUnhealthy(request, report).value.run.tasks;
            exists i :: 0 <= i < |tasks| && tasks[i].id == "restart-service"
  {
    hide PlanServiceUnhealthy, ServiceTasks;
    var plan := PlanServiceUnhealthy(request, report).value;
    PlannedServiceTasks(request, report);
    ServiceTaskNames(request, plan.capabilities);
    assert plan.run.tasks[5].id == "restart-service";
  }

  lemma ServiceSucceeds(
      t: JourneyTerms, request: ServiceUnhealthyRequest, report: CapabilityReport, s: PlaneState,
      source: EvidenceSource, proposalId: string)
    requires PlanServiceUnhealthy(request, report).Ok?
    requires AsksForRestart(t, request)
    ensures Succeeds(
              t, s, PlanServiceUnhealthy(request, report).value.run.tasks, SERVICE_COLLECTORS, source,
              ServiceProposer(proposalId, request.nodeId, request.service), Analyzer.SERVICE_UNHEALTHY_POLICY)
            <==> RestartReady(t, request, s, source)
  {
    hide PlanServiceUnhealthy, ServiceTasks, SERVICE_COLLECTORS, Askable, HelperAgrees, FirstAgent, Gathered,
      Analyzer.AnalyzeServiceUnhealthy, Analyzer.PolicyValid, Analyzer.RestartIndicated, Approval.NodeFromTarget,
      Analyzer.ServiceResource, Analyzer.Normalized;
    RestartIsPlanned(request, report);
    if forall i :: 0 <= i < |SERVICE_COLLECTORS| ==> source(SERVICE_COLLECTORS[i]).Ok? {
      RestartIsAskable(t, request.nodeId, request.service, proposalId, Gathered(SERVICE_COLLECTORS, source));
    }
  }

  // ----- The disk runbook -----

  /** The same for a cleanup, which needs evidence of pressure and of an allowlisted candidate. */
  ghost predicate CleanupReady(
      t: JourneyTerms, request: DiskPressureRequest, s: PlaneState, source: EvidenceSource, allowed: seq<string>)
  {
    && FirstAgent(s.agents, request.nodeId).Some?
    && (forall i :: 0 <= i < |DISK_COLLECTORS| ==> source(DISK_COLLECTORS[i]).Ok?)
    && CleanupIndicated(request.cleanupResourceId, allowed, Gathered(DISK_COLLECTORS, source))
    && HelperInPlace(t, request.cleanupResourceId)
  }

  function DiskProposer(id: string, node: string, mount: string, cleanup: string, allowed: seq<string>): Proposer {
    (evidence: seq<EvidenceEnvelope>) => Analyzer.AnalyzeDiskPressure(id, node, mount, cleanup, evidence, allowed)
  }

  /** The evidence and the allowlist call for a cleanup. */
  predicate CleanupIndicated(cleanup: string, allowed: seq<string>, evidence: seq<EvidenceEnvelope>) {
    var text := Analyzer.Normalized(evidence);
    Analyzer.DiskPressed(text) && Analyzer.CleanupPresent(text) && cleanup in allowed
  }

  /** The journey of a planned disk run after the given enrolment. */
  function DiskJourney(
      t: JourneyTerms, request: DiskPressureRequest, report: CapabilityReport, enrolment: seq<RuntimeRuns.Call>,
      source: EvidenceSource, proposalId: string, allowed: seq<string>)
    : Result<(seq<AuditEvent>, OperatorReceipt), E2eError>
    requires PlanDiskPressure(request, report).Ok?
  {
    WholeJourney(
      t, RuntimeRuns.After(EMPTY_PLANE, enrolment), PlanDiskPressure(request, report).value.run.tasks, source,
      DiskProposer(proposalId, request.nodeId, request.mount, request.cleanupResourceId, allowed),
      Analyzer.DISK_PRESSURE_POLICY)
  }

  /** The journey is about the request and asks for a cleanup. */
  predicate AsksForCleanup(t: JourneyTerms, request: DiskPressureRequest) {
    t.runId == request.runId && t.node == request.nodeId && t.mutatorId == "cleanup-allowlisted-path"
    && t.actionId == "remove-allowlisted-cleanup-path" && t.action == RemoveAllowlistedFile
  }

  lemma CleanupIsAskable(
      t: JourneyTerms, node: string, mount: string, cleanup: string, allowed: seq<string>, id: string,
      evidence: seq<EvidenceEnvelope>)
    requires t.actionId == "remove-allowlisted-cleanup-path" && t.action == RemoveAllowlistedFile
    ensures var p := Analyzer.AnalyzeDiskPressure(id, node, mount, cleanup, evidence, allowed);
            && (Askable(t, p) <==> CleanupIndicated(cleanup, allowed, evidence))
            && (Askable(t, p) ==>
                  (HelperAgrees(t, p) <==> HelperInPlace(t, cleanup)))
  {
    var p := Analyzer.AnalyzeDiskPressure(id, node, mount, cleanup, evidence, allowed);
    DiskActionName(id, node, mount, cleanup, allowed, evidence);
    hide Analyzer.AnalyzeDiskPressure, Analyzer.DiskPressed, Analyzer.CleanupPresent, Approval.NodeFromTarget;
    OnlyAction(p, t.actionId);
  }

  /** Only a cleanup goes by the cleanup's name. */
  lemma DiskActionName(
      id: string, node: string, mount: string, cleanup: string, allowed: seq<string>, evidence: seq<EvidenceEnvelope>)
    ensures var action := Analyzer.AnalyzeDiskPressure(id, node, mount, cleanup, evidence, allowed).proposedActions[0];
            action.id == "remove-allowlisted-cleanup-path" <==> action.kind.ProposeRemoveAllowlistedFile?
  {
    hide Analyzer.DiskPressed, Analyzer.CleanupPresent, Analyzer.Normalized, Analyzer.MountResource,
      Analyzer.PressureHypothesis, Analyzer.NoMatchHypothesis, Analyzer.Sources, Analyzer.LogExcerpt;
    assert "manual-takeover"[0] == 'm' && "remove-allowlisted-cleanup-path"[0] == 'r';
  }

  /** The journey of a planned disk run succeeds exactly when a cleanup is ready to be carried out. */
  lemma DiskJourneyExact(
      t: JourneyTerms, request: DiskPressureRequest, report: CapabilityReport, enrolment: seq<RuntimeRuns.Call>,
      source: EvidenceSource, proposalId: string, allowed: seq<string>)
    requires PlanDiskPressure(request, report).Ok? && Enrolling(enrolment)
    requires AsksForCleanup(t, request)
    ensures DiskJourney(t, request, report, enrolment, source, proposalId, allowed).Ok?
            <==> CleanupReady(t, request, RuntimeRuns.After(EMPTY_PLANE, enrolment), source, allowed)
  {
    hide *;
    DiskJourneyTerms(t, request, report, enrolment, source, proposalId, allowed);
    var s := RuntimeRuns.After(EMPTY_PLANE, enrolment);
    var tasks := PlanDiskPressure(request, report).value.run.tasks;
    var propose := DiskProposer(proposalId, request.nodeId, request.mount, request.cleanupResourceId, allowed);
    DiskNamesDiffer();
    NothingQueuedYet(enrolment);
    PlaneIsSound(enrolment);
    if FirstAgent(s.agents, t.node).Some? {
      DiskRunCollects(request, report, s, IdentityOf(t, s), source);
    }
    CollectingJourneyExact(t, enrolment, tasks, DISK_COLLECTORS, source, propose, Analyzer.DISK_PRESSURE_POLICY);
    DiskSucceeds(t, request, report, s, source, proposalId, allowed);
  }

  lemma CleanupIsPlanned(request: DiskPressureRequest, report: CapabilityReport)
    requires PlanDiskPressure(request, report).Ok?
    ensures var tasks := PlanDiskPressure(request, report).value.run.tasks;
            exists i :: 0 <= i < |tasks| && tasks[i].id == "cleanup-allowlisted-path"
  {
    hide PlanDiskPressure, DiskTasks;
    var plan := PlanDiskPressure(request, report).value;
    PlannedDiskTasks(request, report);
    DiskTaskNames(request, plan.capabilities);
    assert plan.run.tasks[4].id == "cleanup-allowlisted-path";
  }

  lemma DiskSucceeds(
      t: JourneyTerms, request: DiskPressureRequest, report: CapabilityReport, s: PlaneState, source: EvidenceSource,
      proposalId: string, allowed: seq<string>)
    requires PlanDiskPressure(request, report).Ok?
    requires AsksForCleanup(t, request)
    ensures Succeeds(
              t, s, PlanDiskPressure(request, report).value.run.tasks, DISK_COLLECTORS, source,
              DiskProposer(proposalId, request.nodeId, request.mount, request.cleanupResourceId, allowed),
              Analyzer.DISK_PRESSURE_POLICY)
            <==> CleanupReady(t, request, s, source, allowed)
  {
    hide PlanDiskPressure, DiskTasks, DISK_COLLECTORS, Askable, HelperAgrees, FirstAgent, Gathered,
      Analyzer.AnalyzeDiskPressure, Analyzer.PolicyValid, CleanupIndicated, Approval.NodeFromTarget,
      Analyzer.Normalized;
    CleanupIsPlanned(request, report);
    if forall i :: 0 <= i < |DISK_COLLECTORS| ==> source(DISK_COLLECTORS[i]).Ok? {
      CleanupIsAskable(
        t, request.nodeId, request.mount, request.cleanupResourceId, allowed, proposalId,
        Gathered(DISK_COLLECTORS, source));
    }
  }
}
