/** What a journey records, what it answers when it fails, and what the receipts of the two runbooks report. */
module JourneyAnswers {
  import opened Wrappers
  import opened Seqs
  import opened Strings
  import opened Domain
  import opened Ledger
  import opened Receipt
  import opened ReceiptProofs
  import opened Verification
  import opened VerificationAnswers
  import opened Runbooks
  import opened RunbookRuns
  import opened E2e
  import opened RunbookEvidence
  import opened Journey
  import opened JourneyRuns
  import opened JourneyExact
  import Analyzer
  import Approval
  import ApprovalAnswers
  import Helper
  import PlanReach
  import RunbookAnswers
  import Runtime
  import RuntimeRuns

  // ----- The run's ledger -----

  /** Recorded events are numbered on and named by their places, belong to the run, and say what was recorded. */
  lemma {:induction false} RecordAllAnswers(events: seq<AuditEvent>, runId: string, kinds: seq<AuditEventKind>, k: nat)
    requires k < |kinds|
    ensures |RecordAll(events, runId, kinds)| == |events| + |kinds| && events <= RecordAll(events, runId, kinds)
    ensures RecordAll(events, runId, kinds)[|events| + k]
            == AuditEvent("e2e-event-" + Decimal(|events| + k + 1), runId, |events| + k + 1, kinds[k])
  {
    hide Decimal;
    var rest := kinds[..|kinds| - 1];
    assert "e2e" + "-event-" == "e2e-event-";
    RecordedCount(events, runId, rest);
    if k < |rest| {
      RecordAllAnswers(events, runId, rest, k);
    }
  }

  lemma {:induction false} RecordedCount(events: seq<AuditEvent>, runId: string, kinds: seq<AuditEventKind>)
    ensures |RecordAll(events, runId, kinds)| == |events| + |kinds| && events <= RecordAll(events, runId, kinds)
  {
    hide Decimal;
    if kinds != [] {
      RecordedCount(events, runId, kinds[..|kinds| - 1]);
    }
  }

  /** What a story is recorded as, in order. */
  lemma StoryAnswers(story: Story)
    ensures KindsOf(story)
            == [IncidentCreated(story.incidentId, story.nodeId, story.runbook)] + story.planeKinds
               + seq(|story.sources|, i requires 0 <= i < |story.sources| => EvidenceRecorded(story.sources[i]))
               + [ProposalRecorded(story.proposalId, story.hypothesis)] + story.approvalKinds
               + [CapabilityLeaseIssued(story.claims.leaseId, story.claims.approvalId),
                  ResourceLeaseGranted(story.claims.leaseId, story.claims.target.resourceId, Exclusive),
                  ActionResult(story.action, ActionTarget(story.claims.target.resourceId, story.subject), story.status),
                  VerificationSelected(story.plan)]
               + CompletedInOrder(story.plan.required) + SkippedInOrder(story.plan.skipped)
  {
    assert EvidenceKinds(story.sources)
        == seq(|story.sources|, i requires 0 <= i < |story.sources| => EvidenceRecorded(story.sources[i]));
    assert CompletedKinds(story.plan.required) == CompletedInOrder(story.plan.required);
    assert SkippedKinds(story.plan.skipped) == SkippedInOrder(story.plan.skipped);
    hide EvidenceKinds, CompletedKinds, SkippedKinds, CompletedInOrder, SkippedInOrder;
    var lease := [CapabilityLeaseIssued(story.claims.leaseId, story.claims.approvalId)];
    var grant := [ResourceLeaseGranted(story.claims.leaseId, story.claims.target.resourceId, Exclusive)];
    var act := [ActionResult(story.action, ActionTarget(story.claims.target.resourceId, story.subject), story.status)];
    assert lease + grant + act + [VerificationSelected(story.plan)]
        == [lease[0], grant[0], act[0], VerificationSelected(story.plan)];
  }

  /** A successful journey's ledger is its story and then the receipt's own event; without a receipt it says why. */
  lemma LedgerAnswers(
      t: JourneyTerms, s: Runtime.PlaneState, tasks: seq<Task>, source: EvidenceSource, propose: Proposer,
      policy: Analyzer.ProposalPolicy)
    requires StoryOf(t, s, tasks, source, propose, policy).Ok?
    ensures var kinds := KindsOf(StoryOf(t, s, tasks, source, propose, policy).value);
            var receipt := ReceiptFor(t.runId, RecordAll([], t.runId, kinds));
            WholeJourney(t, s, tasks, source, propose, policy)
            == if receipt.Ok? then
                 Ok((RecordAll([], t.runId, kinds + [CognitiveReceiptGenerated(t.receiptId)]), receipt.value))
               else Err(ReceiptRefused(receipt.error))
  {
    hide StoryOf, KindsOf, ReceiptFor, Recorded;
    var kinds := KindsOf(StoryOf(t, s, tasks, source, propose, policy).value);
    RecordAllAppend([], t.runId, kinds, CognitiveReceiptGenerated(t.receiptId));
  }

  function CompletedInOrder(checks: seq<VerificationCheck>): seq<AuditEventKind> {
    seq(|checks|, i requires 0 <= i < |checks| => VerificationCompleted(checks[i].id, checks[i].resourceId))
  }

  function SkippedInOrder(skips: seq<SkippedVerification>): seq<AuditEventKind> {
    seq(|skips|, i requires 0 <= i < |skips| => VerificationSkipped(skips[i]))
  }

  // ----- Asking, granting and acting -----

  /** An action that was not proposed cannot be asked for, and one without a helper is not granted. */
  lemma AskingAnswers(t: JourneyTerms, proposal: Analyzer.StructuredProposal, task: Task)
    ensures Approval.ActionOf(proposal, t.actionId).None? ==>
              Authorise(t, proposal, task) == Err(ActionNotProposed(t.actionId))
    ensures Approval.ActionOf(proposal, t.actionId).Some?
            && Analyzer.HelperAction(Approval.ActionOf(proposal, t.actionId).value.kind).None? ==>
              Authorise(t, proposal, task) == Err(ApprovalRefused(Approval.UnsupportedHelperAction))
  {
    if Approval.ActionOf(proposal, t.actionId).Some? {
      var record := Approval.NewApproval(
        t.approvalId, t.runId, proposal, t.actionId, System, t.subject, task.impact, task.verification, 120, 200);
      ApprovalAsAsked(t, proposal, task);
      hide Approval.NewApproval, Approval.ActionOf, Approval.Approve, Approval.Request, Analyzer.HelperAction;
      GrantedAtOnce(record, t.allowlistEntryId, t.leaseNonce);
    }
  }

  /** A granted approval leaves its request and the operator's decision behind. */
  lemma GrantingAnswers(t: JourneyTerms, proposal: Analyzer.StructuredProposal, task: Task)
    requires Authorise(t, proposal, task).Ok?
    ensures PayloadsOf(Authorise(t, proposal, task).value.0)
            == [ApprovalRequested(t.approvalId, proposal.id, t.actionId),
                ApprovalDecision(t.approvalId, "operator", OutcomeApproved)]
  {
    AuthoriseExact(t, proposal, task);
    hide Approval.Approve, Approval.Request, Approval.NewApproval, Approval.ActionOf, PayloadsOf;
    var record := Approval.NewApproval(
      t.approvalId, t.runId, proposal, t.actionId, System, t.subject, task.impact, task.verification, 120, 200);
    ApprovalEvents(record, "operator", 150, t.allowlistEntryId, t.leaseNonce);
  }

  /** The helper is asked for the journey's action on the claimed resource, under the claims, at 150. */
  lemma ActingAnswers(t: JourneyTerms, claims: CapabilityLeaseClaims)
    ensures var (request, lease, context) := (RequestOf(t, claims), SignedLeaseOf(claims), ContextOf(t, claims));
            && request.leaseId == claims.leaseId && request.action == t.action && request.arguments == [t.argument]
            && request.target == ActionTarget(claims.target.resourceId, t.helperSubject)
            && lease.claims == claims && lease.keyId == "demo-key" && lease.signature == "demo-signature"
            && context.nodeId == t.helperNode && context.now == 150 && context.seenNonces == []
            && context.signatureStatus == Helper.SignatureValid
            && context.allowlist
               == [Helper.HelperAllowlistEntry(t.helperEntryId, t.action, claims.target.resourceId)]
  {}

  /** Without an enrolled agent, without evidence, or without a valid proposal, a journey answers with just that. */
  lemma FindingAnswers(
      t: JourneyTerms, s: Runtime.PlaneState, tasks: seq<Task>, source: EvidenceSource, propose: Proposer,
      policy: Analyzer.ProposalPolicy)
    ensures Runtime.FirstAgent(s.agents, t.node).None? ==>
              WholeJourney(t, s, tasks, source, propose, policy) == Err(AgentMissing(t.node))
    ensures Runtime.FirstAgent(s.agents, t.node).Some? ==>
              RefusesFinding(
                CollectAll(s, IdentityOf(t, s), t.runId, t.node, Collectors(tasks), source).1, propose, policy,
                WholeJourney(t, s, tasks, source, propose, policy))
  {
    hide CollectAll, Collectors, CarriedOut, Analyzer.ValidationOf, JourneyPlan, Runtime.FirstAgent, PayloadsOf,
      Analyzer.Sources, ReceiptFor, KindsOf, RecordAll;
  }

  ghost predicate RefusesFinding(
      collected: Result<seq<EvidenceEnvelope>, E2eError>, propose: Proposer, policy: Analyzer.ProposalPolicy,
      r: Result<(seq<AuditEvent>, OperatorReceipt), E2eError>)
  {
    if collected.Err? then r == Err(collected.error)
    else
      var valid := Analyzer.ValidationOf(propose(collected.value), policy);
      valid.Fail? ==> r == Err(ProposalRefused(valid.error))
  }

  /** After that, a missing task, a refused approval and a refusing helper are answered, in this order. */
  lemma EnactingAnswers(
      t: JourneyTerms, s: Runtime.PlaneState, tasks: seq<Task>, source: EvidenceSource, propose: Proposer,
      policy: Analyzer.ProposalPolicy)
    requires FindingOf(t, s, tasks, source, propose, policy).Ok?
    ensures RefusesEnacting(
              t, tasks, FindingOf(t, s, tasks, source, propose, policy).value.proposal,
              WholeJourney(t, s, tasks, source, propose, policy))
  {
    hide FindingOf, CarriedOut, JourneyPlan, PayloadsOf, ReceiptFor, KindsOf, RecordAll, RefusesCarrying;
    forall k | 0 <= k < |tasks| && IsFirstTask(tasks, k, t.mutatorId)
      ensures Find(tasks, (x: Task) => x.id == t.mutatorId) == Some(tasks[k])
    {
      PositionUnique(tasks, (x: Task) => x.id == t.mutatorId, k);
    }
    var finding := FindingOf(t, s, tasks, source, propose, policy).value;
    forall k | 0 <= k < |tasks| && IsFirstTask(tasks, k, t.mutatorId)
      ensures RefusesCarrying(t, finding.proposal, tasks[k], WholeJourney(t, s, tasks, source, propose, policy))
    {
      CarryingAnswers(t, finding.proposal, tasks[k], WholeJourney(t, s, tasks, source, propose, policy));
    }
  }

  ghost predicate RefusesEnacting(
      t: JourneyTerms, tasks: seq<Task>, proposal: Analyzer.StructuredProposal,
      r: Result<(seq<AuditEvent>, OperatorReceipt), E2eError>)
  {
    && ((forall i :: 0 <= i < |tasks| ==> tasks[i].id != t.mutatorId) ==> r == Err(TaskMissing(t.mutatorId)))
    && (forall k :: 0 <= k < |tasks| && IsFirstTask(tasks, k, t.mutatorId) ==>
          RefusesCarrying(t, proposal, tasks[k], r))
  }

  ghost predicate RefusesCarrying(
      t: JourneyTerms, proposal: Analyzer.StructuredProposal, task: Task,
      r: Result<(seq<AuditEvent>, OperatorReceipt), E2eError>)
  {
    var authorised := Authorise(t, proposal, task);
    if authorised.Err? then r == Err(authorised.error)
    else
      var claims := authorised.value.1;
      var helped := Helper.ValidateHelperRequest(RequestOf(t, claims), SignedLeaseOf(claims), ContextOf(t, claims));
      helped.Err? ==> r == Err(HelperRefused(helped.error))
  }

  lemma CarryingAnswers(
      t: JourneyTerms, proposal: Analyzer.StructuredProposal, task: Task,
      r: Result<(seq<AuditEvent>, OperatorReceipt), E2eError>)
    requires CarriedOut(t, proposal, task).Err? ==> r == Err(CarriedOut(t, proposal, task).error)
    ensures RefusesCarrying(t, proposal, task, r)
  {
    hide Authorise, Helper.ValidateHelperRequest, RequestOf, SignedLeaseOf, ContextOf;
  }

  ghost predicate IsFirstTask(tasks: seq<Task>, k: nat, id: string)
    requires k < |tasks|
  {
    tasks[k].id == id && forall i :: 0 <= i < k ==> tasks[i].id != id
  }

  /** The story that a journey tells is made of what its steps gave. */
  lemma StoryIs(
      t: JourneyTerms, s: Runtime.PlaneState, tasks: seq<Task>, source: EvidenceSource, propose: Proposer,
      policy: Analyzer.ProposalPolicy, k: nat)
    requires StoryOf(t, s, tasks, source, propose, policy).Ok?
    requires k < |tasks| && IsFirstTask(tasks, k, t.mutatorId)
    ensures Runtime.FirstAgent(s.agents, t.node).Some?
    ensures var story := StoryOf(t, s, tasks, source, propose, policy).value;
            var (plane, collected) := CollectAll(s, IdentityOf(t, s), t.runId, t.node, Collectors(tasks), source);
            && collected.Ok?
            && var proposal := propose(collected.value);
            && Authorise(t, proposal, tasks[k]).Ok?
            && story.incidentId == t.incidentId && story.nodeId == t.node && story.runbook == t.runbook
            && story.planeKinds == PayloadsOf(plane.ledger) && story.sources == Analyzer.Sources(collected.value)
            && story.proposalId == proposal.id && story.hypothesis == proposal.hypothesis
            && story.approvalKinds == PayloadsOf(Authorise(t, proposal, tasks[k]).value.0)
            && story.claims == Authorise(t, proposal, tasks[k]).value.1
            && story.action == t.action && story.subject == t.helperSubject && story.status == HelperSucceeded
            && story.plan
               == Plan(VerificationPolicy(false, false), t.action, tasks[k].impact)
                  .(skipped := tasks[k].verification.skipped)
  {
    hide CollectAll, Collectors, Authorise, Analyzer.ValidationOf, Helper.ValidateHelperRequest, Plan,
      Runtime.FirstAgent, PayloadsOf, RequestOf, SignedLeaseOf, ContextOf, Analyzer.Sources;
    PositionUnique(tasks, (x: Task) => x.id == t.mutatorId, k);
  }

  // ----- What the receipts report -----

  /** The receipt reports exactly these checks as required and as completed. */
  ghost predicate Reports(r: OperatorReceipt, checks: seq<VerificationCheck>) {
    && r.verificationChecks == checks && |r.verificationCompleted| == |checks|
    && forall i :: 0 <= i < |checks| ==> r.verificationCompleted[i] == checks[i].id + ":" + checks[i].resourceId
  }

  lemma ToldReports(r: OperatorReceipt, runId: string, story: Story)
    requires Tells(r, runId, story)
    ensures Reports(r, story.plan.required)
  {
    hide Earlier, FirstSkip;
  }

  /** Two skips come out in dictionary order. */
  lemma FirewallBeforePackages(r: seq<SkippedVerification>, package: string, firewall: string)
    requires forall i, j :: 0 <= i < j < |r| ==> Earlier(r[i].checkId, r[j].checkId)
    requires var skips :=
               [SkippedVerification("package_audit", package), SkippedVerification("firewall_audit", firewall)];
             forall x :: x in r <==> FirstSkip(skips, x)
    ensures r == [SkippedVerification("firewall_audit", firewall), SkippedVerification("package_audit", package)]
  {
    var p, f := SkippedVerification("package_audit", package), SkippedVerification("firewall_audit", firewall);
    TwoFirstSkips(p, f);
    assert p in r && f in r && forall x :: x in r ==> x == p || x == f;
    FirewallEarlier();
    hide FirstSkip, Earlier;
    ExactlyTwo(r, f, p);
  }

  lemma FirewallEarlier()
    ensures Earlier("firewall_audit", "package_audit") && !Earlier("package_audit", "firewall_audit")
    ensures forall s: string :: !Earlier(s, s)
  {
    assert "firewall_audit"[..0] == "package_audit"[..0] && "firewall_audit"[0] < "package_audit"[0];
    assert forall k :: 0 < k <= 13 ==> "package_audit"[..k][0] != "firewall_audit"[..k][0];
  }

  lemma TwoFirstSkips(p: SkippedVerification, f: SkippedVerification)
    requires p.checkId != f.checkId
    ensures forall x :: FirstSkip([p, f], x) <==> x == p || x == f
  {
    var skips := [p, f];
    assert skips[0] == p && skips[1] == f;
  }

  lemma ExactlyTwo(r: seq<SkippedVerification>, a: SkippedVerification, b: SkippedVerification)
    requires a in r && b in r && forall x :: x in r ==> x == a || x == b
    requires !Earlier(b.checkId, a.checkId) && a != b
    requires forall s: string :: !Earlier(s, s)
    requires forall i, j :: 0 <= i < j < |r| ==> Earlier(r[i].checkId, r[j].checkId)
    ensures r == [a, b]
  {
    hide Earlier;
    var i :| 0 <= i < |r| && r[i] == a;
    var j :| 0 <= j < |r| && r[j] == b;
    assert forall k :: 0 <= k < |r| ==> r[k] in r;
    assert forall k :: 0 <= k < |r| && r[k] == a ==> k == i;
    assert forall k :: 0 <= k < |r| && r[k] == b ==> k == j;
    assert i < j;
    assert forall k :: 0 <= k < |r| ==> r[k] == a || r[k] == b;
    var middle := if |r| > 2 then 1 else 0;
    assert r[0] in r && r[middle] in r && r[|r| - 1] in r;
    assert i == 0 && j == |r| - 1 && (middle == i || middle == j);
  }

  /** The k-th task is the first of that id. */
  ghost predicate ComesAt(tasks: seq<Task>, k: nat, id: string) {
    k < |tasks| && IsFirstTask(tasks, k, id)
  }

  /** The k-th task's impact is verified by this plan, and the task skips the two audits for these reasons. */
  ghost predicate CheckedBy(
      tasks: seq<Task>, k: nat, action: ActionKind, plan: VerificationPlan, packages: string, firewall: string)
  {
    && k < |tasks| && Plan(VerificationPolicy(false, false), action, tasks[k].impact) == plan
    && tasks[k].verification.skipped
       == [SkippedVerification("package_audit", packages), SkippedVerification("firewall_audit", firewall)]
  }

  lemma RestartComesLast(request: ServiceUnhealthyRequest, c: ServiceCapabilities)
    ensures ComesAt(ServiceTasks(request, c), 5, "restart-service")
  {
    ServiceTaskNames(request, c);
    ServiceNames();
    ServiceNamesDiffer();
    hide ServiceTasks, SERVICE_COLLECTORS, StartsWith;
  }

  /** What the restart's task is to be verified by, and what it skips, when no name mentions the package database. */
  lemma RestartIsChecked(request: ServiceUnhealthyRequest, c: ServiceCapabilities)
    requires !Contains(request.nodeId, "package-db") && !Contains(request.service, "package-db")
    ensures CheckedBy(
              ServiceTasks(request, c), 5, ServiceRestart, ServicePlan(ServiceOf(request), false),
              "service-unhealthy restart mutates only the service resource, not package-db",
              "service-unhealthy restart mutates only the service resource, not firewall rules")
  {
    hide *;
    var impact, service := ServiceImpact(request), ServiceOf(request);
    RunbookAnswers.ServiceMutatorAnswers(request, c);
    RestartEnds(
      ServiceTasks(request, c), RunbookAnswers.On(request.nodeId, "service/" + request.service), c, impact,
      ServiceVerification(impact));
    RunbookAnswers.ServiceVerificationAnswers(impact);
    RestartPlan(request);
    NothingSkippedInRestart(service);
    CheckedFrom(
      ServiceTasks(request, c), 5, ServiceRestart, ServicePlan(service, false), impact,
      "service-unhealthy restart mutates only the service resource, not package-db",
      "service-unhealthy restart mutates only the service resource, not firewall rules");
  }

  lemma RestartPlan(request: ServiceUnhealthyRequest)
    requires !Contains(request.nodeId, "package-db") && !Contains(request.service, "package-db")
    ensures Plan(VerificationPolicy(false, false), ServiceRestart, ServiceImpact(request))
            == ServicePlan(ServiceOf(request), false)
  {
    hide Contains, Plan, ServicePlan, RunbookAnswers.On, PrimaryResource;
    var impact := ServiceImpact(request);
    RestartWritesPackageDb(request);
    RunbookAnswers.ServiceImpactAnswers(request);
    hide ServiceImpact;
    assert impact.writes == [RunbookAnswers.On(request.nodeId, "service/" + request.service)];
    assert NoneWith(impact.writes, "package-db");
    ServiceAnswers(VerificationPolicy(false, false), ServiceRestart, impact);
    ResourceAnswers(impact);
  }

  lemma RestartEnds(
      tasks: seq<Task>, target: string, c: ServiceCapabilities, impact: ImpactSet, verification: VerificationPlan)
    requires RunbookAnswers.EndsInRestart(tasks, target, c, impact, verification)
    ensures |tasks| == 6 && tasks[5].impact == impact && tasks[5].verification == verification
  {}

  lemma CleanupEnds(
      tasks: seq<Task>, target: string, c: DiskCapabilities, impact: ImpactSet, verification: VerificationPlan)
    requires RunbookAnswers.EndsInCleanup(tasks, target, c, impact, verification)
    ensures |tasks| == 5 && tasks[4].impact == impact && tasks[4].verification == verification
  {}

  lemma NothingSkippedInRestart(service: string)
    ensures ServicePlan(service, false).skipped == []
  {}

  /** A task that carries its action's plan and the two skips is checked by that plan. */
  lemma CheckedFrom(
      tasks: seq<Task>, k: nat, action: ActionKind, plan: VerificationPlan, impact: ImpactSet, packages: string,
      firewall: string)
    requires k < |tasks| && tasks[k].impact == impact && plan.skipped == []
    requires Plan(VerificationPolicy(false, false), action, impact) == plan
    requires tasks[k].verification == RunbookAnswers.SkipsBoth(plan, packages, firewall)
    ensures CheckedBy(tasks, k, action, plan, packages, firewall)
  {
    hide Plan;
  }


  lemma CleanupComesLast(request: DiskPressureRequest, c: DiskCapabilities)
    ensures ComesAt(DiskTasks(request, c), 4, "cleanup-allowlisted-path")
  {
    DiskTaskNames(request, c);
    DiskNames();
    DiskNamesDiffer();
    hide DiskTasks, DISK_COLLECTORS, StartsWith;
  }

  lemma CleanupResources(request: DiskPressureRequest)
    ensures PrimaryResource(DiskImpact(request)) == request.cleanupResourceId
    ensures DependentResource(DiskImpact(request))
            == RunbookAnswers.On(request.nodeId, "filesystem/" + MountFragment(request.mount))
    ensures DiskImpact(request).layer.System?
  {
    RunbookAnswers.DiskImpactAnswers(request);
    hide DiskImpact, MountFragment, RunbookAnswers.On;
    ResourceAnswers(DiskImpact(request));
  }

  lemma NothingSkipped(a: string, b: string)
    ensures CleanupPlan(a, b).skipped == []
  {}

  /** What the cleanup's task is to be verified by, and what it skips. */
  lemma CleanupIsChecked(request: DiskPressureRequest, c: DiskCapabilities)
    ensures CheckedBy(
              DiskTasks(request, c), 4, RemoveAllowlistedFile,
              CleanupPlan(request.cleanupResourceId, FilesystemOf(request)),
              "disk-pressure cleanup removes only an allowlisted path, not package-db",
              "disk-pressure cleanup does not mutate firewall rules")
  {
    hide *;
    var impact := DiskImpact(request);
    RunbookAnswers.DiskMutatorAnswers(request, c);
    CleanupEnds(DiskTasks(request, c), request.cleanupResourceId, c, impact, DiskVerification(impact));
    RunbookAnswers.DiskVerificationAnswers(impact);
    CleanupPlanIs(request);
    NothingSkipped(request.cleanupResourceId, FilesystemOf(request));
    CheckedFrom(
      DiskTasks(request, c), 4, RemoveAllowlistedFile, CleanupPlan(request.cleanupResourceId, FilesystemOf(request)),
      impact, "disk-pressure cleanup removes only an allowlisted path, not package-db",
      "disk-pressure cleanup does not mutate firewall rules");
  }

  lemma CleanupPlanIs(request: DiskPressureRequest)
    ensures Plan(VerificationPolicy(false, false), RemoveAllowlistedFile, DiskImpact(request))
            == CleanupPlan(request.cleanupResourceId, FilesystemOf(request))
  {
    hide Plan, CleanupPlan, DiskImpact, MountFragment, RunbookAnswers.On, PrimaryResource, DependentResource;
    CleanupResources(request);
    CleanupAnswers(VerificationPolicy(false, false), DiskImpact(request));
  }


  /** The story behind a receipt, with the checks and skips of its plan. */
  lemma TaskDecidesPlan(
      t: JourneyTerms, s: Runtime.PlaneState, tasks: seq<Task>, source: EvidenceSource, propose: Proposer,
      policy: Analyzer.ProposalPolicy, k: nat, plan: VerificationPlan, packages: string, firewall: string)
    requires StoryOf(t, s, tasks, source, propose, policy).Ok?
    requires ComesAt(tasks, k, t.mutatorId) && CheckedBy(tasks, k, t.action, plan, packages, firewall)
    ensures var story := StoryOf(t, s, tasks, source, propose, policy).value;
            && story.plan.required == plan.required
            && story.plan.skipped
               == [SkippedVerification("package_audit", packages), SkippedVerification("firewall_audit", firewall)]
            && story.action == t.action && story.status == HelperSucceeded
  {
    hide Plan, StoryOf, CollectAll, Collectors, Authorise, Runtime.FirstAgent, PayloadsOf, Analyzer.Sources,
      IsFirstTask;
    StoryIs(t, s, tasks, source, propose, policy, k);
  }

  /** The claims of a story are for the journey's action on the one resource that was proposed. */
  lemma StoryClaims(
      t: JourneyTerms, s: Runtime.PlaneState, tasks: seq<Task>, source: EvidenceSource, propose: Proposer,
      policy: Analyzer.ProposalPolicy, k: nat, target: string)
    requires StoryOf(t, s, tasks, source, propose, policy).Ok?
    requires k < |tasks| && IsFirstTask(tasks, k, t.mutatorId)
    requires forall evidence :: TargetsOnly(propose(evidence), t.actionId, target)
    ensures var claims := StoryOf(t, s, tasks, source, propose, policy).value.claims;
            && claims.approvalId == t.approvalId && claims.leaseId == "lease-" + t.approvalId
            && claims.target.resourceId == target
  {
    hide CollectAll, Collectors, Authorise, StoryOf, TargetsOnly, Runtime.FirstAgent, PayloadsOf, Plan,
      Analyzer.Sources, IsFirstTask;
    StoryIs(t, s, tasks, source, propose, policy, k);
    var evidence := CollectAll(s, IdentityOf(t, s), t.runId, t.node, Collectors(tasks), source).1.value;
    assert TargetsOnly(propose(evidence), t.actionId, target);
    AuthoriseExact(t, propose(evidence), tasks[k]);
    ClaimedTarget(t, propose(evidence), Authorise(t, propose(evidence), tasks[k]).value.1, target);
  }

  /** Whatever goes by this action id is on this target. */
  ghost predicate TargetsOnly(p: Analyzer.StructuredProposal, actionId: string, target: string) {
    Approval.ActionOf(p, actionId).Some? ==> Approval.ActionOf(p, actionId).value.targetResourceId == target
  }

  lemma ClaimedTarget(
      t: JourneyTerms, p: Analyzer.StructuredProposal, claims: CapabilityLeaseClaims, target: string)
    requires ClaimsFor(t, p, claims) && TargetsOnly(p, t.actionId, target)
    ensures claims.approvalId == t.approvalId && claims.leaseId == "lease-" + t.approvalId
    ensures claims.target.resourceId == target
  {
    hide Approval.ActionOf, Approval.NodeFromTarget, Analyzer.HelperAction;
  }

  /** The receipt is about this run, incident, node and approval, and about one action on one resource. */
  ghost predicate IsAbout(r: OperatorReceipt, t: JourneyTerms, target: string) {
    && r.runId == t.runId && r.incidentId == t.incidentId && r.nodeId == t.node
    && r.approvalId == t.approvalId && r.leaseId == "lease-" + t.approvalId
    && r.helperAction == t.action && r.helperStatus == HelperSucceeded && r.changedResources == [target]
  }

  /** The two skips that both runbooks add, as a receipt lists them. */
  ghost predicate SkipsOnly(r: OperatorReceipt, packages: string, firewall: string) {
    r.skippedChecks == [SkippedVerification("firewall_audit", firewall), SkippedVerification("package_audit", packages)]
  }

  lemma ToldIsAbout(r: OperatorReceipt, t: JourneyTerms, story: Story, target: string)
    requires Tells(r, t.runId, story) && SoundStory(t, story)
    requires story.status == HelperSucceeded && story.claims.approvalId == t.approvalId
    requires story.claims.leaseId == "lease-" + t.approvalId && story.claims.target.resourceId == target
    ensures IsAbout(r, t, target)
  {
    hide Earlier, FirstSkip, EndsApproved, Silent;
  }

  lemma ToldSkipsOnly(r: OperatorReceipt, runId: string, story: Story, packages: string, firewall: string)
    requires Tells(r, runId, story)
    requires story.plan.skipped
             == [SkippedVerification("package_audit", packages), SkippedVerification("firewall_audit", firewall)]
    ensures SkipsOnly(r, packages, firewall)
  {
    hide Earlier, FirstSkip;
    FirewallBeforePackages(r.skippedChecks, packages, firewall);
  }

  /** A journey's receipt, when the task's plan, its skips and the proposed target are known. */
  lemma JourneyReports(
      t: JourneyTerms, enrolment: seq<RuntimeRuns.Call>, tasks: seq<Task>, source: EvidenceSource, propose: Proposer,
      policy: Analyzer.ProposalPolicy, k: nat, target: string, plan: VerificationPlan, packages: string,
      firewall: string)
    requires WholeJourney(t, RuntimeRuns.After(Runtime.EMPTY_PLANE, enrolment), tasks, source, propose, policy).Ok?
    requires ComesAt(tasks, k, t.mutatorId) && CheckedBy(tasks, k, t.action, plan, packages, firewall)
    requires forall evidence :: TargetsOnly(propose(evidence), t.actionId, target)
    ensures var s := RuntimeRuns.After(Runtime.EMPTY_PLANE, enrolment);
            var r := WholeJourney(t, s, tasks, source, propose, policy).value.1;
            IsAbout(r, t, target) && Reports(r, plan.required) && SkipsOnly(r, packages, firewall)
  {
    hide *;
    KnownPlace(tasks, k, t.mutatorId);
    var s := RuntimeRuns.After(Runtime.EMPTY_PLANE, enrolment);
    if StoryOf(t, s, tasks, source, propose, policy).Err? {
      NoJourneyWithoutStory(t, s, tasks, source, propose, policy);
    }
    var story := StoryOf(t, s, tasks, source, propose, policy).value;
    var r := WholeJourney(t, s, tasks, source, propose, policy).value.1;
    JourneyEndsInReceipt(t, enrolment, tasks, source, propose, policy);
    StoryIsSound(t, enrolment, tasks, source, propose, policy);
    StoryClaims(t, s, tasks, source, propose, policy, k, target);
    TaskDecidesPlan(t, s, tasks, source, propose, policy, k, plan, packages, firewall);
    ToldIsAbout(r, t, story, target);
    ToldReports(r, t.runId, story);
    ToldSkipsOnly(r, t.runId, story, packages, firewall);
  }

  lemma KnownPlace(tasks: seq<Task>, k: nat, id: string)
    requires ComesAt(tasks, k, id)
    ensures k < |tasks| && IsFirstTask(tasks, k, id)
  {}

  lemma RestartTargets(id: string, node: string, service: string, actionId: string, evidence: seq<EvidenceEnvelope>)
    ensures TargetsOnly(
              ServiceProposer(id, node, service)(evidence), actionId, RunbookAnswers.On(node, "service/" + service))
  {
    hide Analyzer.AnalyzeServiceUnhealthy, Analyzer.ServiceResource, NodeResource, RunbookAnswers.On;
    OnlyAction(Analyzer.AnalyzeServiceUnhealthy(id, node, service, evidence), actionId);
    PlanReach.SameTarget(node, service);
    RunbookAnswers.OnNode(node, "service/" + service);
  }

  lemma CleanupTargets(
      id: string, node: string, mount: string, cleanup: string, allowed: seq<string>, evidence: seq<EvidenceEnvelope>)
    ensures TargetsOnly(
              DiskProposer(id, node, mount, cleanup, allowed)(evidence), "remove-allowlisted-cleanup-path", cleanup)
  {
    DiskActionName(id, node, mount, cleanup, allowed, evidence);
    hide Analyzer.AnalyzeDiskPressure, Analyzer.DiskPressed, Analyzer.CleanupPresent;
    OnlyAction(
      Analyzer.AnalyzeDiskPressure(id, node, mount, cleanup, evidence, allowed), "remove-allowlisted-cleanup-path");
  }

  /** The checks that a restarted service's receipt reports, and their resource. */
  function RestartChecks(service: string): seq<VerificationCheck> {
    [VerificationCheck("helper_result_matches_request", service, DirectImpact),
     VerificationCheck("service_active", service, DirectImpact)]
  }

  lemma RestartChecksAre(service: string)
    ensures ServicePlan(service, false).required == RestartChecks(service)
  {}

  /** The checks that a cleanup's receipt reports, and their resources. */
  function CleanupChecks(cleaned: string, filesystem: string): seq<VerificationCheck> {
    [VerificationCheck("helper_result_matches_request", cleaned, DirectImpact),
     VerificationCheck("free_space_improved", filesystem, DirectImpact),
     VerificationCheck("cleaned_paths_match_allowlist", cleaned, DirectImpact),
     VerificationCheck("no_unrelated_deletion_reported", cleaned, DirectImpact)]
  }

  lemma CleanupChecksAre(cleaned: string, filesystem: string)
    ensures CleanupPlan(cleaned, filesystem).required == CleanupChecks(cleaned, filesystem)
  {}

  /** The service's resource on the requested node. */
  function ServiceOf(request: ServiceUnhealthyRequest): string {
    RunbookAnswers.On(request.nodeId, "service/" + request.service)
  }

  /** The filesystem of the requested mount point on the requested node. */
  function FilesystemOf(request: DiskPressureRequest): string {
    RunbookAnswers.On(request.nodeId, "filesystem/" + MountFragment(request.mount))
  }

  /**
   The receipt of a successful service journey reports the restart of the requested service, verified by the helper's
   result and the service being active and by nothing else, as long as no name mentions the package database.
   */
  lemma ServiceJourneyReports(
      t: JourneyTerms, request: ServiceUnhealthyRequest, report: CapabilityReport, enrolment: seq<RuntimeRuns.Call>,
      source: EvidenceSource, proposalId: string)
    requires PlanServiceUnhealthy(request, report).Ok? && AsksForRestart(t, request)
    requires !Contains(request.nodeId, "package-db") && !Contains(request.service, "package-db")
    requires ServiceJourney(t, request, report, enrolment, source, proposalId).Ok?
    ensures var r := ServiceJourney(t, request, report, enrolment, source, proposalId).value.1;
            && IsAbout(r, t, ServiceOf(request)) && Reports(r, RestartChecks(ServiceOf(request)))
            && SkipsOnly(
                 r, "service-unhealthy restart mutates only the service resource, not package-db",
                 "service-unhealthy restart mutates only the service resource, not firewall rules")
  {
    hide *;
    ServiceJourneyTerms(t, request, report, enrolment, source, proposalId);
    PlannedServiceTasks(request, report);
    var plan := PlanServiceUnhealthy(request, report).value;
    RestartComesLast(request, plan.capabilities);
    RestartIsChecked(request, plan.capabilities);
    RestartChecksAre(ServiceOf(request));
    ServiceOfIs(request);
    RestartNames(t, request);
    var propose := ServiceProposer(proposalId, request.nodeId, request.service);
    forall evidence
      ensures TargetsOnly(propose(evidence), t.actionId, ServiceOf(request))
    {
      RestartTargets(proposalId, request.nodeId, request.service, t.actionId, evidence);
    }
    JourneyReports(
      t, enrolment, plan.run.tasks, source, propose, Analyzer.SERVICE_UNHEALTHY_POLICY, 5, ServiceOf(request),
      ServicePlan(ServiceOf(request), false),
      "service-unhealthy restart mutates only the service resource, not package-db",
      "service-unhealthy restart mutates only the service resource, not firewall rules");
  }

  lemma ServiceOfIs(request: ServiceUnhealthyRequest)
    ensures ServiceOf(request) == RunbookAnswers.On(request.nodeId, "service/" + request.service)
  {}

  lemma RestartNames(t: JourneyTerms, request: ServiceUnhealthyRequest)
    requires AsksForRestart(t, request)
    ensures t.mutatorId == "restart-service" && t.action == ServiceRestart
  {}

  /**
   The receipt of a successful disk journey reports the cleanup of the requested resource, verified by the helper's
   result, the space gained on the filesystem, and two checks on what was deleted.
   */
  lemma DiskJourneyReports(
      t: JourneyTerms, request: DiskPressureRequest, report: CapabilityReport, enrolment: seq<RuntimeRuns.Call>,
      source: EvidenceSource, proposalId: string, allowed: seq<string>)
    requires PlanDiskPressure(request, report).Ok? && AsksForCleanup(t, request)
    requires DiskJourney(t, request, report, enrolment, source, proposalId, allowed).Ok?
    ensures var r := DiskJourney(t, request, report, enrolment, source, proposalId, allowed).value.1;
            && IsAbout(r, t, request.cleanupResourceId)
            && Reports(r, CleanupChecks(request.cleanupResourceId, FilesystemOf(request)))
            && SkipsOnly(
                 r, "disk-pressure cleanup removes only an allowlisted path, not package-db",
                 "disk-pressure cleanup does not mutate firewall rules")
  {
    hide *;
    DiskJourneyTerms(t, request, report, enrolment, source, proposalId, allowed);
    PlannedDiskTasks(request, report);
    var plan := PlanDiskPressure(request, report).value;
    CleanupComesLast(request, plan.capabilities);
    CleanupIsChecked(request, plan.capabilities);
    CleanupChecksAre(request.cleanupResourceId, FilesystemOf(request));
    FilesystemOfIs(request);
    CleanupNames(t, request);
    var propose := DiskProposer(proposalId, request.nodeId, request.mount, request.cleanupResourceId, allowed);
    forall evidence
      ensures TargetsOnly(propose(evidence), t.actionId, request.cleanupResourceId)
    {
      CleanupTargets(proposalId, request.nodeId, request.mount, request.cleanupResourceId, allowed, evidence);
    }
    JourneyReports(
      t, enrolment, plan.run.tasks, source, propose, Analyzer.DISK_PRESSURE_POLICY, 4, request.cleanupResourceId,
      CleanupPlan(request.cleanupResourceId, FilesystemOf(request)),
      "disk-pressure cleanup removes only an allowlisted path, not package-db",
      "disk-pressure cleanup does not mutate firewall rules");
  }

  lemma FilesystemOfIs(request: DiskPressureRequest)
    ensures FilesystemOf(request) == RunbookAnswers.On(request.nodeId, "filesystem/" + MountFragment(request.mount))
  {}

  lemma CleanupNames(t: JourneyTerms, request: DiskPressureRequest)
    requires AsksForCleanup(t, request)
    ensures t.mutatorId == "cleanup-allowlisted-path" && t.action == RemoveAllowlistedFile
    ensures t.actionId == "remove-allowlisted-cleanup-path"
  {}
}
