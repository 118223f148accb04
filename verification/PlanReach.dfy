/** What planned tasks may touch, and how that meets what the analyzers propose and the helper does. */
module PlanReach {
  import opened Wrappers
  import opened Seqs
  import opened Domain
  import opened Scheduler
  import opened Analyzer
  import opened Approval
  import opened Helper
  import opened Runbooks
  import Binding

  /** Every capability that the task needs was reported by the node. */
  ghost predicate Equipped(task: Task, report: CapabilityReport) {
    task.requiredCapabilities != [] && forall c :: c in task.requiredCapabilities ==> Supports(report, c)
  }

  /** The task touches resources of one node only, and changes at most one of them. */
  ghost predicate StaysWithin(task: Task, node: string, target: string) {
    && (forall x :: x in task.readsFrom ==> NodeResource(node, "") <= x || x == target)
    && (forall x :: x in task.writesTo ==> x == target)
    && (forall q :: q in EffectiveLeaseRequests(task) && IsMutating(q.mode) ==> q.resourceId == target)
  }

  lemma OnNode(node: string, rest: string)
    ensures NodeResource(node, "") <= NodeResource(node, rest)
  {
    assert NodeResource(node, rest) == NodeResource(node, "") + rest;
  }

  lemma CollectorStaysWithin(id: string, c: Capability, reads_: seq<string>, node: string, target: string)
    requires forall x :: x in reads_ ==> NodeResource(node, "") <= x || x == target
    ensures StaysWithin(Collector(id, c, reads_), node, target)
  {
    hide NodeResource;
  }

  lemma MutatorStaysWithin(
      id: string, capabilities: seq<Capability>, target: string, reason: string, dependencies: seq<string>,
      impact: ImpactSet, verification: VerificationPlan, node: string)
    ensures StaysWithin(Mutator(id, capabilities, target, reason, dependencies, impact, verification), node, target)
  {
    hide NodeResource;
  }

  /** The planner and the analyzer name the service by the same resource. */
  lemma SameTarget(node: string, service: string)
    ensures NodeResource(node, "service/" + service) == ServiceResource(node, service)
  {
    calc {
      NodeResource(node, "service/" + service);
      "system:node/" + node + "/" + ("service/" + service);
      "system:node/" + node + ("/" + "service/") + service;
      { assert "/" + "service/" == "/service/"; }
      ServiceResource(node, service);
    }
  }

  lemma ServiceTasksReach(request: ServiceUnhealthyRequest, c: ServiceCapabilities, k: nat)
    requires k < 6
    ensures |ServiceTasks(request, c)| == 6
    ensures StaysWithin(
              ServiceTasks(request, c)[k], request.nodeId, NodeResource(request.nodeId, "service/" + request.service))
  {
    hide NodeResource, ServiceVerification, StaysWithin;
    var target := NodeResource(request.nodeId, "service/" + request.service);
    var t := ServiceTasks(request, c)[k];
    OnNode(request.nodeId, "logs/" + request.service);
    OnNode(request.nodeId, "filesystem");
    OnNode(request.nodeId, "processes");
    OnNode(request.nodeId, "sockets");
    if k < 5 {
      CollectorStaysWithin(t.id, t.requiredCapabilities[0], t.readsFrom, request.nodeId, target);
    } else {
      MutatorStaysWithin(
        t.id, t.requiredCapabilities, target, t.leaseRequests[0].reason, t.dependencies, t.impact, t.verification,
        request.nodeId);
    }
  }

  lemma ServiceTasksEquipped(request: ServiceUnhealthyRequest, report: CapabilityReport, k: nat)
    requires SelectServiceCapabilities(report).Ok? && k < 6
    ensures Equipped(ServiceTasks(request, SelectServiceCapabilities(report).value)[k], report)
  {
    hide NodeResource, ServiceVerification, ServiceImpact, SelectServiceCapabilities, DriverCapability, LogCapability,
      ProcessCapability, SocketCapability, PrivilegeCapability;
  }

  lemma DiskTasksReach(request: DiskPressureRequest, c: DiskCapabilities, k: nat)
    requires k < 5
    ensures |DiskTasks(request, c)| == 5
    ensures StaysWithin(DiskTasks(request, c)[k], request.nodeId, request.cleanupResourceId)
  {
    hide NodeResource, DiskVerification, StaysWithin;
    var t := DiskTasks(request, c)[k];
    OnNode(request.nodeId, "logs/disk-pressure");
    OnNode(request.nodeId, "filesystem/" + MountFragment(request.mount));
    if k < 4 {
      CollectorStaysWithin(t.id, t.requiredCapabilities[0], t.readsFrom, request.nodeId, request.cleanupResourceId);
    } else {
      MutatorStaysWithin(
        t.id, t.requiredCapabilities, request.cleanupResourceId, t.leaseRequests[0].reason, t.dependencies, t.impact,
        t.verification, request.nodeId);
    }
  }

  lemma DiskTasksEquipped(request: DiskPressureRequest, report: CapabilityReport, k: nat)
    requires SelectDiskCapabilities(report).Ok? && k < 5
    ensures Equipped(DiskTasks(request, SelectDiskCapabilities(report).value)[k], report)
  {
    hide NodeResource, DiskVerification, DiskImpact, SelectDiskCapabilities, LogCapability, PrivilegeCapability;
  }

  /** A run declares what its last task changes: one target, held exclusively, under one impact and verification. */
  ghost predicate DeclaresItsChange(run: RunRecord, target: string) {
    && run.tasks != []
    && var last := run.tasks[|run.tasks| - 1];
       && last.writesTo == [target] && run.impact.writes == [target]
       && last.impact == run.impact && last.verification == run.verification
       && (exists q :: q in EffectiveLeaseRequests(last) && q.mode.Exclusive? && q.resourceId == target)
       && forall i :: 0 <= i < |run.tasks| - 1 ==> run.tasks[i].writesTo == []
  }

  /** Every task can be done by the reporting node and stays on `node`, and only `target` is changed. */
  ghost predicate ReachesOnly(run: RunRecord, runId: string, report: CapabilityReport, node: string, target: string) {
    && run.id == runId
    && (forall k :: 0 <= k < |run.tasks| ==> Equipped(run.tasks[k], report))
    && (forall k :: 0 <= k < |run.tasks| ==> StaysWithin(run.tasks[k], node, target))
    && DeclaresItsChange(run, target)
  }

  /** The resource of a proposal's first action. */
  function ProposedTarget(proposal: StructuredProposal): string {
    if proposal.proposedActions == [] then "" else proposal.proposedActions[0].targetResourceId
  }

  lemma ServiceRunDeclares(request: ServiceUnhealthyRequest, c: ServiceCapabilities)
    ensures DeclaresItsChange(
              ServiceRun(request, c), NodeResource(request.nodeId, "service/" + request.service))
  {
    hide NodeResource, ServiceVerification;
    var last := ServiceTasks(request, c)[5];
    assert last.leaseRequests[0] in EffectiveLeaseRequests(last);
  }

  lemma DiskRunDeclares(request: DiskPressureRequest, c: DiskCapabilities)
    ensures DeclaresItsChange(DiskRun(request, c), request.cleanupResourceId)
  {
    hide NodeResource, DiskVerification;
    var last := DiskTasks(request, c)[4];
    assert last.leaseRequests[0] in EffectiveLeaseRequests(last);
  }

  /**
   Every task of a planned service run can be done by the node and stays on it, and the run changes only the
   resource that the analyzer's proposal for that service targets, whatever the evidence.
   */
  lemma ServicePlanReach(
      request: ServiceUnhealthyRequest, report: CapabilityReport, id: string, evidence: seq<EvidenceEnvelope>)
    requires PlanServiceUnhealthy(request, report).Ok?
    ensures ReachesOnly(
              PlanServiceUnhealthy(request, report).value.run, request.runId, report, request.nodeId,
              ProposedTarget(AnalyzeServiceUnhealthy(id, request.nodeId, request.service, evidence)))
  {
    hide AnalyzeServiceUnhealthy, NodeResource, ServiceResource, ServiceTasks, ServiceImpact, ServiceVerification,
      StaysWithin, Equipped, DeclaresItsChange, SelectServiceCapabilities;
    var c := PlanServiceUnhealthy(request, report).value.capabilities;
    SameTarget(request.nodeId, request.service);
    ServiceTasksReach(request, c, 0);
    forall k | 0 <= k < 6
      ensures StaysWithin(
                ServiceTasks(request, c)[k], request.nodeId, NodeResource(request.nodeId, "service/" + request.service))
      ensures Equipped(ServiceTasks(request, c)[k], report)
    {
      ServiceTasksReach(request, c, k);
      ServiceTasksEquipped(request, report, k);
    }
    ServiceRunDeclares(request, c);
  }

  /** The same for a planned disk run, which changes only the cleanup resource it was asked for. */
  lemma DiskPlanReach(request: DiskPressureRequest, report: CapabilityReport)
    requires PlanDiskPressure(request, report).Ok?
    ensures ReachesOnly(
              PlanDiskPressure(request, report).value.run, request.runId, report, request.nodeId,
              request.cleanupResourceId)
  {
    hide NodeResource, DiskTasks, DiskImpact, DiskVerification, StaysWithin, Equipped, DeclaresItsChange,
      SelectDiskCapabilities;
    var c := PlanDiskPressure(request, report).value.capabilities;
    DiskTasksReach(request, c, 0);
    forall k | 0 <= k < 5
      ensures StaysWithin(DiskTasks(request, c)[k], request.nodeId, request.cleanupResourceId)
      ensures Equipped(DiskTasks(request, c)[k], report)
    {
      DiskTasksReach(request, c, k);
      DiskTasksEquipped(request, report, k);
    }
    DiskRunDeclares(request, c);
  }

  /** A helper acting on a service proposal changes only what the planned run's mutator holds exclusively. */
  lemma HelperActsAsPlanned(
      plan: ServiceUnhealthyRequest, report: CapabilityReport, id: string, evidence: seq<EvidenceEnvelope>,
      s: StoreState, terms: Binding.ApprovalTerms, expectedActionId: string, actor: string, now: nat, entry: string,
      nonce: string, request: HelperActionRequest, lease: SignedCapabilityLease, context: HelperValidationContext)
    requires PlanServiceUnhealthy(plan, report).Ok? && '/' !in plan.nodeId
    requires var p := AnalyzeServiceUnhealthy(id, plan.nodeId, plan.service, evidence);
             Show(s, terms.id) == Some(Binding.ApprovalOf(p, terms))
    requires Approve(s, terms.id, expectedActionId, actor, now, entry, nonce).1 == Ok(lease.claims)
    requires ValidateHelperRequest(request, lease, context).Ok?
    ensures DeclaresItsChange(PlanServiceUnhealthy(plan, report).value.run, request.target.resourceId)
    ensures context.nodeId == report.nodeId
  {
    hide *;
    Binding.EvidenceToHelper(
      id, plan.nodeId, plan.service, evidence, s, terms, expectedActionId, actor, now, entry, nonce, request, lease,
      context);
    ServicePlanReach(plan, report, id, evidence);
    ProposedForService(id, plan.nodeId, plan.service, evidence);
    DeclaredByReach(
      PlanServiceUnhealthy(plan, report).value.run, plan.runId, report, plan.nodeId,
      ProposedTarget(AnalyzeServiceUnhealthy(id, plan.nodeId, plan.service, evidence)));
    PlannedForReporter(plan, report);
  }

  lemma ProposedForService(id: string, node: string, service: string, evidence: seq<EvidenceEnvelope>)
    ensures ProposedTarget(AnalyzeServiceUnhealthy(id, node, service, evidence)) == ServiceResource(node, service)
  {
    hide AnalyzeServiceUnhealthy, ServiceResource;
  }

  lemma DeclaredByReach(run: RunRecord, runId: string, report: CapabilityReport, node: string, target: string)
    requires ReachesOnly(run, runId, report, node, target)
    ensures DeclaresItsChange(run, target)
  {
    hide DeclaresItsChange, StaysWithin, Equipped;
  }

  lemma PlannedForReporter(plan: ServiceUnhealthyRequest, report: CapabilityReport)
    requires PlanServiceUnhealthy(plan, report).Ok?
    ensures plan.nodeId == report.nodeId
  {
    hide ServiceRun, SelectServiceCapabilities;
  }
}
