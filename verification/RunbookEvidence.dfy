/** The evidence loop over the two planned runbooks. */
module RunbookEvidence {
  import opened Wrappers
  import opened Seqs
  import opened Strings
  import opened Domain
  import opened Runtime
  import opened Runbooks
  import opened E2e

  /** The evidence that stands for each collect task of the service runbook. */
  function ServiceEvidence(taskId: string): Result<EvidenceEnvelope, E2eError> {
    if taskId == "collect-service-status" then Ok(TextEvidence("service_status", "service=not-active"))
    else if taskId == "collect-recent-logs" then
      Ok(TextEvidence("recent_logs", "sshd failed with connection refused"))
    else if taskId == "collect-disk-snapshot" then Ok(TextEvidence("disk_snapshot", "disk=present / 40%"))
    else if taskId == "collect-process-snapshot" then
      Ok(TextEvidence("process_snapshot", "process=present sshd missing"))
    else if taskId == "collect-socket-snapshot" then
      Ok(TextEvidence("socket_snapshot", "socket=present port 22 absent"))
    else Err(UnsupportedEvidenceTask(taskId))
  }

  /** The evidence that stands for each collect task of the disk runbook. */
  function DiskEvidence(taskId: string): Result<EvidenceEnvelope, E2eError> {
    if taskId == "collect-disk-usage" then Ok(TextEvidence("disk_usage", "disk_pressure=high mount=/ usage=92"))
    else if taskId == "collect-cleanup-candidate" then
      Ok(TextEvidence(
           "cleanup_candidate", "cleanup_candidate=present path=/var/tmp/runlane-demo-cache bytes=524288000"))
    else if taskId == "collect-disk-pressure-logs" then
      Ok(TextEvidence("disk_pressure_logs", "log=present disk pressure detected; no deletion command supplied"))
    else if taskId == "collect-pre-action-snapshot" then
      Ok(TextEvidence(
           "pre_action_snapshot", "pre_action_snapshot=present free_space=low cleanup_candidate=present"))
    else Err(UnsupportedEvidenceTask(taskId))
  }

  // ----- Collectors in front of one other task -----

  lemma CollectorsFirst(tasks: seq<Task>)
    requires tasks != [] && !IsCollect(tasks[|tasks| - 1])
    requires forall i :: 0 <= i < |tasks| - 1 ==> IsCollect(tasks[i])
    ensures Collectors(tasks) == tasks[..|tasks| - 1]
  {
    var front := tasks[..|tasks| - 1];
    assert tasks == front + [tasks[|tasks| - 1]];
    FilterAppend(front, tasks[|tasks| - 1], IsCollect);
    FilterAll(front, IsCollect);
  }

  /** Equipped tasks with distinct collector names, followed by one task that collects nothing. */
  ghost predicate CollectsAs(tasks: seq<Task>, names: seq<string>) {
    && |tasks| == |names| + 1 && 0 < |names| <= 90 && Distinct(names)
    && !IsCollect(tasks[|names|])
    && forall i :: 0 <= i < |names| ==>
         && tasks[i].id == names[i] && StartsWith(names[i], "collect-")
         && tasks[i].requiredCapabilities != [] && tasks[i].readsFrom != []
  }

  /** The ids of the tasks, and that all but the last are equipped to collect. */
  ghost predicate Named(tasks: seq<Task>, names: seq<string>, last: string) {
    && |tasks| == |names| + 1 && tasks[|names|].id == last
    && forall i :: 0 <= i < |names| ==>
         tasks[i].id == names[i] && tasks[i].requiredCapabilities != [] && tasks[i].readsFrom != []
  }

  lemma CollectableByName(
      tasks: seq<Task>, names: seq<string>, agents: seq<AgentIdentityRecord>, identity: AgentIdentity, node: string,
      source: EvidenceSource)
    requires CollectsAs(tasks, names)
    ensures Collectors(tasks) == tasks[..|names|]
    ensures Collectable(agents, identity, node, Collectors(tasks), source)
            <==> AgentReady(agents, identity, node) && forall i :: 0 <= i < |names| ==> source(names[i]).Ok?
  {
    hide StartsWith, Filter, AgentReady;
    CollectorsFirst(tasks);
    var front := tasks[..|names|];
    if forall i :: 0 <= i < |names| ==> source(names[i]).Ok? {
      assert forall i :: 0 <= i < |front| ==> TaskReady(front[i], source);
    }
    if forall i :: 0 <= i < |front| ==> TaskReady(front[i], source) {
      assert forall i :: 0 <= i < |names| ==> source(front[i].id).Ok?;
    }
  }

  /** On a plane on which nothing has happened, the loop succeeds exactly for a ready agent and complete evidence. */
  lemma CollectsByName(
      s: PlaneState, identity: AgentIdentity, runId: string, node: string, tasks: seq<Task>, names: seq<string>,
      source: EvidenceSource)
    requires CollectsAs(tasks, names)
    requires s.pending == [] && s.pulled == [] && s.results == [] && ResultsSound(s)
    ensures LoopExact(s, identity, runId, node, tasks, names, source)
  {
    hide CollectAll, AgentReady, Collectable, CollectsAs, Collectors;
    CollectableByName(tasks, names, s.agents, identity, node, source);
    EvidenceLoopExact(s, identity, runId, node, Collectors(tasks), source);
    NamesOf(tasks, names);
  }

  lemma NamesOf(tasks: seq<Task>, names: seq<string>)
    requires CollectsAs(tasks, names)
    ensures |tasks| == |names| + 1 && forall i :: 0 <= i < |names| ==> tasks[i].id == names[i]
  {}

  /** The loop succeeds exactly for a ready agent and complete evidence, and returns the evidence in order. */
  ghost predicate LoopExact(
      s: PlaneState, identity: AgentIdentity, runId: string, node: string, tasks: seq<Task>, names: seq<string>,
      source: EvidenceSource)
  {
    var r := CollectAll(s, identity, runId, node, Collectors(tasks), source).1;
    && (r.Ok? <==> AgentReady(s.agents, identity, node) && forall i :: 0 <= i < |names| ==> source(names[i]).Ok?)
    && (r.Ok? ==> |r.value| == |names| && forall i :: 0 <= i < |names| ==> source(names[i]) == Ok(r.value[i]))
  }

  lemma CompleteEvidenceCollects(
      s: PlaneState, identity: AgentIdentity, runId: string, node: string, tasks: seq<Task>, names: seq<string>,
      source: EvidenceSource)
    requires LoopExact(s, identity, runId, node, tasks, names, source)
    requires forall i :: 0 <= i < |names| ==> source(names[i]).Ok?
    ensures CollectAll(s, identity, runId, node, Collectors(tasks), source).1.Ok?
            <==> AgentReady(s.agents, identity, node)
  {
    hide CollectAll, Collectors, AgentReady;
  }

  // ----- The service runbook -----

  lemma ServiceNames()
    ensures forall i :: 0 <= i < 5 ==> StartsWith(SERVICE_COLLECTORS[i], "collect-")
    ensures !StartsWith("restart-service", "collect-")
  {
    var names := SERVICE_COLLECTORS;
    assert names[0] == "collect-" + "service-status";
    assert names[1] == "collect-" + "recent-logs";
    assert names[2] == "collect-" + "disk-snapshot";
    assert names[3] == "collect-" + "process-snapshot";
    assert names[4] == "collect-" + "socket-snapshot";
    assert "restart-service"[0] != "collect-"[0];
  }

  lemma ServiceNamesDiffer()
    ensures |SERVICE_COLLECTORS| == 5 && Distinct(SERVICE_COLLECTORS)
  {
    var names := SERVICE_COLLECTORS;
    assert forall i, j :: 0 <= i < j < 5 ==> |names[i]| != |names[j]|;
  }

  lemma ServiceTasksCollect(request: ServiceUnhealthyRequest, c: ServiceCapabilities)
    ensures CollectsAs(ServiceTasks(request, c), SERVICE_COLLECTORS)
  {
    ServiceNames();
    ServiceNamesDiffer();
    hide ServiceVerification, NodeResource, ServiceImpact, StartsWith, SERVICE_COLLECTORS, Distinct;
    ServiceTaskNames(request, c);
  }

  lemma ServiceTaskNames(request: ServiceUnhealthyRequest, c: ServiceCapabilities)
    ensures Named(ServiceTasks(request, c), SERVICE_COLLECTORS, "restart-service")
  {
    hide ServiceVerification, NodeResource, ServiceImpact;
  }

  lemma ServiceEvidenceComplete()
    ensures forall i :: 0 <= i < 5 ==> ServiceEvidence(SERVICE_COLLECTORS[i]).Ok?
  {
    hide TextEvidence;
  }

  /** Whatever the evidence, the loop over a planned service run succeeds exactly for the agent of the planned node. */
  lemma ServiceRunCollects(
      request: ServiceUnhealthyRequest, report: CapabilityReport, s: PlaneState, identity: AgentIdentity,
      source: EvidenceSource)
    requires PlanServiceUnhealthy(request, report).Ok?
    requires s.pending == [] && s.pulled == [] && s.results == [] && ResultsSound(s)
    ensures LoopExact(
              s, identity, request.runId, request.nodeId, PlanServiceUnhealthy(request, report).value.run.tasks,
              SERVICE_COLLECTORS, source)
  {
    hide *;
    PlannedServiceTasks(request, report);
    var plan := PlanServiceUnhealthy(request, report).value;
    ServiceTasksCollect(request, plan.capabilities);
    CollectsByName(s, identity, request.runId, request.nodeId, plan.run.tasks, SERVICE_COLLECTORS, source);
  }

  /** With the service runbook's own evidence, the loop over its run succeeds exactly for the planned node's agent. */
  lemma ServiceRunCollectable(
      request: ServiceUnhealthyRequest, report: CapabilityReport, s: PlaneState, identity: AgentIdentity)
    requires PlanServiceUnhealthy(request, report).Ok?
    requires s.pending == [] && s.pulled == [] && s.results == [] && ResultsSound(s)
    ensures var tasks := PlanServiceUnhealthy(request, report).value.run.tasks;
            CollectAll(s, identity, request.runId, request.nodeId, Collectors(tasks), ServiceEvidence).1.Ok?
            <==> AgentReady(s.agents, identity, request.nodeId)
  {
    hide *;
    ServiceRunCollects(request, report, s, identity, ServiceEvidence);
    ServiceEvidenceComplete();
    ServiceNamesDiffer();
    CompleteEvidenceCollects(
      s, identity, request.runId, request.nodeId, PlanServiceUnhealthy(request, report).value.run.tasks,
      SERVICE_COLLECTORS, ServiceEvidence);
  }

  // ----- The disk runbook -----

  lemma DiskNames()
    ensures forall i :: 0 <= i < 4 ==> StartsWith(DISK_COLLECTORS[i], "collect-")
    ensures !StartsWith("cleanup-allowlisted-path", "collect-")
  {
    var names := DISK_COLLECTORS;
    assert names[0] == "collect-" + "disk-usage";
    assert names[1] == "collect-" + "cleanup-candidate";
    assert names[2] == "collect-" + "disk-pressure-logs";
    assert names[3] == "collect-" + "pre-action-snapshot";
    assert "cleanup-allowlisted-path"[1] != "collect-"[1];
  }

  lemma DiskNamesDiffer()
    ensures |DISK_COLLECTORS| == 4 && Distinct(DISK_COLLECTORS)
  {
    var names := DISK_COLLECTORS;
    assert forall i, j :: 0 <= i < j < 4 ==> |names[i]| != |names[j]|;
  }

  lemma DiskTasksCollect(request: DiskPressureRequest, c: DiskCapabilities)
    ensures CollectsAs(DiskTasks(request, c), DISK_COLLECTORS)
  {
    DiskNames();
    DiskNamesDiffer();
    hide DiskVerification, NodeResource, DiskImpact, StartsWith, DISK_COLLECTORS, Distinct;
    DiskTaskNames(request, c);
  }

  lemma DiskTaskNames(request: DiskPressureRequest, c: DiskCapabilities)
    ensures Named(DiskTasks(request, c), DISK_COLLECTORS, "cleanup-allowlisted-path")
  {
    hide DiskVerification, NodeResource, DiskImpact;
  }

  lemma DiskEvidenceComplete()
    ensures forall i :: 0 <= i < 4 ==> DiskEvidence(DISK_COLLECTORS[i]).Ok?
  {
    hide TextEvidence;
  }

  /** Whatever the evidence, the loop over a planned disk run succeeds exactly for the agent of the planned node. */
  lemma DiskRunCollects(
      request: DiskPressureRequest, report: CapabilityReport, s: PlaneState, identity: AgentIdentity,
      source: EvidenceSource)
    requires PlanDiskPressure(request, report).Ok?
    requires s.pending == [] && s.pulled == [] && s.results == [] && ResultsSound(s)
    ensures LoopExact(
              s, identity, request.runId, request.nodeId, PlanDiskPressure(request, report).value.run.tasks,
              DISK_COLLECTORS, source)
  {
    hide *;
    PlannedDiskTasks(request, report);
    var plan := PlanDiskPressure(request, report).value;
    DiskTasksCollect(request, plan.capabilities);
    CollectsByName(s, identity, request.runId, request.nodeId, plan.run.tasks, DISK_COLLECTORS, source);
  }

  /** With the disk runbook's own evidence, the loop over its run succeeds exactly for the planned node's agent. */
  lemma DiskRunCollectable(
      request: DiskPressureRequest, report: CapabilityReport, s: PlaneState, identity: AgentIdentity)
    requires PlanDiskPressure(request, report).Ok?
    requires s.pending == [] && s.pulled == [] && s.results == [] && ResultsSound(s)
    ensures var tasks := PlanDiskPressure(request, report).value.run.tasks;
            CollectAll(s, identity, request.runId, request.nodeId, Collectors(tasks), DiskEvidence).1.Ok?
            <==> AgentReady(s.agents, identity, request.nodeId)
  {
    hide *;
    DiskRunCollects(request, report, s, identity, DiskEvidence);
    DiskEvidenceComplete();
    DiskNamesDiffer();
    CompleteEvidenceCollects(
      s, identity, request.runId, request.nodeId, PlanDiskPressure(request, report).value.run.tasks, DISK_COLLECTORS,
      DiskEvidence);
  }
}
