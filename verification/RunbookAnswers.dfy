/** What the two planners plan, task by task. */
module RunbookAnswers {
  import opened Wrappers
  import opened Strings
  import opened Domain
  import opened Verification
  import opened Runbooks

  /** A task that collects: what it needs, what it reads, and nothing else. */
  ghost predicate Collects(task: Task, id: string, capability: Capability, reads_: seq<string>) {
    && task.id == id && task.layer == System && task.requiredCapabilities == [capability]
    && task.readsFrom == reads_ && task.writesTo == [] && task.leaseRequests == [] && task.dependencies == []
    && task.impact == ImpactSet(System, [], [], []) && task.verification == VerificationPlan([], [], [])
  }

  /** A task that changes one target, holding it exclusively, after the tasks it depends on. */
  ghost predicate Alters(task: Task, id: string, needs: seq<Capability>, target: string, reason: string) {
    && task.id == id && task.layer == System && task.requiredCapabilities == needs
    && task.readsFrom == [target] && task.writesTo == [target]
    && task.leaseRequests == [ResourceLeaseRequest(target, Exclusive, reason)]
  }

  /** A resource of the node. */
  function On(node: string, rest: string): string {
    "system:node/" + node + "/" + rest
  }

  lemma OnNode(node: string, rest: string)
    ensures NodeResource(node, rest) == On(node, rest)
  {}

  // ----- Capabilities -----

  /** The capability of each native system, by name. */
  lemma CapabilityAnswers()
    ensures DriverFor(Linux) == Systemd && DriverFor(FreeBsd) == FreeBsdRc && DriverFor(OpenBsd) == OpenBsdRcctl
    ensures DriverCapability(Systemd).id == "service.systemd" && DriverCapability(FreeBsdRc).id == "service.freebsd-rc"
    ensures DriverCapability(OpenBsdRcctl).id == "service.openbsd-rcctl"
    ensures LogCapability(Linux).id == "logs.journald" && LogCapability(FreeBsd).id == "logs.syslog-file"
    ensures LogCapability(OpenBsd).id == "logs.syslog-file"
    ensures ProcessCapability(Linux).id == "process.procfs" && ProcessCapability(FreeBsd).id == "process.procstat"
    ensures ProcessCapability(OpenBsd).id == "process.ps"
    ensures SocketCapability(Linux).id == "socket.ss" && SocketCapability(FreeBsd).id == "socket.sockstat"
    ensures SocketCapability(OpenBsd).id == "socket.fstat"
    ensures PrivilegeCapability(Linux).id == "privilege.sudo-helper"
    ensures PrivilegeCapability(FreeBsd).id == "privilege.sudo-helper"
    ensures PrivilegeCapability(OpenBsd).id == "privilege.doas-helper" && STORAGE_CAPABILITY.id == "storage.df"
    ensures !HasDriver(Solaris) && !HasDriver(Illumos) && !HasDriver(OperatingSystem.Unknown)
  {}

  // ----- The service runbook -----

  lemma ServiceImpactAnswers(request: ServiceUnhealthyRequest)
    ensures var node := request.nodeId;
            ServiceImpact(request)
            == ImpactSet(
                 System, [On(node, "service/" + request.service)],
                 ["platform:on-node/" + node, "application:on-node/" + node],
                 [On(node, "package-db"), On(node, "firewall")])
  {}

  /** Status, logs, disk, processes and sockets are collected, each with its own capability from its own resource. */
  ghost predicate CollectsForService(tasks: seq<Task>, request: ServiceUnhealthyRequest, c: ServiceCapabilities) {
    var node := request.nodeId;
    && |tasks| == 6
    && Collects(tasks[0], "collect-service-status", c.service, [On(node, "service/" + request.service)])
    && Collects(tasks[1], "collect-recent-logs", c.log, [On(node, "logs/" + request.service)])
    && Collects(tasks[2], "collect-disk-snapshot", c.storage, [On(node, "filesystem")])
    && Collects(tasks[3], "collect-process-snapshot", c.process, [On(node, "processes")])
    && Collects(tasks[4], "collect-socket-snapshot", c.socket, [On(node, "sockets")])
  }

  function FiveCollectors(): seq<string> {
    ["collect-service-status", "collect-recent-logs", "collect-disk-snapshot", "collect-process-snapshot",
     "collect-socket-snapshot"]
  }

  /** The restart needs the service's capability and privilege, and waits for all five. */
  ghost predicate EndsInRestart(
      tasks: seq<Task>, target: string, c: ServiceCapabilities, impact: ImpactSet, verification: VerificationPlan)
  {
    && |tasks| == 6
    && var task := tasks[5];
    && Alters(
         task, "restart-service", [c.service, c.privilege], target,
         "service-unhealthy restart requires serialized service mutation")
    && task.dependencies == FiveCollectors() && task.impact == impact && task.verification == verification
  }

  lemma ServiceCollectorAnswers(request: ServiceUnhealthyRequest, c: ServiceCapabilities)
    ensures CollectsForService(ServiceTasks(request, c), request, c)
  {
    hide ServiceVerification, ServiceImpact;
  }

  lemma ServiceMutatorAnswers(request: ServiceUnhealthyRequest, c: ServiceCapabilities)
    ensures EndsInRestart(
              ServiceTasks(request, c), On(request.nodeId, "service/" + request.service), c, ServiceImpact(request),
              ServiceVerification(ServiceImpact(request)))
  {
    hide ServiceVerification, ServiceImpact;
  }

  /** The restart is verified as planned for its impact, with two more skips and their reasons. */
  lemma ServiceVerificationAnswers(impact: ImpactSet)
    ensures ServiceVerification(impact)
            == SkipsBoth(
                 Plan(VerificationPolicy(false, false), ServiceRestart, impact),
                 "service-unhealthy restart mutates only the service resource, not package-db",
                 "service-unhealthy restart mutates only the service resource, not firewall rules")
  {
    hide Plan;
  }

  function SkipsBoth(plan: VerificationPlan, packages: string, firewall: string): VerificationPlan {
    VerificationPlan(
      plan.required, plan.conditional,
      plan.skipped + [SkippedVerification("package_audit", packages), SkippedVerification("firewall_audit", firewall)])
  }

  /** A new run that carries these tasks, this impact and this verification, under this goal. */
  ghost predicate Carries(
      run: RunRecord, id: string, goal: string, tasks: seq<Task>, impact: ImpactSet, verification: VerificationPlan)
  {
    run == RunRecord(id, goal, System, RunState.Created, tasks, [], impact, verification)
  }

  lemma ServiceRunAnswers(request: ServiceUnhealthyRequest, c: ServiceCapabilities)
    ensures Carries(
              ServiceRun(request, c), request.runId,
              "Diagnose unhealthy service " + request.service + " on " + request.nodeId, ServiceTasks(request, c),
              ServiceImpact(request), ServiceVerification(ServiceImpact(request)))
  {
    hide ServiceTasks, ServiceVerification, ServiceImpact;
  }

  /** A planned service run is this run, with the capabilities selected for the reporting node. */
  lemma ServicePlanAnswers(request: ServiceUnhealthyRequest, report: CapabilityReport)
    requires PlanServiceUnhealthy(request, report).Ok?
    ensures var plan := PlanServiceUnhealthy(request, report).value;
            && SelectServiceCapabilities(report) == Ok(plan.capabilities)
            && plan.run == ServiceRun(request, plan.capabilities)
  {
    hide SelectServiceCapabilities, ServiceRun;
  }

  // ----- The disk runbook -----

  /** The filesystem is named after its mount point: root, or the path without outer slashes and with inner dashes. */
  lemma MountAnswers(mount: string) returns (core: string, lead: nat)
    ensures mount == "/" ==> MountFragment(mount) == "root"
    ensures mount != "/" ==>
              && IsCore(mount, core, lead) && |MountFragment(mount)| == |core|
              && forall i :: 0 <= i < |core| ==> MountFragment(mount)[i] == if core[i] == '/' then '-' else core[i]
  {
    hide TrimStart, TrimEnd, IsCore;
    core := TrimEnd(TrimStart(mount, '/'), '/');
    lead := TrimmedIsCore(mount);
  }

  /** What is left of a mount point between its outer slashes. */
  ghost predicate IsCore(mount: string, core: string, lead: nat) {
    && (core == [] || (core[0] != '/' && core[|core| - 1] != '/'))
    && lead + |core| <= |mount| && core == mount[lead..lead + |core|]
    && forall i :: 0 <= i < lead || lead + |core| <= i < |mount| ==> mount[i] == '/'
  }

  lemma TrimmedIsCore(mount: string) returns (lead: nat)
    ensures IsCore(mount, TrimEnd(TrimStart(mount, '/'), '/'), lead)
  {
    hide TrimStart, TrimEnd;
    lead := LeadingSlashes(mount);
    var left := TrimStart(mount, '/');
    var core := TrimEnd(left, '/');
    forall i | lead + |core| <= i < |mount|
      ensures mount[i] == '/'
    {
      assert left[i - lead] == mount[i];
    }
    assert core != [] ==> core[0] == left[0];
  }

  lemma LeadingSlashes(mount: string) returns (lead: nat)
    ensures lead <= |mount| && TrimStart(mount, '/') == mount[lead..]
    ensures forall i :: 0 <= i < lead ==> mount[i] == '/'
  {
    hide *;
    lead :| 0 <= lead <= |mount| && TrimStart(mount, '/') == mount[lead..]
            && forall i :: 0 <= i < lead ==> mount[i] == '/';
  }

  lemma DiskFilesystemAnswers(request: DiskPressureRequest)
    ensures DiskFilesystem(request) == On(request.nodeId, "filesystem/" + MountFragment(request.mount))
  {}

  lemma DiskImpactAnswers(request: DiskPressureRequest)
    ensures var node := request.nodeId;
            DiskImpact(request)
            == ImpactSet(
                 System, [request.cleanupResourceId], [On(node, "filesystem/" + MountFragment(request.mount))],
                 [On(node, "package-db"), On(node, "firewall"), On(node, "path/etc")])
  {
    hide MountFragment;
  }

  /** Usage, the candidate, the logs and a snapshot of both are collected. */
  ghost predicate CollectsForDisk(tasks: seq<Task>, request: DiskPressureRequest, c: DiskCapabilities) {
    var filesystem := On(request.nodeId, "filesystem/" + MountFragment(request.mount));
    && |tasks| == 5
    && Collects(tasks[0], "collect-disk-usage", c.storage, [filesystem])
    && Collects(tasks[1], "collect-cleanup-candidate", c.storage, [request.cleanupResourceId])
    && Collects(tasks[2], "collect-disk-pressure-logs", c.log, [On(request.nodeId, "logs/disk-pressure")])
    && Collects(tasks[3], "collect-pre-action-snapshot", c.storage, [filesystem, request.cleanupResourceId])
  }

  function FourCollectors(): seq<string> {
    ["collect-disk-usage", "collect-cleanup-candidate", "collect-disk-pressure-logs", "collect-pre-action-snapshot"]
  }

  ghost predicate EndsInCleanup(
      tasks: seq<Task>, target: string, c: DiskCapabilities, impact: ImpactSet, verification: VerificationPlan)
  {
    && |tasks| == 5
    && var task := tasks[4];
    && Alters(
         task, "cleanup-allowlisted-path", [c.privilege], target,
         "disk-pressure cleanup requires serialized path mutation")
    && task.dependencies == FourCollectors() && task.impact == impact && task.verification == verification
  }

  lemma DiskCollectorAnswers(request: DiskPressureRequest, c: DiskCapabilities)
    ensures CollectsForDisk(DiskTasks(request, c), request, c)
  {
    hide DiskVerification, DiskImpact, MountFragment;
  }

  lemma DiskMutatorAnswers(request: DiskPressureRequest, c: DiskCapabilities)
    ensures EndsInCleanup(
              DiskTasks(request, c), request.cleanupResourceId, c, DiskImpact(request),
              DiskVerification(DiskImpact(request)))
  {
    hide DiskVerification, DiskImpact, MountFragment;
  }

  lemma DiskVerificationAnswers(impact: ImpactSet)
    ensures DiskVerification(impact)
            == SkipsBoth(
                 Plan(VerificationPolicy(false, false), RemoveAllowlistedFile, impact),
                 "disk-pressure cleanup removes only an allowlisted path, not package-db",
                 "disk-pressure cleanup does not mutate firewall rules")
  {
    hide Plan;
  }

  lemma DiskRunAnswers(request: DiskPressureRequest, c: DiskCapabilities)
    ensures Carries(
              DiskRun(request, c), request.runId,
              "Resolve disk pressure on " + request.nodeId + " " + request.mount + " by cleaning "
              + request.cleanupSubject,
              DiskTasks(request, c), DiskImpact(request), DiskVerification(DiskImpact(request)))
  {
    hide DiskTasks, DiskVerification, DiskImpact;
  }

  /** A planned disk run is this run, with the capabilities selected for the reporting node. */
  lemma DiskPlanAnswers(request: DiskPressureRequest, report: CapabilityReport)
    requires PlanDiskPressure(request, report).Ok?
    ensures var plan := PlanDiskPressure(request, report).value;
            SelectDiskCapabilities(report) == Ok(plan.capabilities) && plan.run == DiskRun(request, plan.capabilities)
  {
    hide SelectDiskCapabilities, DiskRun;
  }
}
