/** The two runbook planners. */
module Runbooks {
  import opened Wrappers
  import opened Seqs
  import opened Strings
  import opened Domain
  import opened Verification

  datatype CapabilityReport = CapabilityReport(nodeId: string, os: OperatingSystem, capabilities: seq<Capability>)

  predicate Supports(report: CapabilityReport, capability: Capability) {
    capability in report.capabilities
  }

  datatype ServiceManagerDriver = Systemd | FreeBsdRc | OpenBsdRcctl

  datatype ServiceUnhealthyRequest = ServiceUnhealthyRequest(runId: string, nodeId: string, service: string)

  datatype DiskPressureRequest = DiskPressureRequest(
    runId: string, nodeId: string, mount: string, cleanupResourceId: string, cleanupSubject: string)

  datatype PlanError =
    | NodeMismatch(requestedNodeId: string, reportNodeId: string)
    | UnsupportedOperatingSystem(os: OperatingSystem)
    | MissingRequiredCapability(capability: Capability)

  datatype ServiceCapabilities = ServiceCapabilities(
    driver: ServiceManagerDriver,
    service: Capability,
    log: Capability,
    process: Capability,
    socket: Capability,
    storage: Capability,
    privilege: Capability)

  datatype DiskCapabilities = DiskCapabilities(storage: Capability, log: Capability, privilege: Capability)

  datatype ServiceUnhealthyPlan = ServiceUnhealthyPlan(capabilities: ServiceCapabilities, run: RunRecord)

  datatype DiskPressurePlan = DiskPressurePlan(capabilities: DiskCapabilities, run: RunRecord)

  // ----- Capabilities -----

  predicate HasDriver(os: OperatingSystem) {
    os.Linux? || os.FreeBsd? || os.OpenBsd?
  }

  function DriverFor(os: OperatingSystem): ServiceManagerDriver
    requires HasDriver(os)
  {
    if os.Linux? then Systemd else if os.FreeBsd? then FreeBsdRc else OpenBsdRcctl
  }

  function DriverCapability(driver: ServiceManagerDriver): Capability {
    match driver
    case Systemd => Capability("service.systemd")
    case FreeBsdRc => Capability("service.freebsd-rc")
    case OpenBsdRcctl => Capability("service.openbsd-rcctl")
  }

  function LogCapability(os: OperatingSystem): Capability
    requires HasDriver(os)
  {
    Capability(if os.Linux? then "logs.journald" else "logs.syslog-file")
  }

  function ProcessCapability(os: OperatingSystem): Capability
    requires HasDriver(os)
  {
    Capability(if os.Linux? then "process.procfs" else if os.FreeBsd? then "process.procstat" else "process.ps")
  }

  function SocketCapability(os: OperatingSystem): Capability
    requires HasDriver(os)
  {
    Capability(if os.Linux? then "socket.ss" else if os.FreeBsd? then "socket.sockstat" else "socket.fstat")
  }

  function PrivilegeCapability(os: OperatingSystem): Capability
    requires HasDriver(os)
  {
    Capability(if os.OpenBsd? then "privilege.doas-helper" else "privilege.sudo-helper")
  }

  const STORAGE_CAPABILITY := Capability("storage.df")

  /** What the service runbook needs, in the order in which it is looked for. */
  function ServiceNeeds(os: OperatingSystem): (r: seq<Capability>)
    requires HasDriver(os)
    ensures |r| == 6
  {
    [DriverCapability(DriverFor(os)), LogCapability(os), ProcessCapability(os), SocketCapability(os),
     STORAGE_CAPABILITY, PrivilegeCapability(os)]
  }

  /** What the disk runbook needs besides storage, in the order in which it is looked for. */
  function DiskNeeds(os: OperatingSystem): (r: seq<Capability>)
    requires HasDriver(os)
    ensures |r| == 2
  {
    [LogCapability(os), PrivilegeCapability(os)]
  }

  /** The `k`-th capability needed is the first that the node does not report. */
  predicate IsFirstMissing(needs: seq<Capability>, report: CapabilityReport, k: nat)
    requires k < |needs|
  {
    !Supports(report, needs[k]) && forall i :: 0 <= i < k ==> Supports(report, needs[i])
  }

  function RequireReported(report: CapabilityReport, capability: Capability): Result<Capability, PlanError> {
    if Supports(report, capability) then Ok(capability) else Err(MissingRequiredCapability(capability))
  }

  function RequireDriver(os: OperatingSystem): (r: Result<OperatingSystem, PlanError>)
    ensures r.Ok? <==> HasDriver(os)
    ensures r.Ok? ==> r.value == os
  {
    if HasDriver(os) then Ok(os) else Err(UnsupportedOperatingSystem(os))
  }

  function SelectServiceCapabilities(report: CapabilityReport): (r: Result<ServiceCapabilities, PlanError>)
    ensures r.Ok? <==>
      && HasDriver(report.os)
      && Supports(report, DriverCapability(DriverFor(report.os)))
      && Supports(report, LogCapability(report.os))
      && Supports(report, ProcessCapability(report.os))
      && Supports(report, SocketCapability(report.os))
      && Supports(report, STORAGE_CAPABILITY)
      && Supports(report, PrivilegeCapability(report.os))
    ensures r.Ok? ==>
      && r.value.driver == DriverFor(report.os) && r.value.service == DriverCapability(r.value.driver)
      && r.value.log == LogCapability(report.os) && r.value.process == ProcessCapability(report.os)
      && r.value.socket == SocketCapability(report.os) && r.value.storage == STORAGE_CAPABILITY
      && r.value.privilege == PrivilegeCapability(report.os)
    ensures !HasDriver(report.os) ==> r == Err(UnsupportedOperatingSystem(report.os))
    ensures HasDriver(report.os) ==>
      forall k :: 0 <= k < 6 && IsFirstMissing(ServiceNeeds(report.os), report, k) ==>
        r == Err(MissingRequiredCapability(ServiceNeeds(report.os)[k]))
  {
    var os :- RequireDriver(report.os);
    var needs := ServiceNeeds(os);
    assert needs[0] == DriverCapability(DriverFor(os)) && needs[1] == LogCapability(os);
    assert needs[2] == ProcessCapability(os) && needs[3] == SocketCapability(os);
    assert needs[4] == STORAGE_CAPABILITY && needs[5] == PrivilegeCapability(os);
    var service :- RequireReported(report, DriverCapability(DriverFor(os)));
    var log :- RequireReported(report, LogCapability(os));
    var process :- RequireReported(report, ProcessCapability(os));
    var socket :- RequireReported(report, SocketCapability(os));
    var storage :- RequireReported(report, STORAGE_CAPABILITY);
    var privilege :- RequireReported(report, PrivilegeCapability(os));
    Ok(ServiceCapabilities(DriverFor(os), service, log, process, socket, storage, privilege))
  }

  /** Storage is looked for before the operating system is judged. */
  function SelectDiskCapabilities(report: CapabilityReport): (r: Result<DiskCapabilities, PlanError>)
    ensures r.Ok? <==>
      && HasDriver(report.os)
      && Supports(report, STORAGE_CAPABILITY)
      && Supports(report, LogCapability(report.os))
      && Supports(report, PrivilegeCapability(report.os))
    ensures r.Ok? ==>
      && r.value.storage == STORAGE_CAPABILITY && r.value.log == LogCapability(report.os)
      && r.value.privilege == PrivilegeCapability(report.os)
    ensures !Supports(report, STORAGE_CAPABILITY) ==> r == Err(MissingRequiredCapability(STORAGE_CAPABILITY))
    ensures Supports(report, STORAGE_CAPABILITY) && !HasDriver(report.os) ==>
      r == Err(UnsupportedOperatingSystem(report.os))
    ensures Supports(report, STORAGE_CAPABILITY) && HasDriver(report.os) ==>
      forall k :: 0 <= k < 2 && IsFirstMissing(DiskNeeds(report.os), report, k) ==>
        r == Err(MissingRequiredCapability(DiskNeeds(report.os)[k]))
  {
    var storage :- RequireReported(report, STORAGE_CAPABILITY);
    var os :- RequireDriver(report.os);
    assert DiskNeeds(os)[0] == LogCapability(os) && DiskNeeds(os)[1] == PrivilegeCapability(os);
    var log :- RequireReported(report, LogCapability(os));
    var privilege :- RequireReported(report, PrivilegeCapability(os));
    Ok(DiskCapabilities(storage, log, privilege))
  }

  // ----- Resources -----

  function NodeResource(node: string, rest: string): string {
    "system:node/" + node + "/" + rest
  }

  function MountFragment(mount: string): string {
    if mount == "/" then "root" else ReplaceChar(TrimEnd(TrimStart(mount, '/'), '/'), '/', '-')
  }

  /** Whatever the mount point, its fragment is one segment of a resource path. */
  lemma MountFragmentIsSegment(mount: string)
    ensures '/' !in MountFragment(mount)
  {
    assert '/' !in "root";
  }

  // ----- Verification -----

  /** A plan with the two skips that both runbooks add to what the verification planner chose. */
  function WithRunbookSkips(plan: VerificationPlan, packageReason: string, firewallReason: string): VerificationPlan {
    plan.(skipped := plan.skipped
                     + [SkippedVerification("package_audit", packageReason),
                        SkippedVerification("firewall_audit", firewallReason)])
  }

  function ServiceVerification(impact: ImpactSet): VerificationPlan {
    WithRunbookSkips(
      Plan(MINIMAL_POLICY, ServiceRestart, impact),
      "service-unhealthy restart mutates only the service resource, not package-db",
      "service-unhealthy restart mutates only the service resource, not firewall rules")
  }

  function DiskVerification(impact: ImpactSet): VerificationPlan {
    WithRunbookSkips(
      Plan(MINIMAL_POLICY, RemoveAllowlistedFile, impact),
      "disk-pressure cleanup removes only an allowlisted path, not package-db",
      "disk-pressure cleanup does not mutate firewall rules")
  }

  // ----- Tasks -----

  function Collector(id: string, capability: Capability, reads_: seq<string>): Task {
    NewTask(id, System).(requiredCapabilities := [capability], readsFrom := reads_)
  }

  function Mutator(
      id: string, capabilities: seq<Capability>, target: string, reason: string, dependencies: seq<string>,
      impact: ImpactSet, verification: VerificationPlan)
    : Task
  {
    NewTask(id, System).(
      requiredCapabilities := capabilities, readsFrom := [target], writesTo := [target],
      leaseRequests := [ResourceLeaseRequest(target, Exclusive, reason)],
      dependencies := dependencies, impact := impact, verification := verification)
  }

  function ServiceImpact(request: ServiceUnhealthyRequest): ImpactSet {
    ImpactSet(
      System,
      [NodeResource(request.nodeId, "service/" + request.service)],
      ["platform:on-node/" + request.nodeId, "application:on-node/" + request.nodeId],
      [NodeResource(request.nodeId, "package-db"), NodeResource(request.nodeId, "firewall")])
  }

  const SERVICE_COLLECTORS := [
    "collect-service-status", "collect-recent-logs", "collect-disk-snapshot", "collect-process-snapshot",
    "collect-socket-snapshot"]

  function ServiceTasks(request: ServiceUnhealthyRequest, c: ServiceCapabilities): seq<Task> {
    var impact := ServiceImpact(request);
    var service := NodeResource(request.nodeId, "service/" + request.service);
    [Collector("collect-service-status", c.service, [service]),
     Collector("collect-recent-logs", c.log, [NodeResource(request.nodeId, "logs/" + request.service)]),
     Collector("collect-disk-snapshot", c.storage, [NodeResource(request.nodeId, "filesystem")]),
     Collector("collect-process-snapshot", c.process, [NodeResource(request.nodeId, "processes")]),
     Collector("collect-socket-snapshot", c.socket, [NodeResource(request.nodeId, "sockets")]),
     Mutator("restart-service", [c.service, c.privilege], service,
             "service-unhealthy restart requires serialized service mutation", SERVICE_COLLECTORS, impact,
             ServiceVerification(impact))]
  }

  function ServiceRun(request: ServiceUnhealthyRequest, c: ServiceCapabilities): RunRecord {
    var impact := ServiceImpact(request);
    NewRun(request.runId, "Diagnose unhealthy service " + request.service + " on " + request.nodeId, System).(
      tasks := ServiceTasks(request, c), impact := impact, verification := ServiceVerification(impact))
  }

  function PlanServiceUnhealthy(request: ServiceUnhealthyRequest, report: CapabilityReport)
    : Result<ServiceUnhealthyPlan, PlanError>
  {
    if request.nodeId != report.nodeId then Err(NodeMismatch(request.nodeId, report.nodeId))
    else
      match SelectServiceCapabilities(report)
      case Err(error) => Err(error)
      case Ok(capabilities) => Ok(ServiceUnhealthyPlan(capabilities, ServiceRun(request, capabilities)))
  }

  lemma PlannedServiceTasks(request: ServiceUnhealthyRequest, report: CapabilityReport)
    requires PlanServiceUnhealthy(request, report).Ok?
    ensures var plan := PlanServiceUnhealthy(request, report).value;
            plan.run.tasks == ServiceTasks(request, plan.capabilities)
  {
    hide ServiceTasks, ServiceVerification, ServiceImpact;
  }

  function DiskFilesystem(request: DiskPressureRequest): string {
    NodeResource(request.nodeId, "filesystem/" + MountFragment(request.mount))
  }

  function DiskImpact(request: DiskPressureRequest): ImpactSet {
    ImpactSet(
      System,
      [request.cleanupResourceId],
      [DiskFilesystem(request)],
      [NodeResource(request.nodeId, "package-db"), NodeResource(request.nodeId, "firewall"),
       NodeResource(request.nodeId, "path/etc")])
  }

  const DISK_COLLECTORS := [
    "collect-disk-usage", "collect-cleanup-candidate", "collect-disk-pressure-logs", "collect-pre-action-snapshot"]

  function DiskTasks(request: DiskPressureRequest, c: DiskCapabilities): seq<Task> {
    var impact := DiskImpact(request);
    [Collector("collect-disk-usage", c.storage, [DiskFilesystem(request)]),
     Collector("collect-cleanup-candidate", c.storage, [request.cleanupResourceId]),
     Collector("collect-disk-pressure-logs", c.log, [NodeResource(request.nodeId, "logs/disk-pressure")]),
     Collector("collect-pre-action-snapshot", c.storage, [DiskFilesystem(request), request.cleanupResourceId]),
     Mutator("cleanup-allowlisted-path", [c.privilege], request.cleanupResourceId,
             "disk-pressure cleanup requires serialized path mutation", DISK_COLLECTORS, impact,
             DiskVerification(impact))]
  }

  function DiskRun(request: DiskPressureRequest, c: DiskCapabilities): RunRecord {
    var impact := DiskImpact(request);
    var goal :=
      "Resolve disk pressure on " + request.nodeId + " " + request.mount + " by cleaning " + request.cleanupSubject;
    NewRun(request.runId, goal, System).(
      tasks := DiskTasks(request, c), impact := impact, verification := DiskVerification(impact))
  }

  function PlanDiskPressure(request: DiskPressureRequest, report: CapabilityReport)
    : Result<DiskPressurePlan, PlanError>
  {
    if request.nodeId != report.nodeId then Err(NodeMismatch(request.nodeId, report.nodeId))
    else
      match SelectDiskCapabilities(report)
      case Err(error) => Err(error)
      case Ok(capabilities) => Ok(DiskPressurePlan(capabilities, DiskRun(request, capabilities)))
  }

  lemma PlannedDiskTasks(request: DiskPressureRequest, report: CapabilityReport)
    requires PlanDiskPressure(request, report).Ok?
    ensures var plan := PlanDiskPressure(request, report).value;
            plan.run.tasks == DiskTasks(request, plan.capabilities)
  {
    hide DiskTasks, DiskVerification, DiskImpact;
  }
}
