/** How planned runbooks behave in every schedule. */
module RunbookRuns {
  import opened Wrappers
  import opened Seqs
  import opened Strings
  import opened Domain
  import opened Scheduler
  import opened SchedulerRuns
  import opened Verification
  import opened Runbooks

  /** A task that only observes and depends on nothing. */
  predicate IsCollector(task: Task) {
    task.layer == System && task.dependencies == [] && task.leaseRequests == [] && task.writesTo == []
  }

  ghost predicate IdAmong(tasks: seq<Task>, n: nat, d: string)
    requires n <= |tasks|
  {
    exists i :: 0 <= i < n && tasks[i].id == d
  }

  ghost predicate DistinctIds(tasks: seq<Task>) {
    forall i, j :: 0 <= i < j < |tasks| ==> tasks[i].id != tasks[j].id
  }

  /** A last task that writes under serializing leases and depends on exactly the collectors before it. */
  ghost predicate MutatesAfter(tasks: seq<Task>, last: nat)
    requires last < |tasks|
  {
    && tasks[last].layer == System
    && SerializesWrites(tasks[last])
    && (forall i :: 0 <= i < last ==> tasks[i].id in tasks[last].dependencies)
    && (forall d :: d in tasks[last].dependencies ==> IdAmong(tasks, last, d))
  }

  /** All tasks but the last are collectors, and the last one depends on all of them. */
  ghost predicate CollectThenMutate(tasks: seq<Task>) {
    && tasks != []
    && (forall i :: 0 <= i < |tasks| - 1 ==> IsCollector(tasks[i]))
    && DistinctIds(tasks)
    && MutatesAfter(tasks, |tasks| - 1)
  }

  ghost predicate Started(s: Progress, i: nat) {
    i in s.running || i in s.finished
  }

  lemma ReachableFacts(w: Workload, moves: seq<Move>)
    requires ValidRun(w, AT_REST, moves)
    ensures WellFormed(w, After(w, AT_REST, moves)) && FinishedInOrder(w, After(w, AT_REST, moves))
  {
    RunKeepsCompatible(w, AT_REST, moves);
    RunKeepsOrder(w, AT_REST, moves);
  }

  /** When tasks finish in dependency order, a started mutator has every collector finished before it. */
  lemma StartedBehindCollectors(w: Workload, s: Progress, i: nat)
    requires CollectThenMutate(w.tasks) && FinishedInOrder(w, s) && i < |w.tasks| - 1
    requires Started(s, |w.tasks| - 1)
    ensures i in s.finished
  {
    hide IsCollector, SerializesWrites;
    var last := |w.tasks| - 1;
    var n := if last in s.running then |s.finished| else PlaceOf(s.finished, last);
    assert ProvidedFor(w, s.finished, n, last);
    assert w.tasks[i].id in w.tasks[last].dependencies;
    assert Provided(w, s.finished, n, w.tasks[i].id);
    var k :| 0 <= k < n && s.finished[k] < |w.tasks| && w.tasks[s.finished[k]].id == w.tasks[i].id;
    assert s.finished[k] == i;
  }

  /** In every schedule the mutating task starts only after every collector has finished. */
  lemma MutationComesLast(w: Workload, moves: seq<Move>, i: nat)
    requires CollectThenMutate(w.tasks) && ValidRun(w, AT_REST, moves) && i < |w.tasks| - 1
    requires Started(After(w, AT_REST, moves), |w.tasks| - 1)
    ensures i in After(w, AT_REST, moves).finished
  {
    hide ValidRun, After, CollectThenMutate, FinishedInOrder;
    ReachableFacts(w, moves);
    StartedBehindCollectors(w, After(w, AT_REST, moves), i);
  }

  /** A collector requests nothing but observe leases. */
  lemma CollectorOnlyObserves(tasks: seq<Task>, i: nat)
    requires CollectThenMutate(tasks) && i < |tasks| - 1
    ensures forall q :: q in EffectiveLeaseRequests(tasks[i]) ==> q.mode.Observe?
  {
    assert forall x :: x !in tasks[i].writesTo;
  }

  /** While a collector is still unstarted, only observe leases are held. */
  lemma OnlyObservesHeld(w: Workload, moves: seq<Move>, i: nat, l: ResourceLease)
    requires CollectThenMutate(w.tasks) && w.outside == [] && ValidRun(w, AT_REST, moves) && i < |w.tasks| - 1
    requires !Started(After(w, AT_REST, moves), i)
    requires l in Snapshot(w, After(w, AT_REST, moves)).activeLeases
    ensures l.mode.Observe?
  {
    hide After, ValidRun, CollectThenMutate, Held, Granted, WellFormed;
    var s := After(w, AT_REST, moves);
    if Started(s, |w.tasks| - 1) {
      MutationComesLast(w, moves, i);
    }
    HeldExactly(w, s.running, l);
    var j :| j in s.running && j < |w.tasks| && l in Granted(w.tasks[j]);
    CollectorOnlyObserves(w.tasks, j);
    GrantedAsRequested(w.tasks[j], l);
  }

  lemma GrantedAsRequested(task: Task, l: ResourceLease)
    requires l in Granted(task)
    ensures exists q :: q in EffectiveLeaseRequests(task) && q.mode == l.mode && q.resourceId == l.resourceId
  {
    var g := Granted(task);
    var k :| 0 <= k < |g| && g[k] == l;
    assert EffectiveLeaseRequests(task)[k] in EffectiveLeaseRequests(task);
  }

  /** In every schedule a collector that has not started may start at once, whichever others are running. */
  lemma CollectorsNeverWait(w: Workload, moves: seq<Move>, i: nat)
    requires CollectThenMutate(w.tasks) && w.outside == [] && ValidRun(w, AT_REST, moves) && i < |w.tasks| - 1
    requires !Started(After(w, AT_REST, moves), i)
    ensures Enabled(w, After(w, AT_REST, moves), Start(i))
  {
    hide Snapshot, After, ValidRun;
    var s := After(w, AT_REST, moves);
    CollectorOnlyObserves(w.tasks, i);
    forall l | l in Snapshot(w, s).activeLeases
      ensures l.mode.Observe?
    {
      OnlyObservesHeld(w, moves, i, l);
    }
  }

  lemma {:induction false} RunExtends(w: Workload, s: Progress, moves: seq<Move>, move: Move)
    requires ValidRun(w, s, moves) && Enabled(w, After(w, s, moves), move)
    ensures ValidRun(w, s, moves + [move])
    ensures After(w, s, moves + [move]) == Apply(After(w, s, moves), move)
    decreases |moves|
  {
    var all := moves + [move];
    if moves == [] {
      assert all == [move] && all[1..] == [];
      assert ValidRun(w, Apply(s, move), []);
    } else {
      assert all[1..] == moves[1..] + [move];
      RunExtends(w, Apply(s, moves[0]), moves[1..], move);
    }
  }

  /** All collectors may run at the same time. */
  lemma {:induction false} CollectorsRunTogether(w: Workload, n: nat) returns (moves: seq<Move>)
    requires CollectThenMutate(w.tasks) && w.outside == [] && n <= |w.tasks| - 1
    ensures ValidRun(w, AT_REST, moves)
    ensures After(w, AT_REST, moves).finished == []
    ensures forall i :: i in After(w, AT_REST, moves).running <==> 0 <= i < n
  {
    hide CollectThenMutate, Enabled;
    if n == 0 {
      moves := [];
    } else {
      var fewer := CollectorsRunTogether(w, n - 1);
      moves := fewer + [Start(n - 1)];
      OneMoreCollector(w, n - 1, fewer);
    }
  }

  lemma OneMoreCollector(w: Workload, n: nat, moves: seq<Move>)
    requires CollectThenMutate(w.tasks) && w.outside == [] && n < |w.tasks| - 1
    requires ValidRun(w, AT_REST, moves) && After(w, AT_REST, moves).finished == []
    requires forall i :: i in After(w, AT_REST, moves).running <==> 0 <= i < n
    ensures ValidRun(w, AT_REST, moves + [Start(n)])
    ensures After(w, AT_REST, moves + [Start(n)]).finished == []
    ensures forall i :: i in After(w, AT_REST, moves + [Start(n)]).running <==> 0 <= i < n + 1
  {
    hide ValidRun, After, Enabled, CollectThenMutate;
    CollectorsNeverWait(w, moves, n);
    RunExtends(w, AT_REST, moves, Start(n));
  }

  /** Collectors before the mutator: the numbering that makes every maximal run complete. */
  lemma CollectThenMutateRanked(w: Workload)
    requires CollectThenMutate(w.tasks)
    ensures Ordered(w)
  {
    var last := |w.tasks| - 1;
    var rank := seq(|w.tasks|, i => if i == last then 1 else 0);
    forall i, d | 0 <= i < |w.tasks| && d in w.tasks[i].dependencies
      ensures ProvidedBelow(w, rank, i, d)
    {
      assert i == last;
      assert IdAmong(w.tasks, last, d);
      var j :| 0 <= j < last && w.tasks[j].id == d;
      assert rank[j] < rank[i];
    }
    assert Ranks(w, rank);
  }

  /** In every maximal schedule all tasks complete. */
  lemma AllComplete(w: Workload, moves: seq<Move>)
    requires CollectThenMutate(w.tasks) && w.outside == [] && MaximalRun(w, moves)
    ensures Complete(w, After(w, AT_REST, moves)) && |moves| == 2 * |w.tasks|
  {
    CollectThenMutateRanked(w);
    CompletesExactly(w, moves);
  }

  // ----- The planners make such runs -----

  lemma IdsDistinct()
    ensures Distinct(SERVICE_COLLECTORS + ["restart-service"])
    ensures Distinct(DISK_COLLECTORS + ["cleanup-allowlisted-path"])
  {
    var a, b := SERVICE_COLLECTORS + ["restart-service"], DISK_COLLECTORS + ["cleanup-allowlisted-path"];
    assert forall i, j :: 0 <= i < j < |a| ==> |a[i]| != |a[j]|;
    assert forall i, j :: 0 <= i < j < |b| ==> |b[i]| != |b[j]|;
  }

  /** Collectors named `ids`, followed by a mutator that depends on them, make such a run. */
  lemma ShapeFromParts(tasks: seq<Task>, ids: seq<string>, id: string)
    requires |tasks| == |ids| + 1 && Distinct(ids + [id])
    requires forall i :: 0 <= i < |ids| ==> IsCollector(tasks[i]) && tasks[i].id == ids[i]
    requires var m := tasks[|ids|];
             && m.id == id && m.layer == System && m.dependencies == ids
             && |m.leaseRequests| == 1 && m.leaseRequests[0].mode.Exclusive?
             && m.writesTo == [m.leaseRequests[0].resourceId]
    ensures CollectThenMutate(tasks)
  {
    var all := ids + [id];
    assert forall i :: 0 <= i < |tasks| ==> tasks[i].id == all[i];
    var m := tasks[|ids|];
    assert m.leaseRequests[0] in EffectiveLeaseRequests(m);
    forall d | d in m.dependencies
      ensures IdAmong(tasks, |ids|, d)
    {
      var k :| 0 <= k < |ids| && ids[k] == d;
      assert tasks[k].id == d;
    }
  }

  lemma ServicePlanShape(request: ServiceUnhealthyRequest, report: CapabilityReport)
    requires PlanServiceUnhealthy(request, report).Ok?
    ensures CollectThenMutate(PlanServiceUnhealthy(request, report).value.run.tasks)
  {
    hide ServiceVerification, NodeResource, CollectThenMutate, Distinct, SelectServiceCapabilities;
    IdsDistinct();
    ShapeFromParts(PlanServiceUnhealthy(request, report).value.run.tasks, SERVICE_COLLECTORS, "restart-service");
  }

  lemma DiskPlanShape(request: DiskPressureRequest, report: CapabilityReport)
    requires PlanDiskPressure(request, report).Ok?
    ensures CollectThenMutate(PlanDiskPressure(request, report).value.run.tasks)
  {
    hide DiskVerification, NodeResource, CollectThenMutate, Distinct, SelectDiskCapabilities;
    IdsDistinct();
    ShapeFromParts(PlanDiskPressure(request, report).value.run.tasks, DISK_COLLECTORS, "cleanup-allowlisted-path");
  }

  /** Whatever has happened, the mutation is last, collectors never wait, and nothing is left undone at the end. */
  ghost predicate SchedulesWell(w: Workload) {
    forall moves :: ValidRun(w, AT_REST, moves) ==> WellScheduled(w, moves)
  }

  ghost predicate WellScheduled(w: Workload, moves: seq<Move>)
    requires ValidRun(w, AT_REST, moves)
  {
    var s := After(w, AT_REST, moves);
    && (forall i :: 0 <= i < |w.tasks| - 1 && Started(s, |w.tasks| - 1) ==> i in s.finished)
    && (forall i :: 0 <= i < |w.tasks| - 1 && !Started(s, i) ==> Enabled(w, s, Start(i)))
    && (Final(w, s) ==> Complete(w, s))
  }

  lemma CollectThenMutateSchedulesWell(w: Workload)
    requires CollectThenMutate(w.tasks) && w.outside == []
    ensures SchedulesWell(w)
  {
    hide ValidRun, After, Enabled, CollectThenMutate, Final, Complete;
    forall moves | ValidRun(w, AT_REST, moves)
      ensures WellScheduled(w, moves)
    {
      var s := After(w, AT_REST, moves);
      forall i | 0 <= i < |w.tasks| - 1 && Started(s, |w.tasks| - 1)
        ensures i in s.finished
      {
        MutationComesLast(w, moves, i);
      }
      forall i | 0 <= i < |w.tasks| - 1 && !Started(s, i)
        ensures Enabled(w, s, Start(i))
      {
        CollectorsNeverWait(w, moves, i);
      }
      if Final(w, s) {
        AllComplete(w, moves);
      }
    }
  }

  /** Whenever the service planner returns a run, every schedule of it is well scheduled, over any dependency paths. */
  lemma ServiceRunsScheduleWell(
      request: ServiceUnhealthyRequest, report: CapabilityReport, paths: seq<ResourceDependencyPath>)
    requires PlanServiceUnhealthy(request, report).Ok?
    ensures SchedulesWell(Workload(PlanServiceUnhealthy(request, report).value.run.tasks, paths, []))
  {
    hide *;
    ServicePlanShape(request, report);
    CollectThenMutateSchedulesWell(Workload(PlanServiceUnhealthy(request, report).value.run.tasks, paths, []));
  }

  /** Whenever the disk planner returns a run, every schedule of it is well scheduled, over any dependency paths. */
  lemma DiskRunsScheduleWell(
      request: DiskPressureRequest, report: CapabilityReport, paths: seq<ResourceDependencyPath>)
    requires PlanDiskPressure(request, report).Ok?
    ensures SchedulesWell(Workload(PlanDiskPressure(request, report).value.run.tasks, paths, []))
  {
    hide *;
    DiskPlanShape(request, report);
    CollectThenMutateSchedulesWell(Workload(PlanDiskPressure(request, report).value.run.tasks, paths, []));
  }

  /**
   What the service planner is to return, from the request and the report alone: a run for the reported node when it
   has a native driver and reports everything needed, and otherwise the first thing found wrong.
   */
  ghost predicate ServicePlanned(
      request: ServiceUnhealthyRequest, report: CapabilityReport, r: Result<ServiceUnhealthyPlan, PlanError>)
  {
    if request.nodeId != report.nodeId then r == Err(NodeMismatch(request.nodeId, report.nodeId))
    else if !HasDriver(report.os) then r == Err(UnsupportedOperatingSystem(report.os))
    else
      && (r.Ok? <==> forall c :: c in ServiceNeeds(report.os) ==> Supports(report, c))
      && forall k :: 0 <= k < 6 && IsFirstMissing(ServiceNeeds(report.os), report, k) ==>
           r == Err(MissingRequiredCapability(ServiceNeeds(report.os)[k]))
  }

  /** The same for the disk planner, which looks for storage before it judges the operating system. */
  ghost predicate DiskPlanned(
      request: DiskPressureRequest, report: CapabilityReport, r: Result<DiskPressurePlan, PlanError>)
  {
    if request.nodeId != report.nodeId then r == Err(NodeMismatch(request.nodeId, report.nodeId))
    else if !Supports(report, STORAGE_CAPABILITY) then r == Err(MissingRequiredCapability(STORAGE_CAPABILITY))
    else if !HasDriver(report.os) then r == Err(UnsupportedOperatingSystem(report.os))
    else
      && (r.Ok? <==> forall c :: c in DiskNeeds(report.os) ==> Supports(report, c))
      && forall k :: 0 <= k < 2 && IsFirstMissing(DiskNeeds(report.os), report, k) ==>
           r == Err(MissingRequiredCapability(DiskNeeds(report.os)[k]))
  }

  /** Each planner returns exactly that. */
  lemma PlansExact(request: ServiceUnhealthyRequest, disk: DiskPressureRequest, report: CapabilityReport)
    ensures ServicePlanned(request, report, PlanServiceUnhealthy(request, report))
    ensures DiskPlanned(disk, report, PlanDiskPressure(disk, report))
  {
    ServicePlanExact(request, report);
    DiskPlanExact(disk, report);
  }

  lemma ServicePlanExact(request: ServiceUnhealthyRequest, report: CapabilityReport)
    ensures ServicePlanned(request, report, PlanServiceUnhealthy(request, report))
  {
    hide ServiceRun, DriverCapability, LogCapability, ProcessCapability, SocketCapability, PrivilegeCapability;
  }

  lemma DiskPlanExact(request: DiskPressureRequest, report: CapabilityReport)
    ensures DiskPlanned(request, report, PlanDiskPressure(request, report))
  {
    hide DiskRun, LogCapability, PrivilegeCapability;
  }

  // ----- Their verification plans -----

  lemma SkipsKeepCoherence(plan: VerificationPlan, impact: ImpactSet, packageReason: string, firewallReason: string)
    requires Coherent(plan, impact) && !Audits(plan)
    requires forall c :: c in plan.required ==> c.id != "firewall_audit"
    ensures Coherent(WithRunbookSkips(plan, packageReason, firewallReason), impact)
  {
    forall c | c in plan.required
      ensures c.id != "package_audit"
    {
      var i :| 0 <= i < |plan.required| && plan.required[i] == c;
    }
  }

  lemma NoFirewallAudit(impact: ImpactSet)
    ensures forall c :: c in GenericServiceChange(ServiceRestart, impact).required ==> c.id != "firewall_audit"
    ensures forall c :: c in AllowlistedFileCleanup(impact).required ==> c.id != "firewall_audit"
    ensures forall c :: c in SystemPackageUpdate(MINIMAL_POLICY, impact).required ==> c.id != "firewall_audit"
  {
    hide SkipDiskScan, SkipServiceHealth, PackageChecks;
    assert "service_active"[0] != "firewall_audit"[0];
  }

  /** Both runbooks stay coherent after adding their own skips, whichever verification branch they take. */
  lemma RunbookVerificationCoherent(service: ServiceUnhealthyRequest, disk: DiskPressureRequest)
    ensures Coherent(ServiceVerification(ServiceImpact(service)), ServiceImpact(service))
    ensures Coherent(DiskVerification(DiskImpact(disk)), DiskImpact(disk))
  {
    hide GenericServiceChange, ApplicationServiceChange, PlatformReload, SystemReboot, SystemPackageUpdate,
      AllowlistedFileCleanup, GenericTypedAction, Coherent, Audits, WithRunbookSkips;
    var a, b := ServiceImpact(service), DiskImpact(disk);
    PlansAreCoherent(MINIMAL_POLICY, ServiceRestart, a);
    PlansAreCoherent(MINIMAL_POLICY, RemoveAllowlistedFile, b);
    PackageAuditFollowsPolicy(MINIMAL_POLICY, ServiceRestart, a);
    PackageAuditFollowsPolicy(MINIMAL_POLICY, RemoveAllowlistedFile, b);
    NoFirewallAudit(a);
    NoFirewallAudit(b);
    SkipsKeepCoherence(
      Plan(MINIMAL_POLICY, ServiceRestart, a), a,
      "service-unhealthy restart mutates only the service resource, not package-db",
      "service-unhealthy restart mutates only the service resource, not firewall rules");
    SkipsKeepCoherence(
      Plan(MINIMAL_POLICY, RemoveAllowlistedFile, b), b,
      "disk-pressure cleanup removes only an allowlisted path, not package-db",
      "disk-pressure cleanup does not mutate firewall rules");
  }

  /** A text without slashes occurs in the requested service's resource exactly when it occurs in one of its names. */
  lemma OccursInTarget(node: string, service: string, part: string)
    requires '/' !in part
    requires !Contains("system:node", part) && !Contains("service", part)
    ensures Contains(NodeResource(node, "service/" + service), part)
            <==> Contains(node, part) || Contains(service, part)
  {
    var rest := "service" + ['/'] + service;
    var target := NodeResource(node, "service/" + service);
    assert "service/" + service == rest by {
      assert "service/" == "service" + ['/'];
    }
    assert target == "system:node" + ['/'] + (node + ['/'] + rest) by {
      assert "system:node/" == "system:node" + ['/'];
    }
    ContainsAcross("system:node", '/', node + ['/'] + rest, part);
    ContainsAcross(node, '/', rest, part);
    ContainsAcross("service", '/', service, part);
  }

  lemma PackageDbIsOneSegment()
    ensures '/' !in "package-db"
    ensures !Contains("system:node", "package-db") && !Contains("service", "package-db")
  {
    var part := "package-db";
    assert part[0] == 'p' && |part| == 10;
    forall i | 0 <= i <= |"system:node"|
      ensures !OccursAt("system:node", part, i)
    {
      assert i < |"system:node"| ==> "system:node"[i] != 'p';
    }
    assert forall i :: 0 <= i <= |"service"| ==> |"service"[i..]| < 10;
  }

  /** A planned restart counts as a package mutation exactly when the node's or the service's name says package-db. */
  lemma RestartWritesPackageDb(request: ServiceUnhealthyRequest)
    ensures WritesPackageDb(ServiceImpact(request))
            <==> Contains(request.nodeId, "package-db") || Contains(request.service, "package-db")
  {
    PackageDbIsOneSegment();
    OccursInTarget(request.nodeId, request.service, "package-db");
    hide Contains, NodeResource;
    var writes := ServiceImpact(request).writes;
    assert |writes| == 1 && writes[0] == NodeResource(request.nodeId, "service/" + request.service);
  }

  predicate Requires(plan: VerificationPlan, id: string) {
    exists i :: 0 <= i < |plan.required| && plan.required[i].id == id
  }

  lemma ServiceChecksServiceActive(impact: ImpactSet)
    ensures Requires(GenericServiceChange(ServiceRestart, impact), "service_active")
    ensures !Requires(GenericServiceChange(ServiceRestart, impact), "package_db_consistent")
  {
    hide PrimaryResource;
    var required := GenericServiceChange(ServiceRestart, impact).required;
    assert required[1].id == "service_active";
    assert |required[0].id| == 29 && |"package_db_consistent"| == 21;
  }

  lemma PackageChecksPackageDb(impact: ImpactSet)
    ensures !Requires(SystemPackageUpdate(MINIMAL_POLICY, impact), "service_active")
    ensures Requires(SystemPackageUpdate(MINIMAL_POLICY, impact), "package_db_consistent")
  {
    hide SkipDiskScan, SkipServiceHealth, PackageResource, RebootResource, AffectedServiceResource;
    var required := SystemPackageUpdate(MINIMAL_POLICY, impact).required;
    assert required[0].id == "package_db_consistent";
    assert |"service_active"| == 14;
  }

  /**
   A planned restart is checked for the service being active exactly when neither the node's nor the service's name
   mentions package-db; otherwise it is checked for a consistent package database instead.
   */
  lemma RestartBranch(request: ServiceUnhealthyRequest)
    ensures var plan := ServiceVerification(ServiceImpact(request));
            var mentioned := Contains(request.nodeId, "package-db") || Contains(request.service, "package-db");
            && (Requires(plan, "service_active") <==> !mentioned)
            && (Requires(plan, "package_db_consistent") <==> mentioned)
  {
    hide GenericServiceChange, ApplicationServiceChange, PlatformReload, SystemReboot, SystemPackageUpdate,
      AllowlistedFileCleanup, GenericTypedAction, WritesPackageDb, NodeResource, Contains;
    var impact := ServiceImpact(request);
    RestartWritesPackageDb(request);
    ServiceChecksServiceActive(impact);
    PackageChecksPackageDb(impact);
    assert ServiceVerification(impact).required == Plan(MINIMAL_POLICY, ServiceRestart, impact).required;
  }
}
