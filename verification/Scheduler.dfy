/** The lease scheduler: compatibility of modes, effective requests, and the decision for one task. */
module Scheduler {
  import opened Wrappers
  import opened Seqs
  import opened Domain

  predicate IsMutating(mode: LeaseMode) {
    mode.Exclusive? || mode.Drain? || mode.Reboot?
  }

  /** Two leases on one resource may coexist. */
  predicate Compatible(existing: LeaseMode, requested: LeaseMode) {
    match existing
    case Observe => requested.Observe? || requested.Intent? || requested.Exclusive? || requested.Drain?
    case Intent => requested.Observe? || requested.Intent? || requested.Exclusive?
    case Exclusive => requested.Observe? || requested.Intent?
    case Drain => requested.Observe? || requested.Reboot?
    case Reboot => requested.Drain?
  }

  predicate IsDisruptive(mode: LeaseMode) {
    mode.Drain? || mode.Reboot?
  }

  /**
   It does not matter which of two leases was there first: observing tolerates all but a reboot, intent all that does
   not disrupt, and of two mutating leases only drain and reboot coexist.
   */
  lemma CompatibleSymmetric(a: LeaseMode, b: LeaseMode)
    ensures Compatible(a, b) == Compatible(b, a)
    ensures Compatible(a, b) <==>
      || (a.Observe? && !b.Reboot?) || (b.Observe? && !a.Reboot?)
      || (a.Intent? && !b.Drain? && !b.Reboot?) || (b.Intent? && !a.Drain? && !a.Reboot?)
      || (a.Drain? && b.Reboot?) || (a.Reboot? && b.Drain?)
    ensures IsMutating(a) <==> a in {Exclusive, Drain, Reboot}
    ensures Compatible(a, b) && IsMutating(a) && IsMutating(b) ==> (a.Drain? && b.Reboot?) || (a.Reboot? && b.Drain?)
    ensures Compatible(a, b) && a.Reboot? ==> b.Drain?
  {}

  datatype ResourceDependencyPath = ResourceDependencyPath(lowerResourceId: string, upperResourceId: string)

  datatype SchedulerSnapshot = SchedulerSnapshot(
    completedTaskIds: seq<string>,
    activeLeases: seq<ResourceLease>,
    dependencyPaths: seq<ResourceDependencyPath>)

  /** Explicit requests, or else an observe request per read followed by an exclusive request per write. */
  function EffectiveLeaseRequests(task: Task): (r: seq<ResourceLeaseRequest>)
    ensures task.leaseRequests != [] ==> r == task.leaseRequests
    ensures task.leaseRequests == [] ==>
      && |r| == |task.readsFrom| + |task.writesTo|
      && (forall x :: x in task.readsFrom ==> ResourceLeaseRequest(x, Observe, "task read") in r)
      && (forall x :: x in task.writesTo ==> ResourceLeaseRequest(x, Exclusive, "task write") in r)
      && (forall q :: q in r ==> (q.mode.Observe? && q.resourceId in task.readsFrom)
                                 || (q.mode.Exclusive? && q.resourceId in task.writesTo))
  {
    if task.leaseRequests != [] then task.leaseRequests
    else
      var observed := Map(task.readsFrom, (x: string) => ResourceLeaseRequest(x, Observe, "task read"));
      var exclusive := Map(task.writesTo, (x: string) => ResourceLeaseRequest(x, Exclusive, "task write"));
      assert forall x :: x in task.readsFrom ==> ResourceLeaseRequest(x, Observe, "task read") in observed;
      assert forall x :: x in task.writesTo ==> ResourceLeaseRequest(x, Exclusive, "task write") in exclusive;
      observed + exclusive
  }

  /** Resources the task changes: its writes and the resources of its explicit mutating requests. */
  function MutatedResourceIds(task: Task): (r: seq<string>)
    ensures forall x :: x in r <==>
      x in task.writesTo || exists q :: q in task.leaseRequests && IsMutating(q.mode) && q.resourceId == x
  {
    var mutating := Filter(task.leaseRequests, (q: ResourceLeaseRequest) => IsMutating(q.mode));
    var ids := Map(mutating, (q: ResourceLeaseRequest) => q.resourceId);
    MutatingIdsExact(task.leaseRequests, ids);
    task.writesTo + ids
  }

  lemma MutatingIdsExact(requests: seq<ResourceLeaseRequest>, ids: seq<string>)
    requires ids == Map(Filter(requests, (q: ResourceLeaseRequest) => IsMutating(q.mode)),
                        (q: ResourceLeaseRequest) => q.resourceId)
    ensures forall x :: x in ids <==> exists q :: q in requests && IsMutating(q.mode) && q.resourceId == x
  {
    var p := (q: ResourceLeaseRequest) => IsMutating(q.mode);
    var mutating := Filter(requests, p);
    forall x
      ensures x in ids <==> exists q :: q in requests && IsMutating(q.mode) && q.resourceId == x
    {
      if x in ids {
        var i :| 0 <= i < |ids| && ids[i] == x;
        FilterMembers(requests, p, mutating[i]);
      }
      if q :| q in requests && IsMutating(q.mode) && q.resourceId == x {
        FilterMembers(requests, p, q);
        var i :| 0 <= i < |mutating| && mutating[i] == q;
        assert ids[i] == x;
      }
    }
  }

  /** An existing lease stands in the way of a request. */
  predicate Conflicts(existing: ResourceLease, request: ResourceLeaseRequest) {
    existing.resourceId == request.resourceId && !Compatible(existing.mode, request.mode)
  }

  /** A drain or reboot lease below a resource that an upper-layer task changes. */
  predicate Disrupts(lease: ResourceLease, path: ResourceDependencyPath, task: Task) {
    && IsDisruptive(lease.mode)
    && path.lowerResourceId == lease.resourceId
    && path.upperResourceId in MutatedResourceIds(task)
    && task.layer != System
  }

  /** The first lease in the way of one request. */
  function ConflictOf(request: ResourceLeaseRequest, leases: seq<ResourceLease>)
    : (r: Option<(ResourceLeaseRequest, ResourceLease)>)
    ensures r.None? <==> forall l :: l in leases ==> !Conflicts(l, request)
    ensures r.Some? ==> exists j :: 0 <= j < |leases|
                                    && r.value == (request, leases[j]) && Conflicts(leases[j], request)
                                    && forall k :: 0 <= k < j ==> !Conflicts(leases[k], request)
  {
    match Find(leases, (l: ResourceLease) => Conflicts(l, request))
    case None => None
    case Some(l) => Some((request, l))
  }

  ghost predicate IsFirstConflict(requests: seq<ResourceLeaseRequest>, leases: seq<ResourceLease>, i: nat, j: nat)
    requires i < |requests| && j < |leases|
  {
    && Conflicts(leases[j], requests[i])
    && (forall k, l :: 0 <= k < i && l in leases ==> !Conflicts(l, requests[k]))
    && (forall k :: 0 <= k < j ==> !Conflicts(leases[k], requests[i]))
  }

  function FirstConflict(requests: seq<ResourceLeaseRequest>, leases: seq<ResourceLease>)
    : (r: Option<(ResourceLeaseRequest, ResourceLease)>)
    ensures r.None? <==> forall q, l :: q in requests && l in leases ==> !Conflicts(l, q)
    ensures r.Some? ==> r.value.0 in requests && r.value.1 in leases && Conflicts(r.value.1, r.value.0)
    ensures r.Some? ==> exists i :: 0 <= i < |requests| && ConflictOf(requests[i], leases) == r
                                    && forall k :: 0 <= k < i ==> ConflictOf(requests[k], leases).None?
  {
    FindMap(requests, (q: ResourceLeaseRequest) => ConflictOf(q, leases))
  }

  /** The first path through which one lease disrupts the task. */
  function DisruptionOf(lease: ResourceLease, paths: seq<ResourceDependencyPath>, task: Task)
    : (r: Option<(ResourceDependencyPath, ResourceLease)>)
    ensures r.None? <==> forall p :: p in paths ==> !Disrupts(lease, p, task)
    ensures r.Some? ==> exists j :: 0 <= j < |paths| && r.value == (paths[j], lease) && Disrupts(lease, paths[j], task)
                                    && forall k :: 0 <= k < j ==> !Disrupts(lease, paths[k], task)
  {
    if !IsDisruptive(lease.mode) then None
    else
      match Find(paths, (p: ResourceDependencyPath) => Disrupts(lease, p, task))
      case None => None
      case Some(p) => Some((p, lease))
  }

  ghost predicate IsFirstDisruption(
      leases: seq<ResourceLease>, paths: seq<ResourceDependencyPath>, task: Task, i: nat, j: nat)
    requires i < |leases| && j < |paths|
  {
    && Disrupts(leases[i], paths[j], task)
    && (forall k, p :: 0 <= k < i && p in paths ==> !Disrupts(leases[k], p, task))
    && (forall k :: 0 <= k < j ==> !Disrupts(leases[i], paths[k], task))
  }

  function FirstDisruption(leases: seq<ResourceLease>, paths: seq<ResourceDependencyPath>, task: Task)
    : (r: Option<(ResourceDependencyPath, ResourceLease)>)
    ensures r.None? <==> forall l, p :: l in leases && p in paths ==> !Disrupts(l, p, task)
    ensures r.Some? ==> r.value.0 in paths && r.value.1 in leases && Disrupts(r.value.1, r.value.0, task)
    ensures r.Some? ==> exists i :: 0 <= i < |leases| && DisruptionOf(leases[i], paths, task) == r
                                    && forall k :: 0 <= k < i ==> DisruptionOf(leases[k], paths, task).None?
  {
    FindMap(leases, (l: ResourceLease) => DisruptionOf(l, paths, task))
  }

  ghost predicate DependenciesDone(snapshot: SchedulerSnapshot, task: Task) {
    forall d :: d in task.dependencies ==> d in snapshot.completedTaskIds
  }

  ghost predicate LeasesFree(snapshot: SchedulerSnapshot, task: Task) {
    forall q, l :: q in EffectiveLeaseRequests(task) && l in snapshot.activeLeases ==> !Conflicts(l, q)
  }

  ghost predicate Undisrupted(snapshot: SchedulerSnapshot, task: Task) {
    forall l, p :: l in snapshot.activeLeases && p in snapshot.dependencyPaths ==> !Disrupts(l, p, task)
  }

  /** The verdict is `Run` exactly when all three conditions hold; otherwise it names the first obstacle it meets. */
  function DecideTask(snapshot: SchedulerSnapshot, task: Task): (r: SchedulerDecision)
    ensures r.taskId == task.id
    ensures r.Run? <==> DependenciesDone(snapshot, task) && LeasesFree(snapshot, task) && Undisrupted(snapshot, task)
    ensures r.Wait? ==>
      match r.reason
      case DependencyIncomplete(d) =>
        exists k :: 0 <= k < |task.dependencies| && task.dependencies[k] == d && d !in snapshot.completedTaskIds
                    && forall i :: 0 <= i < k ==> task.dependencies[i] in snapshot.completedTaskIds
      case ResourceConflict(resource, leaseId, existing, requested) =>
        && DependenciesDone(snapshot, task)
        && exists q, l :: q in EffectiveLeaseRequests(task) && l in snapshot.activeLeases && Conflicts(l, q)
                          && resource == q.resourceId && leaseId == l.id && existing == l.mode && requested == q.mode
      case LowerLayerDisruption(lower, upper, leaseId, existing) =>
        && DependenciesDone(snapshot, task) && LeasesFree(snapshot, task)
        && exists l, p :: l in snapshot.activeLeases && p in snapshot.dependencyPaths && Disrupts(l, p, task)
                          && lower == p.lowerResourceId && upper == p.upperResourceId
                          && leaseId == l.id && existing == l.mode
  {
    match Find(task.dependencies, (d: string) => d !in snapshot.completedTaskIds)
    case Some(d) => Wait(task.id, DependencyIncomplete(d))
    case None =>
      match FirstConflict(EffectiveLeaseRequests(task), snapshot.activeLeases)
      case Some((q, l)) => Wait(task.id, ResourceConflict(q.resourceId, l.id, l.mode, q.mode))
      case None =>
        match FirstDisruption(snapshot.activeLeases, snapshot.dependencyPaths, task)
        case Some((p, l)) =>
          Wait(task.id, LowerLayerDisruption(p.lowerResourceId, p.upperResourceId, l.id, l.mode))
        case None => Run(task.id)
  }

  /** A reported conflict is that of the first conflicting request, with the first lease in its way. */
  lemma ConflictIsFirst(snapshot: SchedulerSnapshot, task: Task) returns (i: nat, j: nat)
    requires DecideTask(snapshot, task).Wait? && DecideTask(snapshot, task).reason.ResourceConflict?
    ensures i < |EffectiveLeaseRequests(task)| && j < |snapshot.activeLeases|
    ensures var q, l := EffectiveLeaseRequests(task)[i], snapshot.activeLeases[j];
            DecideTask(snapshot, task).reason == ResourceConflict(q.resourceId, l.id, l.mode, q.mode)
    ensures IsFirstConflict(EffectiveLeaseRequests(task), snapshot.activeLeases, i, j)
  {
    hide EffectiveLeaseRequests, FirstConflict, FirstDisruption, IsFirstConflict;
    i, j := FirstConflictAt(EffectiveLeaseRequests(task), snapshot.activeLeases);
  }

  lemma FirstConflictAt(requests: seq<ResourceLeaseRequest>, leases: seq<ResourceLease>) returns (i: nat, j: nat)
    requires FirstConflict(requests, leases).Some?
    ensures i < |requests| && j < |leases|
    ensures FirstConflict(requests, leases) == Some((requests[i], leases[j]))
    ensures IsFirstConflict(requests, leases, i, j)
  {
    hide *;
    i :| 0 <= i < |requests| && ConflictOf(requests[i], leases) == FirstConflict(requests, leases)
         && forall k :: 0 <= k < i ==> ConflictOf(requests[k], leases).None?;
    j := FirstInTheWay(requests[i], leases);
    NoConflictBefore(requests, leases, i, j);
  }

  lemma FirstInTheWay(request: ResourceLeaseRequest, leases: seq<ResourceLease>) returns (j: nat)
    requires ConflictOf(request, leases).Some?
    ensures j < |leases| && ConflictOf(request, leases) == Some((request, leases[j]))
    ensures Conflicts(leases[j], request) && forall k :: 0 <= k < j ==> !Conflicts(leases[k], request)
  {
    hide *;
    j :| 0 <= j < |leases| && ConflictOf(request, leases) == Some((request, leases[j]))
         && Conflicts(leases[j], request) && forall k :: 0 <= k < j ==> !Conflicts(leases[k], request);
  }

  lemma NoConflictBefore(requests: seq<ResourceLeaseRequest>, leases: seq<ResourceLease>, i: nat, j: nat)
    requires i < |requests| && j < |leases|
    requires Conflicts(leases[j], requests[i]) && forall k :: 0 <= k < j ==> !Conflicts(leases[k], requests[i])
    requires forall k :: 0 <= k < i ==> ConflictOf(requests[k], leases).None?
    ensures IsFirstConflict(requests, leases, i, j)
  {
    hide Conflicts, ConflictOf;
  }

  /** A reported disruption is that of the first disruptive lease, through the first path on which it disrupts. */
  lemma DisruptionIsFirst(snapshot: SchedulerSnapshot, task: Task) returns (i: nat, j: nat)
    requires DecideTask(snapshot, task).Wait? && DecideTask(snapshot, task).reason.LowerLayerDisruption?
    ensures i < |snapshot.activeLeases| && j < |snapshot.dependencyPaths|
    ensures var l, p := snapshot.activeLeases[i], snapshot.dependencyPaths[j];
            DecideTask(snapshot, task).reason
            == LowerLayerDisruption(p.lowerResourceId, p.upperResourceId, l.id, l.mode)
    ensures IsFirstDisruption(snapshot.activeLeases, snapshot.dependencyPaths, task, i, j)
  {
    hide EffectiveLeaseRequests, FirstConflict, FirstDisruption, IsFirstDisruption;
    i, j := FirstDisruptionAt(snapshot.activeLeases, snapshot.dependencyPaths, task);
  }

  lemma FirstDisruptionAt(leases: seq<ResourceLease>, paths: seq<ResourceDependencyPath>, task: Task)
    returns (i: nat, j: nat)
    requires FirstDisruption(leases, paths, task).Some?
    ensures i < |leases| && j < |paths|
    ensures FirstDisruption(leases, paths, task) == Some((paths[j], leases[i]))
    ensures IsFirstDisruption(leases, paths, task, i, j)
  {
    hide *;
    i :| 0 <= i < |leases| && DisruptionOf(leases[i], paths, task) == FirstDisruption(leases, paths, task)
         && forall k :: 0 <= k < i ==> DisruptionOf(leases[k], paths, task).None?;
    j := FirstDisrupted(leases[i], paths, task);
    NoDisruptionBefore(leases, paths, task, i, j);
  }

  lemma FirstDisrupted(lease: ResourceLease, paths: seq<ResourceDependencyPath>, task: Task) returns (j: nat)
    requires DisruptionOf(lease, paths, task).Some?
    ensures j < |paths| && DisruptionOf(lease, paths, task) == Some((paths[j], lease))
    ensures Disrupts(lease, paths[j], task) && forall k :: 0 <= k < j ==> !Disrupts(lease, paths[k], task)
  {
    hide *;
    j :| 0 <= j < |paths| && DisruptionOf(lease, paths, task) == Some((paths[j], lease))
         && Disrupts(lease, paths[j], task) && forall k :: 0 <= k < j ==> !Disrupts(lease, paths[k], task);
  }

  lemma NoDisruptionBefore(leases: seq<ResourceLease>, paths: seq<ResourceDependencyPath>, task: Task, i: nat, j: nat)
    requires i < |leases| && j < |paths|
    requires Disrupts(leases[i], paths[j], task) && forall k :: 0 <= k < j ==> !Disrupts(leases[i], paths[k], task)
    requires forall k :: 0 <= k < i ==> DisruptionOf(leases[k], paths, task).None?
    ensures IsFirstDisruption(leases, paths, task, i, j)
  {
    hide Disrupts, DisruptionOf;
  }

  /**
   Fewer leases, fewer paths or more completed tasks never turn `Run` into `Wait`; in particular the verdict
   ignores order and repetition in all three lists.
   */
  lemma DecisionMonotone(before: SchedulerSnapshot, after: SchedulerSnapshot, task: Task)
    requires forall d :: d in before.completedTaskIds ==> d in after.completedTaskIds
    requires forall l :: l in after.activeLeases ==> l in before.activeLeases
    requires forall p :: p in after.dependencyPaths ==> p in before.dependencyPaths
    ensures DecideTask(before, task).Run? ==> DecideTask(after, task).Run?
  {}

  lemma DecisionIgnoresOrder(a: SchedulerSnapshot, b: SchedulerSnapshot, task: Task)
    requires multiset(a.completedTaskIds) == multiset(b.completedTaskIds)
    requires multiset(a.activeLeases) == multiset(b.activeLeases)
    requires multiset(a.dependencyPaths) == multiset(b.dependencyPaths)
    ensures DecideTask(a, task).Run? == DecideTask(b, task).Run?
  {
    forall x
      ensures x in a.completedTaskIds <==> x in b.completedTaskIds
    {
      assert x in multiset(a.completedTaskIds) <==> x in multiset(b.completedTaskIds);
    }
    forall x
      ensures x in a.activeLeases <==> x in b.activeLeases
    {
      assert x in multiset(a.activeLeases) <==> x in multiset(b.activeLeases);
    }
    forall x
      ensures x in a.dependencyPaths <==> x in b.dependencyPaths
    {
      assert x in multiset(a.dependencyPaths) <==> x in multiset(b.dependencyPaths);
    }
    DecisionMonotone(a, b, task);
    DecisionMonotone(b, a, task);
  }

  // ----- The documented rule -----

  /** Leases that differ at most in the run that holds them. */
  ghost predicate SameButRuns(a: seq<ResourceLease>, b: seq<ResourceLease>) {
    |a| == |b| && forall i :: 0 <= i < |a| ==> b[i].(runId := a[i].runId) == a[i]
  }

  lemma SameConflict(requests: seq<ResourceLeaseRequest>, a: seq<ResourceLease>, b: seq<ResourceLease>)
    requires SameButRuns(a, b) && FirstConflict(requests, a).Some?
    ensures FirstConflict(requests, b).Some?
    ensures var (q, l) := FirstConflict(requests, a).value;
            var (q', l') := FirstConflict(requests, b).value;
            q' == q && l'.id == l.id && l'.mode == l.mode
  {
    hide ConflictOf, FirstConflict, Compatible;
    var i, j := FirstConflictAt(requests, a);
    assert b[j] in b && requests[i] in requests && Conflicts(b[j], requests[i]);
    var i', j' := FirstConflictAt(requests, b);
    assert Conflicts(a[j'], requests[i']);
    assert i == i' && j == j';
  }

  lemma SameDisruption(a: seq<ResourceLease>, b: seq<ResourceLease>, paths: seq<ResourceDependencyPath>, task: Task)
    requires SameButRuns(a, b) && FirstDisruption(a, paths, task).Some?
    ensures FirstDisruption(b, paths, task).Some?
    ensures var (p, l) := FirstDisruption(a, paths, task).value;
            var (p', l') := FirstDisruption(b, paths, task).value;
            p' == p && l'.id == l.id && l'.mode == l.mode
  {
    hide DisruptionOf, FirstDisruption, MutatedResourceIds;
    var i, j := FirstDisruptionAt(a, paths, task);
    assert b[i] in b && paths[j] in paths && Disrupts(b[i], paths[j], task);
    var i', j' := FirstDisruptionAt(b, paths, task);
    assert Disrupts(a[i'], paths[j'], task);
    assert i == i' && j == j';
  }

  /** Neither the runs that hold the leases nor the capabilities that the task needs have any say. */
  lemma DecisionIgnoresRunsAndCapabilities(
      before: SchedulerSnapshot, leases: seq<ResourceLease>, task: Task, capabilities: seq<Capability>)
    requires SameButRuns(before.activeLeases, leases)
    ensures DecideTask(before.(activeLeases := leases), task.(requiredCapabilities := capabilities))
            == DecideTask(before, task)
  {
    hide DecideTask;
    DecisionIgnoresRuns(before, leases, task);
    DecisionIgnoresCapabilities(before.(activeLeases := leases), task, capabilities);
  }

  function ConflictReport(found: Option<(ResourceLeaseRequest, ResourceLease)>): Option<SchedulerWaitReason> {
    match found
    case None => None
    case Some((q, l)) => Some(ResourceConflict(q.resourceId, l.id, l.mode, q.mode))
  }

  function DisruptionReport(found: Option<(ResourceDependencyPath, ResourceLease)>): Option<SchedulerWaitReason> {
    match found
    case None => None
    case Some((p, l)) => Some(LowerLayerDisruption(p.lowerResourceId, p.upperResourceId, l.id, l.mode))
  }

  lemma SameConflictReport(requests: seq<ResourceLeaseRequest>, a: seq<ResourceLease>, b: seq<ResourceLease>)
    requires SameButRuns(a, b)
    ensures ConflictReport(FirstConflict(requests, b)) == ConflictReport(FirstConflict(requests, a))
  {
    hide *;
    SameButRunsSymmetric(a, b);
    if FirstConflict(requests, a).Some? {
      SameConflict(requests, a, b);
      ReportsAgree(FirstConflict(requests, a), FirstConflict(requests, b));
    } else if FirstConflict(requests, b).Some? {
      SameConflict(requests, b, a);
    }
  }

  lemma ReportsAgree(
      a: Option<(ResourceLeaseRequest, ResourceLease)>, b: Option<(ResourceLeaseRequest, ResourceLease)>)
    requires a.Some? && b.Some?
    requires b.value.0 == a.value.0 && b.value.1.id == a.value.1.id && b.value.1.mode == a.value.1.mode
    ensures ConflictReport(a) == ConflictReport(b)
  {}

  lemma SameDisruptionReport(
      a: seq<ResourceLease>, b: seq<ResourceLease>, paths: seq<ResourceDependencyPath>, task: Task)
    requires SameButRuns(a, b)
    ensures DisruptionReport(FirstDisruption(b, paths, task)) == DisruptionReport(FirstDisruption(a, paths, task))
  {
    hide *;
    SameButRunsSymmetric(a, b);
    if FirstDisruption(a, paths, task).Some? {
      SameDisruption(a, b, paths, task);
      DisruptionsAgree(FirstDisruption(a, paths, task), FirstDisruption(b, paths, task));
    } else if FirstDisruption(b, paths, task).Some? {
      SameDisruption(b, a, paths, task);
    }
  }

  lemma DisruptionsAgree(
      a: Option<(ResourceDependencyPath, ResourceLease)>, b: Option<(ResourceDependencyPath, ResourceLease)>)
    requires a.Some? && b.Some?
    requires b.value.0 == a.value.0 && b.value.1.id == a.value.1.id && b.value.1.mode == a.value.1.mode
    ensures DisruptionReport(a) == DisruptionReport(b)
  {}

  lemma DecisionIgnoresRuns(before: SchedulerSnapshot, leases: seq<ResourceLease>, task: Task)
    requires SameButRuns(before.activeLeases, leases)
    ensures DecideTask(before.(activeLeases := leases), task) == DecideTask(before, task)
  {
    hide EffectiveLeaseRequests, FirstConflict, FirstDisruption, Find, Conflicts, Disrupts, DependenciesDone,
      LeasesFree, Undisrupted, SameButRuns;
    SameConflictReport(EffectiveLeaseRequests(task), before.activeLeases, leases);
    SameDisruptionReport(before.activeLeases, leases, before.dependencyPaths, task);
  }

  lemma DecisionIgnoresCapabilities(s: SchedulerSnapshot, task: Task, capabilities: seq<Capability>)
    ensures DecideTask(s, task.(requiredCapabilities := capabilities)) == DecideTask(s, task)
  {
    SameForCapabilities(s.activeLeases, s.dependencyPaths, task, capabilities);
    SameRequests(task, capabilities);
    hide FirstConflict, FirstDisruption, EffectiveLeaseRequests, Find, Conflicts, Disrupts, DependenciesDone,
      LeasesFree, Undisrupted;
  }

  lemma SameRequests(task: Task, capabilities: seq<Capability>)
    ensures EffectiveLeaseRequests(task.(requiredCapabilities := capabilities)) == EffectiveLeaseRequests(task)
  {}

  lemma SameButRunsSymmetric(a: seq<ResourceLease>, b: seq<ResourceLease>)
    requires SameButRuns(a, b)
    ensures SameButRuns(b, a)
  {}

  lemma SameForCapabilities(
      leases: seq<ResourceLease>, paths: seq<ResourceDependencyPath>, task: Task, capabilities: seq<Capability>)
    ensures var task' := task.(requiredCapabilities := capabilities);
            FirstDisruption(leases, paths, task') == FirstDisruption(leases, paths, task)
  {
    var task' := task.(requiredCapabilities := capabilities);
    assert MutatedResourceIds(task') == MutatedResourceIds(task);
    hide MutatedResourceIds, FirstDisruption, DisruptionOf, Disrupts;
    assert forall l, p :: Disrupts(l, p, task') == Disrupts(l, p, task) by {
      SameDisrupts(task, capabilities);
    }
    if FirstDisruption(leases, paths, task).Some? {
      var i, j := FirstDisruptionAt(leases, paths, task);
      assert leases[i] in leases && paths[j] in paths;
      var i', j' := FirstDisruptionAt(leases, paths, task');
      assert i == i' && j == j';
    }
  }

  lemma SameDisrupts(task: Task, capabilities: seq<Capability>)
    requires MutatedResourceIds(task.(requiredCapabilities := capabilities)) == MutatedResourceIds(task)
    ensures forall l, p :: Disrupts(l, p, task.(requiredCapabilities := capabilities)) == Disrupts(l, p, task)
  {
    hide MutatedResourceIds;
  }

  /** The documented matrix, its qualified cells read as allowed; it has no column for new intent and drain leases. */
  predicate DocumentedAllows(existing: ResourceLease, requested: LeaseMode, runId: string) {
    match requested
    case Observe => !existing.mode.Reboot?
    case Exclusive => existing.mode.Observe? || existing.mode.Intent?
    case Reboot => existing.mode.Drain? && existing.runId == runId
    case Intent => true
    case Drain => true
  }

  ghost predicate MeetsDocumentedMatrix(snapshot: SchedulerSnapshot, task: Task, runId: string) {
    forall q, l :: q in EffectiveLeaseRequests(task) && l in snapshot.activeLeases && l.resourceId == q.resourceId ==>
      DocumentedAllows(l, q.mode, runId)
  }

  /** Another run's drain lease on a resource that the task asks to reboot. */
  predicate ForeignDrain(request: ResourceLeaseRequest, lease: ResourceLease, runId: string) {
    request.mode.Reboot? && lease.mode.Drain? && lease.resourceId == request.resourceId && lease.runId != runId
  }

  /** A `Run` verdict honours the documented matrix exactly when no other run drains what the task is to reboot. */
  lemma DocumentedMatrixExact(snapshot: SchedulerSnapshot, task: Task, runId: string)
    requires DecideTask(snapshot, task).Run?
    ensures MeetsDocumentedMatrix(snapshot, task, runId)
            <==> (forall q, l :: q in EffectiveLeaseRequests(task) && l in snapshot.activeLeases ==>
                    !ForeignDrain(q, l, runId))
  {
    hide EffectiveLeaseRequests, FirstConflict, FirstDisruption, DecideTask;
    forall q, l | q in EffectiveLeaseRequests(task) && l in snapshot.activeLeases && l.resourceId == q.resourceId
      ensures DocumentedAllows(l, q.mode, runId) <==> !ForeignDrain(q, l, runId)
    {
      assert !Conflicts(l, q);
    }
  }

  /** The code is never stricter than the documented matrix. */
  lemma DocumentedIsCompatible(existing: ResourceLease, requested: LeaseMode, runId: string)
    requires requested.Observe? || requested.Exclusive? || requested.Reboot?
    ensures DocumentedAllows(existing, requested, runId) ==> Compatible(existing.mode, requested)
  {}

  /** Another run's drain does not keep a task from rebooting, nor does a capability that nobody has reported. */
  lemma ForeignDrainAdmitsReboot()
    ensures var lease := ResourceLease("lease", "other-run", None, "node", Drain, "maintenance");
            var request := ResourceLeaseRequest("node", Reboot, "kernel");
            var task := NewTask("reboot", System).(
              requiredCapabilities := [Capability("unreported")], leaseRequests := [request]);
            && DecideTask(SchedulerSnapshot([], [lease], []), task).Run?
            && !DocumentedAllows(lease, request.mode, "run")
  {
    hide FirstConflict, FirstDisruption;
  }
}
