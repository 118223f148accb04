/** What the scheduler answers, case by case, in terms of the task, the leases and the paths alone. */
module SchedulerAnswers {
  import opened Wrappers
  import opened Seqs
  import opened Domain
  import opened Scheduler

  /** The pairs of modes that two leases on one resource may have. */
  ghost predicate MayShare(a: LeaseMode, b: LeaseMode) {
    || (a.Observe? && !b.Reboot?) || (b.Observe? && !a.Reboot?)
    || (a.Intent? && (b.Intent? || b.Exclusive?)) || (b.Intent? && a.Exclusive?)
    || (a.Drain? && b.Reboot?) || (a.Reboot? && b.Drain?)
  }

  /** The lease is on the requested resource, in a mode that it does not share. */
  ghost predicate Blocks(l: ResourceLease, q: ResourceLeaseRequest) {
    l.resourceId == q.resourceId && !MayShare(l.mode, q.mode)
  }

  /** The task writes the resource, or explicitly asks to hold it exclusively, to drain it or to reboot it. */
  ghost predicate Changes(task: Task, resource: string) {
    || resource in task.writesTo
    || exists q :: q in task.leaseRequests && q.resourceId == resource
                   && (q.mode.Exclusive? || q.mode.Drain? || q.mode.Reboot?)
  }

  /** A drain or reboot lease below something that a platform or application task changes. */
  ghost predicate Undermines(l: ResourceLease, p: ResourceDependencyPath, task: Task) {
    && (l.mode.Drain? || l.mode.Reboot?) && p.lowerResourceId == l.resourceId
    && Changes(task, p.upperResourceId) && (task.layer.Platform? || task.layer.Application?)
  }

  lemma BlocksExactly(l: ResourceLease, q: ResourceLeaseRequest)
    ensures Conflicts(l, q) <==> Blocks(l, q)
  {}

  lemma UnderminesExactly(l: ResourceLease, p: ResourceDependencyPath, task: Task)
    ensures Disrupts(l, p, task) <==> Undermines(l, p, task)
  {
    hide MutatedResourceIds;
    assert p.upperResourceId in MutatedResourceIds(task) <==> Changes(task, p.upperResourceId);
  }

  // ----- Requests -----

  /** Explicit requests as they are, or else the reads to observe and then the writes to hold, in their order. */
  lemma RequestAnswers(task: Task, k: nat)
    requires k < |EffectiveLeaseRequests(task)|
    ensures task.leaseRequests != [] ==> EffectiveLeaseRequests(task) == task.leaseRequests
    ensures task.leaseRequests == [] ==>
              && |EffectiveLeaseRequests(task)| == |task.readsFrom| + |task.writesTo|
              && EffectiveLeaseRequests(task)[k]
                 == if k < |task.readsFrom| then ResourceLeaseRequest(task.readsFrom[k], Observe, "task read")
                    else ResourceLeaseRequest(task.writesTo[k - |task.readsFrom|], Exclusive, "task write")
  {}

  // ----- The verdict -----

  /** Every dependency is completed. */
  ghost predicate Provided(s: SchedulerSnapshot, task: Task) {
    forall d :: d in task.dependencies ==> d in s.completedTaskIds
  }

  /** No lease is in the way of any request. */
  ghost predicate Free(s: SchedulerSnapshot, task: Task) {
    forall q, l :: q in EffectiveLeaseRequests(task) && l in s.activeLeases && l.resourceId == q.resourceId ==>
      MayShare(l.mode, q.mode)
  }

  /** It is a system task, or no drain or reboot lease stands below anything that it changes. */
  ghost predicate Grounded(s: SchedulerSnapshot, task: Task) {
    || task.layer.System?
    || forall l, p :: l in s.activeLeases && p in s.dependencyPaths
                      && (l.mode.Drain? || l.mode.Reboot?) && p.lowerResourceId == l.resourceId ==>
         !Changes(task, p.upperResourceId)
  }

  lemma FreeExactly(s: SchedulerSnapshot, task: Task)
    ensures LeasesFree(s, task) <==> Free(s, task)
  {
    hide EffectiveLeaseRequests, MayShare, Conflicts;
    forall q, l | q in EffectiveLeaseRequests(task) && l in s.activeLeases
      ensures Conflicts(l, q) <==> l.resourceId == q.resourceId && !MayShare(l.mode, q.mode)
    {
      BlocksExactly(l, q);
    }
  }

  lemma GroundedExactly(s: SchedulerSnapshot, task: Task)
    ensures Undisrupted(s, task) <==> Grounded(s, task)
  {
    hide Changes, Disrupts;
    forall l, p | l in s.activeLeases && p in s.dependencyPaths
      ensures Disrupts(l, p, task) <==> Undermines(l, p, task)
    {
      UnderminesExactly(l, p, task);
    }
  }

  /** A task runs exactly when it is provided for, free and grounded. */
  lemma RunsExactly(s: SchedulerSnapshot, task: Task)
    ensures DecideTask(s, task) == Run(task.id) <==> Provided(s, task) && Free(s, task) && Grounded(s, task)
    ensures DecideTask(s, task).Run? ==> DecideTask(s, task) == Run(task.id)
  {
    FreeExactly(s, task);
    GroundedExactly(s, task);
    hide LeasesFree, Undisrupted, Free, Grounded, FirstConflict, FirstDisruption, EffectiveLeaseRequests;
  }

  /** An incomplete dependency is waited for before all else, and the first one is named. */
  lemma WaitsForDependency(s: SchedulerSnapshot, task: Task, k: nat)
    requires k < |task.dependencies| && task.dependencies[k] !in s.completedTaskIds
    requires forall i :: 0 <= i < k ==> task.dependencies[i] in s.completedTaskIds
    ensures DecideTask(s, task) == Wait(task.id, DependencyIncomplete(task.dependencies[k]))
  {
    hide FirstConflict, FirstDisruption, EffectiveLeaseRequests;
    PositionUnique(task.dependencies, (d: string) => d !in s.completedTaskIds, k);
  }

  /** A blocked request is waited for next: the first one, and the first lease that blocks it. */
  lemma WaitsForLease(s: SchedulerSnapshot, task: Task, i: nat, j: nat)
    requires Provided(s, task) && i < |EffectiveLeaseRequests(task)| && j < |s.activeLeases|
    requires Blocks(s.activeLeases[j], EffectiveLeaseRequests(task)[i])
    requires forall k, l :: 0 <= k < i && l in s.activeLeases ==> !Blocks(l, EffectiveLeaseRequests(task)[k])
    requires forall k :: 0 <= k < j ==> !Blocks(s.activeLeases[k], EffectiveLeaseRequests(task)[i])
    ensures var (q, l) := (EffectiveLeaseRequests(task)[i], s.activeLeases[j]);
            DecideTask(s, task) == Wait(task.id, ResourceConflict(q.resourceId, l.id, l.mode, q.mode))
  {
    hide EffectiveLeaseRequests, FirstDisruption, FirstConflict, ConflictOf, Conflicts, Blocks;
    var requests, leases := EffectiveLeaseRequests(task), s.activeLeases;
    forall q, l
      ensures Conflicts(l, q) <==> Blocks(l, q)
    {
      BlocksExactly(l, q);
    }
    assert requests[i] in requests && leases[j] in leases;
    var i', j' := FirstConflictAt(requests, leases);
    assert leases[j'] in leases && leases[j] in leases;
    assert i == i' && j == j';
    NothingIncomplete(s, task);
  }

  lemma NothingIncomplete(s: SchedulerSnapshot, task: Task)
    requires Provided(s, task)
    ensures Find(task.dependencies, (d: string) => d !in s.completedTaskIds).None?
  {}

  /** Disruption comes last: the first drain or reboot lease that undermines the task, on its first path. */
  lemma WaitsForLowerLayer(s: SchedulerSnapshot, task: Task, i: nat, j: nat)
    requires Provided(s, task) && Free(s, task) && i < |s.activeLeases| && j < |s.dependencyPaths|
    requires Undermines(s.activeLeases[i], s.dependencyPaths[j], task)
    requires forall k, p :: 0 <= k < i && p in s.dependencyPaths ==> !Undermines(s.activeLeases[k], p, task)
    requires forall k :: 0 <= k < j ==> !Undermines(s.activeLeases[i], s.dependencyPaths[k], task)
    ensures var (l, p) := (s.activeLeases[i], s.dependencyPaths[j]);
            DecideTask(s, task)
            == Wait(task.id, LowerLayerDisruption(p.lowerResourceId, p.upperResourceId, l.id, l.mode))
  {
    FreeExactly(s, task);
    hide EffectiveLeaseRequests, FirstDisruption, FirstConflict, DisruptionOf, Disrupts, Undermines, Free;
    var leases, paths := s.activeLeases, s.dependencyPaths;
    forall l, p
      ensures Disrupts(l, p, task) <==> Undermines(l, p, task)
    {
      UnderminesExactly(l, p, task);
    }
    assert leases[i] in leases && paths[j] in paths;
    var i', j' := FirstDisruptionAt(leases, paths, task);
    assert paths[j'] in paths;
    assert i == i' && j == j';
    NothingIncomplete(s, task);
  }
}
