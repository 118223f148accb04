/**
 Whole runs under the start rule: a task starts only on a `Run` verdict, holds its effective lease requests while
 it runs, and releases them and counts as completed when it finishes.
 */
module SchedulerRuns {
  import opened Wrappers
  import opened Seqs
  import opened Domain
  import opened Scheduler

  /** A task set with its dependency paths and the leases held by others throughout. */
  datatype Workload = Workload(
    tasks: seq<Task>,
    paths: seq<ResourceDependencyPath>,
    outside: seq<ResourceLease>)

  /** Indices of the running and of the finished tasks, in the order in which they got there. */
  datatype Progress = Progress(running: seq<nat>, finished: seq<nat>)

  const AT_REST := Progress([], [])

  datatype Move = Start(task: nat) | Finish(task: nat)

  ghost predicate InRange(w: Workload, ids: seq<nat>) {
    forall i :: i in ids ==> i < |w.tasks|
  }

  /** Every task is running or finished at most once. */
  ghost predicate WellFormed(w: Workload, s: Progress) {
    InRange(w, s.running + s.finished) && Distinct(s.running + s.finished)
  }

  function Granted(task: Task): seq<ResourceLease> {
    Map(EffectiveLeaseRequests(task), (q: ResourceLeaseRequest) =>
      ResourceLease("lease-" + task.id, "run", Some(task.id), q.resourceId, q.mode, q.reason))
  }

  /** The leases of the running tasks. */
  function Held(w: Workload, running: seq<nat>): seq<ResourceLease> {
    if running == [] then []
    else
      var i := running[|running| - 1];
      Held(w, running[..|running| - 1]) + if i < |w.tasks| then Granted(w.tasks[i]) else []
  }

  lemma {:induction false} HeldExactly(w: Workload, running: seq<nat>, l: ResourceLease)
    ensures l in Held(w, running) <==> exists i :: i in running && i < |w.tasks| && l in Granted(w.tasks[i])
  {
    if running != [] {
      var rest, last := running[..|running| - 1], running[|running| - 1];
      assert running == rest + [last];
      HeldExactly(w, rest, l);
    }
  }

  function CompletedIds(w: Workload, finished: seq<nat>): seq<string> {
    Map(finished, (i: nat) => if i < |w.tasks| then w.tasks[i].id else "")
  }

  function Snapshot(w: Workload, s: Progress): SchedulerSnapshot {
    SchedulerSnapshot(CompletedIds(w, s.finished), w.outside + Held(w, s.running), w.paths)
  }

  predicate Enabled(w: Workload, s: Progress, move: Move) {
    match move
    case Start(i) =>
      i < |w.tasks| && i !in s.running && i !in s.finished && DecideTask(Snapshot(w, s), w.tasks[i]).Run?
    case Finish(i) => i in s.running
  }

  function Without(s: seq<nat>, x: nat): (r: seq<nat>)
    requires x in s
    ensures |r| == |s| - 1
    ensures multiset(r) + multiset{x} == multiset(s)
  {
    var k := Position(s, (y: nat) => y == x).value;
    RemoveAt(s, k)
  }

  function Apply(s: Progress, move: Move): Progress
    requires move.Finish? ==> move.task in s.running
  {
    match move
    case Start(i) => s.(running := s.running + [i])
    case Finish(i) => Progress(Without(s.running, i), s.finished + [i])
  }

  /** A run: every move is enabled where it is made. */
  ghost predicate ValidRun(w: Workload, s: Progress, moves: seq<Move>)
    decreases |moves|
  {
    moves == [] || (Enabled(w, s, moves[0]) && ValidRun(w, Apply(s, moves[0]), moves[1..]))
  }

  ghost function After(w: Workload, s: Progress, moves: seq<Move>): Progress
    requires ValidRun(w, s, moves)
    decreases |moves|
  {
    if moves == [] then s else After(w, Apply(s, moves[0]), moves[1..])
  }

  function Entered(move: Move): multiset<nat> {
    if move.Start? then multiset{move.task} else multiset{}
  }

  /** A start adds its task to the tasks that have started; a finish moves it among them. */
  lemma ApplyMoves(s: Progress, move: Move)
    requires move.Finish? ==> move.task in s.running
    ensures multiset(Apply(s, move).running + Apply(s, move).finished)
            == multiset(s.running + s.finished) + Entered(move)
    ensures forall i :: i in multiset(Apply(s, move).running) ==> i in multiset(s.running) || move == Start(i)
    ensures forall i :: i in multiset(s.running) && move != Finish(i) ==> i in multiset(Apply(s, move).running)
  {}

  lemma ApplyKeepsWellFormed(w: Workload, s: Progress, move: Move)
    requires WellFormed(w, s) && Enabled(w, s, move)
    ensures WellFormed(w, Apply(s, move))
    ensures forall i :: i in Apply(s, move).running ==> i in s.running || move == Start(i)
  {
    var before, now := s.running + s.finished, Apply(s, move).running + Apply(s, move).finished;
    ApplyMoves(s, move);
    StartedOnce(before, now, move);
    StartedFrom(before, now, move);
    RunningFrom(s, move);
  }

  lemma RunningFrom(s: Progress, move: Move)
    requires move.Finish? ==> move.task in s.running
    ensures forall i :: i in Apply(s, move).running ==> i in s.running || move == Start(i)
  {
    ApplyMoves(s, move);
    forall i | i in Apply(s, move).running
      ensures i in s.running || move == Start(i)
    {
      assert i in multiset(Apply(s, move).running);
    }
  }

  lemma StartedFrom(before: seq<nat>, now: seq<nat>, move: Move)
    requires multiset(now) == multiset(before) + Entered(move)
    ensures forall i :: i in now ==> i in before || move == Start(i)
  {
    forall i | i in now
      ensures i in before || move == Start(i)
    {
      assert i in multiset(now);
      assert i in multiset(before) || i in Entered(move);
    }
  }

  lemma StartedOnce(before: seq<nat>, now: seq<nat>, move: Move)
    requires Distinct(before) && multiset(now) == multiset(before) + Entered(move)
    requires move.Start? ==> move.task !in before
    ensures Distinct(now)
  {
    DistinctByCount(before);
    DistinctByCount(now);
    if move.Start? {
      assert move.task !in multiset(before);
    }
  }

  /** No repetition means no element counts more than once. */
  lemma {:induction false} DistinctByCount(s: seq<nat>)
    ensures Distinct(s) <==> forall x :: multiset(s)[x] <= 1
  {
    if s != [] {
      var t, y := s[..|s| - 1], s[|s| - 1];
      assert s == t + [y];
      DistinctByCount(t);
      assert y in t <==> multiset(t)[y] > 0;
      assert multiset(s) == multiset(t) + multiset{y};
      assert forall x :: multiset(t)[x] <= multiset(s)[x];
      if Distinct(s) {
        assert Distinct(t) by {
          assert forall i :: 0 <= i < |t| ==> t[i] == s[i];
        }
        assert y !in t;
      }
      if forall x :: multiset(s)[x] <= 1 {
        assert multiset(s)[y] <= 1;
        assert y !in t;
      }
    }
  }

  // ----- Lease safety -----

  ghost predicate RequestsAgree(a: Task, b: Task) {
    forall p, q :: p in EffectiveLeaseRequests(a) && q in EffectiveLeaseRequests(b) && p.resourceId == q.resourceId
                   ==> Compatible(p.mode, q.mode)
  }

  /** Leases of two different running tasks, and leases of a running task and outside leases, are compatible. */
  ghost predicate LeasesCompatible(w: Workload, s: Progress) {
    && (forall i, j :: i in s.running && j in s.running && i != j && i < |w.tasks| && j < |w.tasks|
                       ==> RequestsAgree(w.tasks[i], w.tasks[j]))
    && (forall i, l :: i in s.running && i < |w.tasks| && l in w.outside
                       ==> forall q :: q in EffectiveLeaseRequests(w.tasks[i]) && q.resourceId == l.resourceId
                                       ==> Compatible(l.mode, q.mode))
  }

  lemma RequestsAgreeSymmetric(a: Task, b: Task)
    requires RequestsAgree(a, b)
    ensures RequestsAgree(b, a)
  {
    forall p, q | p in EffectiveLeaseRequests(b) && q in EffectiveLeaseRequests(a) && p.resourceId == q.resourceId
      ensures Compatible(p.mode, q.mode)
    {
      CompatibleSymmetric(p.mode, q.mode);
    }
  }

  lemma StartAgrees(w: Workload, s: Progress, i: nat, j: nat)
    requires Enabled(w, s, Start(i)) && j in s.running && j < |w.tasks|
    ensures RequestsAgree(w.tasks[j], w.tasks[i])
  {
    forall p, q | p in EffectiveLeaseRequests(w.tasks[j]) && q in EffectiveLeaseRequests(w.tasks[i])
                  && p.resourceId == q.resourceId
      ensures Compatible(p.mode, q.mode)
    {
      var requests := EffectiveLeaseRequests(w.tasks[j]);
      var k :| 0 <= k < |requests| && requests[k] == p;
      var lease := Granted(w.tasks[j])[k];
      HeldExactly(w, s.running, lease);
      assert lease in Snapshot(w, s).activeLeases;
      assert !Conflicts(lease, q);
    }
  }

  lemma StepKeepsCompatible(w: Workload, s: Progress, move: Move)
    requires WellFormed(w, s) && LeasesCompatible(w, s) && Enabled(w, s, move)
    ensures LeasesCompatible(w, Apply(s, move))
  {
    ApplyKeepsWellFormed(w, s, move);
    var s' := Apply(s, move);
    forall i, j | i in s'.running && j in s'.running && i != j && i < |w.tasks| && j < |w.tasks|
      ensures RequestsAgree(w.tasks[i], w.tasks[j])
    {
      if move == Start(i) {
        StartAgrees(w, s, i, j);
        RequestsAgreeSymmetric(w.tasks[j], w.tasks[i]);
      } else if move == Start(j) {
        StartAgrees(w, s, j, i);
      }
    }
    forall i, l, q | i in s'.running && i < |w.tasks| && l in w.outside && q in EffectiveLeaseRequests(w.tasks[i])
                     && q.resourceId == l.resourceId
      ensures Compatible(l.mode, q.mode)
    {
      if move == Start(i) {
        assert l in Snapshot(w, s).activeLeases;
        assert !Conflicts(l, q);
      }
    }
  }

  lemma {:induction false} RunKeepsCompatible(w: Workload, s: Progress, moves: seq<Move>)
    requires WellFormed(w, s) && LeasesCompatible(w, s) && ValidRun(w, s, moves)
    ensures WellFormed(w, After(w, s, moves)) && LeasesCompatible(w, After(w, s, moves))
    decreases |moves|
  {
    if moves != [] {
      ApplyKeepsWellFormed(w, s, moves[0]);
      StepKeepsCompatible(w, s, moves[0]);
      RunKeepsCompatible(w, Apply(s, moves[0]), moves[1..]);
    }
  }

  /** In every run the leases of two different running tasks on one resource are compatible. */
  lemma LeaseSafety(w: Workload, moves: seq<Move>)
    requires ValidRun(w, AT_REST, moves)
    ensures LeasesCompatible(w, After(w, AT_REST, moves)) && WellFormed(w, After(w, AT_REST, moves))
  {
    RunKeepsCompatible(w, AT_REST, moves);
  }

  /** Every write is covered by an exclusive request on the written resource. */
  ghost predicate SerializesWrites(task: Task) {
    forall x :: x in task.writesTo ==>
      exists q :: q in EffectiveLeaseRequests(task) && q.resourceId == x && q.mode.Exclusive?
  }

  lemma DefaultsSerializeWrites(task: Task)
    requires task.leaseRequests == []
    ensures SerializesWrites(task)
  {
    forall x | x in task.writesTo
      ensures exists q :: q in EffectiveLeaseRequests(task) && q.resourceId == x && q.mode.Exclusive?
    {
      assert ResourceLeaseRequest(x, Exclusive, "task write") in EffectiveLeaseRequests(task);
    }
  }

  lemma WritersDisagree(a: Task, b: Task, x: string)
    requires SerializesWrites(a) && SerializesWrites(b) && x in a.writesTo && x in b.writesTo
    ensures !RequestsAgree(a, b)
  {
    var p :| p in EffectiveLeaseRequests(a) && p.resourceId == x && p.mode.Exclusive?;
    var q :| q in EffectiveLeaseRequests(b) && q.resourceId == x && q.mode.Exclusive?;
    assert !Compatible(p.mode, q.mode);
  }

  /** Two tasks whose writes are covered, as default requests do, never write one resource at the same time. */
  lemma NoConcurrentWriters(w: Workload, moves: seq<Move>, i: nat, j: nat, x: string)
    requires ValidRun(w, AT_REST, moves)
    requires i < |w.tasks| && j < |w.tasks| && i != j
    requires i in After(w, AT_REST, moves).running && j in After(w, AT_REST, moves).running
    requires SerializesWrites(w.tasks[i]) && SerializesWrites(w.tasks[j])
    ensures !(x in w.tasks[i].writesTo && x in w.tasks[j].writesTo)
  {
    LeaseSafety(w, moves);
    if x in w.tasks[i].writesTo && x in w.tasks[j].writesTo {
      WritersDisagree(w.tasks[i], w.tasks[j], x);
    }
  }

  /** A task holding a reboot lease shares the resource with another running task only if that one drains it. */
  lemma RebootSharesOnlyWithDrain(
      w: Workload, moves: seq<Move>, i: nat, j: nat, p: ResourceLeaseRequest, q: ResourceLeaseRequest)
    requires ValidRun(w, AT_REST, moves)
    requires i < |w.tasks| && j < |w.tasks| && i != j
    requires i in After(w, AT_REST, moves).running && j in After(w, AT_REST, moves).running
    requires p in EffectiveLeaseRequests(w.tasks[i]) && p.mode.Reboot?
    requires q in EffectiveLeaseRequests(w.tasks[j]) && q.resourceId == p.resourceId
    ensures q.mode.Drain?
  {
    LeaseSafety(w, moves);
    assert RequestsAgree(w.tasks[i], w.tasks[j]);
    CompatibleSymmetric(p.mode, q.mode);
  }

  // ----- Lower-layer disruption -----

  /** Task `i` holds a drain or reboot lease below something that task `j` changes. */
  ghost predicate TaskDisrupts(w: Workload, i: nat, j: nat)
    requires i < |w.tasks| && j < |w.tasks|
  {
    exists l, p :: l in Granted(w.tasks[i]) && p in w.paths && Disrupts(l, p, w.tasks[j])
  }

  ghost predicate Calm(w: Workload, s: Progress) {
    forall i, j :: i in s.running && j in s.running && i != j && i < |w.tasks| && j < |w.tasks| ==>
      !TaskDisrupts(w, i, j)
  }

  lemma StarterIsUndisturbed(w: Workload, s: Progress, i: nat, j: nat)
    requires Enabled(w, s, Start(j)) && i in s.running && i < |w.tasks|
    ensures !TaskDisrupts(w, i, j)
  {
    forall l, p | l in Granted(w.tasks[i]) && p in w.paths
      ensures !Disrupts(l, p, w.tasks[j])
    {
      HeldExactly(w, s.running, l);
      assert l in Snapshot(w, s).activeLeases;
    }
  }

  /**
   A starting task is never disrupted by what already runs, but nothing looks the other way: a start keeps running
   tasks free of disruption exactly when the starter itself disrupts none of them.
   */
  lemma StartKeepsCalmExactly(w: Workload, s: Progress, i: nat)
    requires WellFormed(w, s) && Calm(w, s) && Enabled(w, s, Start(i))
    ensures Calm(w, Apply(s, Start(i))) <==> forall j :: j in s.running && j < |w.tasks| ==> !TaskDisrupts(w, i, j)
  {
    var s' := Apply(s, Start(i));
    assert forall j :: j in s'.running <==> j in s.running || j == i;
    if forall j :: j in s.running && j < |w.tasks| ==> !TaskDisrupts(w, i, j) {
      forall a, b | a in s'.running && b in s'.running && a != b && a < |w.tasks| && b < |w.tasks|
        ensures !TaskDisrupts(w, a, b)
      {
        if b == i {
          StarterIsUndisturbed(w, s, a, i);
        }
      }
    }
  }

  /** No state of the run has a running task that disrupts another. */
  ghost predicate CalmThroughout(w: Workload, s: Progress, moves: seq<Move>)
    requires ValidRun(w, s, moves)
    decreases |moves|
  {
    Calm(w, s) && (moves != [] ==> CalmThroughout(w, Apply(s, moves[0]), moves[1..]))
  }

  /** No task is started that disrupts one then running. */
  ghost predicate StartsConsiderately(w: Workload, s: Progress, moves: seq<Move>)
    requires ValidRun(w, s, moves)
    decreases |moves|
  {
    moves != [] ==>
      && (moves[0].Start? ==>
            forall j :: j in s.running && j < |w.tasks| ==> !TaskDisrupts(w, moves[0].task, j))
      && StartsConsiderately(w, Apply(s, moves[0]), moves[1..])
  }

  lemma FinishKeepsCalm(w: Workload, s: Progress, i: nat)
    requires WellFormed(w, s) && Calm(w, s) && Enabled(w, s, Finish(i))
    ensures Calm(w, Apply(s, Finish(i)))
  {
    hide TaskDisrupts;
    ApplyKeepsWellFormed(w, s, Finish(i));
  }

  lemma {:induction false} CalmFromExactly(w: Workload, s: Progress, moves: seq<Move>)
    requires WellFormed(w, s) && Calm(w, s) && ValidRun(w, s, moves)
    ensures CalmThroughout(w, s, moves) <==> StartsConsiderately(w, s, moves)
    decreases |moves|
  {
    hide Calm, TaskDisrupts, DecideTask, Snapshot, WellFormed, Apply;
    if moves != [] {
      var move, s' := moves[0], Apply(s, moves[0]);
      ApplyKeepsWellFormed(w, s, move);
      if move.Start? {
        StartInRange(w, s, move.task);
        StartKeepsCalmExactly(w, s, move.task);
      } else {
        FinishKeepsCalm(w, s, move.task);
      }
      if Calm(w, s') {
        CalmFromExactly(w, s', moves[1..]);
      } else {
        NotCalmThroughout(w, s', moves[1..]);
      }
    }
  }

  lemma StartInRange(w: Workload, s: Progress, i: nat)
    requires Enabled(w, s, Start(i))
    ensures i < |w.tasks|
  {}

  lemma NotCalmThroughout(w: Workload, s: Progress, moves: seq<Move>)
    requires ValidRun(w, s, moves) && !Calm(w, s)
    ensures !CalmThroughout(w, s, moves)
  {
    hide Calm;
  }

  /** Every state of a run is calm exactly when each start in it disrupts no task then running. */
  lemma CalmExactly(w: Workload, moves: seq<Move>)
    requires ValidRun(w, AT_REST, moves)
    ensures CalmThroughout(w, AT_REST, moves) <==> StartsConsiderately(w, AT_REST, moves)
  {
    CalmFromExactly(w, AT_REST, moves);
  }

  function DrainDuringWrite(): Workload {
    Workload(
      [NewTask("deploy", Application).(writesTo := ["app"]),
       NewTask("drain", System).(leaseRequests := [ResourceLeaseRequest("node", Drain, "maintenance")])],
      [ResourceDependencyPath("node", "app")],
      [])
  }

  lemma DeployMayStart()
    ensures Enabled(DrainDuringWrite(), AT_REST, Start(0))
  {
    assert Snapshot(DrainDuringWrite(), AT_REST).activeLeases == [];
  }

  lemma DrainMayJoin()
    ensures Enabled(DrainDuringWrite(), Progress([0], []), Start(1))
  {
    hide FirstConflict, FirstDisruption;
    var w, s := DrainDuringWrite(), Progress([0], []);
    forall l | l in Snapshot(w, s).activeLeases
      ensures l.resourceId == "app"
    {
      HeldExactly(w, s.running, l);
      assert l in Granted(w.tasks[0]);
    }
  }

  lemma DrainDisruptsDeploy()
    ensures TaskDisrupts(DrainDuringWrite(), 1, 0)
  {
    var w := DrainDuringWrite();
    var l, p := Granted(w.tasks[1])[0], w.paths[0];
    assert l in Granted(w.tasks[1]) && p in w.paths;
    assert w.tasks[0].writesTo[0] == "app";
    assert Disrupts(l, p, w.tasks[0]);
  }

  /** The drain may start while the upper-layer mutation that depends on it is already running. */
  lemma DrainMayStartDuringWrite()
    ensures var w := DrainDuringWrite();
            var moves := [Start(0), Start(1)];
            ValidRun(w, AT_REST, moves) && !Calm(w, After(w, AT_REST, moves))
  {
    var w := DrainDuringWrite();
    hide DrainDuringWrite, DecideTask, Snapshot, TaskDisrupts;
    assert Apply(AT_REST, Start(0)).running == [0];
    DeployMayStart();
    DrainMayJoin();
    TwoMoves(w, AT_REST, Start(0), Start(1));
    var s := After(w, AT_REST, [Start(0), Start(1)]);
    assert s.running[0] == 0 && s.running[1] == 1;
    DrainDisruptsDeploy();
  }

  lemma TwoMoves(w: Workload, s: Progress, a: Move, b: Move)
    requires Enabled(w, s, a) && Enabled(w, Apply(s, a), b)
    ensures ValidRun(w, s, [a, b]) && After(w, s, [a, b]) == Apply(Apply(s, a), b)
  {
    hide DecideTask, Snapshot;
    var t := Apply(s, a);
    assert [a, b][1..] == [b] && [b][1..] == [];
    assert ValidRun(w, Apply(t, b), []);
    assert ValidRun(w, t, [b]) && After(w, t, [b]) == Apply(t, b);
  }

  // ----- Progress -----

  function Unstarted(w: Workload, s: Progress): int {
    |w.tasks| - |s.running| - |s.finished|
  }

  /** The moves still to be made: a start and a finish per unstarted task, a finish per running one. */
  function Remaining(w: Workload, s: Progress): int {
    2 * Unstarted(w, s) + |s.running|
  }

  lemma {:induction false} DistinctInRangeFits(ids: seq<nat>, n: nat)
    requires Distinct(ids) && forall i :: i in ids ==> i < n
    ensures |ids| <= n
    ensures |ids| == n ==> forall i: nat :: i < n ==> i in ids
  {
    var all := seq(n, i => i);
    forall i: nat | i < n
      ensures i in all
    {
      assert all[i] == i;
    }
    DistinctFitsIn(ids, all);
    forall i: nat | i < n && i !in ids
      ensures |ids| < n
    {
      DistinctFitsIn(ids + [i], all);
    }
  }

  /** Every move uses up exactly one of the remaining ones, so a run makes at most two moves per task. */
  lemma {:induction false} RunsAreShort(w: Workload, s: Progress, moves: seq<Move>)
    requires WellFormed(w, s) && ValidRun(w, s, moves)
    ensures Remaining(w, After(w, s, moves)) == Remaining(w, s) - |moves|
    ensures 0 <= Remaining(w, After(w, s, moves))
    decreases |moves|
  {
    DistinctInRangeFits(s.running + s.finished, |w.tasks|);
    if moves != [] {
      ApplyKeepsWellFormed(w, s, moves[0]);
      RunsAreShort(w, Apply(s, moves[0]), moves[1..]);
    }
  }

  ghost predicate Complete(w: Workload, s: Progress) {
    forall i: nat :: i < |w.tasks| ==> i in s.finished
  }

  /** No move is possible any more. */
  ghost predicate Final(w: Workload, s: Progress) {
    forall move :: !Enabled(w, s, move)
  }

  /** Every run can be continued until nothing moves any more. */
  lemma {:induction false} RunsCanBeCompleted(w: Workload, s: Progress) returns (moves: seq<Move>)
    requires WellFormed(w, s)
    ensures ValidRun(w, s, moves) && Final(w, After(w, s, moves))
    decreases Remaining(w, s)
  {
    RunsAreShort(w, s, []);
    if Final(w, s) {
      moves := [];
    } else {
      var move :| Enabled(w, s, move);
      ApplyKeepsWellFormed(w, s, move);
      RunsAreShort(w, Apply(s, move), []);
      var rest := RunsCanBeCompleted(w, Apply(s, move));
      moves := [move] + rest;
      assert moves[1..] == rest;
    }
  }

  ghost predicate MaximalRun(w: Workload, moves: seq<Move>) {
    ValidRun(w, AT_REST, moves) && Final(w, After(w, AT_REST, moves))
  }

  /**
   A set of tasks that wait for each other: each has a dependency that only members of the set could provide.
   A dependency on an id that no task has, and a dependency cycle, both make such a set.
   */
  ghost predicate Stuck(w: Workload, deadlocked: set<nat>) {
    forall i :: i in deadlocked ==> i < |w.tasks| && WaitsWithin(w, deadlocked, i)
  }

  ghost predicate WaitsWithin(w: Workload, deadlocked: set<nat>, i: nat)
    requires i < |w.tasks|
  {
    exists d :: d in w.tasks[i].dependencies && forall j: nat :: j < |w.tasks| && w.tasks[j].id == d ==> j in deadlocked
  }

  ghost predicate Untouched(s: Progress, deadlocked: set<nat>) {
    forall i :: i in deadlocked ==> i !in s.running && i !in s.finished
  }

  /** A task that may start has had each of its dependencies provided by a finished task. */
  lemma StarterHasProvider(w: Workload, s: Progress, i: nat, d: string)
    requires WellFormed(w, s) && Enabled(w, s, Start(i)) && d in w.tasks[i].dependencies
    ensures exists j: nat :: j < |w.tasks| && j in s.finished && w.tasks[j].id == d
  {
    var ids := CompletedIds(w, s.finished);
    assert DependenciesDone(Snapshot(w, s), w.tasks[i]);
    var k :| 0 <= k < |ids| && ids[k] == d;
    var j := s.finished[k];
    assert j in s.running + s.finished;
    assert j < |w.tasks| && j in s.finished && w.tasks[j].id == d;
  }

  /** Tasks that wait for each other never start, whatever else happens. */
  lemma StuckStaysUntouched(w: Workload, s: Progress, move: Move, deadlocked: set<nat>)
    requires WellFormed(w, s) && Stuck(w, deadlocked) && Untouched(s, deadlocked) && Enabled(w, s, move)
    ensures Untouched(Apply(s, move), deadlocked)
  {
    ApplyKeepsWellFormed(w, s, move);
    var i := move.task;
    if move.Start? && i in deadlocked {
      assert WaitsWithin(w, deadlocked, i);
      var d :| d in w.tasks[i].dependencies
               && forall j: nat :: j < |w.tasks| && w.tasks[j].id == d ==> j in deadlocked;
      StarterHasProvider(w, s, i, d);
      assert false;
    }
  }

  lemma {:induction false} StuckNeverStarts(w: Workload, s: Progress, moves: seq<Move>, deadlocked: set<nat>)
    requires WellFormed(w, s) && Stuck(w, deadlocked) && Untouched(s, deadlocked) && ValidRun(w, s, moves)
    ensures Untouched(After(w, s, moves), deadlocked)
    decreases |moves|
  {
    if moves != [] {
      ApplyKeepsWellFormed(w, s, moves[0]);
      StuckStaysUntouched(w, s, moves[0], deadlocked);
      StuckNeverStarts(w, Apply(s, moves[0]), moves[1..], deadlocked);
    }
  }

  ghost function Unfinished(w: Workload, s: Progress): set<nat> {
    set i: nat | i < |w.tasks| && i !in s.finished
  }

  lemma NothingHeldAtRest(w: Workload, s: Progress)
    requires w.outside == [] && s.running == []
    ensures Snapshot(w, s).activeLeases == []
  {}

  lemma FinishedIdCompleted(w: Workload, s: Progress, j: nat)
    requires j < |w.tasks|
    ensures j in s.finished ==> w.tasks[j].id in CompletedIds(w, s.finished)
  {
    if j in s.finished {
      var k :| 0 <= k < |s.finished| && s.finished[k] == j;
      assert CompletedIds(w, s.finished)[k] == w.tasks[j].id;
    }
  }

  /** When nothing can move, no task is running and the unfinished ones wait for each other. */
  lemma FinalLeavesStuck(w: Workload, s: Progress)
    requires w.outside == [] && WellFormed(w, s) && Final(w, s)
    ensures s.running == [] && Stuck(w, Unfinished(w, s))
  {
    if s.running != [] {
      assert Enabled(w, s, Finish(s.running[0]));
      assert false;
    }
    NothingHeldAtRest(w, s);
    forall i | i in Unfinished(w, s)
      ensures WaitsWithin(w, Unfinished(w, s), i)
    {
      assert !Enabled(w, s, Start(i));
      var d :| d in w.tasks[i].dependencies && d !in CompletedIds(w, s.finished);
      forall j: nat | j < |w.tasks| && w.tasks[j].id == d
        ensures j in Unfinished(w, s)
      {
        FinishedIdCompleted(w, s, j);
      }
    }
  }

  /** Without outside leases all maximal runs finish the same tasks, whatever order they choose. */
  lemma MaximalRunsAgree(w: Workload, a: seq<Move>, b: seq<Move>)
    requires w.outside == [] && MaximalRun(w, a) && MaximalRun(w, b)
    ensures Unfinished(w, After(w, AT_REST, a)) == Unfinished(w, After(w, AT_REST, b))
  {
    var sa, sb := After(w, AT_REST, a), After(w, AT_REST, b);
    RunKeepsCompatible(w, AT_REST, a);
    RunKeepsCompatible(w, AT_REST, b);
    FinalLeavesStuck(w, sa);
    FinalLeavesStuck(w, sb);
    StuckNeverStarts(w, AT_REST, a, Unfinished(w, sb));
    StuckNeverStarts(w, AT_REST, b, Unfinished(w, sa));
  }

  /** Dependencies are closed and acyclic: some numbering puts a provider of each dependency before its user. */
  ghost predicate Ranks(w: Workload, rank: seq<nat>) {
    && |rank| == |w.tasks|
    && forall i, d :: 0 <= i < |w.tasks| && d in w.tasks[i].dependencies ==> ProvidedBelow(w, rank, i, d)
  }

  ghost predicate ProvidedBelow(w: Workload, rank: seq<nat>, i: nat, d: string)
    requires |rank| == |w.tasks| && i < |w.tasks|
  {
    exists j: nat :: j < |w.tasks| && w.tasks[j].id == d && rank[j] < rank[i]
  }

  ghost predicate Ordered(w: Workload) {
    exists rank :: Ranks(w, rank)
  }

  lemma {:induction false} RankedNotStuck(w: Workload, rank: seq<nat>, deadlocked: set<nat>, i: nat)
    requires Ranks(w, rank) && Stuck(w, deadlocked) && i < |w.tasks|
    ensures i !in deadlocked
    decreases rank[i]
  {
    if i in deadlocked {
      assert WaitsWithin(w, deadlocked, i);
      var d :| d in w.tasks[i].dependencies
               && forall j: nat :: j < |w.tasks| && w.tasks[j].id == d ==> j in deadlocked;
      assert ProvidedBelow(w, rank, i, d);
      var j: nat :| j < |w.tasks| && w.tasks[j].id == d && rank[j] < rank[i];
      RankedNotStuck(w, rank, deadlocked, j);
    }
  }

  /** With closed, acyclic dependencies some unfinished task gets `Run` whenever nothing is running. */
  lemma SomeTaskCanRun(w: Workload, s: Progress, rank: seq<nat>)
    requires w.outside == [] && WellFormed(w, s) && Ranks(w, rank) && s.running == [] && !Complete(w, s)
    ensures exists i: nat :: i < |w.tasks| && i !in s.finished && DecideTask(Snapshot(w, s), w.tasks[i]).Run?
  {
    if Final(w, s) {
      FinalLeavesStuck(w, s);
      var i: nat :| i < |w.tasks| && i !in s.finished;
      assert i in Unfinished(w, s);
      RankedNotStuck(w, rank, Unfinished(w, s), i);
      assert false;
    }
    var move :| Enabled(w, s, move);
    assert move.Start?;
  }

  lemma RankedRunsComplete(w: Workload, rank: seq<nat>, moves: seq<Move>)
    requires w.outside == [] && Ranks(w, rank) && MaximalRun(w, moves)
    ensures Complete(w, After(w, AT_REST, moves))
  {
    var s := After(w, AT_REST, moves);
    RunKeepsCompatible(w, AT_REST, moves);
    FinalLeavesStuck(w, s);
    forall i: nat | i < |w.tasks|
      ensures i in s.finished
    {
      RankedNotStuck(w, rank, Unfinished(w, s), i);
    }
  }

  /** A dependency is the id of one of the first `n` finished tasks. */
  ghost predicate Provided(w: Workload, finished: seq<nat>, n: nat, d: string)
    requires n <= |finished|
  {
    exists k :: 0 <= k < n && finished[k] < |w.tasks| && w.tasks[finished[k]].id == d
  }

  ghost predicate ProvidedFor(w: Workload, finished: seq<nat>, n: nat, i: nat)
    requires n <= |finished|
  {
    i < |w.tasks| ==> forall d :: d in w.tasks[i].dependencies ==> Provided(w, finished, n, d)
  }

  /** Tasks start only behind the finish of their dependencies. */
  ghost predicate FinishedInOrder(w: Workload, s: Progress) {
    && (forall p :: 0 <= p < |s.finished| ==> ProvidedFor(w, s.finished, p, s.finished[p]))
    && (forall i :: i in s.running ==> ProvidedFor(w, s.finished, |s.finished|, i))
  }

  lemma ProvidedLonger(w: Workload, finished: seq<nat>, n: nat, i: nat, last: nat)
    requires n <= |finished| && ProvidedFor(w, finished, n, i)
    ensures ProvidedFor(w, finished + [last], n, i)
  {
    if i < |w.tasks| {
      forall d | d in w.tasks[i].dependencies
        ensures Provided(w, finished + [last], n, d)
      {
        assert Provided(w, finished, n, d);
        var k :| 0 <= k < n && finished[k] < |w.tasks| && w.tasks[finished[k]].id == d;
        assert (finished + [last])[k] == finished[k];
      }
    }
  }

  lemma ProvidedMore(w: Workload, finished: seq<nat>, n: nat, m: nat, i: nat)
    requires n <= m <= |finished| && ProvidedFor(w, finished, n, i)
    ensures ProvidedFor(w, finished, m, i)
  {
    if i < |w.tasks| {
      forall d | d in w.tasks[i].dependencies
        ensures Provided(w, finished, m, d)
      {
        assert Provided(w, finished, n, d);
        var k :| 0 <= k < n && finished[k] < |w.tasks| && w.tasks[finished[k]].id == d;
      }
    }
  }

  lemma StarterProvided(w: Workload, s: Progress, i: nat)
    requires WellFormed(w, s) && Enabled(w, s, Start(i))
    ensures ProvidedFor(w, s.finished, |s.finished|, i)
  {
    forall d | d in w.tasks[i].dependencies
      ensures Provided(w, s.finished, |s.finished|, d)
    {
      StarterHasProvider(w, s, i, d);
      var j: nat :| j < |w.tasks| && j in s.finished && w.tasks[j].id == d;
      var k :| 0 <= k < |s.finished| && s.finished[k] == j;
    }
  }

  lemma StepKeepsOrder(w: Workload, s: Progress, move: Move)
    requires WellFormed(w, s) && FinishedInOrder(w, s) && Enabled(w, s, move)
    ensures FinishedInOrder(w, Apply(s, move))
  {
    var s' := Apply(s, move);
    RunningFrom(s, move);
    match move
    case Start(i) => StarterProvided(w, s, i);
    case Finish(i) =>
      forall p | 0 <= p < |s'.finished|
        ensures ProvidedFor(w, s'.finished, p, s'.finished[p])
      {
        ProvidedLonger(w, s.finished, p, s'.finished[p], i);
      }
      forall j | j in s'.running
        ensures ProvidedFor(w, s'.finished, |s'.finished|, j)
      {
        ProvidedLonger(w, s.finished, |s.finished|, j, i);
        ProvidedMore(w, s'.finished, |s.finished|, |s'.finished|, j);
      }
  }

  lemma {:induction false} RunKeepsOrder(w: Workload, s: Progress, moves: seq<Move>)
    requires WellFormed(w, s) && FinishedInOrder(w, s) && ValidRun(w, s, moves)
    ensures FinishedInOrder(w, After(w, s, moves))
    decreases |moves|
  {
    if moves != [] {
      ApplyKeepsWellFormed(w, s, moves[0]);
      StepKeepsOrder(w, s, moves[0]);
      RunKeepsOrder(w, Apply(s, moves[0]), moves[1..]);
    }
  }

  /** The position of a task among the finished ones. */
  function PlaceOf(finished: seq<nat>, i: nat): (p: nat)
    ensures i in finished ==> p < |finished| && finished[p] == i
    ensures forall k :: 0 <= k < p && k < |finished| ==> finished[k] != i
  {
    match Position(finished, (x: nat) => x == i)
    case None => 0
    case Some(p) => p
  }

  /** The order in which the tasks of a complete run finished ranks them. */
  lemma CompleteRunRanks(w: Workload, s: Progress)
    requires WellFormed(w, s) && FinishedInOrder(w, s) && Complete(w, s)
    ensures Ranks(w, seq(|w.tasks|, i requires 0 <= i < |w.tasks| => PlaceOf(s.finished, i)))
  {
    var rank := seq(|w.tasks|, i requires 0 <= i < |w.tasks| => PlaceOf(s.finished, i));
    forall i, d | 0 <= i < |w.tasks| && d in w.tasks[i].dependencies
      ensures ProvidedBelow(w, rank, i, d)
    {
      var p := PlaceOf(s.finished, i);
      assert ProvidedFor(w, s.finished, p, i);
      var k :| 0 <= k < p && s.finished[k] < |w.tasks| && w.tasks[s.finished[k]].id == d;
      var j := s.finished[k];
      assert rank[j] == PlaceOf(s.finished, j);
      assert rank[j] <= k;
    }
  }

  /** Without outside leases a maximal run completes every task exactly when the dependencies are closed and acyclic. */
  lemma CompletesExactly(w: Workload, moves: seq<Move>)
    requires w.outside == [] && MaximalRun(w, moves)
    ensures Complete(w, After(w, AT_REST, moves)) <==> Ordered(w)
    ensures Complete(w, After(w, AT_REST, moves)) <==> |moves| == 2 * |w.tasks|
  {
    var s := After(w, AT_REST, moves);
    RunKeepsCompatible(w, AT_REST, moves);
    RunKeepsOrder(w, AT_REST, moves);
    RunsAreShort(w, AT_REST, moves);
    FinalLeavesStuck(w, s);
    if Complete(w, s) {
      CompleteRunRanks(w, s);
      CompleteCounts(w, s);
    }
    if rank :| Ranks(w, rank) {
      RankedRunsComplete(w, rank, moves);
    }
    if |moves| == 2 * |w.tasks| {
      assert s.running + s.finished == s.finished;
      DistinctInRangeFits(s.finished, |w.tasks|);
    }
  }

  lemma CompleteCounts(w: Workload, s: Progress)
    requires WellFormed(w, s) && Complete(w, s) && s.running == []
    ensures |s.finished| == |w.tasks|
  {
    assert s.running + s.finished == s.finished;
    DistinctInRangeFits(s.finished, |w.tasks|);
    var all := seq(|w.tasks|, i requires 0 <= i < |w.tasks| => i as nat);
    assert Distinct(all);
    DistinctFitsIn(all, s.finished);
  }
}
