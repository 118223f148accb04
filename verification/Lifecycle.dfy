/** The lifecycle of a run. */
module Lifecycle {
  import opened Wrappers
  import opened Seqs
  import opened Domain

  datatype InvalidRunTransition = InvalidRunTransition(fromState: RunState, toState: RunState)

  predicate ValidTransition(a: RunState, b: RunState) {
    match a
    case Created => b == Planned
    case Planned => b == CollectingEvidence
    case CollectingEvidence => b == EvidenceCollected
    case EvidenceCollected => b == ProposalGenerated
    case ProposalGenerated => b == WaitingForApproval
    case WaitingForApproval => b == Approved || b == Rejected
    case Approved => b == Executing
    case Executing => b == Verifying
    case Verifying => b == Resolved || b == Failed || b == Escalated
    case Resolved => b == Reviewed
    case Failed => b == Reviewed
    case Escalated => b == Reviewed
    case Rejected => b == Reviewed
    case Reviewed => false
  }

  /** The whole lifecycle: one step at a time to the decision, two ways out of it, and three outcomes of execution. */
  lemma TransitionsExact(a: RunState, b: RunState)
    ensures ValidTransition(a, b) <==>
              (a, b) in {(Created, Planned), (Planned, CollectingEvidence), (CollectingEvidence, EvidenceCollected),
                         (EvidenceCollected, ProposalGenerated), (ProposalGenerated, WaitingForApproval),
                         (WaitingForApproval, Approved), (WaitingForApproval, Rejected), (Approved, Executing),
                         (Executing, Verifying), (Verifying, Resolved), (Verifying, Failed), (Verifying, Escalated),
                         (Resolved, Reviewed), (Failed, Reviewed), (Escalated, Reviewed), (Rejected, Reviewed)}
  {}

  class Run {
    var record: RunRecord

    constructor (id: string, goal: string, layer: OperationalLayer)
      ensures record == NewRun(id, goal, layer)
      ensures record.id == id && record.goal == goal && record.targetLayer == layer && record.state == Created
      ensures record.tasks == [] && record.leases == []
    {
      record := NewRun(id, goal, layer);
    }

    /** Moves to `target` if the lifecycle allows it; a refused attempt changes nothing. */
    method TransitionTo(target: RunState) returns (r: Outcome<InvalidRunTransition>)
      modifies this
      ensures r.Pass? <==> ValidTransition(old(record.state), target)
      ensures record == if r.Pass? then old(record).(state := target) else old(record)
      ensures r.Fail? ==> r.error == InvalidRunTransition(old(record.state), target)
      ensures record.state == Attempt(old(record.state), target)
    {
      if ValidTransition(record.state, target) {
        record := record.(state := target);
        return Pass;
      }
      return Fail(InvalidRunTransition(record.state, target));
    }
  }

  function Attempt(state: RunState, target: RunState): RunState {
    if ValidTransition(state, target) then target else state
  }

  /** The state after a sequence of transition attempts, failed ones included. */
  function After(attempts: seq<RunState>): RunState {
    if attempts == [] then Created else Attempt(After(attempts[..|attempts| - 1]), attempts[|attempts| - 1])
  }

  /** The states a run passes through under a sequence of transition attempts. */
  function Visited(attempts: seq<RunState>): (v: seq<RunState>)
    ensures v != [] && v[|v| - 1] == After(attempts)
  {
    if attempts == [] then [Created]
    else
      var rest := attempts[..|attempts| - 1];
      var v := Visited(rest);
      if After(attempts) == After(rest) then v else v + [After(attempts)]
  }

  /** How far along a state is. */
  function Stage(state: RunState): nat {
    match state
    case Created => 0
    case Planned => 1
    case CollectingEvidence => 2
    case EvidenceCollected => 3
    case ProposalGenerated => 4
    case WaitingForApproval => 5
    case Approved => 6
    case Rejected => 6
    case Executing => 7
    case Verifying => 8
    case Resolved => 9
    case Failed => 9
    case Escalated => 9
    case Reviewed => 10
  }

  ghost predicate Legal(v: seq<RunState>) {
    && v != [] && v[0] == Created
    && (forall k :: 0 <= k < |v| - 1 ==> ValidTransition(v[k], v[k + 1]))
    && (forall i, j :: 0 <= i < j < |v| ==> Stage(v[i]) + (j - i) <= Stage(v[j]))
  }

  lemma {:induction false} VisitedIsLegal(attempts: seq<RunState>)
    ensures Legal(Visited(attempts))
  {
    if attempts != [] {
      VisitedIsLegal(attempts[..|attempts| - 1]);
      var v := Visited(attempts[..|attempts| - 1]);
      if After(attempts) != v[|v| - 1] {
        LegalExtends(v, After(attempts));
      }
    }
  }

  lemma LegalExtends(v: seq<RunState>, target: RunState)
    requires Legal(v) && ValidTransition(v[|v| - 1], target)
    ensures Legal(v + [target])
  {
    var w := v + [target];
    assert Stage(v[|v| - 1]) + 1 <= Stage(target);
    forall i, j | 0 <= i < j < |w|
      ensures Stage(w[i]) + (j - i) <= Stage(w[j])
    {
      if j == |v| && i < |v| - 1 {
        assert Stage(v[i]) + (|v| - 1 - i) <= Stage(v[|v| - 1]);
      }
    }
  }

  /** In any sequence of attempts at most ten succeed and no state repeats. */
  lemma AtMostTenTransitions(attempts: seq<RunState>)
    ensures |Visited(attempts)| - 1 <= 10
    ensures Distinct(Visited(attempts))
  {
    VisitedIsLegal(attempts);
    var v := Visited(attempts);
    assert |v| > 1 ==> Stage(v[0]) + (|v| - 1) <= Stage(v[|v| - 1]);
  }

  /** Executing is reached only from Approved, and Approved only from WaitingForApproval. */
  lemma ExecutionNeedsApproval(attempts: seq<RunState>, k: nat)
    requires k < |Visited(attempts)| && Visited(attempts)[k] == Executing
    ensures k == 7 && Visited(attempts)[6] == Approved && Visited(attempts)[5] == WaitingForApproval
  {
    VisitedIsLegal(attempts);
    var v := Visited(attempts);
    StagesAreSteps(v, k);
    assert ValidTransition(v[6], v[7]) && ValidTransition(v[5], v[6]);
  }

  /** Up to the decision on execution every transition is one stage. */
  lemma {:induction false} StagesAreSteps(v: seq<RunState>, k: nat)
    requires Legal(v) && k < |v| && Stage(v[k]) <= 9
    ensures k == Stage(v[k])
  {
    if k > 0 {
      assert ValidTransition(v[k - 1], v[k - 1 + 1]);
      StagesAreSteps(v, k - 1);
    }
  }

  /** Reviewed is the only state without a successor. */
  lemma OnlyReviewedIsFinal(state: RunState)
    ensures state == Reviewed <==> forall next :: !ValidTransition(state, next)
  {
    assert ValidTransition(Created, Planned);
    assert ValidTransition(Planned, CollectingEvidence);
    assert ValidTransition(CollectingEvidence, EvidenceCollected);
    assert ValidTransition(EvidenceCollected, ProposalGenerated);
    assert ValidTransition(ProposalGenerated, WaitingForApproval);
    assert ValidTransition(WaitingForApproval, Approved);
    assert ValidTransition(Approved, Executing);
    assert ValidTransition(Executing, Verifying);
    assert ValidTransition(Verifying, Resolved);
    assert ValidTransition(Resolved, Reviewed) && ValidTransition(Failed, Reviewed);
    assert ValidTransition(Escalated, Reviewed) && ValidTransition(Rejected, Reviewed);
  }

  ghost predicate Leads(state: RunState, path: seq<RunState>, goal: RunState)
    decreases |path|
  {
    if path == [] then state == goal else ValidTransition(state, path[0]) && Leads(path[0], path[1..], goal)
  }

  /** From every state a run can still be brought to Reviewed. */
  lemma {:induction false} ReviewedStaysReachable(state: RunState) returns (path: seq<RunState>)
    ensures Leads(state, path, Reviewed)
    decreases 10 - Stage(state)
  {
    if state == Reviewed {
      path := [];
    } else {
      OnlyReviewedIsFinal(state);
      var next :| ValidTransition(state, next);
      var rest := ReviewedStaysReachable(next);
      path := [next] + rest;
      assert path[1..] == rest;
    }
  }
}
