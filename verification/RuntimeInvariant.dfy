/** Every control-plane operation keeps the invariant of Runtime. */
module RuntimeInvariant {
  import opened Wrappers
  import opened Seqs
  import opened Domain
  import opened Ledger
  import opened Runtime

  // ----- The ledger -----

  lemma EmptyKeepsInv()
    ensures Inv(EMPTY_PLANE, [])
  {}

  /** `s'` has grown by exactly what the new event says. */
  ghost predicate GrewBy(s: PlaneState, s': PlaneState, e: AuditEvent) {
    && Map(s'.tokens, TokenKey) == Extend(Map(s.tokens, TokenKey), TokenOf(e))
    && Map(s'.agents, AgentKey) == Extend(Map(s.agents, AgentKey), EnrolledOf(e))
    && Map(s'.pulled, TaskKey) == Extend(Map(s.pulled, TaskKey), PulledOf(e))
    && Map(s'.results, ResultKey) == Extend(Map(s.results, ResultKey), AcceptedOf(e))
    && Map(s'.spooled, SpoolKey) == Extend(Map(s.spooled, SpoolKey), SpooledOf(e))
  }

  lemma LogAgrees(s: PlaneState, s': PlaneState, e: AuditEvent, kind: AuditEventKind)
    requires LedgerAgrees(s)
    requires e == NextEvent(s.ledger, "runtime", "runtime", kind) && s'.ledger == s.ledger + [e]
    requires GrewBy(s, s', e)
    ensures LedgerAgrees(s')
  {
    ProjectAppend(s.ledger, e, TokenOf);
    ProjectAppend(s.ledger, e, EnrolledOf);
    ProjectAppend(s.ledger, e, PulledOf);
    ProjectAppend(s.ledger, e, AcceptedOf);
    ProjectAppend(s.ledger, e, SpooledOf);
  }

  /** Causes recorded earlier stay recorded. */
  lemma CausedInLonger(events: seq<AuditEvent>, e: AuditEvent, k: nat, kind: AuditEventKind)
    requires k <= |events| && Caused(events, k, kind)
    ensures Caused(events + [e], k, kind)
  {
    var longer := events + [e];
    assert forall j :: 0 <= j < |events| ==> longer[j] == events[j];
    match kind
    case AgentEnrolled(node, _) =>
      var j :| 0 <= j < k && events[j].kind.EnrollmentTokenCreated? && events[j].kind.nodeId == node;
      assert longer[j].kind == events[j].kind;
    case AgentTaskPulled(_, _, node) => EnrolledInLonger(events, e, k, node);
    case AgentTaskRejected(node, _) => EnrolledInLonger(events, e, k, node);
    case AgentResultAccepted(envelope, task, node) =>
      EnrolledInLonger(events, e, k, node);
      var j :| 0 <= j < k && events[j].kind.AgentTaskPulled?
               && events[j].kind.envelopeId == envelope && events[j].kind.taskId == task;
      assert longer[j].kind == events[j].kind;
    case _ =>
  }

  lemma EnrolledInLonger(events: seq<AuditEvent>, e: AuditEvent, k: nat, node: string)
    requires k <= |events| && EnrolledBefore(events, k, node)
    ensures EnrolledBefore(events + [e], k, node)
  {
    var j :| 0 <= j < k && events[j].kind.AgentEnrolled? && events[j].kind.nodeId == node;
    assert (events + [e])[j] == events[j];
  }

  lemma EventKeepsCausal(events: seq<AuditEvent>, e: AuditEvent)
    requires Causal(events) && Caused(events, |events|, e.kind)
    ensures Causal(events + [e])
  {
    var longer := events + [e];
    forall k | 0 <= k < |longer|
      ensures Caused(longer, k, longer[k].kind)
    {
      CausedInLonger(events, e, k, longer[k].kind);
    }
  }

  /** Recording a caused event together with the list change it describes keeps ledger and lists in agreement. */
  lemma LogKeepsLedger(s: PlaneState, s': PlaneState, kind: AuditEventKind)
    requires LedgerAgrees(s) && Causal(s.ledger)
    requires s'.ledger == Recorded(s.ledger, "runtime", "runtime", kind)
    requires GrewBy(s, s', NextEvent(s.ledger, "runtime", "runtime", kind))
    requires Caused(s.ledger, |s.ledger|, kind)
    ensures LedgerAgrees(s') && Causal(s'.ledger)
  {
    var e := NextEvent(s.ledger, "runtime", "runtime", kind);
    LogAgrees(s, s', e, kind);
    EventKeepsCausal(s.ledger, e);
  }

  lemma AppendMaps<T, U>(s: seq<T>, x: T, f: T -> U)
    ensures Map(s + [x], f) == Map(s, f) + [f(x)]
  {}

  /** An issued token has left its event in the ledger. */
  lemma TokenRecorded(s: PlaneState, token: EnrollmentToken)
    requires LedgerAgrees(s) && token in s.tokens
    ensures TokenBefore(s.ledger, |s.ledger|, token.nodeId)
  {
    var k :| 0 <= k < |s.tokens| && s.tokens[k] == token;
    assert Map(s.tokens, TokenKey)[k] == TokenKey(token);
    ProjectedFrom(s.ledger, TokenOf, TokenKey(token));
    var j :| 0 <= j < |s.ledger| && TokenOf(s.ledger[j]) == Some(TokenKey(token));
  }

  lemma AgentRecorded(s: PlaneState, identity: AgentIdentity)
    requires LedgerAgrees(s) && RequireAgent(s.agents, identity).Pass?
    ensures EnrolledBefore(s.ledger, |s.ledger|, identity.nodeId)
  {
    var agent :| agent in s.agents && agent.nodeId == identity.nodeId;
    var k :| 0 <= k < |s.agents| && s.agents[k] == agent;
    assert Map(s.agents, AgentKey)[k] == AgentKey(agent);
    ProjectedFrom(s.ledger, EnrolledOf, AgentKey(agent));
    var j :| 0 <= j < |s.ledger| && EnrolledOf(s.ledger[j]) == Some(AgentKey(agent));
  }

  lemma PullRecorded(s: PlaneState, k: nat)
    requires LedgerAgrees(s) && k < |s.pulled|
    ensures PulledBefore(s.ledger, |s.ledger|, s.pulled[k].envelope.envelopeId, s.pulled[k].envelope.taskId)
  {
    var key := TaskKey(s.pulled[k]);
    assert Map(s.pulled, TaskKey)[k] == key;
    ProjectedFrom(s.ledger, PulledOf, key);
    var j :| 0 <= j < |s.ledger| && PulledOf(s.ledger[j]) == Some(key);
  }

  // ----- Queues -----

  lemma FilterThree(
      a: seq<PendingAgentTask>, x: PendingAgentTask, b: seq<PendingAgentTask>, p: PendingAgentTask -> bool)
    ensures Filter(a + [x] + b, p) == Filter(a, p) + (if p(x) then [x] else []) + Filter(b, p)
    ensures Filter(a + b, p) == Filter(a, p) + Filter(b, p)
  {
    FilterConcat(a + [x], b, p);
    FilterAppend(a, x, p);
    FilterConcat(a, b, p);
  }

  lemma SplitAtFirst(
      a: seq<PendingAgentTask>, x: PendingAgentTask, b: seq<PendingAgentTask>, node: string, other: string)
    requires forall i :: 0 <= i < |a| ==> !ForNode(node)(a[i])
    requires ForNode(node)(x)
    ensures Filter(a + [x] + b, ForNode(other))
            == (if other == node then [x] else []) + Filter(a + b, ForNode(other))
  {
    FilterThree(a, x, b, ForNode(other));
    FilterNone(a, ForNode(node));
  }

  /** Taking the first task of a node out of the queue shortens that node's queue at its head only. */
  lemma RemoveFirstOfNode(pending: seq<PendingAgentTask>, index: nat, node: string, other: string)
    requires Position(pending, ForNode(node)) == Some(index)
    ensures Filter(pending, ForNode(other))
            == (if other == node then [pending[index]] else []) + Filter(RemoveAt(pending, index), ForNode(other))
  {
    var a, x, b := pending[..index], pending[index], pending[index + 1..];
    SplitAtFirst(a, x, b, node, other);
    assert pending == a + [x] + b;
  }

  // ----- The operations -----

  lemma CreateTokenKeepsInv(s: PlaneState, history: seq<PendingAgentTask>, token: EnrollmentToken)
    requires Inv(s, history)
    ensures Inv(CreateToken(s, token), history)
  {
    AppendMaps(s.tokens, token, TokenKey);
    LogKeepsLedger(s, CreateToken(s, token), EnrollmentTokenCreated(token.tokenId, token.nodeId));
  }

  lemma EnrollKeepsInv(s: PlaneState, history: seq<PendingAgentTask>, request: AgentEnrollmentRequest)
    requires Inv(s, history)
    ensures Inv(Enroll(s, request).0, history)
  {
    var (s', r) := Enroll(s, request);
    if r.Ok? {
      TokenRecorded(s, FirstToken(s.tokens, request.token).value);
      AppendMaps(s.agents, r.value, AgentKey);
      LogKeepsLedger(s, s', AgentEnrolled(request.nodeId, request.os));
    }
  }

  lemma EnqueueKeepsInv(s: PlaneState, history: seq<PendingAgentTask>, task: PendingAgentTask)
    requires Inv(s, history)
    ensures Inv(Enqueue(s, task), history + [task])
  {
    hide Filter, Project, WrittenBy;
    forall node
      ensures Filter(s.pulled, ForNode(node)) + Filter(s.pending + [task], ForNode(node))
              == Filter(history + [task], ForNode(node))
    {
      FilterAppend(s.pending, task, ForNode(node));
      FilterAppend(history, task, ForNode(node));
      assert Filter(s.pulled, ForNode(node)) + (Filter(s.pending, ForNode(node)) + [task])
          == (Filter(s.pulled, ForNode(node)) + Filter(s.pending, ForNode(node))) + [task];
    }
  }

  lemma PullConserves(s: PlaneState, history: seq<PendingAgentTask>, node: string, index: nat)
    requires Conserved(s, history) && Position(s.pending, ForNode(node)) == Some(index)
    ensures Conserved(s.(pending := RemoveAt(s.pending, index), pulled := s.pulled + [s.pending[index]]), history)
  {
    hide Filter;
    var x, rest := s.pending[index], RemoveAt(s.pending, index);
    forall n
      ensures Filter(s.pulled + [x], ForNode(n)) + Filter(rest, ForNode(n)) == Filter(history, ForNode(n))
    {
      RemoveFirstOfNode(s.pending, index, node, n);
      FilterAppend(s.pulled, x, ForNode(n));
      var head := if n == node then [x] else [];
      assert (Filter(s.pulled, ForNode(n)) + head) + Filter(rest, ForNode(n))
          == Filter(s.pulled, ForNode(n)) + (head + Filter(rest, ForNode(n)));
    }
    assert multiset(s.pulled + [x]) == multiset(s.pulled) + multiset{x};
  }

  /** Results stay matched when more tasks are pulled. */
  lemma MatchesStable(pulled: seq<PendingAgentTask>, x: PendingAgentTask, r: AgentResultSubmission)
    requires MatchesPulled(pulled, r)
    ensures MatchesPulled(pulled + [x], r)
  {
    PositionStable(pulled, [x], WithEnvelope(r.envelopeId));
  }

  lemma PullOneKeepsInv(s: PlaneState, history: seq<PendingAgentTask>, identity: AgentIdentity, now: nat)
    requires Inv(s, history) && Pull(s, identity, now).1.Ok?
    ensures Inv(Pull(s, identity, now).0, history)
  {
    hide Filter, Project, WrittenBy, Causal, Position;
    var (s', r) := Pull(s, identity, now);
    var e := r.value.envelope;
    AgentRecorded(s, identity);
    AppendMaps(s.pulled, r.value, TaskKey);
    LogKeepsLedger(s, s', AgentTaskPulled(e.envelopeId, e.taskId, e.nodeId));
    PullConserves(s, history, identity.nodeId, Position(s.pending, ForNode(identity.nodeId)).value);
    forall result | result in s.results
      ensures MatchesPulled(s'.pulled, result)
    {
      MatchesStable(s.pulled, r.value, result);
    }
  }

  lemma PullKeepsInv(s: PlaneState, history: seq<PendingAgentTask>, identity: AgentIdentity, now: nat)
    requires Inv(s, history)
    ensures Inv(Pull(s, identity, now).0, history)
  {
    hide Filter, Project, WrittenBy, Causal, Position;
    var (s', r) := Pull(s, identity, now);
    if r.Ok? {
      PullOneKeepsInv(s, history, identity, now);
    } else if r.error.TaskEnvelopeRejected? {
      AgentRecorded(s, identity);
      LogKeepsLedger(s, s', AgentTaskRejected(identity.nodeId, RejectionName(r.error.rejection)));
    }
  }

  lemma RejectResultKeepsInv(
      s: PlaneState, history: seq<PendingAgentTask>, submission: AgentResultSubmission, reason: string)
    requires Inv(s, history)
    ensures Inv(RejectResult(s, submission, reason), history)
  {
    LogKeepsLedger(s, RejectResult(s, submission, reason), AgentResultRejected(submission.envelopeId, reason));
  }

  lemma AcceptKeepsInv(
      s: PlaneState, history: seq<PendingAgentTask>, identity: AgentIdentity, submission: AgentResultSubmission,
      now: nat)
    requires Inv(s, history) && Submit(s, identity, submission, now).1.Pass?
    ensures Inv(Submit(s, identity, submission, now).0, history)
  {
    hide Filter, Project, WrittenBy, Causal, Position;
    AgentRecorded(s, identity);
    PullRecorded(s, Position(s.pulled, WithEnvelope(submission.envelopeId)).value);
    AppendMaps(s.results, submission, ResultKey);
    LogKeepsLedger(s, Submit(s, identity, submission, now).0,
                   AgentResultAccepted(submission.envelopeId, submission.taskId, submission.nodeId));
  }

  lemma SubmitKeepsInv(
      s: PlaneState, history: seq<PendingAgentTask>, identity: AgentIdentity, submission: AgentResultSubmission,
      now: nat)
    requires Inv(s, history)
    ensures Inv(Submit(s, identity, submission, now).0, history)
  {
    hide Filter, Project, WrittenBy, Causal, Position;
    var (s', r) := Submit(s, identity, submission, now);
    if r.Pass? {
      AcceptKeepsInv(s, history, identity, submission, now);
    } else if s' != s {
      RejectResultKeepsInv(s, history, submission, s'.ledger[|s.ledger|].kind.reason);
    }
  }

  lemma SpoolKeepsInv(s: PlaneState, history: seq<PendingAgentTask>, item: LocalSpoolItem)
    requires Inv(s, history)
    ensures Inv(Spool(s, item), history)
  {
    AppendMaps(s.spooled, item, SpoolKey);
    LogKeepsLedger(s, Spool(s, item), AgentResultSpooled(item.spoolId, item.reason));
  }
}
