/** Guarantees of the control plane over every interleaving of calls. */
module RuntimeRuns {
  import opened Wrappers
  import opened Seqs
  import opened Domain
  import opened Ledger
  import opened Runtime
  import opened RuntimeInvariant

  datatype Call =
    | CallCreateToken(token: EnrollmentToken)
    | CallEnroll(request: AgentEnrollmentRequest)
    | CallEnqueue(task: PendingAgentTask)
    | CallPull(identity: AgentIdentity, now: nat)
    | CallSubmit(identity: AgentIdentity, submission: AgentResultSubmission, now: nat)
    | CallSpool(item: LocalSpoolItem)

  function Step(s: PlaneState, call: Call): PlaneState {
    match call
    case CallCreateToken(token) => CreateToken(s, token)
    case CallEnroll(request) => Enroll(s, request).0
    case CallEnqueue(task) => Enqueue(s, task)
    case CallPull(identity, now) => Pull(s, identity, now).0
    case CallSubmit(identity, submission, now) => Submit(s, identity, submission, now).0
    case CallSpool(item) => Spool(s, item)
  }

  /** The state after a sequence of calls, successful or not. */
  function After(s: PlaneState, calls: seq<Call>): PlaneState {
    if calls == [] then s else Step(After(s, calls[..|calls| - 1]), calls[|calls| - 1])
  }

  function EnqueuedBy(call: Call): Option<PendingAgentTask> {
    if call.CallEnqueue? then Some(call.task) else None
  }

  function Enqueued(calls: seq<Call>): seq<PendingAgentTask> {
    Project(calls, EnqueuedBy)
  }

  lemma StepKeepsInv(s: PlaneState, history: seq<PendingAgentTask>, call: Call)
    requires Inv(s, history)
    ensures Inv(Step(s, call), Extend(history, EnqueuedBy(call)))
  {
    match call
    case CallCreateToken(token) => CreateTokenKeepsInv(s, history, token);
    case CallEnroll(request) => EnrollKeepsInv(s, history, request);
    case CallEnqueue(task) => EnqueueKeepsInv(s, history, task);
    case CallPull(identity, now) => PullKeepsInv(s, history, identity, now);
    case CallSubmit(identity, submission, now) => SubmitKeepsInv(s, history, identity, submission, now);
    case CallSpool(item) => SpoolKeepsInv(s, history, item);
  }

  lemma {:induction false} RunKeepsInv(calls: seq<Call>)
    ensures Inv(After(EMPTY_PLANE, calls), Enqueued(calls))
  {
    if calls == [] {
      EmptyKeepsInv();
    } else {
      RunKeepsInv(calls[..|calls| - 1]);
      StepKeepsInv(After(EMPTY_PLANE, calls[..|calls| - 1]), Enqueued(calls[..|calls| - 1]), calls[|calls| - 1]);
    }
  }

  // ----- At-most-once results -----

  function EnvelopeIds(results: seq<AgentResultSubmission>): seq<string> {
    Map(results, (r: AgentResultSubmission) => r.envelopeId)
  }

  function TaskEnvelopeIds(tasks: seq<PendingAgentTask>): seq<string> {
    Map(tasks, (t: PendingAgentTask) => t.envelope.envelopeId)
  }

  /** Two accepted results never name the same envelope, because they would share its nonce. */
  lemma EnvelopesDistinct(s: PlaneState)
    requires ResultsSound(s)
    ensures Distinct(EnvelopeIds(s.results))
  {
    forall i, j | 0 <= i < j < |s.results|
      ensures s.results[i].envelopeId != s.results[j].envelopeId
    {
      assert MatchesPulled(s.pulled, s.results[i]) && MatchesPulled(s.pulled, s.results[j]);
      assert s.nonces[i] != s.nonces[j];
    }
  }

  lemma AcceptedFitInPulled(s: PlaneState)
    requires ResultsSound(s)
    ensures |s.results| <= |s.pulled|
  {
    var ids, pulledIds := EnvelopeIds(s.results), TaskEnvelopeIds(s.pulled);
    forall id | id in ids
      ensures id in pulledIds
    {
      var i :| 0 <= i < |s.results| && ids[i] == id;
      assert MatchesPulled(s.pulled, s.results[i]);
      var k := Position(s.pulled, WithEnvelope(id)).value;
      assert pulledIds[k] == id;
    }
    EnvelopesDistinct(s);
    DistinctFitsIn(ids, pulledIds);
  }

  /** In every run, results are accepted at most once per nonce and per envelope, even if envelope ids repeat. */
  lemma AtMostOnce(calls: seq<Call>)
    ensures var s := After(EMPTY_PLANE, calls);
            && s.nonces == Map(s.results, (r: AgentResultSubmission) => r.nonce)
            && Distinct(s.nonces)
            && Distinct(EnvelopeIds(s.results))
            && (forall r :: r in s.results ==> MatchesPulled(s.pulled, r))
            && |s.results| <= |s.pulled| <= |Enqueued(calls)|
  {
    RunKeepsInv(calls);
    var s := After(EMPTY_PLANE, calls);
    EnvelopesDistinct(s);
    AcceptedFitInPulled(s);
    assert |multiset(s.pulled) + multiset(s.pending)| == |multiset(Enqueued(calls))|;
  }

  /** After any run, a result repeating an accepted nonce or an accepted envelope id is refused. */
  lemma ReplayRefused(calls: seq<Call>, identity: AgentIdentity, submission: AgentResultSubmission, now: nat)
    requires exists r :: r in After(EMPTY_PLANE, calls).results
                         && (r.nonce == submission.nonce || r.envelopeId == submission.envelopeId)
    ensures Submit(After(EMPTY_PLANE, calls), identity, submission, now).1.Fail?
  {
    RunKeepsInv(calls);
    hide After, LedgerAgrees, Causal, Conserved, Position;
    var s := After(EMPTY_PLANE, calls);
    var r :| r in s.results && (r.nonce == submission.nonce || r.envelopeId == submission.envelopeId);
    var i :| 0 <= i < |s.results| && s.results[i] == r;
    assert s.nonces[i] == r.nonce;
    assert MatchesPulled(s.pulled, r);
  }

  // ----- Ledger -----

  /** In every run each event stands behind the events that caused it, and the lists can be read off the ledger. */
  lemma LedgerTellsAll(calls: seq<Call>)
    ensures var s := After(EMPTY_PLANE, calls);
            && Causal(s.ledger)
            && LedgerAgrees(s)
            && Sequenced(s.ledger)
            && (forall i, j :: 0 <= i < j < |s.ledger| ==> s.ledger[i].id != s.ledger[j].id)
  {
    RunKeepsInv(calls);
    WrittenByOneSource(After(EMPTY_PLANE, calls).ledger, "runtime", "runtime");
  }

  lemma StepGrowsLedger(s: PlaneState, call: Call)
    ensures s.ledger <= Step(s, call).ledger
  {
    match call
    case CallSubmit(identity, submission, now) => SubmitExact(s, identity, submission, now);
    case _ =>
  }

  /** The ledger only grows: no call rewrites what was recorded. */
  lemma {:induction false} LedgerGrows(s: PlaneState, calls: seq<Call>)
    ensures s.ledger <= After(s, calls).ledger
  {
    if calls != [] {
      LedgerGrows(s, calls[..|calls| - 1]);
      StepGrowsLedger(After(s, calls[..|calls| - 1]), calls[|calls| - 1]);
    }
  }

  function IssuedBy(call: Call): Option<EnrollmentToken> {
    if call.CallCreateToken? then Some(call.token) else None
  }

  function SpooledBy(call: Call): Option<LocalSpoolItem> {
    if call.CallSpool? then Some(call.item) else None
  }

  /** An issued token vouches for an agent. */
  ghost predicate Vouched(tokens: seq<EnrollmentToken>, agent: AgentIdentityRecord) {
    exists t :: t in tokens && t.nodeId == agent.nodeId && t.os == agent.os
                && t.serverTrustRoot == agent.serverTrustRoot
  }

  /** In every run tokens and spooled items are those handed in, and each agent entered under an issued token. */
  lemma {:induction false} EnrolledUnderToken(calls: seq<Call>)
    ensures var s := After(EMPTY_PLANE, calls);
            && s.tokens == Project(calls, IssuedBy)
            && s.spooled == Project(calls, SpooledBy)
            && forall a :: a in s.agents ==> Vouched(s.tokens, a)
  {
    if calls != [] {
      var s := After(EMPTY_PLANE, calls[..|calls| - 1]);
      EnrolledUnderToken(calls[..|calls| - 1]);
      StepKeepsVouched(s, calls[|calls| - 1]);
    }
  }

  lemma StepKeepsVouched(s: PlaneState, call: Call)
    requires forall a :: a in s.agents ==> Vouched(s.tokens, a)
    ensures var s' := Step(s, call);
            && s'.tokens == Extend(s.tokens, IssuedBy(call))
            && s'.spooled == Extend(s.spooled, SpooledBy(call))
            && forall a :: a in s'.agents ==> Vouched(s'.tokens, a)
  {
    var s' := Step(s, call);
    match call
    case CallEnroll(request) => EnrollKeepsVouched(s, request);
    case CallSubmit(identity, submission, now) =>
      hide Submit;
      SubmitExact(s, identity, submission, now);
    case CallPull(identity, now) =>
      hide Pull;
      PullExact(s, identity, now);
    case CallCreateToken(token) =>
      hide Recorded;
      forall a | a in s.agents
        ensures Vouched(s'.tokens, a)
      {
        var t :| t in s.tokens && t.nodeId == a.nodeId && t.os == a.os && t.serverTrustRoot == a.serverTrustRoot;
        assert t in s'.tokens;
      }
    case _ =>
  }

  lemma EnrollKeepsVouched(s: PlaneState, request: AgentEnrollmentRequest)
    requires forall a :: a in s.agents ==> Vouched(s.tokens, a)
    ensures var s' := Enroll(s, request).0;
            && s'.tokens == s.tokens && s'.spooled == s.spooled
            && forall a :: a in s'.agents ==> Vouched(s.tokens, a)
  {
    hide Recorded;
    var (s', r) := Enroll(s, request);
    if r.Ok? {
      var t := FirstToken(s.tokens, request.token).value;
      assert t in s.tokens;
      assert Vouched(s.tokens, r.value);
    }
  }

  // ----- Queues -----

  /** In every run each node receives its tasks in the order in which they were enqueued for it. */
  lemma FifoPerNode(calls: seq<Call>, node: string)
    ensures var s := After(EMPTY_PLANE, calls);
            && Filter(s.pulled, ForNode(node)) + Filter(s.pending, ForNode(node))
               == Filter(Enqueued(calls), ForNode(node))
            && multiset(s.pulled) + multiset(s.pending) == multiset(Enqueued(calls))
  {
    RunKeepsInv(calls);
  }

  /** The task a node would receive next. */
  function Head(s: PlaneState, node: string): Option<PendingAgentTask> {
    Find(s.pending, ForNode(node))
  }

  /**
   A pull succeeds exactly when the agent is known and the head of its queue has not expired. It then moves that
   head and nothing else; a failed pull changes at most the ledger, and the only envelope rejection is expiry.
   */
  lemma PullExact(s: PlaneState, identity: AgentIdentity, now: nat)
    ensures var (s', r) := Pull(s, identity, now);
            var head := Head(s, identity.nodeId);
            && (r.Ok? <==> RequireAgent(s.agents, identity).Pass? && head.Some? && now < head.value.envelope.expiresAt)
            && (r.Ok? ==>
                  && head == Some(r.value)
                  && s'.pulled == s.pulled + [r.value]
                  && Filter(s.pending, ForNode(identity.nodeId))
                     == [r.value] + Filter(s'.pending, ForNode(identity.nodeId))
                  && s' == s.(pending := s'.pending, pulled := s'.pulled, ledger := s'.ledger))
            && (r.Err? ==> s' == s.(ledger := s'.ledger))
            && (r.Err? && r.error.TaskEnvelopeRejected? ==> r.error.rejection == ExpiredEnvelope)
  {
    var index := Position(s.pending, ForNode(identity.nodeId));
    if index.Some? {
      RemoveFirstOfNode(s.pending, index.value, identity.nodeId, identity.nodeId);
      assert ForNode(identity.nodeId)(s.pending[index.value]);
    }
  }

  /** A pull for one node leaves what other nodes have pulled and will pull as it was. */
  lemma PullIsLocal(s: PlaneState, identity: AgentIdentity, now: nat, other: string)
    requires other != identity.nodeId
    ensures var s' := Pull(s, identity, now).0;
            && Filter(s'.pending, ForNode(other)) == Filter(s.pending, ForNode(other))
            && Filter(s'.pulled, ForNode(other)) == Filter(s.pulled, ForNode(other))
            && Head(s', other) == Head(s, other)
  {
    var (s', r) := Pull(s, identity, now);
    if r.Ok? {
      var index := Position(s.pending, ForNode(identity.nodeId)).value;
      RemoveFirstOfNode(s.pending, index, identity.nodeId, other);
      FilterAppend(s.pulled, r.value, ForNode(other));
    }
    HeadIsFirst(s, other);
    HeadIsFirst(s', other);
  }

  lemma HeadIsFirst(s: PlaneState, node: string)
    ensures Head(s, node) == if Filter(s.pending, ForNode(node)) == [] then None
                             else Some(Filter(s.pending, ForNode(node))[0])
  {
    match Position(s.pending, ForNode(node))
    case None => FilterNone(s.pending, ForNode(node));
    case Some(k) => RemoveFirstOfNode(s.pending, k, node, node);
  }

  /** A call that can only pull for `node` at or after time `t`. */
  predicate NotBefore(call: Call, node: string, t: nat) {
    call.CallPull? && call.identity.nodeId == node ==> call.now >= t
  }

  lemma StepKeepsExpiredHead(s: PlaneState, call: Call, node: string, task: PendingAgentTask)
    requires Head(s, node) == Some(task) && NotBefore(call, node, task.envelope.expiresAt)
    ensures Head(Step(s, call), node) == Some(task)
    ensures Filter(Step(s, call).pulled, ForNode(node)) == Filter(s.pulled, ForNode(node))
  {
    hide Filter, Recorded;
    match call
    case CallPull(identity, now) =>
      hide Pull, Head;
      PullExact(s, identity, now);
      if identity.nodeId != node {
        PullIsLocal(s, identity, now, node);
      }
    case CallEnqueue(t) =>
      PositionStable(s.pending, [t], ForNode(node));
    case CallSubmit(identity, submission, now) =>
      hide Submit;
      SubmitExact(s, identity, submission, now);
    case CallEnroll(request) =>
      hide Enroll;
      EnrollExact(s, request);
    case _ =>
  }

  /**
   A rejected pull leaves the expired task in place: once the head of a node's queue has expired, no further run
   ever delivers a task to that node.
   */
  lemma {:induction false} ExpiredHeadBlocks(s: PlaneState, calls: seq<Call>, node: string, task: PendingAgentTask)
    requires Head(s, node) == Some(task)
    requires forall call :: call in calls ==> NotBefore(call, node, task.envelope.expiresAt)
    ensures Head(After(s, calls), node) == Some(task)
    ensures Filter(After(s, calls).pulled, ForNode(node)) == Filter(s.pulled, ForNode(node))
  {
    if calls != [] {
      var earlier := calls[..|calls| - 1];
      ExpiredHeadBlocks(s, earlier, node, task);
      StepKeepsExpiredHead(After(s, earlier), calls[|calls| - 1], node, task);
    }
  }

  // ----- Results -----

  /** A result is accepted exactly under the stated conditions; otherwise at most the ledger changes. */
  lemma SubmitExact(s: PlaneState, identity: AgentIdentity, submission: AgentResultSubmission, now: nat)
    ensures var (s', r) := Submit(s, identity, submission, now);
            && (r.Pass? <==>
                  && RequireAgent(s.agents, identity).Pass?
                  && submission.nodeId == identity.nodeId
                  && submission.nonce !in s.nonces
                  && MatchesPulled(s.pulled, submission)
                  && now < s.pulled[Position(s.pulled, WithEnvelope(submission.envelopeId)).value].envelope.expiresAt)
            && (r.Pass? ==> s' == s.(nonces := s.nonces + [submission.nonce], results := s.results + [submission],
                                     ledger := s'.ledger))
            && (r.Fail? ==> s' == s.(ledger := s'.ledger))
  {}

  /** An enrolment succeeds exactly when the first token with the presented secret is live and agrees on everything. */
  lemma EnrollExact(s: PlaneState, request: AgentEnrollmentRequest)
    ensures var (s', r) := Enroll(s, request);
            var token := FirstToken(s.tokens, request.token);
            && (r.Ok? <==>
                  && token.Some?
                  && request.now < token.value.expiresAt
                  && token.value.nodeId == request.nodeId
                  && token.value.os == request.os
                  && token.value.serverTrustRoot == request.serverTrustRoot)
            && (r.Err? ==> s' == s)
            && (r.Ok? ==>
                  && r.value.nodeId == token.value.nodeId
                  && s' == s.(agents := s.agents + [r.value], ledger := s'.ledger))
  {}

  // ----- Whose results are accepted -----

  /** The node that the first pulled envelope with this id was made for. */
  function EnvelopeNode(s: PlaneState, envelopeId: string): Option<string> {
    match Position(s.pulled, WithEnvelope(envelopeId))
    case None => None
    case Some(k) => Some(s.pulled[k].envelope.nodeId)
  }

  /** Every accepted result comes from the node that its envelope was made for. */
  ghost predicate ResultsFromOwners(s: PlaneState) {
    forall r :: r in s.results ==> EnvelopeNode(s, r.envelopeId) == Some(r.nodeId)
  }

  /** The call, if it is a submission that is accepted, is made by an identity of its envelope's node. */
  predicate SubmittedByOwner(s: PlaneState, call: Call) {
    call.CallSubmit? && Submit(s, call.identity, call.submission, call.now).1.Pass? ==>
      EnvelopeNode(s, call.submission.envelopeId) == Some(call.identity.nodeId)
  }

  ghost predicate OwnersSubmit(calls: seq<Call>) {
    forall i :: 0 <= i < |calls| ==> SubmittedByOwner(After(EMPTY_PLANE, calls[..i]), calls[i])
  }

  lemma StepKeepsEnvelopeNode(s: PlaneState, call: Call, envelopeId: string)
    requires EnvelopeNode(s, envelopeId).Some?
    ensures EnvelopeNode(Step(s, call), envelopeId) == EnvelopeNode(s, envelopeId)
  {
    StepGrowsPulled(s, call);
    var more := Step(s, call).pulled[|s.pulled|..];
    assert Step(s, call).pulled == s.pulled + more;
    PositionStable(s.pulled, more, WithEnvelope(envelopeId));
    hide Step;
  }

  lemma StepGrowsPulled(s: PlaneState, call: Call)
    ensures s.pulled <= Step(s, call).pulled
  {
    hide Recorded, Position;
  }

  lemma StepResults(s: PlaneState, call: Call)
    ensures Step(s, call).results
            == if call.CallSubmit? && Submit(s, call.identity, call.submission, call.now).1.Pass? then
                 s.results + [call.submission]
               else s.results
  {
    hide Recorded, Position;
  }

  /** What an accepted submission is known to satisfy. */
  lemma AcceptedSubmission(s: PlaneState, identity: AgentIdentity, submission: AgentResultSubmission, now: nat)
    requires Submit(s, identity, submission, now).1.Pass?
    ensures submission.nodeId == identity.nodeId && EnvelopeNode(s, submission.envelopeId).Some?
  {
    SubmitExact(s, identity, submission, now);
    hide Submit, Position;
  }

  lemma StepFromOwners(s: PlaneState, call: Call)
    requires forall r :: r in s.results ==> MatchesPulled(s.pulled, r)
    ensures ResultsFromOwners(Step(s, call)) <==> ResultsFromOwners(s) && SubmittedByOwner(s, call)
  {
    hide Step, Submit, Position;
    var s' := Step(s, call);
    StepResults(s, call);
    forall r | r in s.results
      ensures EnvelopeNode(s', r.envelopeId) == EnvelopeNode(s, r.envelopeId)
    {
      assert MatchesPulled(s.pulled, r);
      StepKeepsEnvelopeNode(s, call, r.envelopeId);
    }
    if call.CallSubmit? && Submit(s, call.identity, call.submission, call.now).1.Pass? {
      AcceptedSubmission(s, call.identity, call.submission, call.now);
      StepKeepsEnvelopeNode(s, call, call.submission.envelopeId);
      assert call.submission in s'.results;
    }
    assert forall r :: r in s.results ==> r in s'.results;
  }

  /**
   After a run every accepted result comes from its envelope's node exactly when every accepted submission was made
   by an identity of that node: the plane itself compares the two nowhere.
   */
  lemma {:induction false} ResultsFromOwnersExact(calls: seq<Call>)
    ensures ResultsFromOwners(After(EMPTY_PLANE, calls)) <==> OwnersSubmit(calls)
  {
    hide Step, Inv, ResultsFromOwners, SubmittedByOwner;
    if calls == [] {
      NoResultsAtFirst();
    } else {
      var rest, last := calls[..|calls| - 1], calls[|calls| - 1];
      ResultsFromOwnersExact(rest);
      ResultsMatch(rest);
      StepFromOwners(After(EMPTY_PLANE, rest), last);
      assert forall i :: 0 <= i < |rest| ==> rest[..i] == calls[..i] && rest[i] == calls[i];
    }
  }

  lemma NoResultsAtFirst()
    ensures ResultsFromOwners(After(EMPTY_PLANE, []))
  {}

  lemma ResultsMatch(calls: seq<Call>)
    ensures var s := After(EMPTY_PLANE, calls); forall r :: r in s.results ==> MatchesPulled(s.pulled, r)
  {
    AtMostOnce(calls);
    hide After, MatchesPulled;
  }

  lemma AfterOneMore(s: PlaneState, calls: seq<Call>, call: Call)
    ensures After(s, calls + [call]) == Step(After(s, calls), call)
  {
    hide Step;
    assert (calls + [call])[..|calls + [call]| - 1] == calls;
  }

  /** A node's token and enrolment under a secret not used before. */
  lemma EnrollsNode(calls: seq<Call>, token: EnrollmentToken, request: AgentEnrollmentRequest)
    requires request.token == token.token && request.nodeId == token.nodeId && request.os == token.os
    requires request.serverTrustRoot == token.serverTrustRoot && request.now < token.expiresAt
    requires forall t :: t in After(EMPTY_PLANE, calls).tokens ==> t.token != token.token
    ensures var s := After(EMPTY_PLANE, calls);
            var s' := After(EMPTY_PLANE, calls + [CallCreateToken(token)] + [CallEnroll(request)]);
            s' == s.(tokens := s.tokens + [token], ledger := s'.ledger,
                     agents := s.agents + [AgentIdentityRecord(
                                             token.nodeId, token.os, request.certificateFingerprint,
                                             token.serverTrustRoot)])
  {
    hide Recorded, After;
    var s := After(EMPTY_PLANE, calls);
    AfterOneMore(EMPTY_PLANE, calls, CallCreateToken(token));
    AfterOneMore(EMPTY_PLANE, calls + [CallCreateToken(token)], CallEnroll(request));
    var tokens := s.tokens + [token];
    FirstTokenAt(tokens, |s.tokens|);
  }

  lemma FirstTokenAt(tokens: seq<EnrollmentToken>, k: nat)
    requires k < |tokens| && forall i :: 0 <= i < k ==> tokens[i].token != tokens[k].token
    ensures FirstToken(tokens, tokens[k].token) == Some(tokens[k])
  {
    PositionUnique(tokens, (t: EnrollmentToken) => t.token == tokens[k].token, k);
  }

  lemma TwoNodesEnrolled() returns (calls: seq<Call>)
    ensures var s := After(EMPTY_PLANE, calls);
            s == EMPTY_PLANE.(
              tokens := s.tokens, ledger := s.ledger,
              agents := [AgentIdentityRecord("a", Linux, "cert", "root"),
                         AgentIdentityRecord("b", Linux, "cert", "root")])
  {
    var first := EnrollmentToken("1", "x", "a", Linux, "root", 9, "m");
    var second := EnrollmentToken("2", "y", "b", Linux, "root", 9, "n");
    hide Step;
    EnrollsNode([], first, AgentEnrollmentRequest("x", "a", Linux, "cert", "root", 1));
    var one := [] + [CallCreateToken(first)] + [CallEnroll(AgentEnrollmentRequest("x", "a", Linux, "cert", "root", 1))];
    hide After;
    EnrollsNode(one, second, AgentEnrollmentRequest("y", "b", Linux, "cert", "root", 1));
    calls := one + [CallCreateToken(second)] + [CallEnroll(AgentEnrollmentRequest("y", "b", Linux, "cert", "root", 1))];
  }

  /** A run in which node b's agent submits, and has accepted, the result of a task that node a pulled. */
  lemma ForeignResultAccepted() returns (calls: seq<Call>)
    ensures var s := After(EMPTY_PLANE, calls);
            && s.results != [] && s.results[0].nodeId == "b"
            && EnvelopeNode(s, s.results[0].envelopeId) == Some("a")
  {
    hide After, Pull, Submit, Enroll, Spool, EnvelopeNode, Position, Recorded, RequireAgent;
    var task := PendingAgentTask(
      AgentTaskEnvelope("env", "run", "task", "a", 1, 9, "nonce", [], "audit"), Verify("check", "resource"));
    var result := AgentResultSubmission("env", "run", "task", "b", "nonce", ResultSucceeded, [], "audit");
    var enrolled := TwoNodesEnrolled();
    var queued := enrolled + [CallEnqueue(task)];
    var pulled := queued + [CallPull(AgentIdentity("a", "cert"), 1)];
    calls := pulled + [CallSubmit(AgentIdentity("b", "cert"), result, 1)];
    AfterOneMore(EMPTY_PLANE, enrolled, CallEnqueue(task));
    AfterOneMore(EMPTY_PLANE, queued, CallPull(AgentIdentity("a", "cert"), 1));
    AfterOneMore(EMPTY_PLANE, pulled, CallSubmit(AgentIdentity("b", "cert"), result, 1));
    BothKnown(After(EMPTY_PLANE, enrolled).agents);
    PullsOnly(After(EMPTY_PLANE, queued), AgentIdentity("a", "cert"), task, 1);
    SubmitsFirst(After(EMPTY_PLANE, pulled), AgentIdentity("b", "cert"), task, result, 1);
  }

  lemma PullsOnly(s: PlaneState, identity: AgentIdentity, task: PendingAgentTask, now: nat)
    requires s.pending == [task] && RequireAgent(s.agents, identity).Pass?
    requires task.envelope.nodeId == identity.nodeId && now < task.envelope.expiresAt
    ensures var s' := Pull(s, identity, now).0;
            s' == s.(pending := [], pulled := s.pulled + [task], ledger := s'.ledger)
  {
    hide RequireAgent, Recorded;
    PositionUnique(s.pending, ForNode(identity.nodeId), 0);
  }

  lemma SubmitsFirst(
      s: PlaneState, identity: AgentIdentity, task: PendingAgentTask, result: AgentResultSubmission, now: nat)
    requires s.pulled == [task] && s.nonces == [] && s.results == [] && RequireAgent(s.agents, identity).Pass?
    requires result.nodeId == identity.nodeId && now < task.envelope.expiresAt
    requires var e := task.envelope;
             && result.envelopeId == e.envelopeId && result.taskId == e.taskId
             && result.runId == e.runId && result.nonce == e.nonce
    ensures var s' := Submit(s, identity, result, now).0;
            s'.results == [result] && EnvelopeNode(s', result.envelopeId) == Some(task.envelope.nodeId)
  {
    hide RequireAgent, Recorded;
    PositionUnique(s.pulled, WithEnvelope(result.envelopeId), 0);
  }

  lemma BothKnown(agents: seq<AgentIdentityRecord>)
    requires agents == [AgentIdentityRecord("a", Linux, "cert", "root"),
                        AgentIdentityRecord("b", Linux, "cert", "root")]
    ensures RequireAgent(agents, AgentIdentity("a", "cert")).Pass?
    ensures RequireAgent(agents, AgentIdentity("b", "cert")).Pass?
  {
    assert agents[0].nodeId == "a" && agents[1].nodeId == "b";
  }
}
