/** The run ledger of a journey, from incident to receipt. */
module Journey {
  import opened Wrappers
  import opened Seqs
  import opened Strings
  import opened StableSort
  import opened Domain
  import opened Ledger
  import opened Receipt
  import opened ReceiptAccumulator
  import opened ReceiptProofs
  import opened Verification
  import opened E2e
  import Runtime
  import RuntimeRuns
  import Approval

  // ----- Writing to a run's ledger -----

  function RecordAll(events: seq<AuditEvent>, runId: string, kinds: seq<AuditEventKind>): seq<AuditEvent> {
    if kinds == [] then events
    else Recorded(RecordAll(events, runId, kinds[..|kinds| - 1]), "e2e", runId, kinds[|kinds| - 1])
  }

  lemma RecordAllAppend(events: seq<AuditEvent>, runId: string, kinds: seq<AuditEventKind>, k: AuditEventKind)
    ensures RecordAll(events, runId, kinds + [k]) == Recorded(RecordAll(events, runId, kinds), "e2e", runId, k)
  {
    assert (kinds + [k])[..|kinds + [k]| - 1] == kinds;
  }

  /** What was recorded for the run is appended to its events, and to no other run's. */
  lemma {:induction false} RecordedKinds(
      events: seq<AuditEvent>, runId: string, kinds: seq<AuditEventKind>, other: string)
    ensures Kinds(other, RecordAll(events, runId, kinds))
            == if other == runId then Kinds(other, events) + kinds else Kinds(other, events)
  {
    hide Decimal, Filter;
    if kinds != [] {
      var rest := kinds[..|kinds| - 1];
      RecordedKinds(events, runId, rest, other);
      var before := RecordAll(events, runId, rest);
      FilterAppend(before, NextEvent(before, "e2e", runId, kinds[|kinds| - 1]), OfRun(other));
    }
  }

  method AppendKind(ledger: AuditLedger, runId: string, kind: AuditEventKind)
    requires ledger.Valid()
    modifies ledger
    ensures ledger.Valid() && ledger.events == Recorded(old(ledger.events), "e2e", runId, kind)
  {
    var appended := ledger.Record("e2e", runId, kind);
  }

  function PayloadsOf(events: seq<AuditEvent>): seq<AuditEventKind> {
    Map(events, (e: AuditEvent) => e.kind)
  }

  /** Copies another component's events into the run, keeping only what they say. */
  method AppendRuntimeEvents(ledger: AuditLedger, runId: string, events: seq<AuditEvent>)
    requires ledger.Valid()
    modifies ledger
    ensures ledger.Valid() && ledger.events == RecordAll(old(ledger.events), runId, PayloadsOf(events))
  {
    for n := 0 to |events|
      invariant ledger.Valid()
      invariant ledger.events == RecordAll(old(ledger.events), runId, PayloadsOf(events[..n]))
    {
      AppendKind(ledger, runId, events[n].kind);
      RecordAllAppend(old(ledger.events), runId, PayloadsOf(events[..n]), events[n].kind);
      assert PayloadsOf(events[..n + 1]) == PayloadsOf(events[..n]) + [events[n].kind];
    }
    assert events[..|events|] == events;
  }

  function CompletedKinds(checks: seq<VerificationCheck>): seq<AuditEventKind> {
    Map(checks, (c: VerificationCheck) => VerificationCompleted(c.id, c.resourceId))
  }

  function SkippedKinds(skips: seq<SkippedVerification>): seq<AuditEventKind> {
    Map(skips, (s: SkippedVerification) => VerificationSkipped(s))
  }

  /** The planned verification with the task's own skips in place of the planner's. */
  function JourneyPlan(action: ActionKind, impact: ImpactSet, skipped: seq<SkippedVerification>): VerificationPlan {
    Plan(MINIMAL_POLICY, action, impact).(skipped := skipped)
  }

  method RecordVerification(
      ledger: AuditLedger, runId: string, action: ActionKind, impact: ImpactSet, skipped: seq<SkippedVerification>)
    requires ledger.Valid()
    modifies ledger
    ensures ledger.Valid()
    ensures var plan := Plan(VerificationPolicy(false, false), action, impact).(skipped := skipped);
            ledger.events == RecordAll(RecordAll(Recorded(old(ledger.events), "e2e", runId, VerificationSelected(plan)),
                                                 runId, CompletedKinds(plan.required)),
                                       runId, SkippedKinds(plan.skipped))
  {
    hide Plan;
    var plan := JourneyPlan(action, impact, skipped);
    AppendKind(ledger, runId, VerificationSelected(plan));
    ghost var selected := ledger.events;
    for n := 0 to |plan.required|
      invariant ledger.Valid()
      invariant ledger.events == RecordAll(selected, runId, CompletedKinds(plan.required[..n]))
    {
      var check := plan.required[n];
      AppendKind(ledger, runId, VerificationCompleted(check.id, check.resourceId));
      RecordAllAppend(
        selected, runId, CompletedKinds(plan.required[..n]), VerificationCompleted(check.id, check.resourceId));
      assert CompletedKinds(plan.required[..n + 1])
          == CompletedKinds(plan.required[..n]) + [VerificationCompleted(check.id, check.resourceId)];
    }
    assert plan.required[..|plan.required|] == plan.required;
    ghost var completed := ledger.events;
    for n := 0 to |plan.skipped|
      invariant ledger.Valid()
      invariant ledger.events == RecordAll(completed, runId, SkippedKinds(plan.skipped[..n]))
    {
      AppendKind(ledger, runId, VerificationSkipped(plan.skipped[n]));
      RecordAllAppend(completed, runId, SkippedKinds(plan.skipped[..n]), VerificationSkipped(plan.skipped[n]));
      assert SkippedKinds(plan.skipped[..n + 1])
          == SkippedKinds(plan.skipped[..n]) + [VerificationSkipped(plan.skipped[n])];
    }
    assert plan.skipped[..|plan.skipped|] == plan.skipped;
  }

  /** Generates the receipt first and records it afterwards; without a receipt nothing is recorded. */
  method FinishReceipt(ledger: AuditLedger, runId: string, receiptId: string)
    returns (r: Result<OperatorReceipt, E2eError>)
    requires ledger.Valid()
    modifies ledger
    ensures ledger.Valid()
    ensures match ReceiptFor(runId, old(ledger.events))
            case Err(error) => r == Err(ReceiptRefused(error)) && ledger.events == old(ledger.events)
            case Ok(receipt) =>
              && r == Ok(receipt)
              && ledger.events == Recorded(old(ledger.events), "e2e", runId, CognitiveReceiptGenerated(receiptId))
              && ReceiptFor(runId, ledger.events) == Ok(receipt)
  {
    hide ReceiptFor;
    var receipt := GenerateOperatorReceipt(runId, ledger.events);
    if receipt.Err? {
      return Err(ReceiptRefused(receipt.error));
    }
    ReceiptEventIsNeutral(
      runId, ledger.events, NextEvent(ledger.events, "e2e", runId, CognitiveReceiptGenerated(receiptId)));
    AppendKind(ledger, runId, CognitiveReceiptGenerated(receiptId));
    return Ok(receipt.value);
  }

  // ----- What a journey's receipt says -----

  /** Kinds that say nothing to a receipt. */
  predicate Silent(k: AuditEventKind) {
    k.EnrollmentTokenCreated? || k.AgentEnrolled? || k.AgentTaskPulled? || k.AgentTaskRejected?
    || k.AgentResultAccepted? || k.AgentResultRejected? || k.AgentResultSpooled? || k.ApprovalRequested?
  }

  lemma {:induction false} SilentKinds(kinds: seq<AuditEventKind>, more: seq<AuditEventKind>)
    requires forall k :: k in more ==> Silent(k)
    ensures PartsOf(kinds + more) == PartsOf(kinds)
  {
    if more == [] {
      assert kinds + more == kinds;
    } else {
      var rest, last := more[..|more| - 1], more[|more| - 1];
      assert kinds + more == (kinds + rest) + [last];
      SilentKinds(kinds, rest);
      hide PartsOf;
      PartsOfAppend(kinds + rest, last);
      assert Silent(last);
    }
  }

  function EvidenceKinds(sources: seq<string>): seq<AuditEventKind> {
    Map(sources, (s: string) => EvidenceRecorded(s))
  }

  lemma {:induction false} EvidenceParts(kinds: seq<AuditEventKind>, sources: seq<string>)
    ensures var p := PartsOf(kinds);
            PartsOf(kinds + EvidenceKinds(sources)) == p.(evidenceReferences := p.evidenceReferences + sources)
  {
    hide PartsOf;
    if sources == [] {
      assert kinds + EvidenceKinds(sources) == kinds;
    } else {
      var rest, last := sources[..|sources| - 1], sources[|sources| - 1];
      assert kinds + EvidenceKinds(sources) == (kinds + EvidenceKinds(rest)) + [EvidenceRecorded(last)];
      EvidenceParts(kinds, rest);
      PartsOfAppend(kinds + EvidenceKinds(rest), EvidenceRecorded(last));
    }
  }

  function CheckNames(checks: seq<VerificationCheck>): seq<string> {
    Map(checks, (c: VerificationCheck) => c.id + ":" + c.resourceId)
  }

  lemma {:induction false} CompletedParts(kinds: seq<AuditEventKind>, checks: seq<VerificationCheck>)
    ensures var p := PartsOf(kinds);
            PartsOf(kinds + CompletedKinds(checks))
            == p.(verificationCompleted := p.verificationCompleted + CheckNames(checks))
  {
    hide PartsOf;
    if checks == [] {
      assert kinds + CompletedKinds(checks) == kinds;
    } else {
      var rest, last := checks[..|checks| - 1], checks[|checks| - 1];
      var k := VerificationCompleted(last.id, last.resourceId);
      assert kinds + CompletedKinds(checks) == (kinds + CompletedKinds(rest)) + [k];
      CompletedParts(kinds, rest);
      PartsOfAppend(kinds + CompletedKinds(rest), k);
    }
  }

  lemma {:induction false} SkippedParts(kinds: seq<AuditEventKind>, skips: seq<SkippedVerification>)
    ensures var p := PartsOf(kinds);
            PartsOf(kinds + SkippedKinds(skips)) == p.(skippedChecks := p.skippedChecks + skips)
  {
    hide PartsOf;
    if skips == [] {
      assert kinds + SkippedKinds(skips) == kinds;
    } else {
      var rest, last := skips[..|skips| - 1], skips[|skips| - 1];
      assert kinds + SkippedKinds(skips) == (kinds + SkippedKinds(rest)) + [VerificationSkipped(last)];
      SkippedParts(kinds, rest);
      PartsOfAppend(kinds + SkippedKinds(rest), VerificationSkipped(last));
    }
  }

  /** What one journey records, in its fixed order. */
  datatype Story = Story(
    incidentId: string,
    nodeId: string,
    runbook: string,
    planeKinds: seq<AuditEventKind>,
    sources: seq<string>,
    proposalId: string,
    hypothesis: string,
    approvalKinds: seq<AuditEventKind>,
    claims: CapabilityLeaseClaims,
    action: ActionKind,
    subject: string,
    status: HelperActionStatus,
    plan: VerificationPlan)

  function Diagnosis(s: Story): seq<AuditEventKind> {
    [IncidentCreated(s.incidentId, s.nodeId, s.runbook)] + s.planeKinds + EvidenceKinds(s.sources)
    + [ProposalRecorded(s.proposalId, s.hypothesis)]
  }

  function Authority(s: Story): seq<AuditEventKind> {
    s.approvalKinds
    + [CapabilityLeaseIssued(s.claims.leaseId, s.claims.approvalId)]
    + [ResourceLeaseGranted(s.claims.leaseId, s.claims.target.resourceId, Exclusive)]
    + [ActionResult(s.action, ActionTarget(s.claims.target.resourceId, s.subject), s.status)]
  }

  /** What an approval store has recorded in the end: nothing of weight, and then the approval itself. */
  predicate EndsApproved(kinds: seq<AuditEventKind>, approvalId: string) {
    && kinds != []
    && (forall k :: k in kinds[..|kinds| - 1] ==> Silent(k))
    && var last := kinds[|kinds| - 1];
       last.ApprovalDecision? && last.approvalId == approvalId && last.outcome == OutcomeApproved
  }

  function VerifiedKinds(plan: VerificationPlan): seq<AuditEventKind> {
    [VerificationSelected(plan)] + CompletedKinds(plan.required) + SkippedKinds(plan.skipped)
  }

  function Verified(s: Story): seq<AuditEventKind> {
    VerifiedKinds(s.plan)
  }

  lemma DiagnosisParts(s: Story)
    requires forall k :: k in s.planeKinds ==> Silent(k)
    ensures PartsOf(Diagnosis(s)) == NO_PARTS.(
              incidentId := Some(s.incidentId), nodeId := Some(s.nodeId), evidenceReferences := s.sources,
              proposalId := Some(s.proposalId), hypothesis := Some(s.hypothesis))
  {
    var incident := IncidentCreated(s.incidentId, s.nodeId, s.runbook);
    PartsOfNone();
    hide PartsOf;
    PartsOfAppend([], incident);
    assert [] + [incident] == [incident];
    SilentKinds([incident], s.planeKinds);
    EvidenceParts([incident] + s.planeKinds, s.sources);
    PartsOfAppend([incident] + s.planeKinds + EvidenceKinds(s.sources), ProposalRecorded(s.proposalId, s.hypothesis));
  }

  lemma PartsOfNone()
    ensures PartsOf([]) == NO_PARTS
  {}

  lemma AuthorityParts(s: Story, kinds: seq<AuditEventKind>)
    requires EndsApproved(s.approvalKinds, s.claims.approvalId)
    requires PartsOf(kinds).changedResources == []
    ensures PartsOf(kinds + Authority(s)) == PartsOf(kinds).(
              approvalId := Some(s.claims.approvalId), leaseId := Some(s.claims.leaseId),
              changedResources := [s.claims.target.resourceId, s.claims.target.resourceId],
              helperAction := Some(s.action), helperStatus := Some(s.status))
  {
    hide PartsOf;
    var silent, decision := s.approvalKinds[..|s.approvalKinds| - 1], s.approvalKinds[|s.approvalKinds| - 1];
    var a := kinds + silent;
    SilentKinds(kinds, silent);
    var issued := CapabilityLeaseIssued(s.claims.leaseId, s.claims.approvalId);
    var granted := ResourceLeaseGranted(s.claims.leaseId, s.claims.target.resourceId, Exclusive);
    var acted := ActionResult(s.action, ActionTarget(s.claims.target.resourceId, s.subject), s.status);
    PartsOfAppend(a, decision);
    PartsOfAppend(a + [decision], issued);
    PartsOfAppend(a + [decision] + [issued], granted);
    PartsOfAppend(a + [decision] + [issued] + [granted], acted);
    assert s.approvalKinds == silent + [decision];
    assert kinds + Authority(s) == a + [decision] + [issued] + [granted] + [acted];
  }

  lemma VerifiedParts(s: Story, kinds: seq<AuditEventKind>)
    requires PartsOf(kinds).verificationChecks == [] && PartsOf(kinds).verificationCompleted == []
    requires PartsOf(kinds).skippedChecks == []
    ensures PartsOf(kinds + Verified(s)) == PartsOf(kinds).(
              verificationChecks := s.plan.required, verificationCompleted := CheckNames(s.plan.required),
              skippedChecks := s.plan.skipped + s.plan.skipped)
  {
    hide PartsOf;
    var selected := VerificationSelected(s.plan);
    PartsOfAppend(kinds, selected);
    CompletedParts(kinds + [selected], s.plan.required);
    SkippedParts(kinds + [selected] + CompletedKinds(s.plan.required), s.plan.skipped);
    assert kinds + Verified(s) == kinds + [selected] + CompletedKinds(s.plan.required) + SkippedKinds(s.plan.skipped);
  }

  /** The receipt names what the story tells: one approved lease, one changed resource, and every check. */
  ghost predicate Tells(r: OperatorReceipt, runId: string, s: Story) {
    && r.runId == runId && r.incidentId == s.incidentId && r.nodeId == s.nodeId
    && r.evidenceReferences == s.sources && r.proposalId == s.proposalId && r.hypothesis == s.hypothesis
    && r.approvalId == s.claims.approvalId && r.leaseId == s.claims.leaseId
    && r.helperAction == s.action && r.helperStatus == s.status
    && r.changedResources == [s.claims.target.resourceId]
    && r.verificationChecks == s.plan.required && r.verificationCompleted == CheckNames(s.plan.required)
    && (forall i, j :: 0 <= i < j < |r.skippedChecks| ==>
          Earlier(r.skippedChecks[i].checkId, r.skippedChecks[j].checkId))
    && (forall x :: x in r.skippedChecks <==> FirstSkip(s.plan.skipped, x))
  }

  /** The parts of a run whose events tell a story. */
  lemma StoryParts(s: Story)
    requires EndsApproved(s.approvalKinds, s.claims.approvalId) && forall k :: k in s.planeKinds ==> Silent(k)
    ensures PartsOf(Diagnosis(s) + Authority(s) + Verified(s))
            == Parts(
                 Some(s.incidentId), Some(s.nodeId), s.sources, Some(s.proposalId), Some(s.hypothesis),
                 Some(s.claims.approvalId), Some(s.claims.leaseId),
                 [s.claims.target.resourceId, s.claims.target.resourceId], Some(s.action), Some(s.status),
                 s.plan.required, CheckNames(s.plan.required), s.plan.skipped + s.plan.skipped)
  {
    DiagnosisParts(s);
    AuthorityParts(s, Diagnosis(s));
    VerifiedParts(s, Diagnosis(s) + Authority(s));
    hide PartsOf, Diagnosis, Authority, Verified, CheckNames;
  }

  /** A run whose events tell a story has a receipt exactly when evidence and checks are there, and it tells that. */
  lemma StoryEndsInReceipt(runId: string, events: seq<AuditEvent>, s: Story)
    requires Kinds(runId, events) == Diagnosis(s) + Authority(s) + Verified(s)
    requires EndsApproved(s.approvalKinds, s.claims.approvalId) && forall k :: k in s.planeKinds ==> Silent(k)
    ensures ReceiptFor(runId, events).Ok? <==> s.sources != [] && s.plan.required != []
    ensures ReceiptFor(runId, events).Ok? ==> Tells(ReceiptFor(runId, events).value, runId, s)
  {
    StoryParts(s);
    hide PartsOf, Diagnosis, Authority, Verified, SortedResources, SortedSkips, Kinds, CheckNames, Silent, EndsApproved,
      Earlier;
    assert CheckNames(s.plan.required) != [] <==> s.plan.required != [] by {
      CheckNamesCount(s.plan.required);
    }
    SortedPair(s.claims.target.resourceId);
    TwiceSkipped(s.plan.skipped);
  }

  lemma CheckNamesCount(checks: seq<VerificationCheck>)
    ensures |CheckNames(checks)| == |checks|
  {}

  /** Recording the skips of a plan once more adds none to the receipt. */
  lemma TwiceSkipped(skips: seq<SkippedVerification>)
    ensures var s := SortedSkips(skips + skips);
            forall i, j :: 0 <= i < j < |s| ==> Earlier(s[i].checkId, s[j].checkId)
    ensures forall x :: x in SortedSkips(skips + skips) <==> FirstSkip(skips, x)
  {
    var twice := skips + skips;
    OrdersAreTotal();
    SortDedupKeepsFirsts(twice, ById);
    StrictlyEarlierById(SortedSkips(twice));
    hide Sort, Dedup, ById, Earlier, StrictlySorted, TotalPreorder, FirstWithKey;
    forall x
      ensures FirstWithKey(twice, ById, x) <==> FirstSkip(skips, x)
    {
      FirstSkipIsFirst(twice, x);
      FirstOfTwice(skips, x);
    }
  }

  lemma FirstOfTwice(skips: seq<SkippedVerification>, x: SkippedVerification)
    ensures FirstSkip(skips + skips, x) <==> FirstSkip(skips, x)
  {
    var twice := skips + skips;
    if FirstSkip(twice, x) {
      var k :| 0 <= k < |twice| && twice[k] == x && forall i :: 0 <= i < k ==> twice[i].checkId != x.checkId;
      var d := if k < |skips| then k else k - |skips|;
      assert twice[d] == skips[d] == twice[k];
      assert k == d;
      assert forall i :: 0 <= i < k ==> skips[i] == twice[i];
    }
    if FirstSkip(skips, x) {
      var k :| 0 <= k < |skips| && skips[k] == x && forall i :: 0 <= i < k ==> skips[i].checkId != x.checkId;
      assert twice[k] == x && forall i :: 0 <= i < k ==> skips[i] == twice[i];
    }
  }

  lemma SortedPair(x: string)
    ensures SortedResources([x, x]) == [x]
  {
    OrdersAreTotal();
    SortDedupKeepsFirsts([x, x], AtMost);
    hide Sort, Dedup, FirstWithKey, TotalPreorder, StrictlySorted, AtMost;
    var r := SortedResources([x, x]);
    forall y
      ensures y in r <==> y == x
    {
      FirstStringOnly([x, x], y);
    }
    StrictlySortedSingle(r, x);
  }

  lemma StrictlySortedSingle(r: seq<string>, x: string)
    requires StrictlySorted(r, AtMost) && forall y :: y in r <==> y == x
    ensures r == [x]
  {
    hide AtMost;
    assert x in r;
    assert forall i :: 0 <= i < |r| ==> r[i] in r;
    assert forall i, j :: 0 <= i < j < |r| ==> r[i] != r[j];
    DistinctFitsIn(r, [x]);
  }

  // ----- The parts of a journey that other components supply -----

  /** Everything the control plane records is silent to the receipt. */
  lemma {:induction false} PlaneIsSilent(calls: seq<RuntimeRuns.Call>)
    ensures forall k :: k in PayloadsOf(RuntimeRuns.After(Runtime.EMPTY_PLANE, calls).ledger) ==> Silent(k)
  {
    if calls != [] {
      PlaneIsSilent(calls[..|calls| - 1]);
      StepIsSilent(RuntimeRuns.After(Runtime.EMPTY_PLANE, calls[..|calls| - 1]), calls[|calls| - 1]);
    }
  }

  lemma StepRecordsSilently(s: Runtime.PlaneState, call: RuntimeRuns.Call)
    ensures var s' := RuntimeRuns.Step(s, call);
            || s'.ledger == s.ledger
            || (|s'.ledger| == |s.ledger| + 1 && s'.ledger[..|s.ledger|] == s.ledger
                && Silent(s'.ledger[|s.ledger|].kind))
  {
    hide Decimal, Position, PositionFrom;
  }

  lemma StepIsSilent(s: Runtime.PlaneState, call: RuntimeRuns.Call)
    requires forall k :: k in PayloadsOf(s.ledger) ==> Silent(k)
    ensures forall k :: k in PayloadsOf(RuntimeRuns.Step(s, call).ledger) ==> Silent(k)
  {
    var s' := RuntimeRuns.Step(s, call);
    StepRecordsSilently(s, call);
    hide RuntimeRuns.Step, Silent;
    forall k | k in PayloadsOf(s'.ledger)
      ensures Silent(k)
    {
      var i :| 0 <= i < |s'.ledger| && PayloadsOf(s'.ledger)[i] == k;
      assert i < |s.ledger| ==> PayloadsOf(s.ledger)[i] == k;
    }
  }

  /** A store used for one request and its approval has recorded a silent request and the decision. */
  lemma ApprovalEvents(
      record: Approval.ApprovalRecord, actor: string, now: nat, entry: string, nonce: string)
    requires var s := Approval.Request(Approval.EMPTY_STORE, record);
             Approval.Approve(s, record.id, record.actionId, actor, now, entry, nonce).1.Ok?
    ensures var s := Approval.Request(Approval.EMPTY_STORE, record);
            var (s', r) := Approval.Approve(s, record.id, record.actionId, actor, now, entry, nonce);
            && PayloadsOf(s'.ledger)
               == [ApprovalRequested(record.id, record.proposalId, record.actionId),
                   ApprovalDecision(r.value.approvalId, actor, OutcomeApproved)]
            && r.value.target == record.target
  {
    var s := Approval.Request(Approval.EMPTY_STORE, record);
    Approval.ApproveExact(s, record.id, record.actionId, actor, now, entry, nonce);
  }
}
