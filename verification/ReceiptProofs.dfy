/** What a receipt contains and when it exists. */
module ReceiptProofs {
  import opened Wrappers
  import opened Seqs
  import opened Strings
  import opened StableSort
  import opened Domain
  import opened Receipt

  // ----- Independence -----

  lemma KindsConcat(runId: string, a: seq<AuditEvent>, b: seq<AuditEvent>)
    ensures Kinds(runId, a + b) == Kinds(runId, a) + Kinds(runId, b)
  {
    FilterConcat(a, b, OfRun(runId));
  }

  /** Events of other runs, wherever they are interleaved, do not change a run's receipt. */
  lemma OtherRunsDoNotMatter(runId: string, before: seq<AuditEvent>, other: AuditEvent, after: seq<AuditEvent>)
    requires other.runId != runId
    ensures ReceiptFor(runId, before + [other] + after) == ReceiptFor(runId, before + after)
  {
    KindsConcat(runId, before + [other], after);
    KindsConcat(runId, before, after);
    FilterAppend(before, other, OfRun(runId));
  }

  /** A receipt is a function of the run's own events alone. */
  lemma {:induction false} ReceiptFromOwnEvents(runId: string, events: seq<AuditEvent>)
    ensures ReceiptFor(runId, Filter(events, OfRun(runId))) == ReceiptFor(runId, events)
  {
    var own := Filter(events, OfRun(runId));
    forall i | 0 <= i < |own|
      ensures OfRun(runId)(own[i])
    {
      FilterMembers(events, OfRun(runId), own[i]);
    }
    FilterAll(own, OfRun(runId));
  }

  /** Recording that a receipt was generated leaves the receipt as it was. */
  lemma ReceiptEventIsNeutral(runId: string, events: seq<AuditEvent>, e: AuditEvent)
    requires e.kind.CognitiveReceiptGenerated?
    ensures ReceiptFor(runId, events + [e]) == ReceiptFor(runId, events)
  {
    FilterAppend(events, e, OfRun(runId));
    var kinds := Kinds(runId, events);
    if e.runId == runId {
      assert Kinds(runId, events + [e]) == kinds + [e.kind];
      NeutralPart(kinds, e.kind);
    }
    SamePartsSameReceipt(runId, events + [e], events);
  }

  lemma NeutralPart(kinds: seq<AuditEventKind>, k: AuditEventKind)
    requires k.CognitiveReceiptGenerated?
    ensures PartsOf(kinds + [k]) == PartsOf(kinds)
  {
    PartsOfAppend(kinds, k);
  }

  lemma SamePartsSameReceipt(runId: string, a: seq<AuditEvent>, b: seq<AuditEvent>)
    requires PartsOf(Kinds(runId, a)) == PartsOf(Kinds(runId, b))
    ensures ReceiptFor(runId, a) == ReceiptFor(runId, b)
  {}

  // ----- Definedness -----

  /** The run has everything a receipt reports on, in any order. */
  ghost predicate Reportable(kinds: seq<AuditEventKind>) {
    && (exists k :: k in kinds && k.IncidentCreated?)
    && (exists k :: k in kinds && k.EvidenceRecorded?)
    && (exists k :: k in kinds && k.ProposalRecorded?)
    && (exists k :: k in kinds && k.CapabilityLeaseIssued?)
    && (exists k :: k in kinds && k.ActionResult?)
    && (exists k :: k in kinds && k.VerificationSelected? && k.plan.required != [])
    && (exists k :: k in kinds && k.VerificationCompleted?)
  }

  lemma {:induction false} ProjectsSome<U>(kinds: seq<AuditEventKind>, f: AuditEventKind -> Option<U>)
    ensures Project(kinds, f) != [] <==> exists k :: k in kinds && f(k).Some?
  {
    if kinds != [] {
      var rest, last := kinds[..|kinds| - 1], kinds[|kinds| - 1];
      ProjectsSome(rest, f);
      assert forall k :: k in kinds <==> k in rest || k == last;
    }
  }

  lemma {:induction false} GathersSome(kinds: seq<AuditEventKind>)
    ensures Gather(kinds, ChecksOf) != [] <==> exists k :: k in kinds && ChecksOf(k) != []
  {
    if kinds != [] {
      var rest, last := kinds[..|kinds| - 1], kinds[|kinds| - 1];
      GathersSome(rest);
      assert forall k :: k in kinds <==> k in rest || k == last;
    }
  }

  /** Parts that come from one event kind are known together. */
  lemma {:induction false} PartsTogether(kinds: seq<AuditEventKind>)
    ensures (Project(kinds, IncidentOf) == []) == (Project(kinds, NodeOf) == [])
    ensures (Project(kinds, ProposalOf) == []) == (Project(kinds, HypothesisOf) == [])
    ensures (Project(kinds, ActionOf) == []) == (Project(kinds, StatusOf) == [])
    ensures (Project(kinds, LeaseOf) == []) == (Project(kinds, LeaseApprovalOf) == [])
  {
    if kinds != [] {
      PartsTogether(kinds[..|kinds| - 1]);
    }
  }

  /** A receipt exists exactly when the run is reportable; three of the declared errors never occur. */
  lemma DefinedExactly(runId: string, events: seq<AuditEvent>)
    ensures ReceiptFor(runId, events).Ok? <==> Reportable(Kinds(runId, events))
    ensures ReceiptFor(runId, events).Err? ==>
              ReceiptFor(runId, events).error.event
              !in {"incident_node", "proposal_hypothesis", "helper_action_status"}
  {
    var kinds := Kinds(runId, events);
    hide Project, Gather, Kinds, SortedResources, SortedSkips;
    PartsTogether(kinds);
    ProjectsSome(kinds, IncidentOf);
    ProjectsSome(kinds, EvidenceOf);
    ProjectsSome(kinds, ProposalOf);
    ProjectsSome(kinds, LeaseOf);
    ProjectsSome(kinds, ActionOf);
    ProjectsSome(kinds, CompletedOf);
    GathersSome(kinds);
  }

  /** Appending events never makes a receipt undefined. */
  lemma StaysDefined(runId: string, events: seq<AuditEvent>, more: seq<AuditEvent>)
    ensures ReceiptFor(runId, events).Ok? ==> ReceiptFor(runId, events + more).Ok?
  {
    DefinedExactly(runId, events);
    DefinedExactly(runId, events + more);
    var kinds, all := Kinds(runId, events), Kinds(runId, events + more);
    KindsConcat(runId, events, more);
    assert forall k :: k in kinds ==> k in all;
  }

  // ----- Contents -----

  /** The event grants the resource or acts on it. */
  predicate Touches(k: AuditEventKind, resource: string) {
    || (k.ResourceLeaseGranted? && k.resourceId == resource)
    || (k.ActionResult? && k.target.resourceId == resource)
  }

  /** The changed resources of the run, as a set. */
  ghost predicate Changed(kinds: seq<AuditEventKind>, resource: string) {
    exists i :: 0 <= i < |kinds| && Touches(kinds[i], resource)
  }

  lemma TouchesExact(kinds: seq<AuditEventKind>, resource: string)
    ensures Changed(kinds, resource) <==> exists i :: 0 <= i < |kinds| && ChangedOf(kinds[i]) == Some(resource)
  {
    assert forall i :: 0 <= i < |kinds| ==> (Touches(kinds[i], resource) <==> ChangedOf(kinds[i]) == Some(resource));
  }

  /** Strictly sorted by `AtMost` is strictly in dictionary order. */
  lemma StrictlyEarlier(s: seq<string>)
    requires StrictlySorted(s, AtMost)
    ensures forall i, j :: 0 <= i < j < |s| ==> Earlier(s[i], s[j])
  {
    hide AtMost, Earlier;
    forall i, j | 0 <= i < j < |s|
      ensures Earlier(s[i], s[j])
    {
      AtMostExact(s[i], s[j]);
      AtMostExact(s[j], s[i]);
    }
  }

  lemma StrictlyEarlierById(s: seq<SkippedVerification>)
    requires StrictlySorted(s, ById)
    ensures forall i, j :: 0 <= i < j < |s| ==> Earlier(s[i].checkId, s[j].checkId)
  {
    hide AtMost, Earlier;
    forall i, j | 0 <= i < j < |s|
      ensures Earlier(s[i].checkId, s[j].checkId)
    {
      AtMostExact(s[i].checkId, s[j].checkId);
      AtMostExact(s[j].checkId, s[i].checkId);
    }
  }

  lemma FirstStringOnly(s: seq<string>, x: string)
    ensures FirstWithKey(s, AtMost, x) <==> x in s
  {
    OrdersAreTotal();
    if x in s {
      var k := Position(s, (y: string) => y == x).value;
      forall i | 0 <= i < k
        ensures !Same(AtMost, x, s[i])
      {
        if Same(AtMost, x, s[i]) {
          AtMostAntisymmetric(x, s[i]);
        }
      }
      assert s[k] == x;
    }
  }

  /** Changed resources are the set, in dictionary order, of granted and acted-on resources. */
  lemma ChangedResourcesExact(runId: string, events: seq<AuditEvent>)
    requires ReceiptFor(runId, events).Ok?
    ensures var r := ReceiptFor(runId, events).value;
            && (forall i, j :: 0 <= i < j < |r.changedResources| ==>
                  Earlier(r.changedResources[i], r.changedResources[j]))
            && forall x :: x in r.changedResources <==> Changed(Kinds(runId, events), x)
  {
    var kinds := Kinds(runId, events);
    var r := ReceiptFor(runId, events).value;
    OrdersAreTotal();
    SortDedupKeepsFirsts(Project(kinds, ChangedOf), AtMost);
    StrictlyEarlier(r.changedResources);
    forall x
      ensures x in r.changedResources <==> Changed(kinds, x)
    {
      FirstStringOnly(Project(kinds, ChangedOf), x);
      ProjectedFrom(kinds, ChangedOf, x);
      TouchesExact(kinds, x);
    }
  }

  /** Every skip the run recorded, in ledger order: those of selected plans and those recorded one by one. */
  function Skips(runId: string, events: seq<AuditEvent>): seq<SkippedVerification> {
    Gather(Kinds(runId, events), SkippedOf)
  }

  /** `x` is the earliest skip of its check. */
  ghost predicate FirstSkip(skips: seq<SkippedVerification>, x: SkippedVerification) {
    exists k :: 0 <= k < |skips| && skips[k] == x && forall i :: 0 <= i < k ==> skips[i].checkId != x.checkId
  }

  lemma FirstSkipIsFirst(skips: seq<SkippedVerification>, x: SkippedVerification)
    ensures FirstWithKey(skips, ById, x) <==> FirstSkip(skips, x)
  {
    forall i | 0 <= i < |skips|
      ensures Same(ById, x, skips[i]) <==> skips[i].checkId == x.checkId
    {
      SameIdSameKey(x, skips[i]);
    }
  }

  /** Skipped checks hold one entry per skipped check id, sorted by id, each with its first reason in ledger order. */
  lemma SkippedChecksExact(runId: string, events: seq<AuditEvent>)
    requires ReceiptFor(runId, events).Ok?
    ensures var skipped := ReceiptFor(runId, events).value.skippedChecks;
            forall i, j :: 0 <= i < j < |skipped| ==> Earlier(skipped[i].checkId, skipped[j].checkId)
    ensures forall x :: x in ReceiptFor(runId, events).value.skippedChecks <==> FirstSkip(Skips(runId, events), x)
  {
    var skips := Skips(runId, events);
    OrdersAreTotal();
    SortDedupKeepsFirsts(skips, ById);
    StrictlyEarlierById(ReceiptFor(runId, events).value.skippedChecks);
    forall x
      ensures FirstWithKey(skips, ById, x) <==> FirstSkip(skips, x)
    {
      FirstSkipIsFirst(skips, x);
    }
  }

  lemma SameIdSameKey(a: SkippedVerification, b: SkippedVerification)
    ensures Same(ById, a, b) <==> a.checkId == b.checkId
  {
    AtMostTotal(a.checkId, b.checkId);
    if Same(ById, a, b) {
      AtMostAntisymmetric(a.checkId, b.checkId);
    }
  }

  predicate Approves(k: AuditEventKind) {
    k.ApprovalDecision? && k.outcome == OutcomeApproved
  }

  ghost predicate LastApproved(kinds: seq<AuditEventKind>, id: string) {
    exists i :: 0 <= i < |kinds| && Approves(kinds[i]) && kinds[i].approvalId == id
                && forall j :: i < j < |kinds| ==> !Approves(kinds[j])
  }

  ghost predicate FirstLeased(kinds: seq<AuditEventKind>, id: string) {
    exists i :: 0 <= i < |kinds| && kinds[i].CapabilityLeaseIssued? && kinds[i].approvalId == id
                && forall j :: 0 <= j < i ==> !kinds[j].CapabilityLeaseIssued?
  }

  lemma ApprovalForExact(kinds: seq<AuditEventKind>, id: string)
    requires ApprovalFor(kinds) == Some(id)
    ensures if exists j :: 0 <= j < |kinds| && Approves(kinds[j]) then LastApproved(kinds, id)
            else FirstLeased(kinds, id)
  {
    LastProjected(kinds, ApprovedOf);
    FirstProjected(kinds, LeaseApprovalOf);
    assert forall j :: 0 <= j < |kinds| ==> (Approves(kinds[j]) <==> ApprovedOf(kinds[j]).Some?);
    assert forall j :: 0 <= j < |kinds| ==> (kinds[j].CapabilityLeaseIssued? <==> LeaseApprovalOf(kinds[j]).Some?);
  }

  /** The approval reported is the last approved decision, or else the approval of the first issued lease. */
  lemma ApprovalIdExact(runId: string, events: seq<AuditEvent>)
    requires ReceiptFor(runId, events).Ok?
    ensures var kinds := Kinds(runId, events);
            var id := ReceiptFor(runId, events).value.approvalId;
            if exists j :: 0 <= j < |kinds| && Approves(kinds[j]) then LastApproved(kinds, id)
            else FirstLeased(kinds, id)
  {
    ApprovalForExact(Kinds(runId, events), ReceiptFor(runId, events).value.approvalId);
  }

  lemma {:induction false} LastProjected(kinds: seq<AuditEventKind>, f: AuditEventKind -> Option<string>)
    ensures Project(kinds, f) == [] <==> forall j :: 0 <= j < |kinds| ==> f(kinds[j]).None?
    ensures Project(kinds, f) != [] ==>
              exists i :: 0 <= i < |kinds| && f(kinds[i]) == Last(Project(kinds, f))
                          && forall j :: i < j < |kinds| ==> f(kinds[j]).None?
  {
    if kinds != [] {
      var rest, last := kinds[..|kinds| - 1], kinds[|kinds| - 1];
      LastProjected(rest, f);
      assert forall j :: 0 <= j < |rest| ==> rest[j] == kinds[j];
      if f(last).Some? {
        assert f(kinds[|rest|]) == Last(Project(kinds, f));
      } else if Project(rest, f) != [] {
        var i :| 0 <= i < |rest| && f(rest[i]) == Last(Project(rest, f))
                 && forall j :: i < j < |rest| ==> f(rest[j]).None?;
        assert f(kinds[i]) == Last(Project(kinds, f));
      }
    }
  }

  lemma {:induction false} FirstProjected(kinds: seq<AuditEventKind>, f: AuditEventKind -> Option<string>)
    ensures Project(kinds, f) == [] <==> forall j :: 0 <= j < |kinds| ==> f(kinds[j]).None?
    ensures Project(kinds, f) != [] ==>
              exists i :: 0 <= i < |kinds| && f(kinds[i]) == First(Project(kinds, f))
                          && forall j :: 0 <= j < i ==> f(kinds[j]).None?
  {
    if kinds != [] {
      var rest, last := kinds[..|kinds| - 1], kinds[|kinds| - 1];
      FirstProjected(rest, f);
      assert forall j :: 0 <= j < |rest| ==> rest[j] == kinds[j];
      if Project(rest, f) != [] {
        var i :| 0 <= i < |rest| && f(rest[i]) == First(Project(rest, f))
                 && forall j :: 0 <= j < i ==> f(rest[j]).None?;
        assert f(kinds[i]) == First(Project(kinds, f));
      } else if f(last).Some? {
        assert f(kinds[|rest|]) == First(Project(kinds, f));
      }
    }
  }
}
