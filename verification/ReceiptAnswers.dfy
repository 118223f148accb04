/** What each event adds to a receipt, and what a receipt makes of it all. */
module ReceiptAnswers {
  import opened Wrappers
  import opened Seqs
  import opened Strings
  import opened StableSort
  import opened Domain
  import opened Receipt
  import opened ReceiptProofs

  /** Only the run's own events are taken up, in ledger order and by what they say. */
  lemma KindsAnswers(runId: string, events: seq<AuditEvent>, e: AuditEvent)
    ensures Kinds(runId, []) == []
    ensures Kinds(runId, events + [e])
            == if e.runId == runId then Kinds(runId, events) + [e.kind] else Kinds(runId, events)
  {
    FilterAppend(events, e, OfRun(runId));
  }

  /** How one more event changes the parts. */
  ghost predicate TakesUp(p: Parts, k: AuditEventKind, q: Parts) {
    match k
    case IncidentCreated(id, node, _) => q == p.(incidentId := Some(id), nodeId := Some(node))
    case EvidenceRecorded(source) => q == p.(evidenceReferences := p.evidenceReferences + [source])
    case ProposalRecorded(id, text) => q == p.(proposalId := Some(id), hypothesis := Some(text))
    case ApprovalDecision(id, _, outcome) =>
      q == if outcome == OutcomeApproved then p.(approvalId := Some(id)) else p
    case CapabilityLeaseIssued(lease, approval) =>
      q == p.(leaseId := Some(lease), approvalId := if p.approvalId.Some? then p.approvalId else Some(approval))
    case ResourceLeaseGranted(_, resource, _) => q == p.(changedResources := p.changedResources + [resource])
    case ActionResult(action, target, status) =>
      q == p.(helperAction := Some(action), helperStatus := Some(status),
              changedResources := p.changedResources + [target.resourceId])
    case VerificationSelected(plan) =>
      q == p.(verificationChecks := p.verificationChecks + plan.required,
              skippedChecks := p.skippedChecks + plan.skipped)
    case VerificationCompleted(check, resource) =>
      q == p.(verificationCompleted := p.verificationCompleted + [check + ":" + resource])
    case VerificationSkipped(skipped) => q == p.(skippedChecks := p.skippedChecks + [skipped])
    case _ => q == p
  }

  /** Without events nothing is known, and each further event is taken up. */
  lemma PartsAnswers(kinds: seq<AuditEventKind>, k: AuditEventKind)
    ensures PartsOf([]) == Parts(None, None, [], None, None, None, None, [], None, None, [], [], [])
    ensures TakesUp(PartsOf(kinds), k, PartsOf(kinds + [k]))
  {
    PartsOfAppend(kinds, k);
    hide PartsOf;
    NoParts();
  }

  lemma NoParts()
    ensures PartsOf([]) == Parts(None, None, [], None, None, None, None, [], None, None, [], [], [])
  {}

  /** The first part that is missing, in the order of the receipt. */
  lemma MissingAnswers(p: Parts)
    ensures p.incidentId.None? ==> Missing(p) == Some("incident_created")
    ensures p.incidentId.Some? && p.nodeId.None? ==> Missing(p) == Some("incident_node")
    ensures p.incidentId.Some? && p.nodeId.Some? ==>
              if p.evidenceReferences == [] then Missing(p) == Some("evidence_collected")
              else if p.proposalId.None? then Missing(p) == Some("proposal_generated")
              else if p.hypothesis.None? then Missing(p) == Some("proposal_hypothesis")
              else if p.approvalId.None? then Missing(p) == Some("approval_approved")
              else if p.leaseId.None? then Missing(p) == Some("capability_lease_issued")
              else if p.helperAction.None? then Missing(p) == Some("helper_action_result")
              else if p.helperStatus.None? then Missing(p) == Some("helper_action_status")
              else if p.verificationChecks == [] then Missing(p) == Some("verification_selected")
              else if p.verificationCompleted == [] then Missing(p) == Some("verification_completed")
              else Missing(p) == None
  {}

  /** The receipt carries the parts over: resources sorted and once each, skips sorted and with their first reasons. */
  ghost predicate CarriesOver(p: Parts, runId: string, r: OperatorReceipt) {
    && r.runId == runId && Some(r.incidentId) == p.incidentId && Some(r.nodeId) == p.nodeId && r.layer == System
    && r.evidenceReferences == p.evidenceReferences
    && Some(r.proposalId) == p.proposalId && Some(r.hypothesis) == p.hypothesis
    && Some(r.approvalId) == p.approvalId && Some(r.leaseId) == p.leaseId
    && Some(r.helperAction) == p.helperAction && Some(r.helperStatus) == p.helperStatus
    && r.verificationChecks == p.verificationChecks && r.verificationCompleted == p.verificationCompleted
    && (r.notes.CleanupNotes? <==> r.helperAction.RemoveAllowlistedFile?)
    && (forall i, j :: 0 <= i < j < |r.changedResources| ==> Earlier(r.changedResources[i], r.changedResources[j]))
    && (forall x :: x in r.changedResources <==> x in p.changedResources)
    && (forall i, j :: 0 <= i < j < |r.skippedChecks| ==>
          Earlier(r.skippedChecks[i].checkId, r.skippedChecks[j].checkId))
    && (forall x :: x in r.skippedChecks <==> FirstSkip(p.skippedChecks, x))
  }

  /** A receipt is made exactly when nothing is missing, and then carries everything over. */
  lemma FinalizeAnswers(p: Parts, runId: string)
    ensures match Missing(p)
            case Some(event) => Finalize(p, runId) == Err(MissingEvent(event))
            case None => Finalize(p, runId).Ok? && CarriesOver(p, runId, Finalize(p, runId).value)
  {
    OrdersAreTotal();
    SortDedupKeepsFirsts(p.changedResources, AtMost);
    SortDedupKeepsFirsts(p.skippedChecks, ById);
    StrictlyEarlier(SortedResources(p.changedResources));
    StrictlyEarlierById(SortedSkips(p.skippedChecks));
    forall x
      ensures x in SortedResources(p.changedResources) <==> x in p.changedResources
    {
      FirstStringOnly(p.changedResources, x);
    }
    forall x
      ensures x in SortedSkips(p.skippedChecks) <==> FirstSkip(p.skippedChecks, x)
    {
      FirstSkipIsFirst(p.skippedChecks, x);
    }
    hide Sort, Dedup, Earlier, FirstSkip, AtMost, ById, TotalPreorder, StrictlySorted, Missing, SortedResources,
      SortedSkips;
  }

  /** The receipt of a run is what finalizing the parts of its events gives. */
  lemma ReceiptAnswer(runId: string, events: seq<AuditEvent>)
    ensures ReceiptFor(runId, events) == Finalize(PartsOf(Kinds(runId, events)), runId)
  {}
}
