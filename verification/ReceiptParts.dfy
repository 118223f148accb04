/** The receipt accumulator as a mutable object, proved against Receipt. */
module ReceiptAccumulator {
  import opened Wrappers
  import opened Seqs
  import opened Strings
  import opened StableSort
  import opened Domain
  import opened Receipt

  class ReceiptParts {
    var incidentId: Option<string>
    var nodeId: Option<string>
    var evidenceReferences: seq<string>
    var proposalId: Option<string>
    var hypothesis: Option<string>
    var approvalId: Option<string>
    var leaseId: Option<string>
    var changedResources: seq<string>
    var helperAction: Option<ActionKind>
    var helperStatus: Option<HelperActionStatus>
    var verificationChecks: seq<VerificationCheck>
    var verificationCompleted: seq<string>
    var skippedChecks: seq<SkippedVerification>

    ghost function Value(): Parts
      reads this
    {
      Parts(incidentId, nodeId, evidenceReferences, proposalId, hypothesis, approvalId, leaseId, changedResources,
            helperAction, helperStatus, verificationChecks, verificationCompleted, skippedChecks)
    }

    constructor ()
      ensures Value() == NO_PARTS
    {
      incidentId, nodeId, evidenceReferences := None, None, [];
      proposalId, hypothesis, approvalId, leaseId := None, None, None, None;
      changedResources, helperAction, helperStatus := [], None, None;
      verificationChecks, verificationCompleted, skippedChecks := [], [], [];
    }

    /** Takes up one event of the run. */
    method Apply(kind: AuditEventKind)
      modifies this
      ensures Value() == ApplyKind(old(Value()), kind)
    {
      hide IncidentOf, NodeOf, EvidenceOf, ProposalOf, HypothesisOf, ApprovedOf, LeaseOf, LeaseApprovalOf, ChangedOf,
        ActionOf, StatusOf, ChecksOf, CompletedOf, SkippedOf, Extend, OrElse;
      ApplyDiagnosis(kind);
      ApplyAuthority(kind);
      ApplyAction(kind);
      ApplyVerification(kind);
    }

    method ApplyDiagnosis(kind: AuditEventKind)
      modifies this`incidentId, this`nodeId, this`evidenceReferences, this`proposalId, this`hypothesis
      ensures incidentId == OrElse(IncidentOf(kind), old(incidentId)) && nodeId == OrElse(NodeOf(kind), old(nodeId))
      ensures evidenceReferences == Extend(old(evidenceReferences), EvidenceOf(kind))
      ensures proposalId == OrElse(ProposalOf(kind), old(proposalId))
      ensures hypothesis == OrElse(HypothesisOf(kind), old(hypothesis))
    {
      if kind.IncidentCreated? {
        incidentId := Some(kind.incidentId);
        nodeId := Some(kind.nodeId);
      } else if kind.EvidenceRecorded? {
        evidenceReferences := evidenceReferences + [kind.source];
      } else if kind.ProposalRecorded? {
        proposalId := Some(kind.proposalId);
        hypothesis := Some(kind.hypothesis);
      }
    }

    method ApplyAuthority(kind: AuditEventKind)
      modifies this`approvalId, this`leaseId
      ensures approvalId == OrElse(ApprovedOf(kind), OrElse(old(approvalId), LeaseApprovalOf(kind)))
      ensures leaseId == OrElse(LeaseOf(kind), old(leaseId))
    {
      if kind.ApprovalDecision? && kind.outcome == OutcomeApproved {
        approvalId := Some(kind.approvalId);
      } else if kind.CapabilityLeaseIssued? {
        leaseId := Some(kind.leaseId);
        if approvalId.None? {
          approvalId := Some(kind.approvalId);
        }
      }
    }

    method ApplyAction(kind: AuditEventKind)
      modifies this`helperAction, this`helperStatus, this`changedResources
      ensures helperAction == OrElse(ActionOf(kind), old(helperAction))
      ensures helperStatus == OrElse(StatusOf(kind), old(helperStatus))
      ensures changedResources == Extend(old(changedResources), ChangedOf(kind))
    {
      if kind.ResourceLeaseGranted? {
        changedResources := changedResources + [kind.resourceId];
      } else if kind.ActionResult? {
        helperAction := Some(kind.action);
        helperStatus := Some(kind.status);
        changedResources := changedResources + [kind.target.resourceId];
      }
    }

    method ApplyVerification(kind: AuditEventKind)
      modifies this`verificationChecks, this`verificationCompleted, this`skippedChecks
      ensures verificationChecks == old(verificationChecks) + ChecksOf(kind)
      ensures verificationCompleted == Extend(old(verificationCompleted), CompletedOf(kind))
      ensures skippedChecks == old(skippedChecks) + SkippedOf(kind)
    {
      if kind.VerificationSelected? {
        verificationChecks := verificationChecks + kind.plan.required;
        skippedChecks := skippedChecks + kind.plan.skipped;
      } else if kind.VerificationCompleted? {
        verificationCompleted := verificationCompleted + [kind.checkId + ":" + kind.resourceId];
      } else if kind.VerificationSkipped? {
        skippedChecks := skippedChecks + [kind.skipped];
      }
    }

    /** Looks for the first missing part in the order in which the receipt reports them. */
    method FindMissing() returns (missing: Option<string>)
      ensures missing == Missing(Value())
    {
      if incidentId.None? {
        return Some("incident_created");
      }
      if nodeId.None? {
        return Some("incident_node");
      }
      if evidenceReferences == [] {
        return Some("evidence_collected");
      }
      if proposalId.None? {
        return Some("proposal_generated");
      }
      if hypothesis.None? {
        return Some("proposal_hypothesis");
      }
      if approvalId.None? {
        return Some("approval_approved");
      }
      if leaseId.None? {
        return Some("capability_lease_issued");
      }
      if helperAction.None? {
        return Some("helper_action_result");
      }
      if helperStatus.None? {
        return Some("helper_action_status");
      }
      if verificationChecks == [] {
        return Some("verification_selected");
      }
      if verificationCompleted == [] {
        return Some("verification_completed");
      }
      return None;
    }

    method SortParts()
      modifies this`changedResources, this`skippedChecks
      ensures changedResources == SortedResources(old(changedResources))
      ensures skippedChecks == SortedSkips(old(skippedChecks))
    {
      changedResources := Sort(changedResources, AtMost);
      changedResources := Dedup(changedResources, AtMost);
      skippedChecks := Sort(skippedChecks, ById);
      skippedChecks := Dedup(skippedChecks, ById);
    }

    method FinalizeReceipt(runId: string) returns (r: Result<OperatorReceipt, ReceiptError>)
      modifies this
      ensures r == Finalize(old(Value()), runId)
    {
      var missing := FindMissing();
      if missing.Some? {
        return Err(MissingEvent(missing.value));
      }
      SortParts();
      return Ok(OperatorReceipt(
                  runId, incidentId.value, nodeId.value, System, changedResources, evidenceReferences,
                  proposalId.value, hypothesis.value, approvalId.value, leaseId.value, helperAction.value,
                  helperStatus.value, verificationChecks, verificationCompleted, skippedChecks,
                  NotesFor(helperAction.value)));
    }
  }

  /** Folding the run's events one by one yields the parts that describe them. */
  method CollectReceiptParts(runId: string, events: seq<AuditEvent>) returns (parts: ReceiptParts)
    ensures fresh(parts) && parts.Value() == PartsOf(Kinds(runId, events))
  {
    PartsOfNothing(runId);
    hide PartsOf, Filter, ApplyKind;
    parts := new ReceiptParts();
    assert events[..0] == [];
    for n := 0 to |events|
      invariant fresh(parts)
      invariant parts.Value() == PartsOf(Kinds(runId, events[..n]))
    {
      ghost var before := events[..n];
      assert events[..n + 1] == before + [events[n]];
      FilterAppend(before, events[n], OfRun(runId));
      if events[n].runId == runId {
        PartsOfAppend(Kinds(runId, before), events[n].kind);
        assert Kinds(runId, events[..n + 1]) == Kinds(runId, before) + [events[n].kind];
        parts.Apply(events[n].kind);
      }
    }
    assert events[..|events|] == events;
  }

  lemma PartsOfNothing(runId: string)
    ensures PartsOf(Kinds(runId, [])) == NO_PARTS
  {
    assert Kinds(runId, []) == [];
  }

  method GenerateOperatorReceipt(runId: string, events: seq<AuditEvent>)
    returns (r: Result<OperatorReceipt, ReceiptError>)
    ensures r == ReceiptFor(runId, events)
  {
    var parts := CollectReceiptParts(runId, events);
    r := parts.FinalizeReceipt(runId);
  }
}
