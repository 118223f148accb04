/** What the analyzers propose, branch by branch. */
module AnalyzerAnswers {
  import opened Wrappers
  import opened Seqs
  import opened Strings
  import opened Domain
  import opened Analyzer

  // ----- Reading the evidence -----

  /** Each further piece of evidence adds its lower-cased body on a line of its own. */
  lemma TextAnswers(evidence: seq<EvidenceEnvelope>, e: EvidenceEnvelope)
    ensures Normalized([]) == ""
    ensures Normalized(evidence + [e])
            == if evidence == [] then ToLower(e.body) else Normalized(evidence) + "\n" + ToLower(e.body)
  {
    hide Contains, ToLower, Join;
    var lower := (x: EvidenceEnvelope) => ToLower(x.body);
    assert Map(evidence + [e], lower) == Map(evidence, lower) + [ToLower(e.body)];
    JoinExact(Map(evidence, lower), ToLower(e.body), "\n");
    assert Map(evidence, lower) == [] <==> evidence == [];
    assert Map([], lower) == [];
  }

  /** It also adds its source to the references, and, when its source speaks of logs, its body to the excerpt. */
  lemma ReferenceAnswers(evidence: seq<EvidenceEnvelope>, e: EvidenceEnvelope)
    ensures Sources([]) == [] && LogExcerpt([]) == []
    ensures Sources(evidence + [e]) == Sources(evidence) + [e.source]
    ensures LogExcerpt(evidence + [e])
            == if Contains(e.source, "logs") then LogExcerpt(evidence) + [e.body] else LogExcerpt(evidence)
  {
    hide Contains, Filter;
    var logs := (x: EvidenceEnvelope) => Contains(x.source, "logs");
    FilterAppend(evidence, e, logs);
    var body := (x: EvidenceEnvelope) => x.body;
    assert Map(Filter(evidence, logs) + [e], body) == Map(Filter(evidence, logs), body) + [e.body];
    NothingExcerpted();
  }

  lemma NothingExcerpted()
    ensures LogExcerpt([]) == []
  {}

  /** The phrases that the analyzers look for. */
  lemma PhraseAnswers(text: string)
    ensures ServiceActive(text) <==>
              Contains(text, "service=active") || Contains(text, "activestate=active")
              || Contains(text, "is running") || Contains(text, "(ok)")
    ensures ServiceUnhealthy(text) <==>
              Contains(text, "service=not-active") || Contains(text, "activestate=failed") || Contains(text, "failed")
              || Contains(text, "exited") || Contains(text, "connection refused")
    ensures Unsupported(text) <==> Contains(text, "unsupported") || Contains(text, "not available")
    ensures DiskPressed(text) <==>
              Contains(text, "disk_pressure=high") || Contains(text, "usage=92") || Contains(text, "free_space=low")
    ensures CleanupPresent(text) <==> Contains(text, "cleanup_candidate=present")
    ensures RestartIndicated(text) <==> ServiceUnhealthy(text) && !ServiceActive(text) && !Unsupported(text)
  {
    hide Contains;
  }

  // ----- Proposals -----

  /** A proposal of one action: its words, its confidence, the evidence it rests on, and its need for approval. */
  ghost predicate Proposes(
      p: StructuredProposal, id: string, hypothesis: string, confidence: nat, evidence: seq<EvidenceEnvelope>,
      action: ProposedAction)
  {
    && p.id == id && p.hypothesis == hypothesis && p.confidencePercent == confidence
    && p.proposedActions == [action] && p.approvalRequired == action.requiresApproval
    && p.evidenceReferences == Sources(evidence) && p.untrustedEvidenceExcerpt == LogExcerpt(evidence)
  }

  ghost predicate IsTakeover(a: ProposedAction, resource: string) {
    a == ProposedAction("manual-takeover", ProposeTakeover, resource, false, None)
  }

  ghost predicate IsMoreLogs(a: ProposedAction, resource: string) {
    a == ProposedAction("collect-more-logs", ProposeMoreLogs, resource, false, None)
  }

  ghost predicate IsRestart(a: ProposedAction, resource: string) {
    && a.id == "restart-service" && a.kind == ProposeRestart && a.targetResourceId == resource && a.requiresApproval
    && a.leaseRequest
       == Some(ResourceLeaseRequest(resource, Exclusive, "service-unhealthy analyzer proposed serialized restart"))
  }

  ghost predicate IsCleanup(a: ProposedAction, resource: string) {
    && a.id == "remove-allowlisted-cleanup-path" && a.kind == ProposeRemoveAllowlistedFile
    && a.targetResourceId == resource && a.requiresApproval
    && a.leaseRequest
       == Some(ResourceLeaseRequest(resource, Exclusive, "disk-pressure analyzer proposed allowlisted cleanup"))
  }

  lemma ActionAnswers(resource: string)
    ensures IsTakeover(Takeover(resource), resource) && IsMoreLogs(MoreLogs(resource), resource)
    ensures IsRestart(Restart(resource), resource) && IsCleanup(Cleanup(resource), resource)
  {}

  /** What the service analyzer says about evidence without support. */
  ghost predicate GivesUp(p: StructuredProposal, id: string, node: string, service: string, e: seq<EvidenceEnvelope>) {
    && |p.proposedActions| == 1 && IsTakeover(p.proposedActions[0], "system:node/" + node + "/service/" + service)
    && Proposes(p, id, service + " evidence collection is unsupported or unavailable on " + node, 55, e,
                p.proposedActions[0])
  }

  /** What it says about evidence for both an active and an unhealthy service. */
  ghost predicate AsksAgain(
      p: StructuredProposal, id: string, node: string, service: string, e: seq<EvidenceEnvelope>)
  {
    && |p.proposedActions| == 1 && IsMoreLogs(p.proposedActions[0], "system:node/" + node + "/service/" + service)
    && Proposes(p, id, service + " has conflicting status and log evidence on " + node, 45, e, p.proposedActions[0])
  }

  /** What it says about evidence for an unhealthy service only. */
  ghost predicate Restarts(p: StructuredProposal, id: string, node: string, service: string, e: seq<EvidenceEnvelope>) {
    && |p.proposedActions| == 1 && IsRestart(p.proposedActions[0], "system:node/" + node + "/service/" + service)
    && Proposes(p, id, service + " appears unhealthy on " + node + "; restart is the typed recovery action", 82, e,
                p.proposedActions[0])
  }

  /** What it says about evidence for a healthy service, or for nothing. */
  ghost predicate LeavesAlone(
      p: StructuredProposal, id: string, node: string, service: string, e: seq<EvidenceEnvelope>)
  {
    && |p.proposedActions| == 1 && IsMoreLogs(p.proposedActions[0], "system:node/" + node + "/service/" + service)
    && Proposes(p, id, service + " appears healthy on " + node + "; no restart proposed", 70, e, p.proposedActions[0])
  }

  lemma SupportMissing(id: string, node: string, service: string, e: seq<EvidenceEnvelope>)
    requires Unsupported(Normalized(e))
    ensures GivesUp(AnalyzeServiceUnhealthy(id, node, service, e), id, node, service, e)
  {
    hide Unsupported, ServiceActive, ServiceUnhealthy, Normalized, LogExcerpt, Sources;
  }

  lemma EvidenceConflicts(id: string, node: string, service: string, e: seq<EvidenceEnvelope>)
    requires var text := Normalized(e); !Unsupported(text) && ServiceActive(text) && ServiceUnhealthy(text)
    ensures AsksAgain(AnalyzeServiceUnhealthy(id, node, service, e), id, node, service, e)
  {
    hide Unsupported, ServiceActive, ServiceUnhealthy, Normalized, LogExcerpt, Sources;
  }

  lemma ServiceIsUnhealthy(id: string, node: string, service: string, e: seq<EvidenceEnvelope>)
    requires RestartIndicated(Normalized(e))
    ensures Restarts(AnalyzeServiceUnhealthy(id, node, service, e), id, node, service, e)
  {
    hide Unsupported, ServiceActive, ServiceUnhealthy, Normalized, LogExcerpt, Sources;
  }

  lemma ServiceIsHealthy(id: string, node: string, service: string, e: seq<EvidenceEnvelope>)
    requires var text := Normalized(e); !Unsupported(text) && !ServiceUnhealthy(text)
    ensures LeavesAlone(AnalyzeServiceUnhealthy(id, node, service, e), id, node, service, e)
  {
    hide Unsupported, ServiceActive, ServiceUnhealthy, Normalized, LogExcerpt, Sources;
  }

  /** Which of the four answers the service analyzer gives depends on what the evidence says. */
  lemma ServiceAnswers(id: string, node: string, service: string, e: seq<EvidenceEnvelope>)
    ensures var (p, text) := (AnalyzeServiceUnhealthy(id, node, service, e), Normalized(e));
            if Unsupported(text) then GivesUp(p, id, node, service, e)
            else if ServiceActive(text) && ServiceUnhealthy(text) then AsksAgain(p, id, node, service, e)
            else if ServiceUnhealthy(text) then Restarts(p, id, node, service, e)
            else LeavesAlone(p, id, node, service, e)
  {
    hide Unsupported, ServiceActive, ServiceUnhealthy, Normalized, GivesUp, AsksAgain, Restarts, LeavesAlone,
      AnalyzeServiceUnhealthy;
    var text := Normalized(e);
    if Unsupported(text) {
      SupportMissing(id, node, service, e);
    } else if ServiceActive(text) && ServiceUnhealthy(text) {
      EvidenceConflicts(id, node, service, e);
    } else if ServiceUnhealthy(text) {
      ServiceIsUnhealthy(id, node, service, e);
    } else {
      ServiceIsHealthy(id, node, service, e);
    }
  }

  /** The disk analyzer proposes the cleanup, with reasons, or else leaves the filesystem to a person. */
  ghost predicate CleansUp(
      p: StructuredProposal, id: string, node: string, mount: string, cleanup: string, e: seq<EvidenceEnvelope>)
  {
    && |p.proposedActions| == 1 && IsCleanup(p.proposedActions[0], cleanup)
    && Proposes(
         p, id, node + " has disk pressure on " + mount + "; cleanup is limited to the declared allowlist path", 84, e,
         p.proposedActions[0])
  }

  ghost predicate HandsOver(p: StructuredProposal, id: string, node: string, mount: string, e: seq<EvidenceEnvelope>) {
    && |p.proposedActions| == 1 && IsTakeover(p.proposedActions[0], "system:node/" + node + "/filesystem/" + mount)
    && Proposes(p, id, node + " disk pressure evidence does not match an allowlisted cleanup path", 50, e,
                p.proposedActions[0])
  }

  lemma DiskAnswers(
      id: string, node: string, mount: string, cleanup: string, e: seq<EvidenceEnvelope>, allowed: seq<string>)
    ensures var (p, text) := (AnalyzeDiskPressure(id, node, mount, cleanup, e, allowed), Normalized(e));
            if DiskPressed(text) && CleanupPresent(text) && cleanup in allowed then
              CleansUp(p, id, node, mount, cleanup, e)
            else HandsOver(p, id, node, mount, e)
  {
    hide DiskPressed, CleanupPresent, Normalized, LogExcerpt, Sources;
  }

  // ----- Policies -----

  /** A restart or reload needs approval under the service policy, more logs and a takeover must not ask for it. */
  lemma ServicePolicyAnswers(a: ProposedAction)
    ensures ActionAllowed(a, SERVICE_UNHEALTHY_POLICY) <==>
              || ((a.kind == ProposeRestart || a.kind == ProposeReload) && a.requiresApproval)
              || ((a.kind == ProposeMoreLogs || a.kind == ProposeTakeover) && !a.requiresApproval)
  {}

  /** A cleanup needs approval under the disk policy, a takeover must not ask for it, and nothing else is allowed. */
  lemma DiskPolicyAnswers(a: ProposedAction)
    ensures ActionAllowed(a, DISK_PRESSURE_POLICY) <==>
              || (a.kind == ProposeRemoveAllowlistedFile && a.requiresApproval)
              || (a.kind == ProposeTakeover && !a.requiresApproval)
  {}

  /** An empty proposal is refused as such; else the first action that is not allowed, for its kind or its approval. */
  lemma ValidationAnswers(p: StructuredProposal, policy: ProposalPolicy, k: nat)
    requires k < |p.proposedActions| && forall i :: 0 <= i < k ==> ActionAllowed(p.proposedActions[i], policy)
    ensures ValidationOf(p.(proposedActions := []), policy) == Fail(EmptyProposal)
    ensures var a := p.proposedActions[k];
            if a.kind !in policy.allowedActions then ValidationOf(p, policy) == Fail(UnsupportedAction(a.id))
            else if (a.kind in policy.approvalRequired) != a.requiresApproval then
              ValidationOf(p, policy) == Fail(ApprovalRequirementMismatch(a.id))
            else k == |p.proposedActions| - 1 ==> ValidationOf(p, policy) == Pass
  {
    var faulty := (a: ProposedAction) => !ActionAllowed(a, policy);
    if faulty(p.proposedActions[k]) {
      PositionUnique(p.proposedActions, faulty, k);
    }
  }
}
