/** The evidence that the two journeys bring along calls for their actions. */
module OwnEvidence {
  import opened Wrappers
  import opened Seqs
  import opened Strings
  import opened Domain
  import opened Runtime
  import opened Runbooks
  import opened E2e
  import opened RunbookEvidence
  import opened JourneyRuns
  import opened JourneyExact
  import Analyzer
  import Approval
  import RuntimeRuns

  function Bodies(evidence: seq<EvidenceEnvelope>): seq<string> {
    Map(evidence, (e: EvidenceEnvelope) => ToLower(e.body))
  }

  /** A text on one line occurs in the evidence exactly when it occurs in one of the bodies. */
  lemma OccursInEvidence(evidence: seq<EvidenceEnvelope>, part: string)
    requires evidence != [] && '\n' !in part
    ensures Contains(Analyzer.Normalized(evidence), part)
            <==> exists i :: 0 <= i < |evidence| && Contains(Bodies(evidence)[i], part)
  {
    hide Contains;
    assert ['\n'] == "\n";
    ContainsInJoin(Bodies(evidence), '\n', part);
  }

  predicate LowerCased(s: string) {
    forall i :: 0 <= i < |s| ==> !('A' <= s[i] <= 'Z')
  }

  lemma LowerStays(s: string)
    requires LowerCased(s)
    ensures ToLower(s) == s
  {}

  // ----- The service journey -----

  /** A body that speaks of neither an active service nor a lack of support. */
  predicate Quiet(s: string) {
    !Analyzer.ServiceActive(s) && !Analyzer.Unsupported(s)
  }

  /** Missing characters that make a body quiet. */
  lemma QuietByMissing(s: string)
    requires 'u' !in s || ('p' !in s && 'g' !in s)
    requires 'v' !in s || ('l' !in s && !Contains(s, "service=active") && !Contains(s, "activestate=active"))
    requires '(' !in s
    ensures Quiet(s)
  {
    hide Contains;
    UnsupportedChars(s);
    ActiveChars(s);
  }

  lemma UnsupportedChars(s: string)
    ensures Contains(s, "unsupported") ==> 'u' in s && 'p' in s
    ensures Contains(s, "not available") ==> 'v' in s && 'l' in s
  {
    hide Contains;
    assert "unsupported"[0] == 'u' && "unsupported"[4] == 'p';
    assert "not available"[5] == 'v' && "not available"[8] == 'l';
    CharOccurs(s, "unsupported", 'u');
    CharOccurs(s, "unsupported", 'p');
    CharOccurs(s, "not available", 'v');
    CharOccurs(s, "not available", 'l');
  }

  lemma ActiveChars(s: string)
    ensures Contains(s, "service=active") ==> 'v' in s
    ensures Contains(s, "activestate=active") ==> 'v' in s
    ensures Contains(s, "is running") ==> 'u' in s && 'g' in s
    ensures Contains(s, "(ok)") ==> '(' in s
  {
    hide Contains;
    assert "service=active"[3] == 'v' && "activestate=active"[4] == 'v';
    assert "is running"[4] == 'u' && "is running"[9] == 'g' && "(ok)"[0] == '(';
    CharOccurs(s, "service=active", 'v');
    CharOccurs(s, "activestate=active", 'v');
    CharOccurs(s, "is running", 'u');
    CharOccurs(s, "is running", 'g');
    CharOccurs(s, "(ok)", '(');
  }

  lemma StatusIsNotActive()
    ensures !Contains("service=not-active", "service=active")
    ensures !Contains("service=not-active", "activestate=active")
  {
    var s := "service=not-active";
    assert |s| == 18 && |"service=active"| == 14 && |"activestate=active"| == 18;
    forall i | 0 <= i <= |s|
      ensures !OccursAt(s, "service=active", i)
    {
      assert "service=active"[0] == 's' && "service=active"[8] == 'a';
      assert i == 0 ==> s[i..][8] == 'n';
      assert 1 <= i <= 4 ==> s[i..][0] != 's';
    }
    forall i | 0 <= i <= |s|
      ensures !OccursAt(s, "activestate=active", i)
    {
      assert "activestate=active"[0] == 'a';
      assert i == 0 ==> s[i..][0] == 's';
    }
  }

  lemma StatusCharacters()
    ensures var s := "service=not-active"; 'u' !in s && 'l' !in s && '(' !in s && LowerCased(s)
  {
    var s := "service=not-active";
    assert forall i :: 0 <= i < |s| ==> s[i] != 'u' && s[i] != 'l' && s[i] != '(' && !('A' <= s[i] <= 'Z');
  }

  lemma StatusIsQuiet()
    ensures Quiet("service=not-active") && LowerCased("service=not-active")
  {
    hide Contains, Quiet;
    StatusIsNotActive();
    StatusCharacters();
    QuietByMissing("service=not-active");
  }

  /** A lower-cased body without any character that would make it speak. */
  lemma QuietByCharacters(s: string)
    requires forall i :: 0 <= i < |s| ==> s[i] != 'v' && s[i] != '(' && !('A' <= s[i] <= 'Z')
    requires (forall i :: 0 <= i < |s| ==> s[i] != 'u') || (forall i :: 0 <= i < |s| ==> s[i] != 'p' && s[i] != 'g')
    ensures Quiet(s) && LowerCased(s)
  {
    hide Contains, Quiet;
    QuietByMissing(s);
  }

  lemma LogsAreQuiet()
    ensures Quiet("sshd failed with connection refused") && LowerCased("sshd failed with connection refused")
  {
    hide *;
    var s := "sshd failed with connection refused";
    assert forall i :: 0 <= i < |s| ==>
      s[i] != 'v' && s[i] != '(' && !('A' <= s[i] <= 'Z') && s[i] != 'p' && s[i] != 'g';
    QuietByCharacters(s);
  }

  lemma DiskIsQuiet()
    ensures Quiet("disk=present / 40%") && LowerCased("disk=present / 40%")
  {
    hide *;
    var s := "disk=present / 40%";
    assert forall i :: 0 <= i < |s| ==> s[i] != 'v' && s[i] != '(' && !('A' <= s[i] <= 'Z') && s[i] != 'u';
    QuietByCharacters(s);
  }

  lemma ProcessIsQuiet()
    ensures Quiet("process=present sshd missing") && LowerCased("process=present sshd missing")
  {
    hide *;
    var s := "process=present sshd missing";
    assert forall i :: 0 <= i < |s| ==> s[i] != 'v' && s[i] != '(' && !('A' <= s[i] <= 'Z') && s[i] != 'u';
    QuietByCharacters(s);
  }

  lemma SocketIsQuiet()
    ensures Quiet("socket=present port 22 absent") && LowerCased("socket=present port 22 absent")
  {
    hide *;
    var s := "socket=present port 22 absent";
    assert forall i :: 0 <= i < |s| ==> s[i] != 'v' && s[i] != '(' && !('A' <= s[i] <= 'Z') && s[i] != 'u';
    QuietByCharacters(s);
  }

  lemma StatusIsUnhealthy()
    ensures Contains("service=not-active", "service=not-active")
  {
    assert OccursAt("service=not-active", "service=not-active", 0);
  }

  /** Bodies that are quiet and of which one says that the service is not active call for a restart. */
  lemma QuietBodiesIndicateRestart(evidence: seq<EvidenceEnvelope>)
    requires evidence != [] && Contains(Bodies(evidence)[0], "service=not-active")
    requires forall i :: 0 <= i < |evidence| ==> Quiet(Bodies(evidence)[i])
    ensures Analyzer.RestartIndicated(Analyzer.Normalized(evidence))
  {
    hide Contains, Bodies, Analyzer.Normalized;
    OneLine();
    OccursInEvidence(evidence, "service=not-active");
    OccursInEvidence(evidence, "service=active");
    OccursInEvidence(evidence, "activestate=active");
    OccursInEvidence(evidence, "is running");
    OccursInEvidence(evidence, "(ok)");
    OccursInEvidence(evidence, "unsupported");
    OccursInEvidence(evidence, "not available");
  }

  lemma OneLine()
    ensures '\n' !in "service=not-active" && '\n' !in "service=active" && '\n' !in "activestate=active"
    ensures '\n' !in "is running" && '\n' !in "(ok)" && '\n' !in "unsupported" && '\n' !in "not available"
  {}

  lemma ServiceBodies()
    requires forall i :: 0 <= i < |SERVICE_COLLECTORS| ==> ServiceEvidence(SERVICE_COLLECTORS[i]).Ok?
    ensures var bodies := Bodies(Gathered(SERVICE_COLLECTORS, ServiceEvidence));
            |bodies| == 5 && Contains(bodies[0], "service=not-active") && forall i :: 0 <= i < 5 ==> Quiet(bodies[i])
  {
    hide Contains, Quiet, ToLower;
    StatusIsQuiet();
    LogsAreQuiet();
    DiskIsQuiet();
    ProcessIsQuiet();
    SocketIsQuiet();
    StatusIsUnhealthy();
    LowerStays("service=not-active");
    LowerStays("sshd failed with connection refused");
    LowerStays("disk=present / 40%");
    LowerStays("process=present sshd missing");
    LowerStays("socket=present port 22 absent");
  }

  lemma OwnRestartReady(t: JourneyTerms, request: ServiceUnhealthyRequest, s: PlaneState)
    ensures RestartReady(t, request, s, ServiceEvidence)
            <==> FirstAgent(s.agents, request.nodeId).Some?
                 && HelperInPlace(t, Analyzer.ServiceResource(request.nodeId, request.service))
  {
    hide ServiceEvidence, SERVICE_COLLECTORS, Gathered, Quiet, Contains, Bodies, FirstAgent, HelperInPlace,
      Analyzer.ServiceResource, Analyzer.Normalized, Analyzer.RestartIndicated;
    ServiceNamesDiffer();
    ServiceEvidenceComplete();
    ServiceBodies();
    GatheredCount(SERVICE_COLLECTORS, ServiceEvidence);
    QuietBodiesIndicateRestart(Gathered(SERVICE_COLLECTORS, ServiceEvidence));
  }

  /**
   With the evidence that comes with it, the service journey succeeds exactly when the node's agent is enrolled and
   the helper is in place.
   */
  lemma ServiceJourneyWithOwnEvidence(
      t: JourneyTerms, request: ServiceUnhealthyRequest, report: CapabilityReport, enrolment: seq<RuntimeRuns.Call>,
      proposalId: string)
    requires PlanServiceUnhealthy(request, report).Ok? && Enrolling(enrolment) && AsksForRestart(t, request)
    ensures ServiceJourney(t, request, report, enrolment, ServiceEvidence, proposalId).Ok?
            <==> FirstAgent(RuntimeRuns.After(EMPTY_PLANE, enrolment).agents, request.nodeId).Some?
                 && HelperInPlace(t, Analyzer.ServiceResource(request.nodeId, request.service))
  {
    hide *;
    ServiceJourneyExact(t, request, report, enrolment, ServiceEvidence, proposalId);
    OwnRestartReady(t, request, RuntimeRuns.After(EMPTY_PLANE, enrolment));
  }

  lemma GatheredCount(names: seq<string>, source: EvidenceSource)
    requires forall i :: 0 <= i < |names| ==> source(names[i]).Ok?
    ensures |Bodies(Gathered(names, source))| == |Gathered(names, source)| == |names|
  {}

  // ----- The disk journey -----

  /** What occurs in lower case stays when the text is lower-cased. */
  lemma LowerKeeps(s: string, part: string)
    requires LowerCased(part) && Contains(s, part)
    ensures Contains(ToLower(s), part)
  {
    var i :| 0 <= i <= |s| && OccursAt(s, part, i);
    assert forall k :: 0 <= k < |part| ==> ToLower(s)[i..][k] == LowerChar(s[i..][k]) == part[k];
    assert OccursAt(ToLower(s), part, i);
  }

  lemma LowerParts()
    ensures LowerCased("disk_pressure=high") && LowerCased("cleanup_candidate=present")
  {}

  lemma DiskBodies()
    requires forall i :: 0 <= i < |DISK_COLLECTORS| ==> DiskEvidence(DISK_COLLECTORS[i]).Ok?
    ensures var bodies := Bodies(Gathered(DISK_COLLECTORS, DiskEvidence));
            && |bodies| == 4 && Contains(bodies[0], "disk_pressure=high")
            && Contains(bodies[3], "cleanup_candidate=present")
  {
    hide ToLower, Contains, LowerCased;
    LowerParts();
    PressureSaid();
    CandidateSaid();
    LowerKeeps("disk_pressure=high mount=/ usage=92", "disk_pressure=high");
    LowerKeeps(
      "pre_action_snapshot=present free_space=low cleanup_candidate=present", "cleanup_candidate=present");
  }

  lemma PressureSaid()
    ensures Contains("disk_pressure=high mount=/ usage=92", "disk_pressure=high")
  {
    assert "disk_pressure=high mount=/ usage=92" == [] + "disk_pressure=high" + " mount=/ usage=92";
    Whole("disk_pressure=high");
    ContainsLonger([], "disk_pressure=high", " mount=/ usage=92", "disk_pressure=high");
  }

  lemma CandidateSaid()
    ensures Contains(
              "pre_action_snapshot=present free_space=low cleanup_candidate=present", "cleanup_candidate=present")
  {
    hide *;
    var before := "pre_action_snapshot=present free_space=low ";
    assert "pre_action_snapshot=present free_space=low cleanup_candidate=present"
        == before + "cleanup_candidate=present" + [];
    Whole("cleanup_candidate=present");
    ContainsLonger(before, "cleanup_candidate=present", [], "cleanup_candidate=present");
  }

  lemma Whole(s: string)
    ensures Contains(s, s)
  {
    assert OccursAt(s, s, 0);
  }

  lemma OwnEvidenceIndicatesCleanup(cleanup: string, allowed: seq<string>)
    requires forall i :: 0 <= i < |DISK_COLLECTORS| ==> DiskEvidence(DISK_COLLECTORS[i]).Ok?
    ensures CleanupIndicated(cleanup, allowed, Gathered(DISK_COLLECTORS, DiskEvidence)) <==> cleanup in allowed
  {
    DiskBodies();
    DiskOneLine();
    hide Contains, Bodies, Gathered, DiskEvidence, DISK_COLLECTORS, Analyzer.Normalized;
    var evidence := Gathered(DISK_COLLECTORS, DiskEvidence);
    SameCount(evidence);
    OccursInEvidence(evidence, "disk_pressure=high");
    OccursInEvidence(evidence, "cleanup_candidate=present");
  }

  lemma SameCount(evidence: seq<EvidenceEnvelope>)
    ensures |Bodies(evidence)| == |evidence|
  {}

  lemma DiskOneLine()
    ensures '\n' !in "disk_pressure=high" && '\n' !in "cleanup_candidate=present"
  {}

  lemma OwnCleanupReady(t: JourneyTerms, request: DiskPressureRequest, s: PlaneState, allowed: seq<string>)
    ensures CleanupReady(t, request, s, DiskEvidence, allowed)
            <==> FirstAgent(s.agents, request.nodeId).Some? && request.cleanupResourceId in allowed
                 && HelperInPlace(t, request.cleanupResourceId)
  {
    hide DiskEvidence, DISK_COLLECTORS, Gathered, FirstAgent, HelperInPlace, CleanupIndicated;
    DiskNamesDiffer();
    DiskEvidenceComplete();
    OwnEvidenceIndicatesCleanup(request.cleanupResourceId, allowed);
  }

  /** With the evidence that comes with it, the disk journey succeeds exactly for an allowlisted cleanup. */
  lemma DiskJourneyWithOwnEvidence(
      t: JourneyTerms, request: DiskPressureRequest, report: CapabilityReport, enrolment: seq<RuntimeRuns.Call>,
      proposalId: string, allowed: seq<string>)
    requires PlanDiskPressure(request, report).Ok? && Enrolling(enrolment) && AsksForCleanup(t, request)
    ensures DiskJourney(t, request, report, enrolment, DiskEvidence, proposalId, allowed).Ok?
            <==> FirstAgent(RuntimeRuns.After(EMPTY_PLANE, enrolment).agents, request.nodeId).Some?
                 && request.cleanupResourceId in allowed && HelperInPlace(t, request.cleanupResourceId)
  {
    hide *;
    DiskJourneyExact(t, request, report, enrolment, DiskEvidence, proposalId, allowed);
    OwnCleanupReady(t, request, RuntimeRuns.After(EMPTY_PLANE, enrolment), allowed);
  }
}
