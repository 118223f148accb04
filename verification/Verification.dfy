/** Impact-scoped selection of verification checks. */
module Verification {
  import opened Wrappers
  import opened Seqs
  import opened Strings
  import opened Domain

  datatype VerificationPolicy = VerificationPolicy(
    requireDependentAppCanaryForPlatform: bool,
    requireBroadPackageAuditForSystemPackageMutation: bool)

  const MINIMAL_POLICY := VerificationPolicy(false, false)

  // ----- Resources -----

  function LayerName(layer: OperationalLayer): string {
    match layer
    case System => "System"
    case Platform => "Platform"
    case Application => "Application"
  }

  function UnknownResource(layer: OperationalLayer): string {
    LayerName(layer) + ":unknown"
  }

  /** The resources a plan for this impact may check. */
  predicate Checkable(impact: ImpactSet, resource: string) {
    resource in impact.writes || resource in impact.mayAffect
    || (impact.writes == [] && resource == UnknownResource(impact.layer))
  }

  function PrimaryResource(impact: ImpactSet): (r: string)
    ensures Checkable(impact, r)
  {
    if impact.writes == [] then UnknownResource(impact.layer) else impact.writes[0]
  }

  function DependentResource(impact: ImpactSet): (r: string)
    ensures Checkable(impact, r)
  {
    if impact.mayAffect == [] then PrimaryResource(impact) else impact.mayAffect[0]
  }

  function PackageResource(impact: ImpactSet): (r: string)
    ensures Checkable(impact, r)
  {
    match Find(impact.writes + impact.mayAffect, (x: string) => Contains(x, "package-db"))
    case Some(x) => x
    case None => PrimaryResource(impact)
  }

  function RebootResource(impact: ImpactSet): (r: Option<string>)
    ensures r.Some? ==> Checkable(impact, r.value)
  {
    Find(impact.writes + impact.mayAffect, (x: string) => Contains(x, "/reboot"))
  }

  function AffectedServiceResource(impact: ImpactSet): (r: Option<string>)
    ensures r.Some? ==> Checkable(impact, r.value)
  {
    Find(impact.mayAffect, (x: string) => Contains(x, "/service/"))
  }

  // ----- Plans -----

  function Required(checks: seq<VerificationCheck>): VerificationPlan {
    VerificationPlan(checks, [], [])
  }

  function GenericServiceChange(action: ActionKind, impact: ImpactSet): VerificationPlan {
    var direct := if action.ServiceReload? then "service_reloaded" else "service_active";
    Required([VerificationCheck("helper_result_matches_request", PrimaryResource(impact), DirectImpact),
              VerificationCheck(direct, PrimaryResource(impact), DirectImpact)])
  }

  function ApplicationServiceChange(action: ActionKind, impact: ImpactSet): VerificationPlan {
    GenericServiceChange(action, impact).(skipped := [
      SkippedVerification("package_audit", "application service change did not mutate system package database"),
      SkippedVerification("full_disk_scan", "application service change did not mutate filesystem allocation"),
      SkippedVerification("firewall_audit", "application service change did not mutate firewall rules")])
  }

  function PlatformReload(policy: VerificationPolicy, impact: ImpactSet): VerificationPlan {
    var canary :=
      if policy.requireDependentAppCanaryForPlatform then
        [VerificationCheck("dependent_app_canary", DependentResource(impact), Dependent)]
      else [];
    VerificationPlan(
      [VerificationCheck("config_syntax_valid", PrimaryResource(impact), Precondition),
       VerificationCheck("platform_accepts_connections", PrimaryResource(impact), DirectImpact)] + canary,
      [],
      [SkippedVerification("full_package_audit", "platform config reload did not mutate system package database")])
  }

  const SERVICE_HEALTH_CHECK := "service_health_for_affected_services"

  function SkipDiskScan(): (r: SkippedVerification)
    ensures r.checkId == "full_disk_scan"
  {
    SkippedVerification("full_disk_scan", "package mutation classified changed files without broad filesystem writes")
  }

  function SkipServiceHealth(): (r: SkippedVerification)
    ensures r.checkId == SERVICE_HEALTH_CHECK
  {
    SkippedVerification(
      SERVICE_HEALTH_CHECK,
      "package impact did not declare affected service resources; affected_services_identified owns discovery")
  }

  function SkipPackageAudit(): (r: SkippedVerification)
    ensures r.checkId == "package_audit"
  {
    SkippedVerification(
      "package_audit", "node reboot does not mutate package database; package update verification owns package state")
  }

  /** The five checks that every package update requires. */
  function PackageChecks(package: string, reboot: string): (r: seq<VerificationCheck>)
    ensures |r| == 5
    ensures forall i :: 0 <= i < 5 ==>
      21 <= |r[i].id| <= 28 && (r[i].resourceId == package || r[i].resourceId == reboot)
  {
    [VerificationCheck("package_db_consistent", package, DirectImpact),
     VerificationCheck("package_state_matches_policy", package, DirectImpact),
     VerificationCheck("changed_files_classified", package, DirectImpact),
     VerificationCheck("affected_services_identified", package, Dependent),
     VerificationCheck("reboot_required_detected", reboot, Dependent)]
  }

  function SystemPackageUpdate(policy: VerificationPolicy, impact: ImpactSet): VerificationPlan {
    var package := PackageResource(impact);
    var reboot := match RebootResource(impact) case Some(x) => x case None => package;
    var service := AffectedServiceResource(impact);
    var health :=
      if service.Some? then [VerificationCheck(SERVICE_HEALTH_CHECK, service.value, Dependent)] else [];
    var audit :=
      if policy.requireBroadPackageAuditForSystemPackageMutation then
        [VerificationCheck("package_audit", package, BroadRegression)]
      else [];
    var undiscovered := if service.Some? then [] else [SkipServiceHealth()];
    VerificationPlan(PackageChecks(package, reboot) + health + audit, [], [SkipDiskScan()] + undiscovered)
  }

  /** The same plan, built up step by step. */
  method BuildSystemPackageUpdate(policy: VerificationPolicy, impact: ImpactSet) returns (plan: VerificationPlan)
    ensures plan == SystemPackageUpdate(policy, impact)
  {
    hide PackageChecks, SkipDiskScan, SkipServiceHealth, PackageResource, AffectedServiceResource, RebootResource;
    var package := PackageResource(impact);
    var service := AffectedServiceResource(impact);
    var reboot := RebootResource(impact);
    var required := PackageChecks(package, if reboot.Some? then reboot.value else package);
    if service.Some? {
      required := required + [VerificationCheck(SERVICE_HEALTH_CHECK, service.value, Dependent)];
    }
    if policy.requireBroadPackageAuditForSystemPackageMutation {
      required := required + [VerificationCheck("package_audit", package, BroadRegression)];
    }
    var skipped := [SkipDiskScan()];
    HealthRequiredOrNot(required, service);
    if !(exists c :: c in required && c.id == SERVICE_HEALTH_CHECK) {
      skipped := skipped + [SkipServiceHealth()];
    }
    plan := VerificationPlan(required, [], skipped);
  }

  lemma HealthRequiredOrNot(required: seq<VerificationCheck>, service: Option<string>)
    requires |required| >= 5 && forall i :: 0 <= i < 5 ==> |required[i].id| <= 28
    requires if service.Some? then |required| > 5 && required[5].id == SERVICE_HEALTH_CHECK
             else forall i :: 5 <= i < |required| ==> |required[i].id| <= 28
    ensures (exists c :: c in required && c.id == SERVICE_HEALTH_CHECK) <==> service.Some?
  {
    if service.Some? {
      assert required[5] in required;
    }
  }

  function SystemReboot(impact: ImpactSet): VerificationPlan {
    var reboot := match RebootResource(impact) case Some(x) => x case None => PrimaryResource(impact);
    VerificationPlan(
      [VerificationCheck("drain_completed", reboot, Precondition),
       VerificationCheck("reboot_completed", reboot, DirectImpact),
       VerificationCheck("node_health_after_reboot", reboot, DirectImpact),
       VerificationCheck("affected_services_healthy_after_reboot", DependentResource(impact), Dependent)],
      [],
      [SkipPackageAudit()])
  }

  function AllowlistedFileCleanup(impact: ImpactSet): VerificationPlan {
    Required([VerificationCheck("helper_result_matches_request", PrimaryResource(impact), DirectImpact),
              VerificationCheck("free_space_improved", DependentResource(impact), DirectImpact),
              VerificationCheck("cleaned_paths_match_allowlist", PrimaryResource(impact), DirectImpact),
              VerificationCheck("no_unrelated_deletion_reported", PrimaryResource(impact), DirectImpact)])
  }

  function GenericTypedAction(impact: ImpactSet): VerificationPlan {
    Required([VerificationCheck("helper_result_matches_request", PrimaryResource(impact), DirectImpact)])
  }

  predicate WritesPackageDb(impact: ImpactSet) {
    exists i :: 0 <= i < |impact.writes| && Contains(impact.writes[i], "package-db")
  }

  predicate IsServiceChange(action: ActionKind) {
    action.ServiceRestart? || action.ServiceReload?
  }

  function Plan(policy: VerificationPolicy, action: ActionKind, impact: ImpactSet): VerificationPlan {
    if impact.layer.Application? && IsServiceChange(action) then ApplicationServiceChange(action, impact)
    else if impact.layer.System? && action.RemoveAllowlistedFile? then AllowlistedFileCleanup(impact)
    else if impact.layer.Platform? && action.ServiceReload? then PlatformReload(policy, impact)
    else if impact.layer.System? && action.PackageUpdate? then SystemPackageUpdate(policy, impact)
    else if impact.layer.System? && action.NodeReboot? then SystemReboot(impact)
    else if impact.layer.System? && WritesPackageDb(impact) then SystemPackageUpdate(policy, impact)
    else if IsServiceChange(action) then GenericServiceChange(action, impact)
    else GenericTypedAction(impact)
  }

  // ----- Coherence -----

  /** No check is both required and skipped, something is required, and only declared resources are checked. */
  ghost predicate Coherent(plan: VerificationPlan, impact: ImpactSet) {
    && plan.required != []
    && (forall c, s :: c in plan.required && s in plan.skipped ==> c.id != s.checkId)
    && (forall c :: c in plan.required ==> Checkable(impact, c.resourceId))
  }

  lemma ServiceChangesCoherent(action: ActionKind, impact: ImpactSet)
    ensures Coherent(GenericServiceChange(action, impact), impact)
    ensures Coherent(ApplicationServiceChange(action, impact), impact)
  {
    assert "service_active"[0] != "full_disk_scan"[0];
    assert "service_active"[0] != "firewall_audit"[0];
  }

  lemma TypedActionsCoherent(impact: ImpactSet)
    ensures Coherent(AllowlistedFileCleanup(impact), impact)
    ensures Coherent(GenericTypedAction(impact), impact)
  {}

  lemma PlatformReloadCoherent(policy: VerificationPolicy, impact: ImpactSet)
    ensures Coherent(PlatformReload(policy, impact), impact)
  {}

  lemma SystemRebootCoherent(impact: ImpactSet)
    ensures Coherent(SystemReboot(impact), impact)
  {
    hide SkipPackageAudit, PrimaryResource, DependentResource, RebootResource;
    assert |"package_audit"| == 13 && |"drain_completed"| == 15 && |"reboot_completed"| == 16;
    assert |"node_health_after_reboot"| == 24 && |"affected_services_healthy_after_reboot"| == 38;
  }

  lemma SystemPackageUpdateCoherent(policy: VerificationPolicy, impact: ImpactSet)
    ensures Coherent(SystemPackageUpdate(policy, impact), impact)
  {
    hide SkipDiskScan, SkipServiceHealth, PackageChecks;
  }

  lemma PlansAreCoherent(policy: VerificationPolicy, action: ActionKind, impact: ImpactSet)
    ensures Coherent(Plan(policy, action, impact), impact)
  {
    hide GenericServiceChange, ApplicationServiceChange, PlatformReload, SystemReboot, SystemPackageUpdate,
      AllowlistedFileCleanup, GenericTypedAction, Coherent;
    ServiceChangesCoherent(action, impact);
    TypedActionsCoherent(impact);
    PlatformReloadCoherent(policy, impact);
    SystemRebootCoherent(impact);
    SystemPackageUpdateCoherent(policy, impact);
  }

  predicate InPackageBranch(action: ActionKind, impact: ImpactSet) {
    impact.layer.System?
    && (action.PackageUpdate? || (!action.RemoveAllowlistedFile? && !action.NodeReboot? && WritesPackageDb(impact)))
  }

  predicate Audits(plan: VerificationPlan) {
    exists i :: 0 <= i < |plan.required| && plan.required[i].id == "package_audit"
  }

  lemma PackageUpdateAudits(policy: VerificationPolicy, impact: ImpactSet)
    ensures Audits(SystemPackageUpdate(policy, impact))
            <==> policy.requireBroadPackageAuditForSystemPackageMutation
  {
    hide SkipDiskScan, SkipServiceHealth, PackageChecks;
    var required := SystemPackageUpdate(policy, impact).required;
    if policy.requireBroadPackageAuditForSystemPackageMutation {
      assert required[|required| - 1].id == "package_audit";
    }
  }

  lemma ServicePlansDoNotAudit(action: ActionKind, impact: ImpactSet)
    ensures !Audits(GenericServiceChange(action, impact)) && !Audits(ApplicationServiceChange(action, impact))
    ensures !Audits(AllowlistedFileCleanup(impact)) && !Audits(GenericTypedAction(impact))
  {}

  lemma OtherPlansDoNotAudit(policy: VerificationPolicy, impact: ImpactSet)
    ensures !Audits(PlatformReload(policy, impact)) && !Audits(SystemReboot(impact))
  {
    hide SkipPackageAudit;
  }

  /** The broad package audit is required exactly for package mutations under a policy that asks for it. */
  lemma PackageAuditFollowsPolicy(policy: VerificationPolicy, action: ActionKind, impact: ImpactSet)
    ensures Audits(Plan(policy, action, impact))
            <==> InPackageBranch(action, impact) && policy.requireBroadPackageAuditForSystemPackageMutation
  {
    hide GenericServiceChange, ApplicationServiceChange, PlatformReload, SystemReboot, SystemPackageUpdate,
      AllowlistedFileCleanup, GenericTypedAction, Audits;
    PackageUpdateAudits(policy, impact);
    ServicePlansDoNotAudit(action, impact);
    OtherPlansDoNotAudit(policy, impact);
  }
}
