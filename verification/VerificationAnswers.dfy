/** Which checks each kind of change is verified by, on which resources, and which are skipped for what reason. */
module VerificationAnswers {
  import opened Wrappers
  import opened Seqs
  import opened Strings
  import opened Domain
  import opened Verification

  // ----- Resources -----

  /** The first declared write, or the layer's unknown resource; the first resource that may be affected, or that. */
  lemma ResourceAnswers(impact: ImpactSet)
    ensures impact.writes != [] ==> PrimaryResource(impact) == impact.writes[0]
    ensures impact.writes == [] ==>
              match impact.layer
              case System => PrimaryResource(impact) == "System:unknown"
              case Platform => PrimaryResource(impact) == "Platform:unknown"
              case Application => PrimaryResource(impact) == "Application:unknown"
    ensures impact.mayAffect != [] ==> DependentResource(impact) == impact.mayAffect[0]
    ensures impact.mayAffect == [] ==> DependentResource(impact) == PrimaryResource(impact)
  {}

  /** `x` is the first of the resources that contains `part`. */
  ghost predicate IsFirstWith(resources: seq<string>, part: string, x: string) {
    exists k :: 0 <= k < |resources| && resources[k] == x && Contains(x, part)
                && forall i :: 0 <= i < k ==> !Contains(resources[i], part)
  }

  ghost predicate NoneWith(resources: seq<string>, part: string) {
    forall i :: 0 <= i < |resources| ==> !Contains(resources[i], part)
  }

  /** Package, reboot and service resources are the first that say so, writes before what may be affected. */
  lemma NamedResourceAnswers(impact: ImpactSet)
    ensures var all := impact.writes + impact.mayAffect;
            && (NoneWith(all, "package-db") ==> PackageResource(impact) == PrimaryResource(impact))
            && (!NoneWith(all, "package-db") ==> IsFirstWith(all, "package-db", PackageResource(impact)))
            && (NoneWith(all, "/reboot") ==> RebootResource(impact) == None)
            && (!NoneWith(all, "/reboot") ==>
                  RebootResource(impact).Some? && IsFirstWith(all, "/reboot", RebootResource(impact).value))
    ensures NoneWith(impact.mayAffect, "/service/") ==> AffectedServiceResource(impact) == None
    ensures !NoneWith(impact.mayAffect, "/service/") ==>
              && AffectedServiceResource(impact).Some?
              && IsFirstWith(impact.mayAffect, "/service/", AffectedServiceResource(impact).value)
  {
    hide Contains, PrimaryResource;
  }

  // ----- The plans, on given resources -----

  function Direct(id: string, resource: string): VerificationCheck {
    VerificationCheck(id, resource, DirectImpact)
  }

  /** A changed service: the helper did what was asked, and the service is active or was reloaded. */
  function ServicePlan(service: string, reload: bool): VerificationPlan {
    var direct := if reload then "service_reloaded" else "service_active";
    VerificationPlan([Direct("helper_result_matches_request", service), Direct(direct, service)], [], [])
  }

  /** An application's service leaves packages, disks and firewalls alone. */
  function ApplicationSkips(): seq<SkippedVerification> {
    [SkippedVerification("package_audit", "application service change did not mutate system package database"),
     SkippedVerification("full_disk_scan", "application service change did not mutate filesystem allocation"),
     SkippedVerification("firewall_audit", "application service change did not mutate firewall rules")]
  }

  /** A platform reload: its syntax first, then its connections, and on demand a canary that depends on it. */
  function ReloadPlan(platform: string, dependent: string, canary: bool): VerificationPlan {
    var last := if canary then [VerificationCheck("dependent_app_canary", dependent, Dependent)] else [];
    VerificationPlan(
      [VerificationCheck("config_syntax_valid", platform, Precondition),
       Direct("platform_accepts_connections", platform)] + last,
      [],
      [SkippedVerification("full_package_audit", "platform config reload did not mutate system package database")])
  }

  /** A cleanup: three checks on what was cleaned, and one on the filesystem that gained. */
  function CleanupPlan(cleaned: string, filesystem: string): VerificationPlan {
    VerificationPlan(
      [Direct("helper_result_matches_request", cleaned), Direct("free_space_improved", filesystem),
       Direct("cleaned_paths_match_allowlist", cleaned), Direct("no_unrelated_deletion_reported", cleaned)],
      [], [])
  }

  /** A reboot: drained before, back after, healthy, and with healthy dependents. */
  function RebootPlan(node: string, dependent: string): VerificationPlan {
    VerificationPlan(
      [VerificationCheck("drain_completed", node, Precondition), Direct("reboot_completed", node),
       Direct("node_health_after_reboot", node),
       VerificationCheck("affected_services_healthy_after_reboot", dependent, Dependent)],
      [],
      [SkippedVerification(
         "package_audit",
         "node reboot does not mutate package database; package update verification owns package state")])
  }

  function PackageRequired(package: string, reboot: string): seq<VerificationCheck> {
    [Direct("package_db_consistent", package),
     Direct("package_state_matches_policy", package),
     Direct("changed_files_classified", package),
     VerificationCheck("affected_services_identified", package, Dependent),
     VerificationCheck("reboot_required_detected", reboot, Dependent)]
  }

  function ScanSkipped(): SkippedVerification {
    SkippedVerification(
      "full_disk_scan", "package mutation classified changed files without broad filesystem writes")
  }

  function HealthSkipped(): SkippedVerification {
    SkippedVerification(
      "service_health_for_affected_services",
      "package impact did not declare affected service resources; affected_services_identified owns discovery")
  }

  /** A package change: five checks, one more for a declared service, one more where the policy asks for an audit. */
  function PackagePlan(package: string, reboot: string, service: Option<string>, audit: bool): VerificationPlan {
    var health :=
      if service.Some? then [VerificationCheck("service_health_for_affected_services", service.value, Dependent)]
      else [];
    var broad := if audit then [VerificationCheck("package_audit", package, BroadRegression)] else [];
    VerificationPlan(
      PackageRequired(package, reboot) + health + broad, [],
      if service.Some? then [ScanSkipped()] else [ScanSkipped(), HealthSkipped()])
  }

  function ResultPlan(resource: string): VerificationPlan {
    VerificationPlan([Direct("helper_result_matches_request", resource)], [], [])
  }

  // ----- Which plan a change gets -----

  lemma ServiceContents(action: ActionKind, impact: ImpactSet)
    requires action.ServiceRestart? || action.ServiceReload?
    ensures GenericServiceChange(action, impact) == ServicePlan(PrimaryResource(impact), action.ServiceReload?)
    ensures ApplicationServiceChange(action, impact)
            == ServicePlan(PrimaryResource(impact), action.ServiceReload?).(skipped := ApplicationSkips())
  {
    hide PrimaryResource;
  }

  lemma ReloadContents(policy: VerificationPolicy, impact: ImpactSet)
    ensures PlatformReload(policy, impact)
            == ReloadPlan(
                 PrimaryResource(impact), DependentResource(impact), policy.requireDependentAppCanaryForPlatform)
  {
    hide PrimaryResource, DependentResource;
  }

  lemma CleanupContents(impact: ImpactSet)
    ensures AllowlistedFileCleanup(impact) == CleanupPlan(PrimaryResource(impact), DependentResource(impact))
    ensures GenericTypedAction(impact) == ResultPlan(PrimaryResource(impact))
  {
    hide PrimaryResource, DependentResource;
  }

  function RebootOr(impact: ImpactSet, otherwise: string): string {
    if RebootResource(impact).Some? then RebootResource(impact).value else otherwise
  }

  lemma RebootContents(impact: ImpactSet)
    ensures SystemReboot(impact)
            == RebootPlan(RebootOr(impact, PrimaryResource(impact)), DependentResource(impact))
  {
    hide PrimaryResource, DependentResource, RebootResource;
  }

  lemma PackageListContents(package: string, reboot: string)
    ensures PackageChecks(package, reboot) == PackageRequired(package, reboot)
  {}

  lemma ScanSkipContents()
    ensures SkipDiskScan() == ScanSkipped()
  {}

  lemma HealthSkipContents()
    ensures SkipServiceHealth() == HealthSkipped()
  {}

  lemma PackageContents(policy: VerificationPolicy, impact: ImpactSet)
    ensures SystemPackageUpdate(policy, impact)
            == PackagePlan(
                 PackageResource(impact), RebootOr(impact, PackageResource(impact)), AffectedServiceResource(impact),
                 policy.requireBroadPackageAuditForSystemPackageMutation)
  {
    hide PackageResource, RebootResource, AffectedServiceResource, PackageChecks, PackageRequired, SkipDiskScan,
      SkipServiceHealth, ScanSkipped, HealthSkipped;
    PackageListContents(PackageResource(impact), RebootOr(impact, PackageResource(impact)));
    ScanSkipContents();
    HealthSkipContents();
  }

  /** Restarts and reloads of applications. */
  lemma ApplicationAnswers(policy: VerificationPolicy, action: ActionKind, impact: ImpactSet)
    requires impact.layer.Application? && (action.ServiceRestart? || action.ServiceReload?)
    ensures Plan(policy, action, impact)
            == ServicePlan(PrimaryResource(impact), action.ServiceReload?).(skipped := ApplicationSkips())
  {
    hide *;
    ServiceContents(action, impact);
    ApplicationBranch(policy, action, impact);
  }

  /** Restarts on the platform, and restarts and reloads on the system that do not write the package database. */
  lemma ServiceAnswers(policy: VerificationPolicy, action: ActionKind, impact: ImpactSet)
    requires || (impact.layer.Platform? && action.ServiceRestart?)
             || (impact.layer.System? && (action.ServiceRestart? || action.ServiceReload?)
                 && NoneWith(impact.writes, "package-db"))
    ensures Plan(policy, action, impact) == ServicePlan(PrimaryResource(impact), action.ServiceReload?)
  {
    hide *;
    ServiceContents(action, impact);
    ServiceBranch(policy, action, impact);
  }

  /** Reloads on the platform. */
  lemma ReloadAnswers(policy: VerificationPolicy, impact: ImpactSet)
    requires impact.layer.Platform?
    ensures Plan(policy, ServiceReload, impact)
            == ReloadPlan(
                 PrimaryResource(impact), DependentResource(impact), policy.requireDependentAppCanaryForPlatform)
  {
    hide *;
    ReloadContents(policy, impact);
    SystemBranches(policy, impact);
  }

  /** Cleanups of the system. */
  lemma CleanupAnswers(policy: VerificationPolicy, impact: ImpactSet)
    requires impact.layer.System?
    ensures Plan(policy, RemoveAllowlistedFile, impact)
            == CleanupPlan(PrimaryResource(impact), DependentResource(impact))
  {
    hide *;
    CleanupContents(impact);
    SystemBranches(policy, impact);
  }

  /** Reboots of the system. */
  lemma RebootAnswers(policy: VerificationPolicy, impact: ImpactSet)
    requires impact.layer.System?
    ensures Plan(policy, NodeReboot, impact)
            == RebootPlan(RebootOr(impact, PrimaryResource(impact)), DependentResource(impact))
  {
    hide *;
    RebootContents(impact);
    SystemBranches(policy, impact);
  }

  /** Package updates, and other actions of the system that write the package database. */
  lemma PackageAnswers(policy: VerificationPolicy, action: ActionKind, impact: ImpactSet)
    requires impact.layer.System? && !action.RemoveAllowlistedFile? && !action.NodeReboot?
    requires action.PackageUpdate? || !NoneWith(impact.writes, "package-db")
    ensures Plan(policy, action, impact)
            == PackagePlan(
                 PackageResource(impact), RebootOr(impact, PackageResource(impact)), AffectedServiceResource(impact),
                 policy.requireBroadPackageAuditForSystemPackageMutation)
  {
    hide *;
    PackageContents(policy, impact);
    PackageBranch(policy, action, impact);
  }

  /** Everything else is checked for the helper's result alone. */
  lemma OtherAnswers(policy: VerificationPolicy, action: ActionKind, impact: ImpactSet)
    requires !action.ServiceRestart? && !action.ServiceReload?
    requires impact.layer.System? ==>
               action.RunAllowlistedScript? && NoneWith(impact.writes, "package-db")
    ensures Plan(policy, action, impact) == ResultPlan(PrimaryResource(impact))
  {
    hide *;
    CleanupContents(impact);
    OtherBranch(policy, action, impact);
  }

  lemma ApplicationBranch(policy: VerificationPolicy, action: ActionKind, impact: ImpactSet)
    requires impact.layer.Application? && (action.ServiceRestart? || action.ServiceReload?)
    ensures Plan(policy, action, impact) == ApplicationServiceChange(action, impact)
  {
    hide GenericServiceChange, ApplicationServiceChange, PlatformReload, SystemReboot, SystemPackageUpdate,
      AllowlistedFileCleanup, GenericTypedAction, Contains;
  }

  lemma ServiceBranch(policy: VerificationPolicy, action: ActionKind, impact: ImpactSet)
    requires || (impact.layer.Platform? && action.ServiceRestart?)
             || (impact.layer.System? && (action.ServiceRestart? || action.ServiceReload?)
                 && NoneWith(impact.writes, "package-db"))
    ensures Plan(policy, action, impact) == GenericServiceChange(action, impact)
  {
    hide GenericServiceChange, ApplicationServiceChange, PlatformReload, SystemReboot, SystemPackageUpdate,
      AllowlistedFileCleanup, GenericTypedAction, Contains;
  }

  lemma SystemBranches(policy: VerificationPolicy, impact: ImpactSet)
    ensures impact.layer.Platform? ==> Plan(policy, ServiceReload, impact) == PlatformReload(policy, impact)
    ensures impact.layer.System? ==> Plan(policy, RemoveAllowlistedFile, impact) == AllowlistedFileCleanup(impact)
    ensures impact.layer.System? ==> Plan(policy, NodeReboot, impact) == SystemReboot(impact)
  {
    hide GenericServiceChange, ApplicationServiceChange, PlatformReload, SystemReboot, SystemPackageUpdate,
      AllowlistedFileCleanup, GenericTypedAction, Contains;
  }

  lemma PackageBranch(policy: VerificationPolicy, action: ActionKind, impact: ImpactSet)
    requires impact.layer.System? && !action.RemoveAllowlistedFile? && !action.NodeReboot?
    requires action.PackageUpdate? || !NoneWith(impact.writes, "package-db")
    ensures Plan(policy, action, impact) == SystemPackageUpdate(policy, impact)
  {
    hide GenericServiceChange, ApplicationServiceChange, PlatformReload, SystemReboot, SystemPackageUpdate,
      AllowlistedFileCleanup, GenericTypedAction, Contains;
  }

  lemma OtherBranch(policy: VerificationPolicy, action: ActionKind, impact: ImpactSet)
    requires !action.ServiceRestart? && !action.ServiceReload?
    requires impact.layer.System? ==>
               action.RunAllowlistedScript? && NoneWith(impact.writes, "package-db")
    ensures Plan(policy, action, impact) == GenericTypedAction(impact)
  {
    hide GenericServiceChange, ApplicationServiceChange, PlatformReload, SystemReboot, SystemPackageUpdate,
      AllowlistedFileCleanup, GenericTypedAction, Contains;
  }
}
