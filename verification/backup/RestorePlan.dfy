/** What a restore sets out to do, as a plan of steps (`internal/backup/usecase/run_restore.go`), and the checks that
    come before it (`internal/backup/domain/restore.go`). */
module RestorePlan {
  import opened GoStrings
  import opened World
  import opened BackupRuns
  import opened Quiesce

  // ---- the checks ----------------------------------------------------------------------------------------

  datatype SchemaState = SchemaState(version: int, dirty: bool)

  datatype SchemaCheck = SchemaCheck(allowed: bool, migrateAfter: bool)

  function CheckSchemaVersion(backup: int, current: SchemaState): (r: SchemaCheck)
    ensures r.allowed <==> !current.dirty && 0 < backup <= current.version
    ensures r.migrateAfter <==> r.allowed && backup != current.version
  {
    if current.dirty then SchemaCheck(false, false)
    else if backup <= 0 then SchemaCheck(false, false)
    else if backup > current.version then SchemaCheck(false, false)
    else SchemaCheck(true, backup < current.version)
  }

  datatype Prerequisites = Prerequisites(encryptionKey: bool, sealKey: bool, destinationCreds: bool,
                                         destinationReachable: bool)

  predicate Met(p: Prerequisites) {
    p.encryptionKey && p.sealKey && p.destinationCreds && p.destinationReachable
  }

  /** Names everything that is missing, not just the first. */
  method CheckPrerequisites(p: Prerequisites) returns (missing: seq<string>)
    ensures missing == [] <==> Met(p)
    ensures "encryption key" in missing <==> !p.encryptionKey
    ensures "seal key" in missing <==> !p.sealKey
    ensures "destination credentials" in missing <==> !p.destinationCreds
    ensures "destination reachability" in missing <==> !p.destinationReachable
  {
    missing := [];
    assert |"encryption key"| == 14 && |"seal key"| == 8 && |"destination credentials"| == 23
      && |"destination reachability"| == 24;
    if !p.encryptionKey { missing := missing + ["encryption key"]; }
    if !p.sealKey { missing := missing + ["seal key"]; }
    if !p.destinationCreds { missing := missing + ["destination credentials"]; }
    if !p.destinationReachable { missing := missing + ["destination reachability"]; }
  }

  // ---- the plan --------------------------------------------------------------------------------------------

  /** A request to restore; the record, artifacts and schema state are what the lookups return when they succeed. The
      booleans say which collaborators are wired. */
  datatype RestoreJob = RestoreJob(mode: Mode, namespace: string, prerequisites: Prerequisites,
                                   status: Status, stackId: string, schemaVersion: int, manifest: Manifest,
                                   artifacts: seq<Artifact>, current: SchemaState,
                                   releases: bool, namespaces: bool, shared: bool, controllers: bool, connections: bool,
                                   tokens: bool, gateway: bool, importWait: int, importRetry: int)
  {
    predicate TouchesStack() { mode != PlatformOnly }

    predicate TouchesPlatform() { mode != StackOnly }

    /** The vault of a stack is there only once its workloads run again. */
    predicate DefersVault() { TouchesStack() && !Blank(stackId) }
  }

  /** A call to make; after a fatal one that fails, nothing more is done. */
  datatype Step = Step(effect: Effect, fatal: bool)

  function When(wired: bool, effect: Effect, fatal: bool): seq<Step> {
    if wired then [Step(effect, fatal)] else []
  }

  /** The loops over the artifacts. */
  datatype Phase = Secrets | Shared | Volumes | Resources | Platform(connections: bool, vault: bool)

  function StepsOf(phase: Phase, a: Artifact): seq<Step> {
    match phase
    case Secrets => When(a.component == SharedResources, ApplySecrets(a), true)
    case Shared => When(a.component == SharedResources, ApplyShared(a), true)
    case Volumes => When(a.component == Volume, RestoreVolume(a), true)
    case Resources => When(a.component == NamespaceResources, ApplyResources(a), true)
    case Platform(connections, vault) =>
      match a.component
      case PlatformDB => [Step(RestoreDB(a), true)] + When(connections, ResetConnections, false)
      case KeycloakDB => [Step(RestoreDB(a), false)]
      case OpenBaoKV => When(vault, ImportVault(a), false)
      case _ => []
  }

  function Loop(phase: Phase, artifacts: seq<Artifact>): seq<Step> {
    if artifacts == [] then []
    else Loop(phase, artifacts[..|artifacts| - 1]) + StepsOf(phase, artifacts[|artifacts| - 1])
  }

  function StatSteps(artifacts: seq<Artifact>): seq<Step> {
    seq(|artifacts|, i requires 0 <= i < |artifacts| => Step(Stat(artifacts[i]), true))
  }

  function ClaimSteps(volumes: seq<VolumeSpec>): seq<Step> {
    seq(|volumes|, i requires 0 <= i < |volumes| => Step(EnsurePVC(volumes[i]), true))
  }

  /** Lookups and checks; nothing is changed but the record of the restore. */
  function LookupPlan(): seq<Step> {
    When(true, GetRun, true) + When(true, ListArtifacts, true)
  }

  function SchemaPlan(): seq<Step> {
    When(true, Effect.SchemaState, true) + When(true, SaveRestore, false)
  }

  /** The charts installed now, to compare with those backed up. */
  function DriftPlan(job: RestoreJob): seq<Step> {
    When(job.releases && !Blank(job.namespace), ListReleases, false)
  }

  /** Shared controllers between the secrets they adopt and the resources that need them. */
  function SharedPlan(job: RestoreJob): seq<Step> {
    Loop(Secrets, job.artifacts) + When(job.controllers, EnsureControllers, true) + Loop(Shared, job.artifacts)
  }

  function DataPlan(job: RestoreJob): seq<Step> {
    ClaimSteps(job.manifest.volumes) + Loop(Volumes, job.artifacts) + Loop(Resources, job.artifacts)
  }

  /** All of it, in order; every step must succeed. */
  function StackPlan(job: RestoreJob): seq<Step> {
    if job.TouchesStack() then When(job.namespaces, EnsureNamespace, true) + (SharedPlan(job) + DataPlan(job)) else []
  }

  /** Shared resources to restore, and nothing to restore them with. */
  predicate Unwired(job: RestoreJob) {
    !job.shared && exists a | a in job.artifacts :: a.component == SharedResources
  }

  function PlatformPlan(job: RestoreJob): seq<Step> {
    if job.TouchesPlatform() then Loop(Platform(job.connections, !job.DefersVault()), job.artifacts) else []
  }

  /** What is scaled up again, last stopped first; what an operator recreates is left to it. */
  function ResumeSteps(workloads: seq<WorkloadSpec>): seq<Step> {
    if workloads == [] then []
    else
      var w := workloads[0];
      ResumeSteps(workloads[1..]) + if w.ownerManaged then [] else [Step(Scale(w.id, w.originalReplicas), false)]
  }

  function ResumePlan(job: RestoreJob): seq<Step> {
    if job.TouchesStack() then ResumeSteps(job.manifest.workloads) else []
  }

  function AfterPlan(job: RestoreJob): seq<Step> {
    When(job.tokens, CheckReferences, false) + When(job.gateway && job.DefersVault(), RepinGateway, false)
  }

  // ---- following a plan --------------------------------------------------------------------------------------

  /** Every call is made under the request's own context. */
  ghost predicate Attached(seg: seq<Event>) {
    forall i | 0 <= i < |seg| :: !seg[i].detached
  }

  ghost predicate Follows(seg: seq<Event>, plan: seq<Step>) {
    && |seg| <= |plan| && Attached(seg)
    && (forall i | 0 <= i < |seg| :: seg[i].effect == plan[i].effect)
    && (forall i | 0 <= i < |seg| - 1 :: seg[i].ok || !plan[i].fatal)
  }

  ghost predicate Done(seg: seq<Event>, plan: seq<Step>) {
    && |seg| == |plan| && Attached(seg)
    && forall i | 0 <= i < |seg| :: seg[i].effect == plan[i].effect && (seg[i].ok || !plan[i].fatal)
  }

  /** Broken off at a fatal step that failed. */
  ghost predicate Broken(seg: seq<Event>, plan: seq<Step>) {
    && Follows(seg, plan) && seg != [] && !seg[|seg| - 1].ok && plan[|seg| - 1].fatal
  }

  /** Through to the end, or broken off. */
  ghost predicate Went(seg: seq<Event>, plan: seq<Step>, ok: bool) {
    if ok then Done(seg, plan) else Broken(seg, plan)
  }

  /** One step more of a plan that went well so far. */
  lemma StepTaken(seg: seq<Event>, plan: seq<Step>, e: Event, step: Step)
    requires Done(seg, plan) && e.effect == step.effect && !e.detached
    ensures Follows(seg + [e], plan + [step])
    ensures if e.ok || !step.fatal then Done(seg + [e], plan + [step]) else Broken(seg + [e], plan + [step])
  {
  }

  /** The next part of a plan whose first part is done. */
  lemma PartTaken(a: seq<Event>, p: seq<Step>, b: seq<Event>, q: seq<Step>)
    requires Done(a, p) && Follows(b, q)
    ensures Follows(a + b, p + q)
    ensures Done(b, q) ==> Done(a + b, p + q)
    ensures Broken(b, q) ==> Broken(a + b, p + q)
  {
  }

  lemma CutShort(seg: seq<Event>, plan: seq<Step>, rest: seq<Step>)
    requires Follows(seg, plan)
    ensures Follows(seg, plan + rest) && (Broken(seg, plan) ==> Broken(seg, plan + rest))
  {
  }

  lemma BrokenIsNotDone(seg: seq<Event>, plan: seq<Step>)
    requires Broken(seg, plan)
    ensures !Done(seg, plan)
  {
  }

  /** One part after the other, the second only if the first went through. */
  lemma Chain(seg: seq<Event>, p: seq<Step>, was: bool, part: seq<Event>, q: seq<Step>, ok: bool)
    requires Went(seg, p, was)
    requires if was then Went(part, q, ok) else part == [] && !ok
    ensures Went(seg + part, p + q, ok)
  {
    if was {
      PartTaken(seg, p, part, q);
    } else {
      assert seg + part == seg;
      CutShort(seg, p, q);
    }
  }

  /** Broken off at an artifact is broken off for good. */
  lemma {:induction false} BrokenOff(seg: seq<Event>, phase: Phase, artifacts: seq<Artifact>, n: nat)
    requires n <= |artifacts| && Broken(seg, Loop(phase, artifacts[..n]))
    ensures Broken(seg, Loop(phase, artifacts))
  {
    if n == |artifacts| {
      assert artifacts[..n] == artifacts;
    } else {
      var init := artifacts[..|artifacts| - 1];
      assert init[..n] == artifacts[..n];
      BrokenOff(seg, phase, init, n);
      CutShort(seg, Loop(phase, init), StepsOf(phase, artifacts[|artifacts| - 1]));
    }
  }
}
