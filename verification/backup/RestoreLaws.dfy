/** What the order of a restore guarantees, and what a backup and the restore of it make together. */
module RestoreLaws {
  import opened Sequences
  import opened Wrappers
  import opened World
  import opened BackupRuns
  import opened Quiesce
  import opened RestorePlan
  import opened RunRestore
  import RunBackup
  import QuiesceWindow

  // ---- nothing before the checks -------------------------------------------------------------------------

  predicate Mutating(e: Effect) {
    !(e.GetRun? || e.ListArtifacts? || e.Stat? || e.SchemaState? || e.SaveRestore? || e.ListReleases?
      || e.CheckReferences?)
  }

  ghost predicate Harmless(seg: seq<Event>) {
    forall k | 0 <= k < |seg| :: !Mutating(seg[k].effect)
  }

  lemma HarmlessJoin(a: seq<Event>, b: seq<Event>)
    requires Harmless(a) && Harmless(b)
    ensures Harmless(a + b)
  {
  }

  lemma ChecksChangeNothing(c: Course, job: RestoreJob)
    requires Checked(c, job)
    ensures Harmless(c.Checks())
  {
    HarmlessJoin(c.lookup, c.stats);
    HarmlessJoin(c.lookup + c.stats, c.schema);
    HarmlessJoin(c.lookup + c.stats + c.schema, c.drift);
  }

  /** No step changes anything before the prerequisites, all artifacts and the schema were found good. */
  lemma NothingBeforeCleared(c: Course, job: RestoreJob, outcome: Option<VaultOutcome>, ok: bool, i: nat)
    requires CourseOf(c, job, outcome, ok) && i < |c.All()| && Mutating(c.All()[i].effect)
    ensures |c.Checks()| <= i && Cleared(c, job)
  {
    ChecksChangeNothing(c, job);
  }

  // ---- the order of the stack's data ------------------------------------------------------------------------

  function Stage(e: Effect): nat {
    match e
    case EnsureNamespace => 0
    case ApplySecrets(_) => 1
    case EnsureControllers => 2
    case ApplyShared(_) => 3
    case EnsurePVC(_) => 4
    case RestoreVolume(_) => 5
    case ApplyResources(_) => 6
    case _ => 7
  }

  ghost predicate Between(plan: seq<Step>, lo: nat, hi: nat) {
    forall k | 0 <= k < |plan| :: lo <= Stage(plan[k].effect) <= hi && plan[k].fatal
  }

  ghost predicate Staged(plan: seq<Step>) {
    forall k, l | 0 <= k < l < |plan| :: Stage(plan[k].effect) <= Stage(plan[l].effect)
  }

  lemma StagedJoin(p: seq<Step>, q: seq<Step>, lo: nat, mid: nat, hi: nat)
    requires Staged(p) && Staged(q) && Between(p, lo, mid) && Between(q, mid, hi) && lo <= mid <= hi
    ensures Staged(p + q) && Between(p + q, lo, hi)
  {
  }

  lemma {:induction false} LoopStaged(phase: Phase, artifacts: seq<Artifact>, at: nat)
    requires (phase, at) in {(Secrets, 1), (Shared, 3), (Volumes, 5), (Resources, 6)}
    ensures Between(Loop(phase, artifacts), at, at)
  {
    if artifacts != [] {
      LoopStaged(phase, artifacts[..|artifacts| - 1], at);
      StepsStaged(phase, artifacts[|artifacts| - 1], at);
    }
  }

  lemma StepsStaged(phase: Phase, a: Artifact, at: nat)
    requires (phase, at) in {(Secrets, 1), (Shared, 3), (Volumes, 5), (Resources, 6)}
    ensures Between(StepsOf(phase, a), at, at)
  {
  }

  lemma SameStage(p: seq<Step>, at: nat)
    requires Between(p, at, at)
    ensures Staged(p)
  {
  }

  lemma SharedStaged(job: RestoreJob)
    ensures Staged(SharedPlan(job)) && Between(SharedPlan(job), 1, 3)
  {
    var controllers := When(job.controllers, EnsureControllers, true);
    LoopStaged(Secrets, job.artifacts, 1);
    LoopStaged(Shared, job.artifacts, 3);
    SameStage(Loop(Secrets, job.artifacts), 1);
    SameStage(Loop(Shared, job.artifacts), 3);
    StagedJoin(Loop(Secrets, job.artifacts), controllers, 1, 2, 2);
    StagedJoin(Loop(Secrets, job.artifacts) + controllers, Loop(Shared, job.artifacts), 1, 3, 3);
  }

  lemma DataStaged(job: RestoreJob)
    ensures Staged(DataPlan(job)) && Between(DataPlan(job), 4, 6)
  {
    LoopStaged(Volumes, job.artifacts, 5);
    LoopStaged(Resources, job.artifacts, 6);
    SameStage(Loop(Volumes, job.artifacts), 5);
    SameStage(Loop(Resources, job.artifacts), 6);
    StagedJoin(ClaimSteps(job.manifest.volumes), Loop(Volumes, job.artifacts), 4, 5, 5);
    StagedJoin(ClaimSteps(job.manifest.volumes) + Loop(Volumes, job.artifacts), Loop(Resources, job.artifacts), 4, 6,
               6);
  }

  /** Namespace, secrets, controllers, shared resources, claims, volumes, resources; each step must succeed. */
  lemma StackInOrder(job: RestoreJob)
    ensures Staged(StackPlan(job)) && Between(StackPlan(job), 0, 6)
  {
    SharedStaged(job);
    DataStaged(job);
    StagedJoin(SharedPlan(job), DataPlan(job), 1, 4, 6);
    StagedJoin(When(job.namespaces, EnsureNamespace, true), SharedPlan(job) + DataPlan(job), 0, 1, 6);
  }

  /** So the calls made are in that order. */
  lemma DataInOrder(c: Course, job: RestoreJob, outcome: Option<VaultOutcome>, ok: bool, i: nat, j: nat)
    requires CourseOf(c, job, outcome, ok) && i < j < |c.stack|
    ensures Stage(c.stack[i].effect) <= Stage(c.stack[j].effect) && c.stack[i].ok
  {
    StackInOrder(job);
  }

  // ---- what a plan contains ------------------------------------------------------------------------------------

  lemma {:induction false} LoopHas(phase: Phase, artifacts: seq<Artifact>, n: nat, step: Step)
    requires n < |artifacts| && step in StepsOf(phase, artifacts[n])
    ensures step in Loop(phase, artifacts)
  {
    if n < |artifacts| - 1 { LoopHas(phase, artifacts[..|artifacts| - 1], n, step); }
  }

  lemma {:induction false} LoopOnly(phase: Phase, artifacts: seq<Artifact>, step: Step)
    requires step in Loop(phase, artifacts)
    ensures exists a | a in artifacts :: step in StepsOf(phase, a)
  {
    var init, last := artifacts[..|artifacts| - 1], artifacts[|artifacts| - 1];
    if step in StepsOf(phase, last) {
      assert last in artifacts;
    } else {
      LoopOnly(phase, init, step);
      var a :| a in init && step in StepsOf(phase, a);
      assert a in artifacts;
    }
  }

  lemma DataHas(job: RestoreJob, n: nat)
    requires job.TouchesStack() && n < |job.artifacts|
    ensures var a := job.artifacts[n];
            && (a.component == Volume ==> Step(RestoreVolume(a), true) in StackPlan(job))
            && (a.component == NamespaceResources ==> Step(ApplyResources(a), true) in StackPlan(job))
            && (a.component == SharedResources ==> Step(ApplyShared(a), true) in StackPlan(job))
  {
    var a := job.artifacts[n];
    if a.component == Volume { LoopHas(Volumes, job.artifacts, n, Step(RestoreVolume(a), true)); }
    if a.component == NamespaceResources { LoopHas(Resources, job.artifacts, n, Step(ApplyResources(a), true)); }
    if a.component == SharedResources { LoopHas(Shared, job.artifacts, n, Step(ApplyShared(a), true)); }
  }

  lemma ClaimsHave(job: RestoreJob, n: nat)
    requires job.TouchesStack() && n < |job.manifest.volumes|
    ensures Step(EnsurePVC(job.manifest.volumes[n]), true) in StackPlan(job)
  {
    assert ClaimSteps(job.manifest.volumes)[n] == Step(EnsurePVC(job.manifest.volumes[n]), true);
  }

  // ---- resuming last -------------------------------------------------------------------------------------------

  lemma {:induction false} PlatformNeverScales(connections: bool, vault: bool, artifacts: seq<Artifact>, step: Step)
    requires step in Loop(Platform(connections, vault), artifacts)
    ensures !step.effect.Scale? && (step.effect.ImportVault? ==> vault)
  {
    LoopOnly(Platform(connections, vault), artifacts, step);
  }

  lemma PartsInAll(c: Course)
    ensures |c.All()| == |c.Checks()| + |c.stack| + |c.platform| + |c.Rest()|
    ensures forall k | 0 <= k < |c.stack| :: c.All()[|c.Checks()| + k] == c.stack[k]
    ensures forall k | 0 <= k < |c.platform| :: c.All()[|c.Checks()| + |c.stack| + k] == c.platform[k]
    ensures forall k | 0 <= k < |c.resumes| :: c.All()[|c.Checks()| + |c.Restores()| + k] == c.resumes[k]
  {
  }

  lemma InStage(plan: seq<Step>, lo: nat, hi: nat, step: Step)
    requires Between(plan, lo, hi) && step in plan
    ensures lo <= Stage(step.effect) <= hi
  {
  }

  /** Restoring, not yet scaling up or filling the vault of a stack that defers it. */
  predicate Restoring(e: Event, deferred: bool) {
    !e.effect.Scale? && (e.effect.ImportVault? ==> !deferred)
  }

  ghost predicate OnlyRestoring(seg: seq<Event>, deferred: bool) {
    forall k | 0 <= k < |seg| :: Restoring(seg[k], deferred)
  }

  lemma StagesRestore(seg: seq<Event>, plan: seq<Step>, deferred: bool)
    requires Follows(seg, plan) && Between(plan, 0, 6)
    ensures OnlyRestoring(seg, deferred)
  {
    forall k | 0 <= k < |seg| ensures Restoring(seg[k], deferred) { assert Stage(plan[k].effect) <= 6; }
  }

  lemma PlatformRestores(seg: seq<Event>, connections: bool, deferred: bool, artifacts: seq<Artifact>)
    requires Follows(seg, Loop(Platform(connections, !deferred), artifacts))
    ensures OnlyRestoring(seg, deferred)
  {
    forall k | 0 <= k < |seg| ensures Restoring(seg[k], deferred) {
      PlatformNeverScales(connections, !deferred, artifacts, Loop(Platform(connections, !deferred), artifacts)[k]);
    }
  }

  lemma RestoresOnly(c: Course, job: RestoreJob)
    requires Follows(c.stack, StackPlan(job)) && Follows(c.platform, PlatformPlan(job))
    ensures OnlyRestoring(c.stack, job.DefersVault()) && OnlyRestoring(c.platform, job.DefersVault())
  {
    StackInOrder(job);
    StagesRestore(c.stack, StackPlan(job), job.DefersVault());
    if job.TouchesPlatform() { PlatformRestores(c.platform, job.connections, job.DefersVault(), job.artifacts); }
  }

  lemma RestoreAt(c: Course, i: nat, deferred: bool)
    requires OnlyRestoring(c.stack, deferred) && OnlyRestoring(c.platform, deferred)
    requires |c.Checks()| <= i < |c.Checks()| + |c.Restores()|
    ensures i < |c.All()| && Restoring(c.All()[i], deferred)
  {
    var k := i - |c.Checks()|;
    assert c.All()[i] == if k < |c.stack| then c.stack[k] else c.platform[k - |c.stack|];
  }

  ghost predicate OnlyScales(seg: seq<Event>) {
    forall k | 0 <= k < |seg| :: seg[k].effect.Scale?
  }

  lemma {:induction false} ResumesScale(workloads: seq<WorkloadSpec>, k: nat)
    requires k < |ResumeSteps(workloads)|
    ensures ResumeSteps(workloads)[k].effect.Scale?
  {
    if workloads != [] && k < |ResumeSteps(workloads[1..])| { ResumesScale(workloads[1..], k); }
  }

  lemma ResumesOnlyScale(seg: seq<Event>, workloads: seq<WorkloadSpec>)
    requires Done(seg, ResumeSteps(workloads))
    ensures OnlyScales(seg)
  {
    forall k | 0 <= k < |seg| ensures seg[k].effect.Scale? { ResumesScale(workloads, k); }
  }

  lemma ResumeAt(c: Course, i: nat)
    requires OnlyScales(c.resumes)
    requires |c.Checks()| + |c.Restores()| <= i < |c.Checks()| + |c.Restores()| + |c.resumes|
    ensures i < |c.All()| && c.All()[i].effect.Scale?
  {
    assert c.All()[i] == c.resumes[i - |c.Checks()| - |c.Restores()|];
  }

  /** Workloads are scaled up, and the vault of a stack is filled, only after all the restoring went through. */
  lemma ResumesLast(c: Course, job: RestoreJob, outcome: Option<VaultOutcome>, ok: bool, i: nat)
    requires CourseOf(c, job, outcome, ok) && i < |c.All()|
    requires var e := c.All()[i].effect; e.Scale? || (e.ImportVault? && job.DefersVault())
    ensures |c.Checks()| + |c.Restores()| <= i
    ensures ok && Cleared(c, job) && StackDone(c.stack, job) && Done(c.platform, PlatformPlan(job))
  {
    NothingBeforeCleared(c, job, outcome, ok, i);
    if i < |c.Checks()| + |c.Restores()| {
      RestoresOnly(c, job);
      RestoreAt(c, i, job.DefersVault());
    }
  }

  /** The vault of a stack is filled only after every workload was told to come up. */
  lemma VaultAfterResumes(c: Course, job: RestoreJob, outcome: Option<VaultOutcome>, ok: bool, i: nat)
    requires CourseOf(c, job, outcome, ok) && i < |c.All()| && c.All()[i].effect.ImportVault? && job.DefersVault()
    ensures |c.Checks()| + |c.Restores()| + |c.resumes| <= i && Done(c.resumes, ResumePlan(job))
  {
    ResumesLast(c, job, outcome, ok, i);
    ResumesOnlyScale(c.resumes, job.manifest.workloads);
    if i < |c.Checks()| + |c.Restores()| + |c.resumes| { ResumeAt(c, i); }
  }

  lemma DoneHas(seg: seq<Event>, plan: seq<Step>, step: Step) returns (k: nat)
    requires Done(seg, plan) && step in plan && step.fatal
    ensures k < |seg| && seg[k].effect == step.effect && seg[k].ok
  {
    k :| 0 <= k < |plan| && plan[k] == step;
  }

  /** Before any workload comes up, every claim exists, every volume and resource artifact is back, and, where the
      mode touches the platform, so is its database. */
  lemma ScaledUpOnlyWhole(c: Course, job: RestoreJob, outcome: Option<VaultOutcome>, ok: bool, i: nat, step: Step)
    requires CourseOf(c, job, outcome, ok) && i < |c.All()| && c.All()[i].effect.Scale?
    requires step.fatal && (step in StackPlan(job) || step in PlatformPlan(job))
    ensures exists j :: 0 <= j < i && c.All()[j].effect == step.effect && c.All()[j].ok
  {
    ResumesLast(c, job, outcome, ok, i);
    PartsInAll(c);
    if step in StackPlan(job) {
      var k := DoneHas(c.stack, StackPlan(job), step);
      assert c.All()[|c.Checks()| + k] == c.stack[k];
    } else {
      var k := DoneHas(c.platform, PlatformPlan(job), step);
      assert c.All()[|c.Checks()| + |c.stack| + k] == c.platform[k];
    }
  }

  lemma DatabaseInPlan(job: RestoreJob, n: nat)
    requires job.TouchesPlatform() && n < |job.artifacts| && job.artifacts[n].component == PlatformDB
    ensures Step(RestoreDB(job.artifacts[n]), true) in PlatformPlan(job)
  {
    LoopHas(Platform(job.connections, !job.DefersVault()), job.artifacts, n, Step(RestoreDB(job.artifacts[n]), true));
  }

  // ---- backup and restore together -----------------------------------------------------------------------------

  function NotOwned(targets: seq<QuiesceTarget>): seq<QuiesceTarget> {
    if targets == [] then []
    else NotOwned(targets[..|targets| - 1]) + var t := targets[|targets| - 1]; if t.ownerManaged then [] else [t]
  }

  function Scales(targets: seq<QuiesceTarget>): seq<Step> {
    seq(|targets|, i requires 0 <= i < |targets| => Step(Scale(targets[i].id, targets[i].originalReplicas), false))
  }

  /** Through the manifest and back, a restore scales up what the backup would have resumed, in the same order and to
      the same replicas, but for what an operator recreates. */
  lemma {:induction false} ResumesRoundTrip(plan: seq<QuiesceTarget>)
    ensures ResumeSteps(SpecsOf(plan)) == Scales(NotOwned(Reversed(plan)))
  {
    if plan != [] {
      var t, rest := plan[0], plan[1..];
      assert SpecsOf(plan)[1..] == SpecsOf(rest);
      ResumesRoundTrip(rest);
      assert Reversed(plan)[..|plan| - 1] == Reversed(rest);
      assert Reversed(plan)[|plan| - 1] == t;
      assert Scales(NotOwned(Reversed(rest)) + [t]) == Scales(NotOwned(Reversed(rest))) + Scales([t]);
    }
  }

  /** The data of every volume in the manifest comes back. */
  ghost predicate AllDataPlanned(job: RestoreJob) {
    forall v | v in job.manifest.volumes :: DataPlanned(job, v)
  }

  ghost predicate DataPlanned(job: RestoreJob, v: VolumeSpec) {
    exists a: Artifact :: a.resourceName == v.name && Step(RestoreVolume(a), true) in StackPlan(job)
  }

  predicate HasArchive(job: RestoreJob, v: VolumeSpec) {
    exists a | a in job.artifacts :: a.component == Volume && a.resourceName == v.name
  }

  /** A volume's data is restored exactly when the backup holds an archive of it; nothing in a restore asks for one. */
  lemma DataPlannedIffArchived(job: RestoreJob, v: VolumeSpec)
    requires job.TouchesStack()
    ensures DataPlanned(job, v) <==> HasArchive(job, v)
  {
    if HasArchive(job, v) {
      var n :| 0 <= n < |job.artifacts| && job.artifacts[n].component == Volume
        && job.artifacts[n].resourceName == v.name;
      DataHas(job, n);
    }
    if DataPlanned(job, v) {
      var a: Artifact :| a.resourceName == v.name && Step(RestoreVolume(a), true) in StackPlan(job);
      ArchiveBehind(job, a);
    }
  }

  lemma ArchiveBehind(job: RestoreJob, a: Artifact)
    requires Step(RestoreVolume(a), true) in StackPlan(job)
    ensures a in job.artifacts && a.component == Volume
  {
    hide SharedPlan, DataPlan;
    var step := Step(RestoreVolume(a), true);
    InJoin(step, When(job.namespaces, EnsureNamespace, true), SharedPlan(job) + DataPlan(job));
    InJoin(step, SharedPlan(job), DataPlan(job));
    if step in SharedPlan(job) {
      SharedStaged(job);
      InStage(SharedPlan(job), 1, 3, step);
    } else {
      InVolumes(job, step);
      LoopOnly(Volumes, job.artifacts, step);
    }
  }

  lemma InJoin(step: Step, p: seq<Step>, q: seq<Step>)
    requires step in p + q
    ensures step in p || step in q
  {
  }

  lemma InVolumes(job: RestoreJob, step: Step)
    requires step.effect.RestoreVolume? && step in DataPlan(job)
    ensures step in Loop(Volumes, job.artifacts)
  {
    var claims, volumes, resources := ClaimSteps(job.manifest.volumes), Loop(Volumes, job.artifacts),
      Loop(Resources, job.artifacts);
    InJoin(step, claims + volumes, resources);
    if step in resources {
      LoopStaged(Resources, job.artifacts, 6);
      InStage(resources, 6, 6, step);
    } else {
      InJoin(step, claims, volumes);
    }
  }

  /** The data of a volume comes from an archive with the checksum recorded on the volume. */
  ghost predicate SoundArchive(job: RestoreJob, v: VolumeSpec) {
    exists a | a in job.artifacts ::
      a.component == Volume && a.resourceName == v.name && a.checksum == v.checksum
      && Step(RestoreVolume(a), true) in StackPlan(job)
  }

  lemma SoundlyPlanned(job: RestoreJob, v: VolumeSpec)
    requires job.TouchesStack() && QuiesceWindow.Recorded(v, job.artifacts)
    ensures SoundArchive(job, v)
  {
    var a :| a in job.artifacts && a.component == Volume && a.resourceName == v.name && a.checksum == v.checksum;
    var n :| 0 <= n < |job.artifacts| && job.artifacts[n] == a;
    DataHas(job, n);
  }

  /** A backup with a verdict of success, restored: every volume that was listed gets its claim and an archive that was
      stored under its name with the checksum recorded on it. */
  lemma SucceededBackupRestores(backup: RunBackup.Job, x: RunBackup.Execution, job: RestoreJob)
    requires RunBackup.Complete(backup, x) && Verdict(x.results, Succeeded) && Volume in backup.scope
    requires job.TouchesStack() && job.artifacts == x.artifacts && job.manifest.volumes == x.volumes
    ensures |x.volumes| == |backup.pvcs| && AllDataPlanned(job)
    ensures forall i | 0 <= i < |backup.pvcs| ::
              x.volumes[i].name == backup.pvcs[i].name
              && Step(EnsurePVC(x.volumes[i]), true) in StackPlan(job) && SoundArchive(job, x.volumes[i])
  {
    RunBackup.SucceededIsWhole(backup, x, Succeeded);
    forall v | v in x.volumes ensures DataPlanned(job, v) {
      var i :| 0 <= i < |x.volumes| && x.volumes[i] == v;
      assert QuiesceWindow.Recorded(x.volumes[i], x.artifacts);
      DataPlannedIffArchived(job, v);
    }
    forall i | 0 <= i < |backup.pvcs|
      ensures Step(EnsurePVC(x.volumes[i]), true) in StackPlan(job) && SoundArchive(job, x.volumes[i])
    {
      ClaimsHave(job, i);
      SoundlyPlanned(job, x.volumes[i]);
    }
  }

  function Fine(e: Effect): Event {
    Event(e, true, false, "", false, false, [])
  }

  const LOST := VolumeSpec("data", 1, "")
  const DATABASE := WorkloadId("StatefulSet", "ns", "db")

  /** A backup that lost the archive of its one volume. */
  function PartialJob(): RestoreJob {
    RestoreJob(StackOnly, "ns", Prerequisites(true, true, true, true), Partial, "", 1,
               Manifest("ns", [WorkloadSpec(DATABASE, 1, false)], [LOST], []), [], RestorePlan.SchemaState(1, false),
               false, false, false, false, false, false, false, 0, 0)
  }

  function PartialCourse(): Course {
    Course([Fine(GetRun), Fine(ListArtifacts)], [], [Fine(Effect.SchemaState), Fine(SaveRestore)], [],
           [Fine(EnsurePVC(LOST))], [], [Fine(Scale(DATABASE, 1))], [], [])
  }

  lemma PartialCleared()
    ensures Checked(PartialCourse(), PartialJob()) && Cleared(PartialCourse(), PartialJob())
  {
  }

  lemma PartialRestored()
    ensures StackDone(PartialCourse().stack, PartialJob()) && Done(PartialCourse().platform, PlatformPlan(PartialJob()))
    ensures Resumed(PartialCourse(), PartialJob(), None)
  {
    assert StackPlan(PartialJob()) == [Step(EnsurePVC(LOST), true)];
    assert ResumeSteps(PartialJob().manifest.workloads[1..]) == [];
  }

  /** A partial backup restores too: here a volume whose archive failed gets an empty claim, and its workload is
      scaled up on it; the restore counts as succeeded. */
  lemma PartialBackupResumesWithoutData()
    ensures PartialJob().status == Partial && CourseOf(PartialCourse(), PartialJob(), None, true)
    ensures LOST in PartialJob().manifest.volumes && !DataPlanned(PartialJob(), LOST)
            && Fine(Scale(DATABASE, 1)) in PartialCourse().resumes
  {
    PartialCleared();
    PartialRestored();
    DataPlannedIffArchived(PartialJob(), LOST);
  }

  /** Once every resume succeeded, whatever the cluster was, the targets run as they did before the backup; but for
      those an operator recreates. */
  lemma {:induction false} RestoredReplicas(d: Cluster, plan: seq<QuiesceTarget>, seg: seq<Event>)
    requires Done(seg, ResumeSteps(SpecsOf(plan))) && AllOk(seg)
    requires forall i, j | 0 <= i < j < |plan| :: plan[i].id != plan[j].id
    ensures forall i | 0 <= i < |plan| && !plan[i].ownerManaged ::
              plan[i].id in Replay(d, seg)
              && Replay(d, seg)[plan[i].id] == plan[i].originalReplicas
  {
    if plan != [] {
      var rest := plan[1..];
      assert SpecsOf(plan)[1..] == SpecsOf(rest);
      if plan[0].ownerManaged {
        RestoredReplicas(d, rest, seg);
      } else {
        var init, last := seg[..|seg| - 1], seg[|seg| - 1];
        RestoredReplicas(d, rest, init);
        ReplayLast(d, seg);
        assert last.effect == Scale(plan[0].id, plan[0].originalReplicas);
      }
      forall i | 0 <= i < |plan| && !plan[i].ownerManaged
        ensures plan[i].id in Replay(d, seg) && Replay(d, seg)[plan[i].id] == plan[i].originalReplicas
      {
        if i > 0 { assert plan[i] == rest[i - 1]; }
      }
    }
  }

  // ---- the end of the request ------------------------------------------------------------------------------------

  /** Once the request is over, nothing takes effect any more. */
  lemma OverIsOver(seg: seq<Event>, over: bool, i: nat, j: nat)
    requires UnderRequest(seg, over) && i <= j < |seg| && seg[i].gone
    ensures seg[j].gone && !seg[j].ok && !seg[j].lost
  {
    assert seg[j].gone;
  }

  /** As long as it is not, nothing fails that does not fail of itself. */
  lemma AliveWorks(seg: seq<Event>, over: bool, i: nat)
    requires UnderRequest(seg, over) && i < |seg| && NeverFails(seg[0].ahead) && !seg[i].gone
    ensures seg[i].ok
  {
    assert NeverFails(seg[0].ahead) && !seg[i].gone;
  }

  lemma InWhole(record: Event, c: Course, closed: seq<Event>, e: Event) returns (i: nat)
    requires e in c.All()
    ensures i < |Whole(record, c, closed)| - |closed| && Whole(record, c, closed)[i] == e
  {
    var k :| 0 <= k < |c.All()| && c.All()[k] == e;
    i := k + 1;
  }

  lemma RestIn(c: Course, i: nat)
    requires i < |c.Rest()|
    ensures |c.Checks()| + |c.Restores()| + i < |c.All()| && c.All()[|c.Checks()| + |c.Restores()| + i] == c.Rest()[i]
  {
  }

  /** Where the resumes and what follows stand in the whole. */
  lemma RestInWhole(record: Event, c: Course, closed: seq<Event>) returns (n: nat)
    requires |closed| == 1
    ensures var all, rest := Whole(record, c, closed), c.Rest();
            && n + |rest| < |all| && all[|all| - 1] == closed[0]
            && (c.resumes != [] ==> rest != [] && rest[0] == c.resumes[0])
            && forall i {:trigger rest[i]} | 0 <= i < |rest| :: all[n + i] == rest[i]
  {
    n := 1 + |c.Checks()| + |c.Restores()|;
    forall i | 0 <= i < |c.Rest()| ensures Whole(record, c, closed)[n + i] == c.Rest()[i] { RestIn(c, i); }
  }

  lemma {:induction false} WithoutEffect(d: Cluster, seg: seq<Event>)
    requires forall i | 0 <= i < |seg| :: !seg[i].ok && !seg[i].lost
    ensures Replay(d, seg) == d
  {
    if seg != [] {
      WithoutEffect(d, seg[..|seg| - 1]);
      ReplayLast(d, seg);
    }
  }

  /** From the first call made too late, all to the end came to nothing. */
  lemma NothingLater(all: seq<Event>, over: bool, n: nat, rest: seq<Event>)
    requires UnderRequest(all, over) && n + |rest| < |all| && rest != [] && rest[0].gone
    requires forall i {:trigger rest[i]} | 0 <= i < |rest| :: all[n + i] == rest[i]
    ensures forall i | 0 <= i < |rest| :: !rest[i].ok && !rest[i].lost
    ensures !all[|all| - 1].ok && !all[|all| - 1].lost
  {
    assert all[n + 0] == rest[0];
    hide UnderRequest;
    forall i | 0 <= i < |rest| ensures !rest[i].ok && !rest[i].lost { OverIsOver(all, over, n, n + i); }
    OverIsOver(all, over, n, |all| - 1);
  }

  /** Cancelled before its first resume, a restore that counts as succeeded leaves every workload as it is, imports and
      repairs nothing, and its verdict is not stored. */
  lemma CancelledStaysDown(record: Event, c: Course, closed: seq<Event>, job: RestoreJob, outcome: Option<VaultOutcome>,
                           over: bool, d: Cluster)
    requires RestoreOf(record, c, closed, job, outcome, true, over) && c.resumes != [] && c.resumes[0].gone
    ensures (forall i | 0 <= i < |c.Rest()| :: !c.Rest()[i].ok && !c.Rest()[i].lost) && Replay(d, c.Rest()) == d
    ensures !closed[0].ok && !closed[0].lost
  {
    var n := RestInWhole(record, c, closed);
    hide CourseOf, UnderRequest, Whole, Replay;
    var all, rest := Whole(record, c, closed), c.Rest();
    NothingLater(all, over, n, rest);
    WithoutEffect(d, rest);
  }

  lemma AllAlive(record: Event, c: Course, closed: seq<Event>, over: bool)
    requires |closed| == 1 && UnderRequest(Whole(record, c, closed), over)
    requires NeverFails(record.ahead) && !closed[0].gone
    ensures closed[0].ok && forall e | e in c.All() :: e.ok
  {
    var all := Whole(record, c, closed);
    assert all[0] == record && all[|all| - 1] == closed[0];
    AliveWorks(all, over, |all| - 1);
    forall e | e in c.All() ensures e.ok {
      var i := InWhole(record, c, closed, e);
      assert all[|all| - 1].gone == closed[0].gone;
      AliveWorks(all, over, i);
    }
  }

  /** When no call fails of itself, a restore that counts as succeeded has brought its workloads up and stored its
      verdict exactly if the request lasted until then. */
  lemma SucceededLandsIff(record: Event, c: Course, closed: seq<Event>, job: RestoreJob, outcome: Option<VaultOutcome>,
                          over: bool)
    requires RestoreOf(record, c, closed, job, outcome, true, over) && NeverFails(record.ahead)
    ensures AllOk(c.resumes) && closed[0].ok <==> !closed[0].gone
  {
    var all := Whole(record, c, closed);
    assert all[|all| - 1] == closed[0];
    hide CourseOf, UnderRequest;
    if closed[0].gone {
      OverIsOver(all, over, |all| - 1, |all| - 1);
    } else {
      AllAlive(record, c, closed, over);
      ResumesIn(c);
    }
  }

  lemma ResumesIn(c: Course)
    requires forall e | e in c.All() :: e.ok
    ensures AllOk(c.resumes)
  {
    forall i | 0 <= i < |c.resumes| ensures c.resumes[i].ok {
      RestIn(c, i);
      assert c.resumes[i] == c.Rest()[i] && c.Rest()[i] in c.All();
    }
  }

  lemma UnbrokenGoesThrough(c: Course, job: RestoreJob, outcome: Option<VaultOutcome>, ok: bool)
    requires CourseOf(c, job, outcome, ok) && Cleared(c, job) && !(job.TouchesStack() && Unwired(job))
    requires AllOk(c.stack) && AllOk(c.platform)
    ensures ok
  {
  }

  /** When no call fails of itself and the request lasts, a restore succeeds exactly if its checks came out good and
      there is something wired to restore the shared resources with; then everything it did succeeded. */
  lemma UnfailingRestores(record: Event, c: Course, closed: seq<Event>, job: RestoreJob, outcome: Option<VaultOutcome>,
                          ok: bool, over: bool)
    requires RestoreOf(record, c, closed, job, outcome, ok, over) && NeverFails(record.ahead) && !closed[0].gone
    ensures ok <==>
            && Cleared(c, job)
            && (job.mode == PlatformOnly || job.shared
                || forall a | a in job.artifacts :: a.component != SharedResources)
    ensures closed[0].ok && AllOk(c.All())
  {
    AllAlive(record, c, closed, over);
    assert forall i | 0 <= i < |c.All()| :: c.All()[i] in c.All();
    if Cleared(c, job) && !(job.TouchesStack() && Unwired(job)) {
      PartsInAll(c);
      forall i | 0 <= i < |c.stack| ensures c.stack[i].ok { assert c.stack[i] in c.All(); }
      forall i | 0 <= i < |c.platform| ensures c.platform[i].ok { assert c.platform[i] in c.All(); }
      UnbrokenGoesThrough(c, job, outcome, ok);
    }
  }

  /** A call that comes to nothing because the request is over. */
  function Dead(e: Effect): Event {
    Event(e, false, false, "", false, true, [])
  }

  function CancelledJob(): RestoreJob {
    PartialJob().(status := Succeeded, manifest := Manifest("ns", [WorkloadSpec(DATABASE, 1, false)], [], []))
  }

  function CancelledCourse(): Course {
    PartialCourse().(stack := [], resumes := [Dead(Scale(DATABASE, 1))])
  }

  lemma AliveThenDead(alive: seq<Event>, dead: seq<Event>)
    requires forall e | e in alive :: e == Fine(e.effect)
    requires forall e | e in dead :: e == Dead(e.effect)
    ensures UnderRequest(alive + dead, true)
  {
    var all := alive + dead;
    assert forall i | 0 <= i < |all| :: all[i] == if i < |alive| then Fine(all[i].effect) else Dead(all[i].effect);
  }

  lemma CancelledCleared()
    ensures Checked(CancelledCourse(), CancelledJob()) && Cleared(CancelledCourse(), CancelledJob())
  {
  }

  lemma CancelledRestored()
    ensures StackPlan(CancelledJob()) == [] && StackDone(CancelledCourse().stack, CancelledJob())
    ensures Done(CancelledCourse().platform, PlatformPlan(CancelledJob()))
    ensures Resumed(CancelledCourse(), CancelledJob(), None)
  {
    assert ResumeSteps(CancelledJob().manifest.workloads[1..]) == [];
  }

  lemma CancelledGoesOn()
    ensures CourseOf(CancelledCourse(), CancelledJob(), None, true)
  {
    CancelledCleared();
    CancelledRestored();
    hide Cleared, Checked, Resumed;
  }

  /** Such a restore: it is cancelled after its last check, counts as succeeded, and its workload stays down. */
  lemma CancelledCountsAsSucceeded()
    ensures RestoreOf(Fine(CreateRestore), CancelledCourse(), [Dead(SaveRestore)], CancelledJob(), None, true, true)
    ensures CancelledCourse().resumes == [Dead(Scale(DATABASE, 1))]
  {
    CancelledGoesOn();
    hide CourseOf;
    var all := Whole(Fine(CreateRestore), CancelledCourse(), [Dead(SaveRestore)]);
    var alive := [Fine(CreateRestore), Fine(GetRun), Fine(ListArtifacts), Fine(Effect.SchemaState), Fine(SaveRestore)];
    var dead := [Dead(Scale(DATABASE, 1)), Dead(SaveRestore)];
    assert all == alive + dead;
    AliveThenDead(alive, dead);
  }
}
