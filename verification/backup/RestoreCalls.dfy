/** What a restore that counts as succeeded has done, call by call, and how that answers to what a backup of the same
    mode stores. */
module RestoreCalls {
  import opened GoStrings
  import opened Wrappers
  import opened World
  import opened BackupRuns
  import opened Quiesce
  import opened RestorePlan
  import opened RunRestore
  import RestoreLaws
  import RunBackup
  import QuiesceWindow

  ghost predicate Made(seg: seq<Event>, e: Effect) {
    exists k :: 0 <= k < |seg| && seg[k].effect == e
  }

  ghost predicate InPlan(plan: seq<Step>, e: Effect) {
    exists k :: 0 <= k < |plan| && plan[k].effect == e
  }

  /** The calls whose failure ends a restore. */
  predicate Vital(e: Effect) {
    match e
    case GetRun => true
    case ListArtifacts => true
    case Stat(_) => true
    case SchemaState => true
    case EnsureNamespace => true
    case ApplySecrets(_) => true
    case EnsureControllers => true
    case ApplyShared(_) => true
    case EnsurePVC(_) => true
    case RestoreVolume(_) => true
    case ApplyResources(_) => true
    case RestoreDB(a) => a.component == PlatformDB
    case _ => false
  }

  ghost predicate VitalFatal(plan: seq<Step>) {
    forall k | 0 <= k < |plan| :: plan[k].fatal <==> Vital(plan[k].effect)
  }

  ghost predicate VitalWorked(seg: seq<Event>) {
    forall k | 0 <= k < |seg| && Vital(seg[k].effect) :: seg[k].ok
  }

  /** Whether a restore makes this call, said of its request alone. */
  ghost predicate Called(job: RestoreJob, e: Effect) {
    match e
    case GetRun => true
    case ListArtifacts => true
    case Stat(a) => a in job.artifacts
    case SchemaState => true
    case SaveRestore => true
    case ListReleases => job.releases && !Blank(job.namespace)
    case EnsureNamespace => job.mode != PlatformOnly && job.namespaces
    case ApplySecrets(a) => job.mode != PlatformOnly && Holds(job, a, SharedResources)
    case EnsureControllers => job.mode != PlatformOnly && job.controllers
    case ApplyShared(a) => job.mode != PlatformOnly && Holds(job, a, SharedResources)
    case EnsurePVC(v) => job.mode != PlatformOnly && v in job.manifest.volumes
    case RestoreVolume(a) => job.mode != PlatformOnly && Holds(job, a, Volume)
    case ApplyResources(a) => job.mode != PlatformOnly && Holds(job, a, NamespaceResources)
    case RestoreDB(a) =>
      job.mode != StackOnly && (Holds(job, a, PlatformDB) || Holds(job, a, KeycloakDB))
    case ResetConnections => job.mode != StackOnly && job.connections && StoresDatabase(job.artifacts)
    case ImportVault(a) => CallsVault(job) && Holds(job, a, OpenBaoKV)
    case Scale(id, replicas) => job.mode != PlatformOnly && ScalesUp(job.manifest.workloads, id, replicas)
    case CheckReferences => job.tokens
    case RepinGateway => job.gateway && job.mode != PlatformOnly && !Blank(job.stackId)
    case _ => false
  }

  /** With the platform, or, of a stack, once its workloads run again. */
  predicate CallsVault(job: RestoreJob) {
    job.mode != StackOnly || !Blank(job.stackId)
  }

  ghost predicate StoresDatabase(artifacts: seq<Artifact>) {
    exists a | a in artifacts :: a.component == PlatformDB
  }

  ghost predicate ScalesUp(workloads: seq<WorkloadSpec>, id: WorkloadId, replicas: int) {
    exists w | w in workloads :: !w.ownerManaged && w.id == id && w.originalReplicas == replicas
  }

  // ---- plans and what was done of them -------------------------------------------------------------------------

  lemma MadeJoin(a: seq<Event>, b: seq<Event>, e: Effect)
    ensures Made(a + b, e) <==> Made(a, e) || Made(b, e)
  {
    var all := a + b;
    if k :| 0 <= k < |a| && a[k].effect == e { assert all[k].effect == e; }
    if k :| 0 <= k < |b| && b[k].effect == e { assert all[|a| + k].effect == e; }
    if k :| 0 <= k < |all| && all[k].effect == e { assert if k < |a| then a[k] == all[k] else b[k - |a|] == all[k]; }
  }

  lemma InPlanJoin(p: seq<Step>, q: seq<Step>, e: Effect)
    ensures InPlan(p + q, e) <==> InPlan(p, e) || InPlan(q, e)
    ensures VitalFatal(p) && VitalFatal(q) ==> VitalFatal(p + q)
  {
    var all := p + q;
    if k :| 0 <= k < |p| && p[k].effect == e { assert all[k].effect == e; }
    if k :| 0 <= k < |q| && q[k].effect == e { assert all[|p| + k].effect == e; }
    if k :| 0 <= k < |all| && all[k].effect == e { assert if k < |p| then p[k] == all[k] else q[k - |p|] == all[k]; }
  }

  lemma DoneMade(seg: seq<Event>, plan: seq<Step>, e: Effect)
    requires Done(seg, plan)
    ensures Made(seg, e) <==> InPlan(plan, e)
    ensures VitalFatal(plan) ==> VitalWorked(seg)
  {
    if k :| 0 <= k < |plan| && plan[k].effect == e { assert seg[k].effect == e; }
    if k :| 0 <= k < |seg| && seg[k].effect == e { assert plan[k].effect == e; }
  }

  lemma InWhen(wired: bool, made: Effect, fatal: bool, e: Effect)
    ensures InPlan(When(wired, made, fatal), e) <==> wired && e == made
    ensures (fatal <==> Vital(made)) ==> VitalFatal(When(wired, made, fatal))
  {
    if wired { assert When(wired, made, fatal)[0].effect == made; }
  }

  /** What one artifact is to a loop over the artifacts. */
  predicate CallsFor(phase: Phase, a: Artifact, e: Effect) {
    match phase
    case Secrets => a.component == SharedResources && e == ApplySecrets(a)
    case Shared => a.component == SharedResources && e == ApplyShared(a)
    case Volumes => a.component == Volume && e == RestoreVolume(a)
    case Resources => a.component == NamespaceResources && e == ApplyResources(a)
    case Platform(connections, vault) =>
      || (a.component == PlatformDB && (e == RestoreDB(a) || (e == ResetConnections && connections)))
      || (a.component == KeycloakDB && e == RestoreDB(a))
      || (a.component == OpenBaoKV && vault && e == ImportVault(a))
  }

  lemma InSteps(phase: Phase, a: Artifact, e: Effect)
    ensures InPlan(StepsOf(phase, a), e) <==> CallsFor(phase, a, e)
    ensures VitalFatal(StepsOf(phase, a))
  {
    StepsVital(phase, a);
    hide Vital, VitalFatal;
    var plan := StepsOf(phase, a);
    if CallsFor(phase, a, e) { assert plan[if e == ResetConnections then 1 else 0].effect == e; }
  }

  lemma StepsVital(phase: Phase, a: Artifact)
    ensures VitalFatal(StepsOf(phase, a))
  {
  }

  lemma {:induction false} InLoop(phase: Phase, artifacts: seq<Artifact>, e: Effect)
    ensures InPlan(Loop(phase, artifacts), e) <==> exists a :: a in artifacts && CallsFor(phase, a, e)
    ensures VitalFatal(Loop(phase, artifacts))
  {
    if artifacts != [] {
      var init, last := artifacts[..|artifacts| - 1], artifacts[|artifacts| - 1];
      assert artifacts == init + [last];
      InLoop(phase, init, e);
      InSteps(phase, last, e);
      hide InPlan, VitalFatal, CallsFor, StepsOf;
      InPlanJoin(Loop(phase, init), StepsOf(phase, last), e);
      assert forall a :: a in artifacts <==> a in init || a == last;
    }
  }

  lemma InClaims(volumes: seq<VolumeSpec>, e: Effect)
    ensures InPlan(ClaimSteps(volumes), e) <==> e.EnsurePVC? && e.volume in volumes
    ensures VitalFatal(ClaimSteps(volumes))
  {
    if e.EnsurePVC? && e.volume in volumes {
      var k :| 0 <= k < |volumes| && volumes[k] == e.volume;
      assert ClaimSteps(volumes)[k].effect == e;
    }
  }

  lemma {:induction false} InResumes(workloads: seq<WorkloadSpec>, e: Effect)
    ensures InPlan(ResumeSteps(workloads), e) <==> e.Scale? && ScalesUp(workloads, e.id, e.replicas)
    ensures VitalFatal(ResumeSteps(workloads))
  {
    if workloads != [] {
      var w, rest := workloads[0], workloads[1..];
      var own := if w.ownerManaged then [] else [Step(Scale(w.id, w.originalReplicas), false)];
      assert workloads == [w] + rest;
      InResumes(rest, e);
      InPlanJoin(ResumeSteps(rest), own, e);
      InWhen(!w.ownerManaged, Scale(w.id, w.originalReplicas), false, e);
      if e.Scale? {
        ScalesJoin(w, rest, e.id, e.replicas);
      }
    }
  }

  lemma ScalesJoin(w: WorkloadSpec, rest: seq<WorkloadSpec>, id: WorkloadId, replicas: int)
    ensures ScalesUp([w] + rest, id, replicas) <==>
            (!w.ownerManaged && w.id == id && w.originalReplicas == replicas) || ScalesUp(rest, id, replicas)
  {
    assert forall x :: x in [w] + rest <==> x == w || x in rest;
  }

  // ---- the parts of a restore ------------------------------------------------------------------------------

  /** A call for an artifact names it. */
  lemma OneArtifact(job: RestoreJob, e: Effect)
    ensures (exists a :: a in job.artifacts && CallsFor(Secrets, a, e)) <==>
            e.ApplySecrets? && Holds(job, e.artifact, SharedResources)
    ensures (exists a :: a in job.artifacts && CallsFor(Shared, a, e)) <==>
            e.ApplyShared? && Holds(job, e.artifact, SharedResources)
    ensures (exists a :: a in job.artifacts && CallsFor(Volumes, a, e)) <==>
            e.RestoreVolume? && Holds(job, e.artifact, Volume)
    ensures (exists a :: a in job.artifacts && CallsFor(Resources, a, e)) <==>
            e.ApplyResources? && Holds(job, e.artifact, NamespaceResources)
  {
    if e.ApplySecrets? { assert CallsFor(Secrets, e.artifact, e) <==> e.artifact.component == SharedResources; }
    if e.ApplyShared? { assert CallsFor(Shared, e.artifact, e) <==> e.artifact.component == SharedResources; }
    if e.RestoreVolume? { assert CallsFor(Volumes, e.artifact, e) <==> e.artifact.component == Volume; }
    if e.ApplyResources? {
      assert CallsFor(Resources, e.artifact, e) <==> e.artifact.component == NamespaceResources;
    }
  }

  lemma InSharedPlan(job: RestoreJob, e: Effect)
    ensures InPlan(SharedPlan(job), e) <==>
            || (e.ApplySecrets? && Holds(job, e.artifact, SharedResources))
            || (job.controllers && e == EnsureControllers)
            || (e.ApplyShared? && Holds(job, e.artifact, SharedResources))
    ensures VitalFatal(SharedPlan(job))
  {
    OneArtifact(job, e);
    var controllers := When(job.controllers, EnsureControllers, true);
    InWhen(job.controllers, EnsureControllers, true, e);
    InLoop(Secrets, job.artifacts, e);
    InLoop(Shared, job.artifacts, e);
    hide InPlan, VitalFatal, When, Loop, CallsFor;
    InPlanJoin(Loop(Secrets, job.artifacts), controllers, e);
    InPlanJoin(Loop(Secrets, job.artifacts) + controllers, Loop(Shared, job.artifacts), e);
  }

  lemma InDataPlan(job: RestoreJob, e: Effect)
    ensures InPlan(DataPlan(job), e) <==>
            || (e.EnsurePVC? && e.volume in job.manifest.volumes)
            || (e.RestoreVolume? && Holds(job, e.artifact, Volume))
            || (e.ApplyResources? && Holds(job, e.artifact, NamespaceResources))
    ensures VitalFatal(DataPlan(job))
  {
    OneArtifact(job, e);
    var claims, volumes := ClaimSteps(job.manifest.volumes), Loop(Volumes, job.artifacts);
    InClaims(job.manifest.volumes, e);
    InLoop(Volumes, job.artifacts, e);
    InLoop(Resources, job.artifacts, e);
    hide InPlan, VitalFatal, Loop, ClaimSteps, CallsFor;
    InPlanJoin(claims, volumes, e);
    InPlanJoin(claims + volumes, Loop(Resources, job.artifacts), e);
  }

  /** The stack's own calls, part by part. */
  predicate StackCalls(job: RestoreJob, e: Effect) {
    || (job.namespaces && e == EnsureNamespace)
    || (e.ApplySecrets? && Holds(job, e.artifact, SharedResources))
    || (job.controllers && e == EnsureControllers)
    || (e.ApplyShared? && Holds(job, e.artifact, SharedResources))
    || (e.EnsurePVC? && e.volume in job.manifest.volumes)
    || (e.RestoreVolume? && Holds(job, e.artifact, Volume))
    || (e.ApplyResources? && Holds(job, e.artifact, NamespaceResources))
  }

  predicate Holds(job: RestoreJob, a: Artifact, c: Component) {
    a in job.artifacts && a.component == c
  }

  lemma InStack(job: RestoreJob, e: Effect)
    ensures InPlan(StackPlan(job), e) <==> job.mode != PlatformOnly && StackCalls(job, e)
    ensures VitalFatal(StackPlan(job))
  {
    InWhen(job.namespaces, EnsureNamespace, true, e);
    InSharedPlan(job, e);
    InDataPlan(job, e);
    NothingInPlan(e);
    hide InPlan, VitalFatal, When, SharedPlan, DataPlan, CallsFor;
    InPlanJoin(SharedPlan(job), DataPlan(job), e);
    InPlanJoin(When(job.namespaces, EnsureNamespace, true), SharedPlan(job) + DataPlan(job), e);
  }

  lemma NothingInPlan(e: Effect)
    ensures !InPlan([], e) && VitalFatal([])
  {
  }

  lemma InPlatform(job: RestoreJob, e: Effect)
    ensures InPlan(PlatformPlan(job), e) <==>
            Called(job, e) && OfPlatform(job, e)
    ensures VitalFatal(PlatformPlan(job))
  {
    var phase := Platform(job.connections, !job.DefersVault());
    InLoop(phase, job.artifacts, e);
    hide InPlan, VitalFatal, Loop, Blank;
    if job.mode == StackOnly { NothingInPlan(e); }
  }

  lemma InResumePlan(job: RestoreJob, e: Effect)
    ensures InPlan(ResumePlan(job), e) <==> e.Scale? && Called(job, e)
    ensures VitalFatal(ResumePlan(job))
  {
    InResumes(job.manifest.workloads, e);
    NothingInPlan(e);
  }

  lemma {:induction false} VaultsAmong(artifacts: seq<Artifact>, a: Artifact)
    ensures a in VaultArtifacts(artifacts) <==> a in artifacts && a.component == OpenBaoKV
  {
    if artifacts != [] {
      var init, last := artifacts[..|artifacts| - 1], artifacts[|artifacts| - 1];
      assert artifacts == init + [last];
      VaultsAmong(init, a);
    }
  }

  lemma {:induction false} InImports(groups: seq<seq<Event>>, vaults: seq<Artifact>, e: Effect)
    requires |groups| == |vaults| && forall i | 0 <= i < |groups| :: Tried(groups[i], vaults[i])
    ensures Made(Flat(groups), e) <==> e.ImportVault? && e.artifact in vaults
    ensures VitalWorked(Flat(groups))
  {
    if groups != [] {
      var n := |groups| - 1;
      assert vaults == vaults[..n] + [vaults[n]];
      InImports(groups[..n], vaults[..n], e);
      assert Tried(groups[n], vaults[n]);
      InTries(groups[n], vaults[n], e);
      MadeJoin(Flat(groups[..n]), groups[n], e);
    }
  }

  lemma InTries(group: seq<Event>, a: Artifact, e: Effect)
    requires Tried(group, a)
    ensures Made(group, e) <==> e == ImportVault(a)
    ensures VitalWorked(group)
  {
    var o :| Tries(group, a, o);
    assert group[0].effect == ImportVault(a);
  }

  lemma InLate(c: Course, job: RestoreJob, outcome: Option<VaultOutcome>, e: Effect)
    requires Imported(c.imports, Vaults(job), outcome)
    ensures Made(Flat(c.imports), e) <==> e.ImportVault? && Holds(job, e.artifact, OpenBaoKV) && LateVault(job)
    ensures VitalWorked(Flat(c.imports))
  {
    InImports(c.imports, Vaults(job), e);
    hide Made, Imported, Tried, Flat, VitalWorked, Blank, VaultArtifacts;
    if e.ImportVault? { VaultsAmong(job.artifacts, e.artifact); }
  }

  /** The vault waits for the workloads of its stack. */
  predicate LateVault(job: RestoreJob) {
    job.mode != PlatformOnly && !Blank(job.stackId)
  }

  lemma InStats(c: Course, job: RestoreJob, e: Effect)
    requires Intact(c.stats, job.artifacts)
    ensures Made(c.stats, e) <==> e.Stat? && e.artifact in job.artifacts
    ensures VitalWorked(c.stats)
  {
    if e.Stat? && e.artifact in job.artifacts {
      var k :| 0 <= k < |job.artifacts| && job.artifacts[k] == e.artifact;
      assert c.stats[k].effect == e;
    }
  }

  lemma InBackup(c: Course, job: RestoreJob, e: Effect)
    requires Done(c.lookup, LookupPlan()) && Intact(c.stats, job.artifacts)
    ensures Made(c.lookup + c.stats, e) <==>
            e.GetRun? || e.ListArtifacts? || (e.Stat? && e.artifact in job.artifacts)
    ensures VitalWorked(c.lookup + c.stats)
  {
    InStats(c, job, e);
    DoneMade(c.lookup, LookupPlan(), e);
    InWhen(true, GetRun, true, e);
    InWhen(true, ListArtifacts, true, e);
    InPlanJoin(When(true, GetRun, true), When(true, ListArtifacts, true), e);
    hide Intact, Made, InPlan, Done, When;
    MadeJoin(c.lookup, c.stats, e);
  }

  lemma InSchema(seg: seq<Event>, e: Effect)
    requires Done(seg, SchemaPlan())
    ensures Made(seg, e) <==> e.SchemaState? || e.SaveRestore?
    ensures VitalWorked(seg)
  {
    DoneMade(seg, SchemaPlan(), e);
    InWhen(true, Effect.SchemaState, true, e);
    InWhen(true, SaveRestore, false, e);
    InPlanJoin(When(true, Effect.SchemaState, true), When(true, SaveRestore, false), e);
  }

  lemma InDrift(seg: seq<Event>, job: RestoreJob, e: Effect)
    requires Done(seg, DriftPlan(job))
    ensures Made(seg, e) <==> e.ListReleases? && job.releases && !Blank(job.namespace)
    ensures VitalWorked(seg)
  {
    hide Blank;
    DoneMade(seg, DriftPlan(job), e);
    InWhen(job.releases && !Blank(job.namespace), ListReleases, false, e);
  }

  predicate OfChecks(e: Effect) {
    e.GetRun? || e.ListArtifacts? || e.Stat? || e.SchemaState? || e.SaveRestore? || e.ListReleases?
  }

  lemma InChecks(c: Course, job: RestoreJob, e: Effect)
    requires Cleared(c, job) && Done(c.drift, DriftPlan(job))
    ensures Made(c.Checks(), e) <==> Called(job, e) && OfChecks(e)
    ensures VitalWorked(c.Checks())
  {
    InBackup(c, job, e);
    InSchema(c.schema, e);
    InDrift(c.drift, job, e);
    hide Made, Intact, Done, Blank, Cleared;
    MadeJoin(c.lookup + c.stats, c.schema, e);
    MadeJoin(c.lookup + c.stats + c.schema, c.drift, e);
    WorkedTogether(c.lookup + c.stats, c.schema);
    WorkedTogether(c.lookup + c.stats + c.schema, c.drift);
    hide VitalWorked;
  }

  lemma WorkedTogether(a: seq<Event>, b: seq<Event>)
    requires VitalWorked(a) && VitalWorked(b)
    ensures VitalWorked(a + b)
  {
  }

  lemma InAfter(job: RestoreJob, e: Effect)
    ensures InPlan(AfterPlan(job), e) <==> Called(job, e) && (e.CheckReferences? || e.RepinGateway?)
    ensures VitalFatal(AfterPlan(job))
  {
    InWhen(job.tokens, CheckReferences, false, e);
    InWhen(job.gateway && job.DefersVault(), RepinGateway, false, e);
    hide InPlan, VitalFatal, When, Blank;
    InPlanJoin(When(job.tokens, CheckReferences, false), When(job.gateway && job.DefersVault(), RepinGateway, false),
               e);
  }

  // ---- the whole ----------------------------------------------------------------------------------------------

  predicate OfPlatform(job: RestoreJob, e: Effect) {
    e.RestoreDB? || e.ResetConnections? || (e.ImportVault? && !LateVault(job))
  }

  /** Each call belongs to one part of a restore. */
  lemma CalledByPart(job: RestoreJob, e: Effect)
    ensures Called(job, e) <==>
            || (Called(job, e) && OfChecks(e))
            || (job.mode != PlatformOnly && StackCalls(job, e))
            || (Called(job, e) && OfPlatform(job, e))
            || (Called(job, e) && e.Scale?)
            || (e.ImportVault? && Holds(job, e.artifact, OpenBaoKV) && LateVault(job))
            || (Called(job, e) && (e.CheckReferences? || e.RepinGateway?))
  {
    hide Blank, Holds, ScalesUp, StoresDatabase;
  }

  /** A restore that counts as succeeded has made exactly these calls, and those it cannot do without worked. */
  lemma CalledIff(c: Course, job: RestoreJob, outcome: Option<VaultOutcome>, e: Effect)
    requires CourseOf(c, job, outcome, true)
    ensures Made(c.All(), e) <==> Called(job, e)
    ensures VitalWorked(c.All())
  {
    CalledByPart(job, e);
    InChecks(c, job, e);
    InStack(job, e);
    DoneMade(c.stack, StackPlan(job), e);
    InPlatform(job, e);
    DoneMade(c.platform, PlatformPlan(job), e);
    InResumePlan(job, e);
    DoneMade(c.resumes, ResumePlan(job), e);
    InLate(c, job, outcome, e);
    InAfter(job, e);
    DoneMade(c.after, AfterPlan(job), e);
    hide Made, InPlan, VitalFatal, CourseOf, StackCalls, Called, OfPlatform, OfChecks, LateVault, Holds;
    MadeJoin(c.stack, c.platform, e);
    MadeJoin(c.resumes, Flat(c.imports), e);
    MadeJoin(c.resumes + Flat(c.imports), c.after, e);
    MadeJoin(c.Checks(), c.Restores(), e);
    MadeJoin(c.Checks() + c.Restores(), c.Rest(), e);
    WorkedJoin(c);
  }

  lemma WorkedJoin(c: Course)
    requires VitalWorked(c.Checks()) && VitalWorked(c.stack) && VitalWorked(c.platform) && VitalWorked(c.resumes)
             && VitalWorked(Flat(c.imports)) && VitalWorked(c.after)
    ensures VitalWorked(c.All())
  {
  }

  /** Checked and with everything wired that it needs, a restore counts as succeeded exactly if none of the calls it
      cannot do without failed; any other may. */
  lemma SucceedsIff(c: Course, job: RestoreJob, outcome: Option<VaultOutcome>, ok: bool)
    requires CourseOf(c, job, outcome, ok) && Cleared(c, job)
    requires job.mode == PlatformOnly || job.shared
             || forall a | a in job.artifacts :: a.component != SharedResources
    ensures ok <==> VitalWorked(c.All())
  {
    hide CourseOf, Cleared, VitalFatal, VitalWorked, StackDone, Broken, InPlan, StackCalls, OfPlatform;
    if ok {
      CalledIff(c, job, outcome, GetRun);
    } else {
      NotThrough(c, job, outcome);
      InStack(job, GetRun);
      InPlatform(job, GetRun);
      RestoreLaws.PartsInAll(c);
      if StackDone(c.stack, job) {
        StoppedAt(c.platform, PlatformPlan(job), c.All(), |c.Checks()| + |c.stack|);
      } else {
        StoppedAt(c.stack, StackPlan(job), c.All(), |c.Checks()|);
      }
    }
  }

  lemma NotThrough(c: Course, job: RestoreJob, outcome: Option<VaultOutcome>)
    requires CourseOf(c, job, outcome, false) && Cleared(c, job)
    requires job.mode == PlatformOnly || job.shared
             || forall a | a in job.artifacts :: a.component != SharedResources
    ensures if StackDone(c.stack, job) then Broken(c.platform, PlatformPlan(job)) else Broken(c.stack, StackPlan(job))
  {
    hide Cleared, Broken, Done, Follows, PlatformPlan, StackPlan;
    assert !(job.TouchesStack() && Unwired(job));
  }

  lemma StoppedAt(seg: seq<Event>, plan: seq<Step>, all: seq<Event>, at: nat)
    requires Broken(seg, plan) && VitalFatal(plan)
    requires at + |seg| <= |all| && forall k | 0 <= k < |seg| :: all[at + k] == seg[k]
    ensures !VitalWorked(all)
  {
    assert all[at + |seg| - 1] == seg[|seg| - 1];
  }

  // ---- mode by mode ------------------------------------------------------------------------------------------

  ghost predicate Worked(seg: seq<Event>, e: Effect) {
    exists k :: 0 <= k < |seg| && seg[k].effect == e && seg[k].ok
  }

  lemma VitalMade(c: Course, job: RestoreJob, outcome: Option<VaultOutcome>, e: Effect)
    requires CourseOf(c, job, outcome, true) && Called(job, e) && Vital(e)
    ensures Worked(c.All(), e)
  {
    CalledIff(c, job, outcome, e);
    var k :| 0 <= k < |c.All()| && c.All()[k].effect == e;
    assert c.All()[k].ok;
  }

  lemma NeverMade(c: Course, job: RestoreJob, outcome: Option<VaultOutcome>, k: nat)
    requires CourseOf(c, job, outcome, true) && k < |c.All()|
    ensures Called(job, c.All()[k].effect)
  {
    CalledIff(c, job, outcome, c.All()[k].effect);
  }

  /** A restore of everything or of the platform counts as succeeded only with every platform database back; one of a
      stack alone touches no database. */
  lemma DatabasesByMode(c: Course, job: RestoreJob, outcome: Option<VaultOutcome>)
    requires CourseOf(c, job, outcome, true)
    ensures job.mode == Full || job.mode == PlatformOnly ==>
              forall a | a in job.artifacts && a.component == PlatformDB :: Worked(c.All(), RestoreDB(a))
    ensures job.mode == Full || job.mode == PlatformOnly ==>
              forall a | a in job.artifacts && a.component == KeycloakDB :: Made(c.All(), RestoreDB(a))
    ensures job.mode == StackOnly ==> forall k | 0 <= k < |c.All()| :: !c.All()[k].effect.RestoreDB?
  {
    hide CourseOf, Worked, Made, Blank;
    forall a | job.mode != StackOnly && a in job.artifacts && a.component == PlatformDB
      ensures Worked(c.All(), RestoreDB(a))
    {
      VitalMade(c, job, outcome, RestoreDB(a));
    }
    forall a | job.mode != StackOnly && a in job.artifacts && a.component == KeycloakDB
      ensures Made(c.All(), RestoreDB(a))
    {
      CalledIff(c, job, outcome, RestoreDB(a));
    }
    forall k | 0 <= k < |c.All()| && job.mode == StackOnly ensures !c.All()[k].effect.RestoreDB? {
      NeverMade(c, job, outcome, k);
    }
  }

  ghost predicate StackBack(c: Course, job: RestoreJob) {
    && (forall v | v in job.manifest.volumes :: Worked(c.All(), EnsurePVC(v)))
    && (forall a | a in job.artifacts && a.component == Volume :: Worked(c.All(), RestoreVolume(a)))
    && (forall a | a in job.artifacts && a.component == NamespaceResources :: Worked(c.All(), ApplyResources(a)))
    && (forall a | a in job.artifacts && a.component == SharedResources ::
          Worked(c.All(), ApplySecrets(a)) && Worked(c.All(), ApplyShared(a)))
    && (forall w | w in job.manifest.workloads && !w.ownerManaged :: Made(c.All(), Scale(w.id, w.originalReplicas)))
  }

  predicate ForStack(e: Effect) {
    e.EnsurePVC? || e.RestoreVolume? || e.ApplyResources? || e.ApplySecrets? || e.ApplyShared? || e.Scale?
  }

  /** A restore of everything or of a stack counts as succeeded only with every claim, volume and resource back, and
      every workload told to come up; one of the platform alone touches none of them. */
  lemma StackByMode(c: Course, job: RestoreJob, outcome: Option<VaultOutcome>)
    requires CourseOf(c, job, outcome, true)
    ensures job.mode == Full || job.mode == StackOnly ==> StackBack(c, job)
    ensures job.mode == PlatformOnly ==> forall k | 0 <= k < |c.All()| :: !ForStack(c.All()[k].effect)
  {
    if job.mode != PlatformOnly { StackComesBack(c, job, outcome); }
    hide CourseOf;
    forall k | 0 <= k < |c.All()| && job.mode == PlatformOnly ensures !ForStack(c.All()[k].effect) {
      NeverMade(c, job, outcome, k);
    }
  }

  lemma StackComesBack(c: Course, job: RestoreJob, outcome: Option<VaultOutcome>)
    requires CourseOf(c, job, outcome, true) && job.mode != PlatformOnly
    ensures StackBack(c, job)
  {
    hide CourseOf, Worked, Made;
    forall v | v in job.manifest.volumes ensures Worked(c.All(), EnsurePVC(v)) {
      VitalMade(c, job, outcome, EnsurePVC(v));
    }
    forall a | a in job.artifacts && a.component == Volume ensures Worked(c.All(), RestoreVolume(a)) {
      VitalMade(c, job, outcome, RestoreVolume(a));
    }
    forall a | a in job.artifacts && a.component == NamespaceResources ensures Worked(c.All(), ApplyResources(a)) {
      VitalMade(c, job, outcome, ApplyResources(a));
    }
    forall a | a in job.artifacts && a.component == SharedResources
      ensures Worked(c.All(), ApplySecrets(a)) && Worked(c.All(), ApplyShared(a))
    {
      VitalMade(c, job, outcome, ApplySecrets(a));
      VitalMade(c, job, outcome, ApplyShared(a));
    }
    forall w | w in job.manifest.workloads && !w.ownerManaged
      ensures Made(c.All(), Scale(w.id, w.originalReplicas))
    {
      assert ScalesUp(job.manifest.workloads, w.id, w.originalReplicas);
      CalledIff(c, job, outcome, Scale(w.id, w.originalReplicas));
    }
  }

  /** A vault is filled with the platform, or late where the stack has one: not at all only where a stack without a
      name is restored alone. */
  lemma VaultByMode(c: Course, job: RestoreJob, outcome: Option<VaultOutcome>, a: Artifact)
    requires CourseOf(c, job, outcome, true) && a in job.artifacts && a.component == OpenBaoKV
    ensures job.mode == PlatformOnly || (job.mode == Full && Blank(job.stackId)) ==> Made(c.platform, ImportVault(a))
    ensures (job.mode == Full || job.mode == StackOnly) && !Blank(job.stackId) ==>
              Made(Flat(c.imports), ImportVault(a))
    ensures job.mode == StackOnly && Blank(job.stackId) ==>
              forall k | 0 <= k < |c.All()| :: !c.All()[k].effect.ImportVault?
  {
    GoneThrough(c, job, outcome);
    hide CourseOf, Made, InPlan, Blank, Done, Imported, Called;
    VaultCalled(job, a);
    InPlatform(job, ImportVault(a));
    DoneMade(c.platform, PlatformPlan(job), ImportVault(a));
    InLate(c, job, outcome, ImportVault(a));
    forall k | 0 <= k < |c.All()| && job.mode == StackOnly && Blank(job.stackId)
      ensures !c.All()[k].effect.ImportVault?
    {
      NeverMade(c, job, outcome, k);
      if c.All()[k].effect.ImportVault? { VaultCalled(job, c.All()[k].effect.artifact); }
    }
  }

  lemma GoneThrough(c: Course, job: RestoreJob, outcome: Option<VaultOutcome>)
    requires CourseOf(c, job, outcome, true)
    ensures Done(c.platform, PlatformPlan(job)) && Imported(c.imports, Vaults(job), outcome)
  {
  }

  lemma VaultCalled(job: RestoreJob, a: Artifact)
    ensures Called(job, ImportVault(a)) <==>
            (job.mode != StackOnly || !Blank(job.stackId)) && a in job.artifacts && a.component == OpenBaoKV
  {
    hide Blank;
  }

  // ---- what is checked first ---------------------------------------------------------------------------------

  /** The checks, said of what they look at: with the lookups answered, a restore goes on exactly if nothing is missing,
      the backup succeeded at least in part, every artifact is there with its checksum, and the schema is clean and at
      or after that of the backup. */
  lemma ClearedIff(c: Course, job: RestoreJob)
    requires Done(c.lookup, LookupPlan()) && Done(c.schema, SchemaPlan())
    ensures Cleared(c, job) <==>
            && job.prerequisites == Prerequisites(true, true, true, true)
            && (job.status == Succeeded || job.status == Partial)
            && |c.stats| == |job.artifacts|
            && (forall i | 0 <= i < |c.stats| ::
                  && c.stats[i].effect == Stat(job.artifacts[i]) && c.stats[i].ok
                  && (job.artifacts[i].checksum != "" ==> c.stats[i].sum == job.artifacts[i].checksum))
            && !job.current.dirty && 0 < job.schemaVersion <= job.current.version
  {
    assert Met(job.prerequisites) <==> job.prerequisites == Prerequisites(true, true, true, true);
  }

  // ---- backup and restore by mode ----------------------------------------------------------------------------

  /** A call that puts this artifact back. */
  predicate PutsBack(e: Effect, a: Artifact) {
    e == ApplySecrets(a) || e == ApplyShared(a) || e == RestoreVolume(a) || e == ApplyResources(a)
    || e == RestoreDB(a) || e == ImportVault(a)
  }

  /** What a backup of a mode stores by itself is what a restore of that mode puts back; only the vault of a stack with
      a name comes back with the stack although a backup of the stack alone does not store it. */
  lemma RestoredAsStored(job: RestoreJob, a: Artifact)
    requires a in job.artifacts
    ensures (exists e :: Called(job, e) && PutsBack(e, a)) <==>
            || a.component in ModeComponents(job.mode)
            || (job.mode == StackOnly && a.component == OpenBaoKV && !Blank(job.stackId))
  {
    InModes(a.component, job.mode);
    if e :| Called(job, e) && PutsBack(e, a) { BackByMode(job, a, e); }
    hide Called, Blank, ModeComponents;
    if MayBeBack(job, a.component) { CalledBack(job, a); }
  }

  predicate MayBeBack(job: RestoreJob, c: Component) {
    match c
    case PlatformDB => job.mode != StackOnly
    case KeycloakDB => job.mode != StackOnly
    case OpenBaoKV => job.mode != StackOnly || !Blank(job.stackId)
    case _ => job.mode != PlatformOnly
  }

  function BackBy(a: Artifact): (e: Effect)
    ensures PutsBack(e, a)
  {
    match a.component
    case PlatformDB => RestoreDB(a)
    case KeycloakDB => RestoreDB(a)
    case OpenBaoKV => ImportVault(a)
    case SharedResources => ApplyShared(a)
    case Volume => RestoreVolume(a)
    case NamespaceResources => ApplyResources(a)
  }

  lemma CalledBack(job: RestoreJob, a: Artifact)
    requires a in job.artifacts && MayBeBack(job, a.component)
    ensures Called(job, BackBy(a))
  {
  }

  lemma BackByMode(job: RestoreJob, a: Artifact, e: Effect)
    requires Called(job, e) && PutsBack(e, a)
    ensures MayBeBack(job, a.component)
  {
  }

  /** Databases and vault are the platform's, volumes and resources the stack's, and a full backup is both. */
  lemma InModes(c: Component, mode: Mode)
    ensures c in ModeComponents(PlatformOnly) <==> c == PlatformDB || c == KeycloakDB || c == OpenBaoKV
    ensures c in ModeComponents(StackOnly) <==> c == Volume || c == NamespaceResources || c == SharedResources
    ensures mode != PlatformOnly && mode != StackOnly ==> c in ModeComponents(mode)
  {
  }

  /** Every component belongs to exactly one of platform and stack, and none is stored twice. */
  lemma ModesPartition(c: Component)
    ensures c in ModeComponents(Full)
    ensures c in ModeComponents(PlatformOnly) <==> c !in ModeComponents(StackOnly)
    ensures multiset(ModeComponents(Full)) ==
            multiset(ModeComponents(PlatformOnly)) + multiset(ModeComponents(StackOnly))
    ensures multiset(ModeComponents(Full))[c] == 1
  {
    InModes(c, Full);
    assert ModeComponents(Full) == ModeComponents(PlatformOnly) + ModeComponents(StackOnly);
  }

  /** A backup that names only its mode and is judged Succeeded holds what the mode stands for. */
  lemma SucceededByMode(mode: Mode, request: RunBackup.Job, x: RunBackup.Execution)
    requires request.scope == [] && RunBackup.Complete(RunBackup.Scoped(mode, request), x)
    requires Verdict(x.results, Succeeded)
    ensures mode == Full || mode == PlatformOnly ==>
              && PlatformDB in RunBackup.Kinds(x.artifacts) && KeycloakDB in RunBackup.Kinds(x.artifacts)
              && (!Blank(request.stackId) ==> OpenBaoKV in RunBackup.Kinds(x.artifacts))
    ensures mode == Full || mode == StackOnly ==>
              && NamespaceResources in RunBackup.Kinds(x.artifacts)
              && |x.volumes| == |request.pvcs|
              && forall i | 0 <= i < |request.pvcs| ::
                   x.volumes[i].name == request.pvcs[i].name && QuiesceWindow.Recorded(x.volumes[i], x.artifacts)
  {
    hide ModeComponents, RunBackup.Complete, Blank, RunBackup.Kinds, RunBackup.Configured, QuiesceWindow.Recorded;
    var job := RunBackup.Scoped(mode, request);
    RunBackup.SucceededIsWhole(job, x, Succeeded);
    InModes(PlatformDB, mode);
    InModes(KeycloakDB, mode);
    InModes(OpenBaoKV, mode);
    InModes(NamespaceResources, mode);
    InModes(Volume, mode);
    assert forall c | c in job.scope && (c == OpenBaoKV ==> !Blank(job.stackId)) ::
        RunBackup.Earned(job, c, RunBackup.Kinds(x.artifacts));
  }
}
