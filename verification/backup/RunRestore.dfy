/** One restore (`internal/backup/usecase/run_restore.go`): checks, stack data, platform, resumes, stack vault, and
    what comes after. */
module RunRestore {
  import opened Wrappers
  import opened GoStrings
  import opened World
  import opened BackupRuns
  import opened Quiesce
  import opened RestorePlan

  // ---- steps ----------------------------------------------------------------------------------------------

  /** A step of its own, where its collaborator is wired. */
  method Take(out: Outside, wired: bool, effect: Effect, fatal: bool) returns (ok: bool, ghost seg: seq<Event>)
    requires out.Valid()
    modifies out
    ensures out.Valid() && out.trace == old(out.trace) + seg
    ensures Went(seg, When(wired, effect, fatal), ok)
    ensures !fatal ==> ok
  {
    ok, seg := true, [];
    if wired {
      var answer;
      ghost var e;
      ok, answer, e := out.Call(effect, false);
      seg := [e];
      ok := ok || !fatal;
    }
  }

  /** Restores one artifact, if it is this loop's business. */
  method PullOne(out: Outside, phase: Phase, a: Artifact) returns (ok: bool, ghost seg: seq<Event>)
    requires out.Valid()
    modifies out
    ensures out.Valid() && out.trace == old(out.trace) + seg
    ensures Went(seg, StepsOf(phase, a), ok)
  {
    match phase {
      case Secrets => ok, seg := Take(out, a.component == SharedResources, ApplySecrets(a), true);
      case Shared => ok, seg := Take(out, a.component == SharedResources, ApplyShared(a), true);
      case Volumes => ok, seg := Take(out, a.component == Volume, RestoreVolume(a), true);
      case Resources => ok, seg := Take(out, a.component == NamespaceResources, ApplyResources(a), true);
      case Platform(connections, vault) => ok, seg := PullPlatform(out, connections, vault, a);
    }
  }

  /** The platform database, and then fresh connections to it. */
  method PullDatabase(out: Outside, connections: bool, a: Artifact) returns (ok: bool, ghost seg: seq<Event>)
    requires out.Valid()
    modifies out
    ensures out.Valid() && out.trace == old(out.trace) + seg
    ensures Went(seg, [Step(RestoreDB(a), true)] + When(connections, ResetConnections, false), ok)
  {
    ok, seg := Take(out, true, RestoreDB(a), true);
    if ok {
      ghost var reset;
      ok, reset := Take(out, connections, ResetConnections, false);
      PartTaken(seg, [Step(RestoreDB(a), true)], reset, When(connections, ResetConnections, false));
      Joined(old(out.trace), seg, reset);
      seg := seg + reset;
    } else {
      CutShort(seg, [Step(RestoreDB(a), true)], When(connections, ResetConnections, false));
    }
  }

  /** The platform database must come back; Keycloak and the vault may fail. */
  method PullPlatform(out: Outside, connections: bool, vault: bool, a: Artifact)
    returns (ok: bool, ghost seg: seq<Event>)
    requires out.Valid()
    modifies out
    ensures out.Valid() && out.trace == old(out.trace) + seg
    ensures Went(seg, StepsOf(Platform(connections, vault), a), ok)
  {
    ok, seg := true, [];
    match a.component {
      case PlatformDB => ok, seg := PullDatabase(out, connections, a);
      case KeycloakDB => ok, seg := Take(out, true, RestoreDB(a), false);
      case OpenBaoKV => ok, seg := Take(out, vault, ImportVault(a), false);
      case _ =>
    }
  }

  /** A loop over the artifacts, up to the first fatal failure. */
  method PullAll(out: Outside, phase: Phase, artifacts: seq<Artifact>) returns (ok: bool, ghost seg: seq<Event>)
    requires out.Valid()
    modifies out
    ensures out.Valid() && out.trace == old(out.trace) + seg
    ensures Went(seg, Loop(phase, artifacts), ok)
  {
    ok, seg := true, [];
    for n := 0 to |artifacts|
      invariant out.Valid() && out.trace == old(out.trace) + seg
      invariant ok && Done(seg, Loop(phase, artifacts[..n]))
    {
      ghost var part;
      ok, part := PullOne(out, phase, artifacts[n]);
      LoopTaken(phase, artifacts, n, seg, part, ok);
      Joined(old(out.trace), seg, part);
      seg := seg + part;
      if !ok { return; }
    }
    assert artifacts[..|artifacts|] == artifacts;
  }

  lemma LoopTaken(phase: Phase, artifacts: seq<Artifact>, n: nat, seg: seq<Event>, part: seq<Event>, ok: bool)
    requires n < |artifacts| && Done(seg, Loop(phase, artifacts[..n])) && Went(part, StepsOf(phase, artifacts[n]), ok)
    ensures if ok then Done(seg + part, Loop(phase, artifacts[..n + 1])) else Broken(seg + part, Loop(phase, artifacts))
  {
    assert artifacts[..n + 1][..n] == artifacts[..n];
    PartTaken(seg, Loop(phase, artifacts[..n]), part, StepsOf(phase, artifacts[n]));
    if !ok { BrokenOff(seg + part, phase, artifacts, n + 1); }
  }

  /** Recreates the claims of the volumes, up to the first failure. */
  method ClaimAll(out: Outside, volumes: seq<VolumeSpec>) returns (ok: bool, ghost seg: seq<Event>)
    requires out.Valid()
    modifies out
    ensures out.Valid() && out.trace == old(out.trace) + seg
    ensures Went(seg, ClaimSteps(volumes), ok)
  {
    ok, seg := true, [];
    assert Done([], ClaimSteps(volumes[..0]));
    hide Done, Follows, Broken, Lawful, Replay;
    for n := 0 to |volumes|
      invariant out.Valid() && out.trace == old(out.trace) + seg
      invariant ok && Done(seg, ClaimSteps(volumes[..n]))
    {
      var answer;
      ghost var e;
      ok, answer, e := out.Call(EnsurePVC(volumes[n]), false);
      StepTaken(seg, ClaimSteps(volumes[..n]), e, Step(EnsurePVC(volumes[n]), true));
      assert ClaimSteps(volumes[..n]) + [Step(EnsurePVC(volumes[n]), true)] == ClaimSteps(volumes[..n + 1]);
      Joined(old(out.trace), seg, [e]);
      seg := seg + [e];
      if !ok {
        assert ClaimSteps(volumes) == ClaimSteps(volumes[..n + 1]) + ClaimSteps(volumes)[n + 1..];
        CutShort(seg, ClaimSteps(volumes[..n + 1]), ClaimSteps(volumes)[n + 1..]);
        return;
      }
    }
    assert volumes[..|volumes|] == volumes;
  }

  // ---- checks ---------------------------------------------------------------------------------------------

  predicate Matches(a: Artifact, sum: string) {
    a.checksum == "" || sum == a.checksum
  }

  /** Every artifact is there, with the checksum it was stored with. */
  ghost predicate Intact(seg: seq<Event>, artifacts: seq<Artifact>) {
    |seg| == |artifacts| && IntactSoFar(seg, artifacts)
  }

  ghost predicate IntactSoFar(seg: seq<Event>, artifacts: seq<Artifact>) {
    |seg| <= |artifacts| && forall i | 0 <= i < |seg| ::
         seg[i].effect == Stat(artifacts[i]) && seg[i].ok
         && Matches(artifacts[i], seg[i].sum)
  }

  lemma IntactSnoc(seg: seq<Event>, artifacts: seq<Artifact>, e: Event)
    requires IntactSoFar(seg, artifacts) && |seg| < |artifacts| && e.effect == Stat(artifacts[|seg|]) && !e.detached
    requires Attached(seg)
    ensures Follows(seg + [e], StatSteps(artifacts))
    ensures IntactSoFar(seg + [e], artifacts) <==> e.ok && Matches(artifacts[|seg|], e.sum)
  {
    if IntactSoFar(seg + [e], artifacts) { assert (seg + [e])[|seg|] == e; }
  }

  method VerifyArtifacts(out: Outside, artifacts: seq<Artifact>) returns (ok: bool, ghost seg: seq<Event>)
    requires out.Valid()
    modifies out
    ensures out.Valid() && out.trace == old(out.trace) + seg
    ensures Follows(seg, StatSteps(artifacts)) && (ok <==> Intact(seg, artifacts))
  {
    hide Lawful, Replay;
    ok, seg := true, [];
    for n := 0 to |artifacts|
      invariant out.Valid() && out.trace == old(out.trace) + seg
      invariant ok && |seg| == n && IntactSoFar(seg, artifacts) && Follows(seg, StatSteps(artifacts))
    {
      var a := artifacts[n];
      var answer;
      ghost var e;
      ok, answer, e := out.Call(Stat(a), false);
      IntactSnoc(seg, artifacts, e);
      Joined(old(out.trace), seg, [e]);
      seg := seg + [e];
      if !ok || (a.checksum != "" && answer.sum != a.checksum) {
        ok := false;
        return;
      }
    }
  }

  predicate Restorable(status: Status) {
    status == Succeeded || status == Partial
  }

  /** The record and the list of artifacts. */
  method Lookup(out: Outside, job: RestoreJob) returns (ok: bool, ghost seg: seq<Event>)
    requires out.Valid()
    modifies out
    ensures out.Valid() && out.trace == old(out.trace) + seg && Follows(seg, LookupPlan())
    ensures ok <==> Restorable(job.status) && Done(seg, LookupPlan())
  {
    ok, seg := Take(out, true, GetRun, true);
    CutShort(seg, When(true, GetRun, true), When(true, ListArtifacts, true));
    if ok && Restorable(job.status) {
      ghost var list;
      ok, list := Take(out, true, ListArtifacts, true);
      Chain(seg, When(true, GetRun, true), true, list, When(true, ListArtifacts, true), ok);
      Joined(old(out.trace), seg, list);
      seg := seg + list;
      if !ok { BrokenIsNotDone(seg, LookupPlan()); }
    } else {
      ok := false;
    }
  }

  /** Secrets, controllers, shared resources. */
  method RestoreShared(out: Outside, job: RestoreJob) returns (ok: bool, ghost seg: seq<Event>)
    requires out.Valid()
    modifies out
    ensures out.Valid() && out.trace == old(out.trace) + seg && Went(seg, SharedPlan(job), ok)
  {
    ghost var controllers, shared := [], [];
    ok, seg := PullAll(out, Secrets, job.artifacts);
    ghost var was := ok;
    if ok { ok, controllers := Take(out, job.controllers, EnsureControllers, true); }
    Chain(seg, Loop(Secrets, job.artifacts), was, controllers, When(job.controllers, EnsureControllers, true), ok);
    was := ok;
    if ok { ok, shared := PullAll(out, Shared, job.artifacts); }
    Chain(seg + controllers, Loop(Secrets, job.artifacts) + When(job.controllers, EnsureControllers, true), was,
          shared, Loop(Shared, job.artifacts), ok);
    Joined(old(out.trace), seg, controllers);
    Joined(old(out.trace), seg + controllers, shared);
    seg := seg + controllers + shared;
  }

  /** Claims, volumes, resources. */
  method RestoreData(out: Outside, job: RestoreJob) returns (ok: bool, ghost seg: seq<Event>)
    requires out.Valid()
    modifies out
    ensures out.Valid() && out.trace == old(out.trace) + seg && Went(seg, DataPlan(job), ok)
  {
    ghost var volumes, resources := [], [];
    ok, seg := ClaimAll(out, job.manifest.volumes);
    ghost var was := ok;
    if ok { ok, volumes := PullAll(out, Volumes, job.artifacts); }
    Chain(seg, ClaimSteps(job.manifest.volumes), was, volumes, Loop(Volumes, job.artifacts), ok);
    was := ok;
    if ok { ok, resources := PullAll(out, Resources, job.artifacts); }
    Chain(seg + volumes, ClaimSteps(job.manifest.volumes) + Loop(Volumes, job.artifacts), was, resources,
          Loop(Resources, job.artifacts), ok);
    Joined(old(out.trace), seg, volumes);
    Joined(old(out.trace), seg + volumes, resources);
    seg := seg + volumes + resources;
  }

  method SharedThenData(out: Outside, job: RestoreJob) returns (ok: bool, ghost seg: seq<Event>)
    requires out.Valid()
    modifies out
    ensures out.Valid() && out.trace == old(out.trace) + seg && Went(seg, SharedPlan(job) + DataPlan(job), ok)
  {
    ghost var data := [];
    ok, seg := RestoreShared(out, job);
    ghost var was := ok;
    if ok { ok, data := RestoreData(out, job); }
    Chain(seg, SharedPlan(job), was, data, DataPlan(job), ok);
    Joined(old(out.trace), seg, data);
    seg := seg + data;
  }

  ghost predicate StackDone(seg: seq<Event>, job: RestoreJob) {
    Done(seg, StackPlan(job)) && !(job.TouchesStack() && Unwired(job))
  }

  /** Through to the end, broken off at a failure, or given up because nothing is wired for the shared resources. */
  ghost predicate StackWent(seg: seq<Event>, job: RestoreJob, ok: bool) {
    && Follows(seg, StackPlan(job)) && (ok <==> StackDone(seg, job))
    && (!ok ==> Broken(seg, StackPlan(job)) || (job.TouchesStack() && Unwired(job)))
  }

  lemma StackUntouched(job: RestoreJob)
    requires !job.TouchesStack()
    ensures StackWent([], job, true)
  {
  }

  lemma DoneFollows(seg: seq<Event>, plan: seq<Step>)
    requires Done(seg, plan)
    ensures Follows(seg, plan)
  {
  }

  lemma StackEnds(seg: seq<Event>, job: RestoreJob, ok: bool, gaveUp: bool)
    requires job.TouchesStack()
    requires if gaveUp then !ok && Unwired(job) && Follows(seg, StackPlan(job))
             else Went(seg, StackPlan(job), ok) && (ok ==> !Unwired(job))
    ensures StackWent(seg, job, ok)
  {
    if ok { DoneFollows(seg, StackPlan(job)); }
    if !ok && !gaveUp { BrokenIsNotDone(seg, StackPlan(job)); }
    hide Done, StackPlan, Unwired;
  }

  /** The stack's part, if the mode touches it: the namespace, then the rest. */
  method RestoreStackData(out: Outside, job: RestoreJob) returns (ok: bool, ghost seg: seq<Event>)
    requires out.Valid()
    modifies out
    ensures out.Valid() && out.trace == old(out.trace) + seg && StackWent(seg, job, ok)
  {
    hide Done, Follows, Broken, Attached, StackWent, SharedPlan, DataPlan, When, Unwired, Lawful, Replay;
    ok, seg := true, [];
    if !job.TouchesStack() {
      StackUntouched(job);
    } else {
      ghost var head, rest := When(job.namespaces, EnsureNamespace, true), SharedPlan(job) + DataPlan(job);
      ok, seg := Take(out, job.namespaces, EnsureNamespace, true);
      ghost var tail, unwired := [], ok && Unwired(job);
      if ok && Unwired(job) {
        ok := false;
        DoneFollows(seg, head);
        CutShort(seg, head, rest);
      } else {
        ghost var was := ok;
        if ok { ok, tail := SharedThenData(out, job); }
        Chain(seg, head, was, tail, rest, ok);
      }
      Joined(old(out.trace), seg, tail);
      assert tail == [] ==> seg + tail == seg;
      seg := seg + tail;
      StackEnds(seg, job, ok, unwired);
    }
  }

  method RestorePlatform(out: Outside, job: RestoreJob) returns (ok: bool, ghost seg: seq<Event>)
    requires out.Valid()
    modifies out
    ensures out.Valid() && out.trace == old(out.trace) + seg && Went(seg, PlatformPlan(job), ok)
  {
    ok, seg := true, [];
    if job.TouchesPlatform() {
      ok, seg := PullAll(out, Platform(job.connections, !job.DefersVault()), job.artifacts);
    }
  }

  // ---- resuming ---------------------------------------------------------------------------------------------

  /** Scales up what was stopped, last stopped first; a failure does not keep the others down. */
  method ResumeWorkloads(out: Outside, workloads: seq<WorkloadSpec>) returns (ghost seg: seq<Event>)
    requires out.Valid()
    modifies out
    ensures out.Valid() && out.trace == old(out.trace) + seg && Done(seg, ResumeSteps(workloads))
  {
    seg := [];
    var i := |workloads|;
    while i > 0
      invariant 0 <= i <= |workloads|
      invariant out.Valid() && out.trace == old(out.trace) + seg && Done(seg, ResumeSteps(workloads[i..]))
    {
      i := i - 1;
      var w := workloads[i];
      assert workloads[i..][1..] == workloads[i + 1..];
      if w.ownerManaged { continue; }
      var ok, answer, e := out.Call(Scale(w.id, w.originalReplicas), false);
      StepTaken(seg, ResumeSteps(workloads[i + 1..]), e, Step(Scale(w.id, w.originalReplicas), false));
      seg := seg + [e];
    }
    assert workloads[0..] == workloads;
  }

  // ---- the vault of the stack ---------------------------------------------------------------------------------

  datatype VaultOutcome = VaultOutcome(imported: bool, attempts: nat)

  const DEFAULT_IMPORT_WAIT := 120_000_000_000
  const DEFAULT_IMPORT_RETRY := 10_000_000_000

  function ImportWait(job: RestoreJob): int {
    if job.importWait <= 0 then DEFAULT_IMPORT_WAIT else job.importWait
  }

  function ImportRetry(job: RestoreJob): int {
    if job.importRetry <= 0 then DEFAULT_IMPORT_RETRY else job.importRetry
  }

  /** One import after the other, up to the first that succeeds. */
  ghost predicate Tries(seg: seq<Event>, a: Artifact, outcome: VaultOutcome) {
    && |seg| == outcome.attempts > 0 && Attached(seg)
    && (forall i | 0 <= i < |seg| :: seg[i].effect == ImportVault(a))
    && (forall i | 0 <= i < |seg| - 1 :: !seg[i].ok)
    && (outcome.imported <==> seg[|seg| - 1].ok)
  }

  /** n intervals, one after the other. */
  function Intervals(n: nat, length: int): int {
    if n == 0 then 0 else Intervals(n - 1, length) + length
  }

  predicate InTime(attempts: nat, wait: int, retry: int) {
    attempts >= 2 ==> Intervals(attempts - 2, retry) <= wait
  }

  lemma {:induction false} IntervalsTimes(n: nat, length: int)
    ensures Intervals(n, length) == n * length
  {
    if n > 0 { IntervalsTimes(n - 1, length); }
  }

  /** Left to its defaults, a restore tries to fill a vault fourteen times at most. */
  lemma DefaultTries(attempts: nat)
    requires InTime(attempts, 120_000_000_000, 10_000_000_000)
    ensures attempts <= 14
  {
    if attempts >= 2 { IntervalsTimes(attempts - 2, 10_000_000_000); }
  }

  /** Tries until it works, the time is up, or the request is cancelled. At most one try starts after the waiting
      time, and tries are a retry interval apart. */
  method ImportWithRetry(out: Outside, a: Artifact, wait: int, retry: int)
    returns (outcome: VaultOutcome, elapsed: nat, ghost seg: seq<Event>)
    requires out.Valid() && wait > 0 && retry > 0
    modifies out
    ensures out.Valid() && out.trace == old(out.trace) + seg && Tries(seg, a, outcome)
    ensures !outcome.imported ==> out.cancelled || elapsed > wait
    ensures InTime(outcome.attempts, wait, retry)
  {
    hide Lawful, Replay;
    seg, outcome, elapsed := [], VaultOutcome(false, 0), 0;
    while true
      invariant out.Valid() && out.trace == old(out.trace) + seg
      invariant outcome == VaultOutcome(false, |seg|)
      invariant Attached(seg) && forall i | 0 <= i < |seg| :: seg[i].effect == ImportVault(a) && !seg[i].ok
      invariant Intervals(outcome.attempts, retry) <= elapsed
      invariant outcome.attempts > 0 ==> Intervals(outcome.attempts - 1, retry) <= wait
      decreases wait + retry - elapsed
    {
      var ok, answer, e := out.Call(ImportVault(a), false);
      seg := seg + [e];
      outcome := VaultOutcome(ok, outcome.attempts + 1);
      elapsed := elapsed + answer.took;
      if ok || out.cancelled || elapsed > wait { return; }
      var gaveUp, slept := out.Sleep();
      elapsed := elapsed + retry + slept;
      if gaveUp { return; }
    }
  }

  function VaultArtifacts(artifacts: seq<Artifact>): seq<Artifact> {
    if artifacts == [] then []
    else VaultArtifacts(artifacts[..|artifacts| - 1])
         + var a := artifacts[|artifacts| - 1]; if a.component == OpenBaoKV then [a] else []
  }

  function Vaults(job: RestoreJob): seq<Artifact> {
    if job.DefersVault() then VaultArtifacts(job.artifacts) else []
  }

  lemma VaultsSnoc(artifacts: seq<Artifact>, n: nat)
    requires n < |artifacts|
    ensures VaultArtifacts(artifacts[..n + 1])
         == VaultArtifacts(artifacts[..n]) + if artifacts[n].component == OpenBaoKV then [artifacts[n]] else []
  {
    assert artifacts[..n + 1][..n] == artifacts[..n];
  }

  function Flat(groups: seq<seq<Event>>): seq<Event> {
    if groups == [] then [] else Flat(groups[..|groups| - 1]) + groups[|groups| - 1]
  }

  lemma FlatSnoc(groups: seq<seq<Event>>, group: seq<Event>)
    ensures Flat(groups + [group]) == Flat(groups) + group
  {
    assert (groups + [group])[..|groups|] == groups;
  }

  ghost predicate Tried(group: seq<Event>, a: Artifact) {
    exists o :: Tries(group, a, o)
  }

  /** A group of tries for each vault artifact; the outcome is that of the last one. */
  ghost predicate Imported(groups: seq<seq<Event>>, vaults: seq<Artifact>, outcome: Option<VaultOutcome>) {
    && |groups| == |vaults|
    && (forall i | 0 <= i < |groups| :: Tried(groups[i], vaults[i]))
    && (outcome.None? <==> vaults == [])
    && (outcome.Some? ==> Tries(groups[|groups| - 1], vaults[|vaults| - 1], outcome.value))
  }

  lemma ImportedSnoc(groups: seq<seq<Event>>, vaults: seq<Artifact>, outcome: Option<VaultOutcome>, group: seq<Event>,
                     a: Artifact, o: VaultOutcome)
    requires Imported(groups, vaults, outcome) && Tries(group, a, o)
    ensures Imported(groups + [group], vaults + [a], Some(o))
  {
    assert Tried(group, a);
    assert (groups + [group])[|groups|] == group && (vaults + [a])[|vaults|] == a;
  }

  lemma VaultTaken(artifacts: seq<Artifact>, n: nat, groups: seq<seq<Event>>, outcome: Option<VaultOutcome>,
                   group: seq<Event>, o: VaultOutcome)
    requires n < |artifacts| && Imported(groups, VaultArtifacts(artifacts[..n]), outcome)
    requires artifacts[n].component == OpenBaoKV && Tries(group, artifacts[n], o)
    ensures Imported(groups + [group], VaultArtifacts(artifacts[..n + 1]), Some(o))
            && Flat(groups + [group]) == Flat(groups) + group
  {
    VaultsSnoc(artifacts, n);
    ImportedSnoc(groups, VaultArtifacts(artifacts[..n]), outcome, group, artifacts[n], o);
    FlatSnoc(groups, group);
  }

  method RestoreStackVault(out: Outside, job: RestoreJob)
    returns (outcome: Option<VaultOutcome>, ghost groups: seq<seq<Event>>)
    requires out.Valid()
    modifies out
    ensures out.Valid() && out.trace == old(out.trace) + Flat(groups)
    ensures Imported(groups, VaultArtifacts(job.artifacts), outcome)
    ensures outcome.Some? ==> InTime(outcome.value.attempts, ImportWait(job), ImportRetry(job))
  {
    outcome, groups := None, [];
    for n := 0 to |job.artifacts|
      invariant out.Valid() && out.trace == old(out.trace) + Flat(groups)
      invariant Imported(groups, VaultArtifacts(job.artifacts[..n]), outcome)
      invariant outcome.Some? ==> InTime(outcome.value.attempts, ImportWait(job), ImportRetry(job))
    {
      if job.artifacts[n].component == OpenBaoKV {
        var o, elapsed, group := ImportWithRetry(out, job.artifacts[n], ImportWait(job), ImportRetry(job));
        VaultTaken(job.artifacts, n, groups, outcome, group, o);
        Joined(old(out.trace), Flat(groups), group);
        outcome, groups := Some(o), groups + [group];
      } else {
        VaultsSnoc(job.artifacts, n);
      }
    }
    assert job.artifacts[..|job.artifacts|] == job.artifacts;
  }

  // ---- a whole restore ----------------------------------------------------------------------------------------

  /** The record of a restore. */
  class RestoreRun {
    var status: Status
    var schemaCheck: SchemaCheck
    var vaultImport: Option<VaultOutcome>

    constructor ()
      ensures status == Pending && vaultImport == None && schemaCheck == SchemaCheck(false, false)
    {
      status, vaultImport, schemaCheck := Pending, None, SchemaCheck(false, false);
    }

    method Start() returns (ok: bool)
      modifies this`status
      ensures ok == (old(status) == Pending) && status == if ok then Running else old(status)
    {
      ok := status == Pending;
      if ok { status := Running; }
    }

    method Finish(ok: bool)
      modifies this`status
      ensures status == if ok then Succeeded else Failed
    {
      status := if ok then Succeeded else Failed;
    }
  }

  /** What happened, part by part. */
  datatype Course = Course(lookup: seq<Event>, stats: seq<Event>, schema: seq<Event>, drift: seq<Event>,
                           stack: seq<Event>, platform: seq<Event>, resumes: seq<Event>, imports: seq<seq<Event>>,
                           after: seq<Event>)
  {
    function Checks(): seq<Event> { lookup + stats + schema + drift }

    function Restores(): seq<Event> { stack + platform }

    function Rest(): seq<Event> { resumes + Flat(imports) + after }

    function All(): seq<Event> { Checks() + Restores() + Rest() }
  }

  /** Everything a restore must know before it changes anything: the prerequisites are met, the backup is restorable,
      every artifact is intact, and the schema is not ahead of the code. */
  ghost predicate Cleared(c: Course, job: RestoreJob) {
    && Met(job.prerequisites) && Restorable(job.status)
    && Done(c.lookup, LookupPlan()) && Intact(c.stats, job.artifacts) && Done(c.schema, SchemaPlan())
    && CheckSchemaVersion(job.schemaVersion, job.current).allowed
  }

  ghost predicate Checked(c: Course, job: RestoreJob) {
    && Follows(c.lookup, LookupPlan()) && Follows(c.stats, StatSteps(job.artifacts)) && Follows(c.schema, SchemaPlan())
    && Follows(c.drift, DriftPlan(job))
    && (!Met(job.prerequisites) ==> c.Checks() == [])
  }

  /** From the resumes on, nothing that fails stops the restore. */
  ghost predicate Resumed(c: Course, job: RestoreJob, outcome: Option<VaultOutcome>) {
    && Done(c.resumes, ResumePlan(job))
    && Imported(c.imports, Vaults(job), outcome)
    && Done(c.after, AfterPlan(job))
  }

  /** How a restore may go: checks, then the stack's data, then the platform, each only after the one before, then
      the rest. */
  ghost predicate CourseOf(c: Course, job: RestoreJob, outcome: Option<VaultOutcome>, ok: bool) {
    && Checked(c, job)
    && if Cleared(c, job) then
         && Done(c.drift, DriftPlan(job))
         && StackWent(c.stack, job, StackDone(c.stack, job))
         && (if StackDone(c.stack, job) then Went(c.platform, PlatformPlan(job), ok) else c.platform == [] && !ok)
         && if ok then Resumed(c, job, outcome) else c.Rest() == [] && outcome == None
       else
         c.Restores() == [] && c.Rest() == [] && !ok && outcome == None
  }

  /** The record of the backup, and its artifacts as they were stored. */
  method CheckBackup(out: Outside, run: RestoreRun, job: RestoreJob)
    returns (ok: bool, ghost lookup: seq<Event>, ghost stats: seq<Event>)
    requires out.Valid() && run.status == Pending
    modifies out, run`status
    ensures out.Valid() && out.trace == old(out.trace) + (lookup + stats)
    ensures Follows(lookup, LookupPlan()) && Follows(stats, StatSteps(job.artifacts))
    ensures ok <==> Restorable(job.status) && Done(lookup, LookupPlan()) && Intact(stats, job.artifacts)
    ensures ok ==> run.status == Running
  {
    stats := [];
    ok, lookup := Lookup(out, job);
    if ok {
      var started := run.Start();
      ok, stats := VerifyArtifacts(out, job.artifacts);
    }
    Joined(old(out.trace), lookup, stats);
  }

  /** The current schema version against that of the backup, and the record of how they compare. */
  method ReadSchema(out: Outside, run: RestoreRun, job: RestoreJob) returns (ok: bool, ghost seg: seq<Event>)
    requires out.Valid()
    modifies out, run`schemaCheck
    ensures out.Valid() && out.trace == old(out.trace) + seg && Follows(seg, SchemaPlan())
    ensures ok <==> Done(seg, SchemaPlan()) && run.schemaCheck.allowed
    ensures Done(seg, SchemaPlan()) ==> run.schemaCheck == CheckSchemaVersion(job.schemaVersion, job.current)
  {
    ok, seg := Take(out, true, Effect.SchemaState, true);
    ghost var saved := [];
    if ok {
      run.schemaCheck := CheckSchemaVersion(job.schemaVersion, job.current);
      var recorded;
      recorded, saved := Take(out, true, SaveRestore, false);
    }
    Chain(seg, When(true, Effect.SchemaState, true), ok, saved, When(true, SaveRestore, false), ok);
    Joined(old(out.trace), seg, saved);
    seg := seg + saved;
    ok := ok && run.schemaCheck.allowed;
  }

  /** The schema, then the charts installed. */
  method CheckTarget(out: Outside, run: RestoreRun, job: RestoreJob)
    returns (ok: bool, ghost schema: seq<Event>, ghost drift: seq<Event>)
    requires out.Valid()
    modifies out, run`schemaCheck
    ensures out.Valid() && out.trace == old(out.trace) + (schema + drift)
    ensures Follows(schema, SchemaPlan()) && Follows(drift, DriftPlan(job))
    ensures ok <==> Done(schema, SchemaPlan()) && CheckSchemaVersion(job.schemaVersion, job.current).allowed
    ensures ok ==> run.schemaCheck.allowed && Done(drift, DriftPlan(job))
  {
    drift := [];
    ok, schema := ReadSchema(out, run, job);
    if ok {
      var compared;
      compared, drift := Take(out, job.releases && !Blank(job.namespace), ListReleases, false);
    }
    Joined(old(out.trace), schema, drift);
  }

  /** All checks, from the prerequisites on. */
  method Check(out: Outside, run: RestoreRun, job: RestoreJob) returns (ok: bool, ghost c: Course)
    requires out.Valid() && run.status == Pending
    modifies out, run`status, run`schemaCheck
    ensures out.Valid() && out.trace == old(out.trace) + c.Checks() && c.Restores() == [] && c.Rest() == []
    ensures Checked(c, job) && (ok <==> Cleared(c, job)) && (ok ==> Done(c.drift, DriftPlan(job)))
    ensures ok ==> run.status == Running && run.schemaCheck.allowed
  {
    ghost var lookup, stats, schema, drift := [], [], [], [];
    var missing := CheckPrerequisites(job.prerequisites);
    ok := missing == [];
    if ok { ok, lookup, stats := CheckBackup(out, run, job); }
    if ok { ok, schema, drift := CheckTarget(out, run, job); }
    c := Course(lookup, stats, schema, drift, [], [], [], [], []);
    Joined(old(out.trace), lookup + stats, schema + drift);
    Joined(lookup + stats, schema, drift);
  }

  /** The stack's data, then the platform. */
  method Restore(out: Outside, job: RestoreJob) returns (ok: bool, ghost stack: seq<Event>, ghost platform: seq<Event>)
    requires out.Valid()
    modifies out
    ensures out.Valid() && out.trace == old(out.trace) + (stack + platform)
    ensures StackWent(stack, job, StackDone(stack, job))
    ensures if StackDone(stack, job) then Went(platform, PlatformPlan(job), ok) else platform == [] && !ok
  {
    platform := [];
    ok, stack := RestoreStackData(out, job);
    if ok {
      ok, platform := RestorePlatform(out, job);
    }
    Joined(old(out.trace), stack, platform);
  }

  /** The vault of the stack, where there is one to wait for. */
  method ImportLate(out: Outside, job: RestoreJob)
    returns (outcome: Option<VaultOutcome>, ghost groups: seq<seq<Event>>)
    requires out.Valid()
    modifies out
    ensures out.Valid() && out.trace == old(out.trace) + Flat(groups) && Imported(groups, Vaults(job), outcome)
    ensures outcome.Some? ==> InTime(outcome.value.attempts, ImportWait(job), ImportRetry(job))
  {
    outcome, groups := None, [];
    if job.DefersVault() { outcome, groups := RestoreStackVault(out, job); }
  }

  method ResumeStack(out: Outside, job: RestoreJob) returns (ghost seg: seq<Event>)
    requires out.Valid()
    modifies out
    ensures out.Valid() && out.trace == old(out.trace) + seg && Done(seg, ResumePlan(job))
  {
    seg := [];
    if job.TouchesStack() { seg := ResumeWorkloads(out, job.manifest.workloads); }
  }

  /** Resumes, the vault that depends on them, the checks afterwards. */
  method Resume(out: Outside, job: RestoreJob)
    returns (outcome: Option<VaultOutcome>, ghost resumes: seq<Event>, ghost imports: seq<seq<Event>>,
             ghost after: seq<Event>)
    requires out.Valid()
    modifies out
    ensures out.Valid() && out.trace == old(out.trace) + (resumes + Flat(imports) + after)
    ensures Done(resumes, ResumePlan(job)) && Imported(imports, Vaults(job), outcome) && Done(after, AfterPlan(job))
    ensures outcome.Some? ==> InTime(outcome.value.attempts, ImportWait(job), ImportRetry(job))
  {
    resumes := ResumeStack(out, job);
    outcome, imports := ImportLate(out, job);
    after := Aftermath(out, job);
    Associated(old(out.trace), resumes, Flat(imports), after);
  }

  method Aftermath(out: Outside, job: RestoreJob) returns (ghost seg: seq<Event>)
    requires out.Valid()
    modifies out
    ensures out.Valid() && out.trace == old(out.trace) + seg && Done(seg, AfterPlan(job))
  {
    var ok, gateway;
    ghost var repin;
    ok, seg := Take(out, job.tokens, CheckReferences, false);
    gateway, repin := Take(out, job.gateway && job.DefersVault(), RepinGateway, false);
    PartTaken(seg, When(job.tokens, CheckReferences, false), repin,
              When(job.gateway && job.DefersVault(), RepinGateway, false));
    Joined(old(out.trace), seg, repin);
    seg := seg + repin;
  }

  /** The restore itself, between opening and closing its record. */
  method Perform(out: Outside, run: RestoreRun, job: RestoreJob) returns (ok: bool, ghost c: Course)
    requires out.Valid() && run.status == Pending && run.vaultImport == None
    modifies out, run
    ensures out.Valid() && out.trace == old(out.trace) + c.All() && CourseOf(c, job, run.vaultImport, ok)
    ensures run.vaultImport.Some? ==>
              InTime(run.vaultImport.value.attempts,
                     if job.importWait > 0 then job.importWait else 120_000_000_000,
                     if job.importRetry > 0 then job.importRetry else 10_000_000_000)
  {
    hide Done, Follows, Broken, Attached, Imported, Intact, Lawful, Replay, StackWent, StackDone;
    ok, c := Check(out, run, job);
    if ok {
      ghost var stack, platform;
      ok, stack, platform := Restore(out, job);
      c := c.(stack := stack, platform := platform);
      Joined(old(out.trace), c.Checks(), c.Restores());
    }
    if ok {
      ghost var resumes, imports, after;
      var outcome;
      outcome, resumes, imports, after := Resume(out, job);
      run.vaultImport := outcome;
      c := c.(resumes := resumes, imports := imports, after := after);
      Joined(old(out.trace), c.Checks() + c.Restores(), c.Rest());
    }
  }

  /** A recorded restore, up to its verdict. The record is closed under the request's own context: once the request is
      over, the verdict is not stored. */
  method Conduct(out: Outside, job: RestoreJob) returns (run: RestoreRun, ghost c: Course, ghost closed: seq<Event>)
    requires out.Valid()
    modifies out
    ensures out.Valid() && out.trace == old(out.trace) + (c.All() + closed)
    ensures fresh(run) && run.status in {Succeeded, Failed}
    ensures CourseOf(c, job, run.vaultImport, run.status == Succeeded)
    ensures |closed| == 1 && closed[0].effect == SaveRestore && Attached(closed)
  {
    hide Lawful, Replay, CourseOf;
    run := new RestoreRun();
    var done;
    done, c := Perform(out, run, job);
    run.Finish(done);
    var saved, reply;
    ghost var last;
    saved, reply, last := out.Call(SaveRestore, false);
    closed := [last];
    Joined(old(out.trace), c.All(), closed);
  }

  /** Calls made one after the other under the context of a request that is over by now or not. */
  ghost predicate UnderRequest(seg: seq<Event>, over: bool) {
    && Attached(seg) && Ceases(seg) && Answered(seg)
    && (over || forall i | 0 <= i < |seg| :: !seg[i].gone)
  }

  /** All of a recorded restore. */
  function Whole(record: Event, c: Course, closed: seq<Event>): seq<Event> {
    [record] + c.All() + closed
  }

  /** A restore that was recorded, as `Run` may carry it out. */
  ghost predicate RestoreOf(record: Event, c: Course, closed: seq<Event>, job: RestoreJob,
                            outcome: Option<VaultOutcome>, ok: bool, over: bool) {
    && record.ok && |closed| == 1 && closed[0].effect == SaveRestore
    && CourseOf(c, job, outcome, ok) && UnderRequest(Whole(record, c, closed), over)
  }

  /** One restore, from the record to its verdict. */
  method Run(out: Outside, job: RestoreJob)
    returns (run: RestoreRun?, ghost record: Event, ghost c: Course, ghost closed: seq<Event>)
    requires out.Valid()
    modifies out
    ensures out.Valid() && out.trace == old(out.trace) + Whole(record, c, closed)
    ensures record.effect == CreateRestore && record.ahead == old(out.answers) && record.gone == old(out.cancelled)
    ensures if run == null then !record.ok && c.All() == [] && closed == []
            else fresh(run) && run.status in {Succeeded, Failed}
                 && RestoreOf(record, c, closed, job, run.vaultImport, run.status == Succeeded, out.cancelled)
  {
    var ok, answer, e := out.Call(CreateRestore, false);
    record := e;
    run, closed, c := null, [], Course([], [], [], [], [], [], [], [], []);
    hide Lawful, Replay, UnderRequest, Done, Follows;
    if ok {
      run, c, closed := Conduct(out, job);
      CourseAttached(c, job, run.vaultImport, run.status == Succeeded);
      hide CourseOf;
    }
    Joined(old(out.trace), [record], c.All() + closed);
    Joined([record], c.All(), closed);
    AroundCourse(record, c, closed);
    OutsideLawful(out);
    Within(out.trace, out.cancelled, out.answers, old(out.trace), Whole(record, c, closed));
  }

  lemma OutsideLawful(out: Outside)
    requires out.Valid()
    ensures Lawful(out.trace, out.cancelled, out.answers)
  {
  }

  lemma AroundCourse(record: Event, c: Course, closed: seq<Event>)
    requires !record.detached && Attached(c.All()) && Attached(closed)
    ensures Attached(Whole(record, c, closed))
  {
    AttachedJoin([record], c.All());
    AttachedJoin([record] + c.All(), closed);
  }

  lemma Within(trace: seq<Event>, cancelled: bool, answers: seq<Answer>, before: seq<Event>, seg: seq<Event>)
    requires Lawful(trace, cancelled, answers) && trace == before + seg && Attached(seg)
    ensures UnderRequest(seg, cancelled)
  {
    LawfulPart(before, seg);
    forall i | 0 <= i < |seg| && seg[i].gone ensures cancelled {
      PartAt(before, seg, i);
      assert trace[|before| + i].gone;
    }
  }

  lemma AttachedJoin(a: seq<Event>, b: seq<Event>)
    requires Attached(a) && Attached(b)
    ensures Attached(a + b)
  {
  }

  lemma {:induction false} ImportsAttached(groups: seq<seq<Event>>, vaults: seq<Artifact>)
    requires |groups| == |vaults| && forall i | 0 <= i < |groups| :: Tried(groups[i], vaults[i])
    ensures Attached(Flat(groups))
  {
    if groups != [] {
      var last := |groups| - 1;
      ImportsAttached(groups[..last], vaults[..last]);
      assert Tried(groups[last], vaults[last]);
      AttachedJoin(Flat(groups[..last]), groups[last]);
    }
  }

  /** Every call of a restore is made under the request's own context. */
  lemma CourseAttached(c: Course, job: RestoreJob, outcome: Option<VaultOutcome>, ok: bool)
    requires CourseOf(c, job, outcome, ok)
    ensures Attached(c.All())
  {
    AttachedJoin(c.lookup, c.stats);
    AttachedJoin(c.lookup + c.stats, c.schema);
    AttachedJoin(c.lookup + c.stats + c.schema, c.drift);
    assert Attached(c.stack) && Attached(c.platform) && (!ok ==> c.Rest() == []);
    AttachedJoin(c.stack, c.platform);
    if ok {
      ImportsAttached(c.imports, Vaults(job));
      AttachedJoin(c.resumes, Flat(c.imports));
      AttachedJoin(c.resumes + Flat(c.imports), c.after);
    }
    AttachedJoin(c.Checks(), c.Restores());
    AttachedJoin(c.Checks() + c.Restores(), c.Rest());
  }

  lemma Associated(head: seq<Event>, a: seq<Event>, b: seq<Event>, c: seq<Event>)
    ensures head + a + b + c == head + (a + b + c)
  {
  }
}
