/** One backup (`internal/backup/usecase/run_backup.go`): what it does, in which order, and when it counts as
    succeeded. */
module RunBackup {
  import opened Wrappers
  import opened GoStrings
  import opened World
  import opened BackupRuns
  import opened Quiesce
  import opened QuiesceWindow
  import opened QuiesceLaws
  import opened BackupTrace

  /** A request, and what the listings return when they succeed. */
  datatype Job = Job(stackId: string, namespace: string, scope: seq<Component>, pvcs: seq<VolumeSpec>,
                     workloads: seq<Workload>,
                     releases: bool, pauser: bool, platformHost: string, keycloakHost: string)

  datatype Execution = Execution(results: map<Component, bool>, artifacts: seq<Artifact>, plan: seq<QuiesceTarget>,
                                 volumes: seq<VolumeSpec>)

  function SizeOf(volumes: seq<VolumeSpec>): nat {
    if volumes == [] then 0 else SizeOf(volumes[..|volumes| - 1]) + volumes[|volumes| - 1].sizeBytes
  }

  /** The size is the sum: that of one volume is its own, and joining lists adds. */
  lemma {:induction false} SizeJoin(a: seq<VolumeSpec>, b: seq<VolumeSpec>)
    ensures SizeOf(a + b) == SizeOf(a) + SizeOf(b)
    ensures forall v :: SizeOf([v]) == v.sizeBytes
  {
    forall v: VolumeSpec ensures SizeOf([v]) == v.sizeBytes { assert [v][..0] == []; }
    if b == [] {
      assert a + b == a;
    } else {
      assert (a + b)[..|a + b| - 1] == a + b[..|b| - 1];
      SizeJoin(a, b[..|b| - 1]);
    }
  }

  /** So the destination is checked for no less than any one of them. */
  lemma SizeCovers(volumes: seq<VolumeSpec>, i: nat)
    requires i < |volumes|
    ensures volumes[i].sizeBytes <= SizeOf(volumes)
  {
    assert volumes == volumes[..i] + [volumes[i]] + volumes[i + 1..];
    SizeJoin(volumes[..i] + [volumes[i]], volumes[i + 1..]);
    SizeJoin(volumes[..i], [volumes[i]]);
  }

  // ---- the stages of execute -----------------------------------------------------------------------------

  /** The preflight succeeded for exactly the space the listed volumes need. */
  ghost predicate Cleared(seg: seq<Event>, volumes: seq<VolumeSpec>) {
    seg != [] && seg[|seg| - 1].ok && seg[|seg| - 1].effect == Preflight(SizeOf(volumes))
  }

  method TotalSize(volumes: seq<VolumeSpec>) returns (required: nat)
    ensures required == SizeOf(volumes)
  {
    required := 0;
    for n := 0 to |volumes|
      invariant required == SizeOf(volumes[..n])
    {
      assert volumes[..n + 1][..n] == volumes[..n];
      required := required + volumes[n].sizeBytes;
    }
    assert volumes[..|volumes|] == volumes;
  }

  /** Schema version and chart versions, as far as they can be read. */
  method ReadContext(out: Outside, job: Job) returns (ghost seg: seq<Event>)
    requires out.Valid()
    modifies out
    ensures out.Valid() && out.trace == old(out.trace) + seg && InOrder(seg, 1, 2)
  {
    hide InOrder, Lawful, Replay, Blank;
    var ok, answer, e := out.Call(SchemaState, false);
    seg := [e];
    OrderFirst(e);
    OrderWider(seg, 1, 1, 2);
    if job.releases && !Blank(job.namespace) {
      ok, answer, e := out.Call(ListReleases, false);
      OrderSnoc(seg, e, 1);
      Joined(old(out.trace), seg, [e]);
      seg := seg + [e];
    }
  }

  /** Lists the volumes in scope and checks the destination for their size, before anything is stopped. */
  method Prepare(out: Outside, job: Job) returns (ok: bool, volumes: seq<VolumeSpec>, ghost seg: seq<Event>)
    requires out.Valid()
    modifies out
    ensures out.Valid() && out.trace == old(out.trace) + seg && InOrder(seg, 1, 4)
    ensures ok ==> volumes == (if Volume in job.scope then job.pvcs else []) && Cleared(seg, volumes)
    ensures !ok ==> !AllOk(seg)
  {
    hide InOrder;
    volumes := [];
    var answer;
    ghost var e;
    seg := ReadContext(out, job);
    if Volume in job.scope {
      ok, answer, e := out.Call(ListPVCs, false);
      LaterSnoc(seg, e, 1, 2);
      Joined(old(out.trace), seg, [e]);
      seg := seg + [e];
      if !ok {
        assert !seg[|seg| - 1].ok;
        OrderWider(seg, 1, 3, 4);
        return;
      }
      volumes := job.pvcs;
    } else {
      OrderWider(seg, 1, 2, 3);
    }
    var required := TotalSize(volumes);
    ok, answer, e := out.Call(Preflight(required), false);
    LaterSnoc(seg, e, 1, 3);
    Joined(old(out.trace), seg, [e]);
    seg := seg + [e];
    assert seg[|seg| - 1] == e;
  }

  function Kinds(artifacts: seq<Artifact>): set<Component> {
    set a | a in artifacts :: a.component
  }

  lemma KindsJoin(a: seq<Artifact>, b: seq<Artifact>)
    ensures Kinds(a + b) == Kinds(a) + Kinds(b)
  {
    assert forall x :: x in a + b <==> x in a || x in b;
  }

  /** Artifacts in the order of the stages that store them, up to this one. */
  ghost predicate Stored(artifacts: seq<Artifact>, last: nat) {
    && (forall i | 0 <= i < |artifacts| :: StageOf(artifacts[i]) <= last)
    && (forall i, j | 0 <= i < j < |artifacts| :: StageOf(artifacts[i]) <= StageOf(artifacts[j]))
  }

  function StageOf(a: Artifact): nat {
    Rank(Put(a.component, a.resourceName))
  }

  lemma StoredMore(artifacts: seq<Artifact>, last: nat, more: seq<Artifact>, c: Component)
    requires Stored(artifacts, last) && last <= Rank(Put(c, "")) && forall a | a in more :: a.component == c
    ensures Stored(artifacts + more, Rank(Put(c, "")))
  {
    forall i | 0 <= i < |more| ensures StageOf(more[i]) == Rank(Put(c, "")) { assert more[i] in more; }
  }

  lemma StoredLater(artifacts: seq<Artifact>, last: nat, later: nat)
    requires Stored(artifacts, last) && last <= later
    ensures Stored(artifacts, later)
  {
  }

  /** A database export needs a configured target. */
  predicate Configured(job: Job, c: Component) {
    (c == PlatformDB ==> !Blank(job.platformHost)) && (c == KeycloakDB ==> !Blank(job.keycloakHost))
  }

  /** What a success stands for: a configured target and an artifact. Of the shared resources there may be nothing
      to keep; the volumes are accounted for one by one. */
  ghost predicate Earned(job: Job, c: Component, kinds: set<Component>) {
    Configured(job, c) && (c != SharedResources && c != Volume ==> c in kinds)
  }

  ghost predicate Backed(job: Job, results: map<Component, bool>, kinds: set<Component>) {
    forall c | c in results && results[c] :: Earned(job, c, kinds)
  }

  // ---- results and calls -------------------------------------------------------------------------------------

  /** Calls on which the result of a component rests. */
  predicate Concerns(e: Effect, c: Component) {
    (e.Put? && e.component == c) || (e.DumpShared? && c == SharedResources)
  }

  ghost predicate Unfailed(seg: seq<Event>, c: Component) {
    forall i | 0 <= i < |seg| && Concerns(seg[i].effect, c) :: seg[i].ok
  }

  /** A component is judged by its calls: a success exactly if it has a configured target and none of them failed. */
  ghost predicate Judged(job: Job, results: map<Component, bool>, seg: seq<Event>, cs: set<Component>) {
    forall c | c in cs :: c in results && (results[c] <==> Configured(job, c) && Unfailed(seg, c))
  }

  /** Where the calls of a component stand in the order of a backup. */
  function Place(c: Component): nat {
    Rank(Put(c, ""))
  }

  lemma ConcernsPlace(e: Effect, c: Component)
    requires Concerns(e, c)
    ensures Rank(e) == Place(c)
  {
  }

  lemma UnfailedJoin(a: seq<Event>, b: seq<Event>, c: Component)
    ensures Unfailed(a + b, c) <==> Unfailed(a, c) && Unfailed(b, c)
  {
    var all := a + b;
    assert forall i | 0 <= i < |b| :: all[|a| + i] == b[i];
    if Unfailed(all, c) {
      forall i | 0 <= i < |a| && Concerns(a[i].effect, c) ensures a[i].ok { assert all[i] == a[i]; }
    }
  }

  /** Calls of other stages do not concern a component. */
  lemma UnfailedElsewhere(seg: seq<Event>, lo: nat, hi: nat, c: Component)
    requires InOrder(seg, lo, hi) && (Place(c) < lo || hi < Place(c))
    ensures Unfailed(seg, c)
  {
    forall i | 0 <= i < |seg| ensures !Concerns(seg[i].effect, c) {
      if Concerns(seg[i].effect, c) { ConcernsPlace(seg[i].effect, c); }
    }
  }

  ghost predicate PlacedIn(cs: set<Component>, lo: nat, hi: nat) {
    forall c | c in cs :: lo <= Place(c) <= hi
  }

  /** Two stages, one after the other. */
  lemma JudgedJoin(job: Job, first: map<Component, bool>, a: seq<Event>, cs: set<Component>, lo: nat, mid: nat,
                   now: map<Component, bool>, b: seq<Event>, ds: set<Component>, hi: nat)
    requires Judged(job, first, a, cs) && InOrder(a, lo, mid) && PlacedIn(cs, lo, mid)
    requires Judged(job, now, b, ds) && InOrder(b, mid + 1, hi) && PlacedIn(ds, mid + 1, hi)
    requires forall c | c in cs && c in first :: c in now && now[c] == first[c]
    ensures Judged(job, now, a + b, cs + ds)
  {
    forall c | c in cs + ds ensures c in now && (now[c] <==> Configured(job, c) && Unfailed(a + b, c)) {
      UnfailedJoin(a, b, c);
      if c in cs { UnfailedElsewhere(b, mid + 1, hi, c); } else { UnfailedElsewhere(a, lo, mid, c); }
    }
  }

  /** Calls before and after all stages that store something do not matter. */
  lemma JudgedAround(job: Job, results: map<Component, bool>, head: seq<Event>, seg: seq<Event>, tail: seq<Event>,
                     cs: set<Component>)
    requires Judged(job, results, seg, cs) && InOrder(head, 0, 4) && InOrder(tail, 17, 20)
    ensures Judged(job, results, head + seg + tail, cs)
  {
    forall c | c in cs ensures results[c] <==> Configured(job, c) && Unfailed(head + seg + tail, c) {
      UnfailedJoin(head + seg, tail, c);
      UnfailedJoin(head, seg, c);
      UnfailedElsewhere(head, 0, 4, c);
      UnfailedElsewhere(tail, 17, 20, c);
    }
  }

  lemma AllOkJoin(a: seq<Event>, b: seq<Event>)
    ensures AllOk(a + b) <==> AllOk(a) && AllOk(b)
  {
    var all := a + b;
    assert forall i | 0 <= i < |a| :: all[i] == a[i];
    assert forall i | 0 <= i < |b| :: all[|a| + i] == b[i];
  }

  /** Streams one component to the store and records its artifact. */
  method PutOne(out: Outside, c: Component) returns (ok: bool, kept: seq<Artifact>, ghost seg: seq<Event>)
    requires out.Valid()
    modifies out
    ensures out.Valid() && out.trace == old(out.trace) + seg && InOrder(seg, Rank(Put(c, "")), Rank(Put(c, "")))
    ensures Kinds(kept) == (if ok then {c} else {}) && forall a | a in kept :: a.component == c
    ensures seg != [] && (ok <==> Unfailed(seg, c))
  {
    var answer;
    ghost var e;
    ok, answer, e := out.Call(Put(c, ""), false);
    seg := [e];
    assert seg[0] == e;
    kept := if ok then [Artifact(c, "", answer.location, answer.bytes, answer.sum)] else [];
    if ok { assert kept[0] in kept; }
  }

  /** The cluster-wide resources; nothing is stored when there are none. */
  method PutShared(out: Outside) returns (ok: bool, kept: seq<Artifact>, ghost seg: seq<Event>)
    requires out.Valid()
    modifies out
    ensures out.Valid() && out.trace == old(out.trace) + seg && InOrder(seg, 6, 6)
    ensures forall a | a in kept :: a.component == SharedResources
    ensures ok <==> Unfailed(seg, SharedResources)
  {
    var answer;
    ghost var e;
    kept := [];
    ok, answer, e := out.Call(DumpShared, false);
    seg := [e];
    assert seg[0] == e;
    if !ok || answer.bytes == 0 { return; }
    ghost var put;
    ok, kept, put := PutOne(out, SharedResources);
    assert seg + put == [e] + put;
    UnfailedJoin(seg, put, SharedResources);
    seg := seg + put;
  }

  /** Only a backup of volumes stops anything, and it brings back what it stopped. */
  ghost predicate WorkloadsKept(seg: seq<Event>, job: Job) {
    BroughtBack(seg, PlanOf(job.workloads)) && (!RequiresQuiesce(job.scope) ==> Quiet(seg))
  }

  lemma KeptAround(head: seq<Event>, seg: seq<Event>, tail: seq<Event>, job: Job)
    requires Quiet(head) && WorkloadsKept(seg, job) && Quiet(tail)
    ensures WorkloadsKept(head + seg + tail, job) && ScalesOf(head + seg + tail, true) == ScalesOf(seg, true)
  {
    BackAround(head, seg, tail, PlanOf(job.workloads));
  }

  lemma DumpedKept(head: seq<Event>, seg: seq<Event>, job: Job)
    requires Quiet(head) && WorkloadsKept(seg, job)
    ensures WorkloadsKept(head + seg, job) && ScalesOf(head + seg, true) == ScalesOf(seg, true)
  {
    KeptAround(head, seg, [], job);
    assert head + seg + [] == head + seg;
  }

  lemma KeptQuiet(seg: seq<Event>, job: Job)
    requires Quiet(seg)
    ensures WorkloadsKept(seg, job) && ScalesOf(seg, true) == []
  {
    QuietBack(seg, PlanOf(job.workloads));
    QuietScales(seg);
  }

  /** The stopping part of a backup of volumes. */
  method ArchiveCold(out: Outside, job: Job, volumes: seq<VolumeSpec>)
    returns (ok: bool, plan: seq<QuiesceTarget>, archived: bool, marked: seq<VolumeSpec>, artifacts: seq<Artifact>,
             ghost seg: seq<Event>)
    requires out.Valid()
    modifies out
    ensures out.Valid() && out.trace == old(out.trace) + seg && InOrder(seg, 7, 13)
    ensures ok ==> plan == PlanOf(job.workloads) && ArchiveResult(volumes, marked, artifacts, archived)
    ensures BroughtBack(seg, PlanOf(job.workloads))
    ensures if ok then archived <==> Unfailed(seg, Volume) else !AllOk(seg)
  {
    ghost var listing, w;
    ok, plan, archived, marked, artifacts, listing, w := WithQuiesce(out, job.workloads, volumes, job.pauser);
    seg := [listing] + w.All();
    ColdOrdered(job.workloads, volumes, job.pauser, listing, plan, w);
    ColdBack(job.workloads, volumes, job.pauser, listing, plan, w);
    if ok {
      ColdJudged(listing, w, plan, job.workloads, volumes, job.pauser);
    } else {
      ColdFailed(listing, w, plan, job.workloads, volumes, job.pauser);
    }
  }

  lemma ArchivesJudged(seg: seq<Event>, volumes: seq<VolumeSpec>)
    requires ArchivedIn(seg, volumes)
    ensures AllOk(seg) <==> Unfailed(seg, Volume)
  {
  }

  lemma WorkJudged(work: seq<Event>, volumes: seq<VolumeSpec>)
    requires Worked(work, volumes) && work[0].ok
    ensures AllOk(work) <==> Unfailed(work, Volume)
  {
    forall i | 0 <= i < |work| && !work[i].ok ensures Concerns(work[i].effect, Volume) {
      assert work[i] == work[1..][i - 1];
    }
  }

  lemma AroundWork(w: Window, plan: seq<QuiesceTarget>, volumes: seq<VolumeSpec>, pauser: bool)
    requires WindowOf(w, plan, volumes, pauser)
    ensures Unfailed(w.pause, Volume) && Unfailed(w.stops, Volume) && Unfailed(w.resumes, Volume)
    ensures Unfailed(w.unpause, Volume)
  {
  }

  /** The archives of the cold part are judged by their calls. */
  lemma ColdJudged(listing: Event, w: Window, plan: seq<QuiesceTarget>, workloads: seq<Workload>,
                   volumes: seq<VolumeSpec>, pauser: bool)
    requires ColdPart(listing, w, plan, workloads, volumes, pauser)
    requires listing.ok && (plan == [] || (w.work != [] && w.work[0].ok))
    ensures AllOk(w.work) <==> Unfailed([listing] + w.All(), Volume)
  {
    UnfailedJoin([listing], w.All(), Volume);
    assert Unfailed([listing], Volume);
    hide Unfailed;
    if plan == [] {
      assert w.All() == w.work;
      ArchivesJudged(w.work, volumes);
    } else {
      WorkJudged(w.work, volumes);
      AroundWork(w, plan, volumes, pauser);
      hide WindowOf, Worked, AllOk;
      UnfailedJoin(w.pause + w.stops + w.work + w.resumes, w.unpause, Volume);
      UnfailedJoin(w.pause + w.stops + w.work, w.resumes, Volume);
      UnfailedJoin(w.pause + w.stops, w.work, Volume);
      UnfailedJoin(w.pause, w.stops, Volume);
    }
  }

  /** Where the cold part ends early, something failed. */
  lemma ColdFailed(listing: Event, w: Window, plan: seq<QuiesceTarget>, workloads: seq<Workload>,
                   volumes: seq<VolumeSpec>, pauser: bool)
    requires ColdPart(listing, w, plan, workloads, volumes, pauser)
    requires !(listing.ok && (plan == [] || (w.work != [] && w.work[0].ok)))
    ensures !AllOk([listing] + w.All())
  {
    if !listing.ok {
      assert ([listing] + w.All())[0] == listing;
    } else {
      assert !AllOk(w.stops) || !AllOk(w.work);
      hide WindowOf;
      AllOkJoin(w.pause, w.stops);
      AllOkJoin(w.pause + w.stops, w.work);
      AllOkJoin(w.pause + w.stops + w.work, w.resumes);
      AllOkJoin(w.pause + w.stops + w.work + w.resumes, w.unpause);
      AllOkJoin([listing], w.All());
    }
  }

  /** Results and artifacts, extended by what was tried for these components. */
  ghost predicate Extended(job: Job, results: map<Component, bool>, kinds: set<Component>, now: map<Component, bool>,
                           kept: set<Component>, added: set<Component>) {
    && now.Keys == results.Keys + added
    && (forall c | c in results && c !in added :: now[c] == results[c])
    && kinds <= kept && Backed(job, now, kept)
  }

  lemma ExtendedJoin(job: Job, r0: map<Component, bool>, k0: set<Component>, r1: map<Component, bool>,
                     k1: set<Component>, a: set<Component>,
                     r2: map<Component, bool>, k2: set<Component>, b: set<Component>)
    requires Extended(job, r0, k0, r1, k1, a) && Extended(job, r1, k1, r2, k2, b)
    ensures Extended(job, r0, k0, r2, k2, a + b)
  {
  }

  lemma ExtendedNone(job: Job, results: map<Component, bool>, kinds: set<Component>)
    requires Backed(job, results, kinds)
    ensures Extended(job, results, kinds, results, kinds, {})
  {
  }

  lemma ExtendedOne(job: Job, results: map<Component, bool>, artifacts: seq<Artifact>, c: Component, ok: bool,
                    more: seq<Artifact>)
    requires Backed(job, results, Kinds(artifacts))
    requires ok ==> Configured(job, c) && (c == SharedResources || c == Volume || c in Kinds(more))
    ensures Extended(job, results, Kinds(artifacts), results[c := ok], Kinds(artifacts + more), {c})
  {
    KindsJoin(artifacts, more);
    hide Kinds, Configured;
  }

  lemma JudgedNone(job: Job, results: map<Component, bool>, seg: seq<Event>)
    ensures Judged(job, results, seg, {})
  {
  }

  lemma JudgedOne(job: Job, results: map<Component, bool>, seg: seq<Event>, c: Component)
    requires c in results && (results[c] <==> Configured(job, c) && Unfailed(seg, c))
    ensures Judged(job, results, seg, {c})
  {
  }

  /** One component, if it is to be tried; without a configured target it fails without a call. */
  method Export(out: Outside, job: Job, c: Component, results: map<Component, bool>, artifacts: seq<Artifact>)
    returns (now: map<Component, bool>, kept: seq<Artifact>, ghost seg: seq<Event>)
    requires out.Valid() && Backed(job, results, Kinds(artifacts)) && Stored(artifacts, Rank(Put(c, "")))
    modifies out
    ensures out.Valid() && out.trace == old(out.trace) + seg && InOrder(seg, Rank(Put(c, "")), Rank(Put(c, "")))
    ensures Stored(kept, Rank(Put(c, "")))
    ensures Extended(job, results, Kinds(artifacts), now, Kinds(kept), Wanted(job, c)) && artifacts <= kept
    ensures Judged(job, now, seg, Wanted(job, c))
  {
    now, kept, seg := results, artifacts, [];
    ExtendedNone(job, results, Kinds(artifacts));
    JudgedNone(job, now, seg);
    hide Judged, Unfailed, Configured, Tried;
    if Tried(job, c) {
      var ok, more := false, [];
      if Configured(job, c) {
        ok, more, seg := PutOne(out, c);
      }
      JudgedOne(job, results[c := ok], seg, c);
      ExtendedOne(job, results, artifacts, c, ok, more);
      StoredMore(artifacts, Rank(Put(c, "")), more, c);
      hide Extended, Backed, Kinds;
      now, kept := results[c := ok], artifacts + more;
    }
  }

  /** The shared resources, if they are in scope, after what was dumped before. */
  method DumpShares(out: Outside, job: Job, results: map<Component, bool>, artifacts: seq<Artifact>)
    returns (now: map<Component, bool>, kept: seq<Artifact>, ghost seg: seq<Event>)
    requires out.Valid() && Backed(job, results, Kinds(artifacts)) && Stored(artifacts, 6)
    modifies out
    ensures out.Valid() && out.trace == old(out.trace) + seg && InOrder(seg, 6, 6) && Stored(kept, 6)
    ensures Extended(job, results, Kinds(artifacts), now, Kinds(kept), Wanted(job, SharedResources))
            && artifacts <= kept
    ensures Judged(job, now, seg, Wanted(job, SharedResources))
  {
    now, kept, seg := results, artifacts, [];
    ExtendedNone(job, results, Kinds(artifacts));
    if SharedResources in job.scope {
      var ok, more;
      ok, more, seg := PutShared(out);
      ExtendedOne(job, results, artifacts, SharedResources, ok, more);
      StoredMore(artifacts, 6, more, SharedResources);
      hide Extended, Backed, Kinds, Configured;
      now, kept := results[SharedResources := ok], artifacts + more;
    }
  }

  /** The dumps taken while the workloads still run. */
  method Dump(out: Outside, job: Job)
    returns (results: map<Component, bool>, artifacts: seq<Artifact>, ghost seg: seq<Event>)
    requires out.Valid()
    modifies out
    ensures out.Valid() && out.trace == old(out.trace) + seg && InOrder(seg, 5, 6) && Stored(artifacts, 6)
    ensures Extended(job, map[], {}, results, Kinds(artifacts),
                     Wanted(job, NamespaceResources) + Wanted(job, SharedResources))
    ensures Judged(job, results, seg, Wanted(job, NamespaceResources) + Wanted(job, SharedResources))
  {
    ghost var own, shared;
    var first, more;
    assert Kinds([]) == {};
    first, more, own := Export(out, job, NamespaceResources, map[], []);
    StoredLater(more, 5, 6);
    results, artifacts, shared := DumpShares(out, job, first, more);
    ExtendedJoin(job, map[], {}, first, Kinds(more), Wanted(job, NamespaceResources), results, Kinds(artifacts),
                 Wanted(job, SharedResources));
    seg := own + shared;
    JudgedJoin(job, first, own, Wanted(job, NamespaceResources), 5, 5, results, shared, Wanted(job, SharedResources),
               6);
    OrderJoin(own, shared, 5, 6, 6);
    Joined(old(out.trace), own, shared);
  }

  method ExportDatabases(out: Outside, job: Job, results: map<Component, bool>, artifacts: seq<Artifact>)
    returns (now: map<Component, bool>, kept: seq<Artifact>, ghost seg: seq<Event>)
    requires out.Valid() && Backed(job, results, Kinds(artifacts)) && Stored(artifacts, 15)
    modifies out
    ensures out.Valid() && out.trace == old(out.trace) + seg && InOrder(seg, 15, 16) && Stored(kept, 16)
    ensures Extended(job, results, Kinds(artifacts), now, Kinds(kept),
                     Wanted(job, PlatformDB) + Wanted(job, KeycloakDB)) && artifacts <= kept
    ensures Judged(job, now, seg, Wanted(job, PlatformDB) + Wanted(job, KeycloakDB))
  {
    ghost var platform, keycloak;
    var first, more;
    first, more, platform := Export(out, job, PlatformDB, results, artifacts);
    StoredLater(more, 15, 16);
    now, kept, keycloak := Export(out, job, KeycloakDB, first, more);
    ExtendedJoin(job, results, Kinds(artifacts), first, Kinds(more), Wanted(job, PlatformDB), now, Kinds(kept),
                 Wanted(job, KeycloakDB));
    seg := platform + keycloak;
    JudgedJoin(job, first, platform, Wanted(job, PlatformDB), 15, 15, now, keycloak, Wanted(job, KeycloakDB), 16);
    OrderJoin(platform, keycloak, 15, 16, 16);
    Joined(old(out.trace), platform, keycloak);
  }

  lemma WantedPlaced(job: Job)
    ensures PlacedIn(Wanted(job, OpenBaoKV), 14, 14)
    ensures PlacedIn(Wanted(job, PlatformDB) + Wanted(job, KeycloakDB), 15, 16)
    ensures forall c | c in Wanted(job, OpenBaoKV) :: c == OpenBaoKV
  {
    hide Tried;
  }

  lemma ExportsJudged(job: Job, first: map<Component, bool>, vault: seq<Event>, now: map<Component, bool>,
                      databases: seq<Event>, e: Event)
    requires Judged(job, first, vault, Wanted(job, OpenBaoKV)) && InOrder(vault, 14, 14)
    requires Judged(job, now, databases, Wanted(job, PlatformDB) + Wanted(job, KeycloakDB))
    requires InOrder(databases, 15, 16) && e.effect == ServerVersion
    requires OpenBaoKV in first ==> OpenBaoKV in now && now[OpenBaoKV] == first[OpenBaoKV]
    ensures Judged(job, now, vault + databases + [e], ExportSet(job))
  {
    assert InOrder([], 0, 4) && InOrder([e], 17, 20);
    hide Judged, InOrder, Tried, Rank;
    WantedPlaced(job);
    hide Wanted, PlacedIn;
    JudgedJoin(job, first, vault, Wanted(job, OpenBaoKV), 14, 14, now, databases,
               Wanted(job, PlatformDB) + Wanted(job, KeycloakDB), 16);
    JudgedAround(job, now, [], vault + databases, [e], ExportSet(job));
    assert [] + (vault + databases) == vault + databases;
  }

  /** The exports that need no downtime: vault before databases. Without a stack there is no vault to export. */
  method ExportAll(out: Outside, job: Job, results: map<Component, bool>, artifacts: seq<Artifact>)
    returns (now: map<Component, bool>, kept: seq<Artifact>, ghost seg: seq<Event>)
    requires out.Valid() && Backed(job, results, Kinds(artifacts)) && Stored(artifacts, 14)
    modifies out
    ensures out.Valid() && out.trace == old(out.trace) + seg && InOrder(seg, 14, 17) && Stored(kept, 16)
    ensures Extended(job, results, Kinds(artifacts), now, Kinds(kept), ExportSet(job)) && artifacts <= kept
    ensures Judged(job, now, seg, ExportSet(job))
  {
    ghost var vault, databases, e;
    var first, more, ok, answer;
    first, more, vault := Export(out, job, OpenBaoKV, results, artifacts);
    StoredLater(more, 14, 15);
    now, kept, databases := ExportDatabases(out, job, first, more);
    ExtendedJoin(job, results, Kinds(artifacts), first, Kinds(more), Wanted(job, OpenBaoKV), now, Kinds(kept),
                 Wanted(job, PlatformDB) + Wanted(job, KeycloakDB));
    ok, answer, e := out.Call(ServerVersion, false);
    seg := vault + databases + [e];
    ExportsJudged(job, first, vault, now, databases, e);
    OrderJoin(vault, databases, 14, 15, 16);
    OrderJoin(vault + databases, [e], 14, 17, 17);
    Joined(old(out.trace), vault, databases);
    Joined(old(out.trace), vault + databases, [e]);
  }

  function Wanted(job: Job, c: Component): set<Component> {
    if Tried(job, c) then {c} else {}
  }

  /** The components a backup of this job tries: its scope, but no vault without a stack. */
  predicate Tried(job: Job, c: Component) {
    c in job.scope && (c == OpenBaoKV ==> !Blank(job.stackId))
  }

  // ---- execute ---------------------------------------------------------------------------------------------

  /** No workload is scaled before the destination was found good for the whole size of the volumes. */
  ghost predicate ClearedFirst(seg: seq<Event>, volumes: seq<VolumeSpec>) {
    forall i | 0 <= i < |seg| && seg[i].effect.Scale? ::
      exists j :: 0 <= j < i && seg[j].ok && seg[j].effect == Preflight(SizeOf(volumes))
  }

  lemma ClearedJoin(prepare: seq<Event>, rest: seq<Event>, volumes: seq<VolumeSpec>)
    requires InOrder(prepare, 1, 4) && Cleared(prepare, volumes)
    ensures ClearedFirst(prepare + rest, volumes)
  {
    var seg := prepare + rest;
    forall i | 0 <= i < |seg| && seg[i].effect.Scale?
      ensures exists j :: 0 <= j < i && seg[j].ok && seg[j].effect == Preflight(SizeOf(volumes))
    {
      assert Rank(seg[i].effect) > 4;
      assert seg[|prepare| - 1] == prepare[|prepare| - 1];
    }
  }

  /** The listed volumes and, if archiving them succeeded, an artifact with its recorded checksum for each. */
  ghost predicate ArchiveOf(x: Execution, listed: seq<VolumeSpec>) {
    && |x.volumes| == |listed| && Volume in x.results
    && (forall i | 0 <= i < |listed| ::
         x.volumes[i].name == listed[i].name
         && x.volumes[i].sizeBytes == listed[i].sizeBytes)
    && (x.results[Volume] ==> forall i | 0 <= i < |listed| :: Recorded(x.volumes[i], x.artifacts))
  }

  lemma ArchiveOfMore(x: Execution, listed: seq<VolumeSpec>, y: Execution)
    requires ArchiveOf(x, listed) && y.volumes == x.volumes
    requires Volume in y.results && y.results[Volume] == x.results[Volume]
    requires forall a | a in x.artifacts :: a in y.artifacts
    ensures ArchiveOf(y, listed)
  {
    if x.results[Volume] {
      forall i | 0 <= i < |listed| ensures Recorded(y.volumes[i], y.artifacts) {
        assert Recorded(x.volumes[i], x.artifacts);
        var a :| a in x.artifacts && a.component == Volume && a.resourceName == x.volumes[i].name
          && a.checksum == x.volumes[i].checksum;
        assert a in y.artifacts;
      }
    }
  }

  /** What the part up to the exports leaves, if it ran to its end. */
  ghost predicate ColdEnds(job: Job, x: Execution) {
    && Backed(job, x.results, Kinds(x.artifacts)) && x.results.Keys == ColdSet(job) && Stored(x.artifacts, 11)
    && (Volume in job.scope ==> x.plan == PlanOf(job.workloads) && ArchiveOf(x, job.pvcs))
  }

  lemma Archived(job: Job, results: map<Component, bool>, artifacts: seq<Artifact>, x: Execution, archived: bool,
                 stored: seq<Artifact>)
    requires Volume in job.scope && Backed(job, results, Kinds(artifacts)) && Stored(artifacts, 6)
    requires results.Keys == Wanted(job, NamespaceResources) + Wanted(job, SharedResources)
    requires x == Execution(results[Volume := archived], artifacts + stored, PlanOf(job.workloads), x.volumes)
    requires ArchiveResult(job.pvcs, x.volumes, stored, archived)
    ensures ColdEnds(job, x)
  {
    KindsJoin(artifacts, stored);
    forall a | a in stored ensures a.component == Volume { var i :| 0 <= i < |stored| && stored[i] == a; }
    StoredMore(artifacts, 6, stored, Volume);
    ArchiveOfMore(Execution(map[Volume := archived], stored, x.plan, x.volumes), job.pvcs, x);
  }

  lemma NotArchived(job: Job, x: Execution)
    requires Volume !in job.scope && Backed(job, x.results, Kinds(x.artifacts)) && Stored(x.artifacts, 6)
    requires x.results.Keys == Wanted(job, NamespaceResources) + Wanted(job, SharedResources)
    ensures ColdEnds(job, x)
  {
    StoredLater(x.artifacts, 6, 11);
  }

  /** Dumps, then the stop window where volumes are in scope: the middle of `execute`. */
  method DumpAndArchive(out: Outside, job: Job, volumes: seq<VolumeSpec>)
    returns (ok: bool, x: Execution, ghost seg: seq<Event>)
    requires out.Valid() && (Volume in job.scope ==> volumes == job.pvcs)
    modifies out
    ensures out.Valid() && out.trace == old(out.trace) + seg && InOrder(seg, 5, 13)
    ensures ok ==> ColdEnds(job, x)
    ensures if ok then Judged(job, x.results, seg, ColdSet(job)) else !AllOk(seg)
    ensures WorkloadsKept(seg, job)
  {
    var results, artifacts;
    results, artifacts, seg := Dump(out, job);
    OrderQuiet(seg, 5, 6);
    KeptQuiet(seg, job);
    ok, x := true, Execution(results, artifacts, [], volumes);
    if Volume !in job.scope { NotArchived(job, x); }
    assert Volume !in job.scope ==>
        ColdSet(job) == Wanted(job, NamespaceResources) + Wanted(job, SharedResources);
    hide Judged, AllOk;
    hide BroughtBack, ScalesOf, Quiet, InOrder, NoScale, Stored, WorkloadsKept, ColdEnds, ArchiveOf;
    if RequiresQuiesce(job.scope) {
      var plan, archived, marked, stored;
      ghost var cold;
      ok, plan, archived, marked, stored, cold := ArchiveCold(out, job, volumes);
      x := Execution(results[Volume := archived], artifacts + stored, plan, marked);
      if ok {
        Archived(job, results, artifacts, x, archived, stored);
        ArchivedJudged(job, results, seg, x.results, cold, archived);
      }
      AllOkJoin(seg, cold);
      OrderJoin(seg, cold, 5, 7, 13);
      Joined(old(out.trace), seg, cold);
      DumpedKept(seg, cold, job);
      seg := seg + cold;
    }
  }

  lemma ArchivedJudged(job: Job, results: map<Component, bool>, seg: seq<Event>, now: map<Component, bool>,
                       cold: seq<Event>, archived: bool)
    requires Judged(job, results, seg, Wanted(job, NamespaceResources) + Wanted(job, SharedResources))
    requires InOrder(seg, 5, 6) && InOrder(cold, 7, 13) && now == results[Volume := archived] && Volume in job.scope
    requires archived <==> Unfailed(cold, Volume)
    ensures Judged(job, now, seg + cold, ColdSet(job))
  {
    assert Judged(job, now, cold, {Volume});
    assert ColdSet(job) == Wanted(job, NamespaceResources) + Wanted(job, SharedResources) + {Volume};
    hide Judged, InOrder;
    JudgedJoin(job, results, seg, Wanted(job, NamespaceResources) + Wanted(job, SharedResources), 5, 6,
               now, cold, {Volume}, 13);
  }

  /** What an execution that ran to its end leaves: a result for exactly the components to be tried, what each
      success stands for, and the volumes as `ArchiveOf` says. */
  ghost predicate Complete(job: Job, x: Execution) {
    && (forall c :: c in x.results <==> c in job.scope && (c == OpenBaoKV ==> !Blank(job.stackId)))
    && Backed(job, x.results, Kinds(x.artifacts)) && Stored(x.artifacts, 16)
    && (Volume in job.scope ==> x.plan == PlanOf(job.workloads) && ArchiveOf(x, job.pvcs))
  }

  function ColdSet(job: Job): set<Component> {
    Wanted(job, NamespaceResources) + Wanted(job, SharedResources) + Wanted(job, Volume)
  }

  function ExportSet(job: Job): set<Component> {
    Wanted(job, OpenBaoKV) + (Wanted(job, PlatformDB) + Wanted(job, KeycloakDB))
  }

  lemma WantedAlone(job: Job, c: Component, d: Component)
    ensures c in Wanted(job, d) <==> c == d && Tried(job, c)
  {
  }

  lemma AllTried(job: Job, c: Component)
    ensures c in ColdSet(job) + ExportSet(job) <==> Tried(job, c)
    ensures c == Volume ==> c !in ExportSet(job)
  {
    WantedAlone(job, c, NamespaceResources);
    WantedAlone(job, c, SharedResources);
    WantedAlone(job, c, Volume);
    WantedAlone(job, c, OpenBaoKV);
    WantedAlone(job, c, PlatformDB);
    WantedAlone(job, c, KeycloakDB);
    var tried := Tried(job, c);
    assert c.NamespaceResources? || c.SharedResources? || c.Volume? || c.OpenBaoKV? || c.PlatformDB? || c.KeycloakDB?;
  }

  lemma CompleteFrom(job: Job, x: Execution, y: Execution)
    requires x.results.Keys == ColdSet(job) && Stored(y.artifacts, 16)
    requires Volume in job.scope ==> x.plan == PlanOf(job.workloads) && ArchiveOf(x, job.pvcs)
    requires y.plan == x.plan && y.volumes == x.volumes && x.artifacts <= y.artifacts
    requires Extended(job, x.results, Kinds(x.artifacts), y.results, Kinds(y.artifacts), ExportSet(job))
    ensures Complete(job, y)
  {
    if Volume in job.scope {
      AllTried(job, Volume);
      ArchiveOfMore(x, job.pvcs, y);
    }
    forall c ensures c in y.results <==> Tried(job, c) {
      AllTried(job, c);
    }
  }

  /** What is left to do once everything that needs stopping is done. */
  method FinishExecute(out: Outside, job: Job, x: Execution) returns (y: Execution, ghost seg: seq<Event>)
    requires out.Valid() && ColdEnds(job, x)
    modifies out
    ensures out.Valid() && out.trace == old(out.trace) + seg && InOrder(seg, 14, 17)
    ensures Complete(job, y) && Judged(job, y.results, seg, ExportSet(job))
    ensures forall c | c in x.results && c !in ExportSet(job) :: c in y.results && y.results[c] == x.results[c]
  {
    var results, artifacts;
    StoredLater(x.artifacts, 11, 14);
    results, artifacts, seg := ExportAll(out, job, x.results, x.artifacts);
    y := x.(results := results, artifacts := artifacts);
    CompleteFrom(job, x, y);
  }

  /** The whole of `execute`. None: it stopped early, and the run fails. */
  method Execute(out: Outside, job: Job) returns (r: Option<Execution>, ghost seg: seq<Event>)
    requires out.Valid()
    modifies out
    ensures out.Valid() && out.trace == old(out.trace) + seg && InOrder(seg, 1, 17)
    ensures ClearedFirst(seg, if Volume in job.scope then job.pvcs else [])
    ensures r.Some? ==> Complete(job, r.value)
    ensures if r.Some? then Judged(job, r.value.results, seg, ColdSet(job) + ExportSet(job)) else !AllOk(seg)
    ensures WorkloadsKept(seg, job)
  {
    r := None;
    var ok, volumes, x;
    ghost var head, middle, tail;
    ok, volumes, head := Prepare(out, job);
    OrderQuiet(head, 1, 4);
    hide Judged, AllOk, WorkloadsKept, Complete, ColdEnds, Quiet;
    if !ok {
      seg := head;
      KeptQuiet(head, job);
      NothingScaled(head, 1, 4, if Volume in job.scope then job.pvcs else []);
      return;
    }
    ok, x, middle := DumpAndArchive(out, job, volumes);
    tail := [];
    if ok {
      ghost var cold := x.results;
      x, tail := FinishExecute(out, job, x);
      r := Some(x);
      AllJudged(job, cold, head, middle, x.results, tail);
    }
    seg := head + (middle + tail);
    AllOkJoin(middle, tail);
    AllOkJoin(head, middle + tail);
    Assembled(job, volumes, old(out.trace), head, middle, tail);
  }

  /** The parts of an execution make an execution. */
  lemma Assembled(job: Job, volumes: seq<VolumeSpec>, start: seq<Event>, head: seq<Event>, middle: seq<Event>,
                  tail: seq<Event>)
    requires InOrder(head, 1, 4) && Cleared(head, volumes) && InOrder(middle, 5, 13) && WorkloadsKept(middle, job)
    requires tail == [] || InOrder(tail, 14, 17)
    ensures var seg := head + (middle + tail);
            && start + head + middle + tail == start + seg && InOrder(seg, 1, 17) && ClearedFirst(seg, volumes)
            && WorkloadsKept(seg, job)
  {
    OrderQuiet(head, 1, 4);
    OrderQuiet(tail, 14, 17);
    hide WorkloadsKept, Quiet, Rank;
    OrderJoin(middle, tail, 5, 14, 17);
    OrderJoin(head, middle + tail, 1, 5, 17);
    ClearedJoin(head, middle + tail, volumes);
    hide InOrder, Cleared, ClearedFirst;
    KeptAround(head, middle, tail, job);
    Joined(head, middle, tail);
    Joined(start + head, middle, tail);
    Joined(start, head, middle + tail);
  }

  lemma NothingScaled(seg: seq<Event>, lo: nat, hi: nat, volumes: seq<VolumeSpec>)
    requires InOrder(seg, lo, hi) && hi < 9
    ensures ClearedFirst(seg, volumes)
  {
    forall i | 0 <= i < |seg| ensures !seg[i].effect.Scale? { assert lo <= Rank(seg[i].effect) <= hi; }
  }

  lemma SetsPlaced(job: Job)
    ensures PlacedIn(ColdSet(job), 5, 13) && PlacedIn(ExportSet(job), 14, 17)
    ensures forall c | c in ColdSet(job) :: c !in ExportSet(job)
  {
    hide Tried;
    forall c | c in ColdSet(job) ensures c in {NamespaceResources, SharedResources, Volume} {}
    forall c | c in ExportSet(job) ensures c in {OpenBaoKV, PlatformDB, KeycloakDB} {}
  }

  lemma AllJudged(job: Job, cold: map<Component, bool>, head: seq<Event>, middle: seq<Event>,
                  now: map<Component, bool>, tail: seq<Event>)
    requires Judged(job, cold, middle, ColdSet(job)) && Judged(job, now, tail, ExportSet(job))
    requires InOrder(head, 1, 4) && InOrder(middle, 5, 13) && InOrder(tail, 14, 17)
    requires forall c | c in cold && c !in ExportSet(job) :: c in now && now[c] == cold[c]
    ensures Judged(job, now, head + (middle + tail), ColdSet(job) + ExportSet(job))
  {
    hide Judged, ColdSet, ExportSet, PlacedIn, Rank;
    SetsPlaced(job);
    assert InOrder(head, 0, 4) && InOrder([], 17, 20);
    hide InOrder;
    JudgedJoin(job, cold, middle, ColdSet(job), 5, 13, now, tail, ExportSet(job), 17);
    JudgedAround(job, now, head, middle + tail, [], ColdSet(job) + ExportSet(job));
    assert head + (middle + tail) + [] == head + (middle + tail);
  }

  // ---- a whole run -------------------------------------------------------------------------------------------

  /** Which cluster adapters the request could be given. */
  datatype Adapters = Adapters(resources: bool, shared: bool, archiver: bool, scaler: bool)

  /** The chosen scope, or the one its mode stands for. */
  function Scoped(mode: Mode, job: Job): Job {
    if job.scope == [] then job.(scope := ModeComponents(mode)) else job
  }

  predicate Unadapted(scope: seq<Component>, adapters: Adapters) {
    || (NamespaceResources in scope && !adapters.resources)
    || (SharedResources in scope && !adapters.shared)
    || (Volume in scope && !(adapters.archiver && adapters.scaler))
  }

  /** Requests turned away before anything is recorded or called. */
  predicate Refused(mode: Mode, job: Job, adapters: Adapters) {
    || mode.UnknownMode?
    || (mode != PlatformOnly && job.namespace == "")
    || Unadapted(Scoped(mode, job).scope, adapters)
  }

  method MissingAdapters(scope: seq<Component>, adapters: Adapters) returns (missing: seq<Component>)
    ensures missing != [] <==> Unadapted(scope, adapters)
  {
    missing := [];
    for n := 0 to |scope|
      invariant missing != [] <==> Unadapted(scope[..n], adapters)
    {
      assert scope[..n + 1] == scope[..n] + [scope[n]];
      match scope[n] {
        case NamespaceResources => if !adapters.resources { missing := missing + [scope[n]]; }
        case SharedResources => if !adapters.shared { missing := missing + [scope[n]]; }
        case Volume => if !adapters.archiver || !adapters.scaler { missing := missing + [scope[n]]; }
        case _ =>
      }
    }
    assert scope[..|scope|] == scope;
  }

  /** The record is closed and the result announced even when the request is gone. */
  ghost predicate Closing(seg: seq<Event>, notifier: bool) {
    && |seg| == (if notifier then 2 else 1) && seg[0].effect == SaveRun(true)
    && (notifier ==> seg[1].effect == Notify) && forall i | 0 <= i < |seg| :: seg[i].detached
  }

  lemma ClosingOrdered(seg: seq<Event>, notifier: bool)
    requires Closing(seg, notifier)
    ensures InOrder(seg, 18, 19)
  {
  }

  method Finish(out: Outside, notifier: bool) returns (ghost seg: seq<Event>)
    requires out.Valid()
    modifies out
    ensures out.Valid() && out.trace == old(out.trace) + seg && Closing(seg, notifier)
  {
    var ok, answer, e := out.Call(SaveRun(true), true);
    seg := [e];
    if notifier {
      ghost var told;
      ok, answer, told := out.Call(Notify, true);
      Joined(old(out.trace), seg, [told]);
      seg := seg + [told];
    }
  }

  /** Turns a bad request away before anything is recorded; else the scope of the run. */
  method Admit(mode: Mode, request: Job, adapters: Adapters) returns (scope: Option<seq<Component>>)
    ensures scope == if Refused(mode, request, adapters) then None else Some(Scoped(mode, request).scope)
  {
    scope := None;
    if !mode.UnknownMode? && (mode == PlatformOnly || request.namespace != "") {
      var chosen := if request.scope == [] then ModeComponents(mode) else request.scope;
      var missing := MissingAdapters(chosen, adapters);
      if missing == [] { scope := Some(chosen); }
    }
  }

  /** The run is recorded and, if that worked, its start. */
  ghost predicate Opening(seg: seq<Event>) {
    && seg != [] && seg[0].effect == CreateRun
    && if seg[0].ok then |seg| == 2 && seg[1].effect == SaveRun(false) else |seg| == 1
  }

  lemma OpeningOrdered(seg: seq<Event>)
    requires Opening(seg)
    ensures InOrder(seg, 0, 0)
  {
  }

  method Open(out: Outside) returns (ok: bool, ghost seg: seq<Event>)
    requires out.Valid()
    modifies out
    ensures out.Valid() && out.trace == old(out.trace) + seg && Opening(seg) && (ok <==> seg[0].ok)
    ensures seg[0].ahead == old(out.answers)
  {
    var answer;
    ghost var e;
    ok, answer, e := out.Call(CreateRun, false);
    seg := [e];
    if ok {
      var saved, reply;
      ghost var update;
      saved, reply, update := out.Call(SaveRun(false), false);
      Joined(old(out.trace), seg, [update]);
      seg := seg + [update];
    }
  }

  /** What a run ends with: its verdict over the results of an execution that ran to its end, else failure. */
  ghost predicate Ended(job: Job, x: Option<Execution>, status: Status, manifest: Option<Manifest>) {
    match x
    case None => status == Failed && manifest == None
    case Some(done) =>
      && Complete(job, done) && Verdict(done.results, status)
      && manifest == Some(Manifest(job.namespace, SpecsOf(done.plan), done.volumes, EntriesOf(done.artifacts)))
  }

  /** Every result is accounted for by the calls made; and where there are no results, some call failed. */
  ghost predicate Accounted(job: Job, x: Option<Execution>, seg: seq<Event>) {
    match x
    case None => !AllOk(seg)
    case Some(done) => Judged(job, done.results, seg, ColdSet(job) + ExportSet(job))
  }

  lemma AccountedAround(job: Job, x: Option<Execution>, head: seq<Event>, seg: seq<Event>, tail: seq<Event>)
    requires Accounted(job, x, seg) && InOrder(head, 0, 0) && InOrder(tail, 18, 19)
    ensures Accounted(job, x, head + seg + tail)
  {
    assert InOrder(head, 0, 4) && InOrder(tail, 17, 20);
    hide InOrder, Judged, AllOk;
    if x.Some? { JudgedAround(job, x.value.results, head, seg, tail, ColdSet(job) + ExportSet(job)); }
    AllOkJoin(head, seg);
    AllOkJoin(head + seg, tail);
  }

  /** Judges the execution and writes the manifest. */
  method Judge(run: BackupRun, job: Job, x: Option<Execution>) returns (manifest: Option<Manifest>)
    requires x.Some? ==> Complete(job, x.value)
    modifies run
    ensures Ended(job, x, run.status, manifest)
  {
    manifest := None;
    match x
    case None =>
      run.Fail();
    case Some(done) =>
      run.Complete(done.results);
      var m := BuildManifest(job.namespace, done.plan, done.volumes, done.artifacts);
      manifest := Some(m);
  }

  /** The body of a recorded run: executing, judging and closing. */
  method Carry(out: Outside, job: Job, run: BackupRun, notifier: bool)
    returns (manifest: Option<Manifest>, ghost x: Option<Execution>, ghost seg: seq<Event>, ghost closing: seq<Event>)
    requires out.Valid()
    modifies out, run
    ensures out.Valid() && out.trace == old(out.trace) + seg + closing && InOrder(seg, 1, 17)
    ensures Ended(job, x, run.status, manifest) && Closing(closing, notifier)
    ensures ClearedFirst(seg, if Volume in job.scope then job.pvcs else [])
    ensures Accounted(job, x, seg)
    ensures WorkloadsKept(seg, job)
  {
    var done;
    done, seg := Execute(out, job);
    x := done;
    manifest := Judge(run, job, done);
    closing := Finish(out, notifier);
  }

  /** What an admitted request leads to. */
  method Record(out: Outside, job: Job, notifier: bool)
    returns (run: BackupRun?, manifest: Option<Manifest>, ghost x: Option<Execution>, ghost seg: seq<Event>,
             ghost closing: seq<Event>)
    requires out.Valid()
    modifies out
    ensures out.Valid() && out.trace == old(out.trace) + (seg + closing) && InOrder(seg + closing, 0, 19)
    ensures run == null ==> manifest == None && closing == [] && !AllOk(seg)
    ensures run != null ==>
              fresh(run) && Ended(job, x, run.status, manifest) && Closing(closing, notifier)
              && Accounted(job, x, seg + closing)
    ensures ClearedFirst(seg + closing, if Volume in job.scope then job.pvcs else [])
    ensures WorkloadsKept(seg + closing, job)
    ensures seg != [] && seg[0].ahead == old(out.answers)
  {
    run, manifest, x, closing := null, None, None, [];
    ghost var volumes := if Volume in job.scope then job.pvcs else [];
    var recorded;
    recorded, seg := Open(out);
    OpeningOrdered(seg);
    OrderQuiet(seg, 0, 0);
    KeptQuiet(seg, job);
    NothingScaled(seg, 0, 0, volumes);
    assert seg + closing == seg;
    assert !recorded ==> !AllOk(seg);
    hide AllOk, Accounted, BroughtBack, ScalesOf, Quiet, NoScale, WorkloadsKept, InOrder, ClearedFirst, Opening;
    if recorded {
      run := new BackupRun(job.scope);
      var started := run.Start();
      ghost var body;
      manifest, x, body, closing := Carry(out, job, run, notifier);
      ClosingOrdered(closing, notifier);
      Framed(old(out.trace), seg, body, closing, volumes);
      KeptAround(seg, body, closing, job);
      AccountedAround(job, x, seg, body, closing);
      seg := seg + body;
    }
  }

  /** One backup, from the request to the closed record. */
  method Run(out: Outside, mode: Mode, request: Job, adapters: Adapters, notifier: bool)
    returns (run: BackupRun?, manifest: Option<Manifest>, ghost x: Option<Execution>, ghost seg: seq<Event>,
             ghost closing: seq<Event>)
    requires out.Valid()
    modifies out
    ensures out.Valid() && out.trace == old(out.trace) + (seg + closing) && InOrder(seg + closing, 0, 19)
    ensures Refused(mode, request, adapters) ==> run == null && seg + closing == []
    ensures run == null ==> manifest == None && closing == [] && (Refused(mode, request, adapters) || !AllOk(seg))
    ensures run != null ==>
              fresh(run) && Ended(Scoped(mode, request), x, run.status, manifest)
              && Closing(closing, notifier) && Accounted(Scoped(mode, request), x, seg + closing)
    ensures ClearedFirst(seg + closing, if Volume in Scoped(mode, request).scope then request.pvcs else [])
    ensures WorkloadsKept(seg + closing, Scoped(mode, request))
    ensures Truthful(old(out.cluster), request.workloads) && AllOk(ScalesOf(seg + closing, true)) ==>
            out.cluster == old(out.cluster)
    ensures NeverFails(old(out.answers)) ==> AllOk(ScalesOf(seg + closing, true)) && AllOk(closing)
  {
    var job := Scoped(mode, request);
    var scope := Admit(mode, request, adapters);
    if scope == None {
      KeptQuiet([], job);
      return null, None, None, [], [];
    }
    run, manifest, x, seg, closing := Record(out, job, notifier);
    Restored(out.start, old(out.trace), seg + closing, job);
    LawfulPart(old(out.trace), seg + closing);
    if NeverFails(old(out.answers)) { WithoutFailures(seg, closing, job); }
    hide BroughtBack, ScalesOf, Quiet, NoScale, WorkloadsKept, InOrder, ClearedFirst;
  }

  lemma WithoutFailures(seg: seq<Event>, closing: seq<Event>, job: Job)
    requires seg != [] && NeverFails(seg[0].ahead) && Answered(seg + closing) && WorkloadsKept(seg + closing, job)
    requires forall i | 0 <= i < |closing| :: closing[i].detached
    ensures AllOk(ScalesOf(seg + closing, true)) && AllOk(closing)
  {
    var all := seg + closing;
    assert all[0] == seg[0];
    ResumedWithoutFailures(all, PlanOf(job.workloads));
    forall i | 0 <= i < |closing| ensures closing[i].ok {
      assert all[|seg| + i] == closing[i] && all[|seg| + i].gone == closing[i].gone;
    }
  }

  lemma Restored(start: Cluster, before: seq<Event>, seg: seq<Event>, job: Job)
    requires InOrder(seg, 0, 19) && WorkloadsKept(seg, job)
    ensures Truthful(Replay(start, before), job.workloads) && AllOk(ScalesOf(seg, true)) ==>
              Replay(start, before + seg) == Replay(start, before)
  {
    ReplayConcat(start, before, seg);
    if Truthful(Replay(start, before), job.workloads) && AllOk(ScalesOf(seg, true)) {
      BackupRestores(Replay(start, before), seg, 0, 19, job.workloads);
    }
  }

  lemma Framed(start: seq<Event>, head: seq<Event>, body: seq<Event>, tail: seq<Event>, volumes: seq<VolumeSpec>)
    requires InOrder(head, 0, 0) && InOrder(body, 1, 17) && InOrder(tail, 18, 19) && ClearedFirst(body, volumes)
    ensures Quiet(head) && Quiet(tail)
    ensures start + head + body + tail == start + (head + body + tail)
    ensures InOrder(head + body + tail, 0, 19) && ClearedFirst(head + body + tail, volumes)
  {
    OrderQuiet(head, 0, 0);
    OrderQuiet(tail, 18, 19);
    OrderJoin(head, body, 0, 1, 17);
    OrderJoin(head + body, tail, 0, 18, 19);
    ClearedLater(head, body, volumes);
    QuietAfter(head + body, tail, volumes);
  }

  lemma ClearedLater(head: seq<Event>, seg: seq<Event>, volumes: seq<VolumeSpec>)
    requires InOrder(head, 0, 0) && ClearedFirst(seg, volumes)
    ensures ClearedFirst(head + seg, volumes)
  {
    var all := head + seg;
    forall i | 0 <= i < |all| && all[i].effect.Scale?
      ensures exists j :: 0 <= j < i && all[j].ok && all[j].effect == Preflight(SizeOf(volumes))
    {
      var k := i - |head|;
      assert Rank(all[i].effect) > 0;
      assert seg[k].effect.Scale?;
      var j :| 0 <= j < k && seg[j].ok && seg[j].effect == Preflight(SizeOf(volumes));
      assert all[|head| + j] == seg[j];
    }
  }

  lemma QuietAfter(seg: seq<Event>, tail: seq<Event>, volumes: seq<VolumeSpec>)
    requires ClearedFirst(seg, volumes) && InOrder(tail, 18, 19)
    ensures ClearedFirst(seg + tail, volumes)
  {
    var all := seg + tail;
    forall i | 0 <= i < |all| && all[i].effect.Scale?
      ensures exists j :: 0 <= j < i && all[j].ok && all[j].effect == Preflight(SizeOf(volumes))
    {
      assert Rank(all[i].effect) <= 12;
      assert i < |seg| && seg[i].effect.Scale?;
      var j :| 0 <= j < i && seg[j].ok && seg[j].effect == Preflight(SizeOf(volumes));
      assert all[j] == seg[j];
    }
  }

  /** Succeeded means whole: something was to be tried, all of it succeeded for a reason, and every volume listed has
      an artifact whose checksum is the one recorded on the volume. Nothing else is called succeeded. */
  lemma SucceededIsWhole(job: Job, x: Execution, status: Status)
    requires Complete(job, x) && Verdict(x.results, status)
    ensures status == Succeeded <==> (exists c :: Tried(job, c)) && forall c | Tried(job, c) :: x.results[c]
    ensures status == Succeeded ==>
              && (forall c | c in job.scope
                  && (c == OpenBaoKV ==> !Blank(job.stackId)) :: Earned(job, c, Kinds(x.artifacts)))
              && (Volume in job.scope ==> |x.volumes| == |job.pvcs| && forall i | 0 <= i < |job.pvcs| ::
                    x.volumes[i].name == job.pvcs[i].name && Recorded(x.volumes[i], x.artifacts))
  {
    hide Blank, Verdict, Stored, Kinds, PlanOf;
    ResultsTried(job, x);
    SucceededAll(job, x.results, status);
    if status == Succeeded {
      forall c | Tried(job, c) ensures x.results[c] && Earned(job, c, Kinds(x.artifacts)) { assert c in x.results; }
      if Volume in job.scope { assert Tried(job, Volume); }
    }
  }

  lemma ResultsTried(job: Job, x: Execution)
    requires Complete(job, x)
    ensures forall c :: c in x.results <==> Tried(job, c)
  {
    hide Blank;
  }

  lemma SucceededAll(job: Job, results: map<Component, bool>, status: Status)
    requires Verdict(results, status) && forall c :: c in results <==> Tried(job, c)
    ensures status == Succeeded <==> (exists c :: Tried(job, c)) && forall c | Tried(job, c) :: results[c]
  {
    hide Tried;
    if c: Component :| Tried(job, c) {
      assert c in results;
    } else {
      assert results == map[];
    }
  }

  /** A backup succeeds exactly if it had something to try, every component it tried has a configured target, and none
      of the calls on which their results rest failed. */
  lemma SucceedsIff(job: Job, x: Option<Execution>, status: Status, manifest: Option<Manifest>, seg: seq<Event>)
    requires Ended(job, x, status, manifest) && Accounted(job, x, seg)
    ensures status == Succeeded <==>
            && x.Some? && (exists c :: Tried(job, c))
            && forall c | Tried(job, c) :: Configured(job, c) && Unfailed(seg, c)
  {
    if x.Some? {
      ResultsTried(job, x.value);
      SucceededAll(job, x.value.results, status);
      forall c | Tried(job, c) ensures x.value.results[c] <==> Configured(job, c) && Unfailed(seg, c) {
        AllTried(job, c);
      }
    }
  }

  /** So when no call fails, a backup with something to try succeeds exactly if its databases have a configured host. */
  lemma UnfailingBackupSucceeds(job: Job, x: Option<Execution>, status: Status, manifest: Option<Manifest>,
                                seg: seq<Event>)
    requires Ended(job, x, status, manifest) && Accounted(job, x, seg) && AllOk(seg)
    requires exists c :: Tried(job, c)
    ensures status == Succeeded <==>
            (PlatformDB in job.scope ==> !Blank(job.platformHost))
            && (KeycloakDB in job.scope ==> !Blank(job.keycloakHost))
  {
    SucceedsIff(job, x, status, manifest, seg);
    assert forall c :: Unfailed(seg, c);
    hide Blank, Unfailed;
    assert Tried(job, PlatformDB) <==> PlatformDB in job.scope;
    assert Tried(job, KeycloakDB) <==> KeycloakDB in job.scope;
  }
}
