/** The quiesce window of a backup: `withQuiesce` and `archiveVolumes` in
    `internal/backup/usecase/run_backup.go`. */
module QuiesceWindow {
  import opened Sequences
  import opened World
  import opened Quiesce

  /** Targets scaled to zero, in plan order, as far as it went. */
  ghost predicate Stopped(seg: seq<Event>, plan: seq<QuiesceTarget>) {
    |seg| <= |plan| && forall i | 0 <= i < |seg| :: seg[i].effect == Scale(plan[i].id, plan[i].scaleDownTo)
  }

  /** One resume per target, to its original replicas, in reverse plan order, whether or not the request is over. */
  ghost predicate Resumed(seg: seq<Event>, plan: seq<QuiesceTarget>) {
    && |seg| == |plan|
    && (forall i | 0 <= i < |seg| ::
          seg[i].effect == Scale(Reversed(plan)[i].id, Reversed(plan)[i].originalReplicas))
    && (forall i | 0 <= i < |seg| :: seg[i].detached)
  }

  ghost predicate ArchivedUpTo(seg: seq<Event>, volumes: seq<VolumeSpec>) {
    |seg| <= |volumes| && forall i | 0 <= i < |seg| :: seg[i].effect == Put(Volume, volumes[i].name)
  }

  lemma ArchivedSnoc(seg: seq<Event>, volumes: seq<VolumeSpec>, e: Event)
    requires ArchivedUpTo(seg, volumes) && |seg| < |volumes| && e.effect == Put(Volume, volumes[|seg|].name)
    ensures ArchivedUpTo(seg + [e], volumes)
  {
  }

  ghost predicate ArchivedIn(seg: seq<Event>, volumes: seq<VolumeSpec>) {
    |seg| == |volumes| && ArchivedUpTo(seg, volumes)
  }

  ghost predicate Only(seg: seq<Event>, effect: Effect, wanted: bool) {
    if wanted then |seg| == 1 && seg[0].effect == effect else seg == []
  }

  /** Each volume marked archived has an artifact of its own with the checksum recorded on it. */
  predicate Recorded(v: VolumeSpec, artifacts: seq<Artifact>) {
    exists a | a in artifacts :: a.component == Volume && a.resourceName == v.name && a.checksum == v.checksum
  }

  /** Archives one volume; its artifact, if it was stored. */
  method ArchiveOne(out: Outside, v: VolumeSpec) returns (stored: bool, art: Artifact, ghost e: Event)
    requires out.Valid()
    modifies out
    ensures out.Valid() && out.trace == old(out.trace) + [e]
    ensures e.effect == Put(Volume, v.name) && e.ok == stored
    ensures art.component == Volume && art.resourceName == v.name
  {
    var answer;
    stored, answer, e := out.Call(Put(Volume, v.name), false);
    art := Artifact(Volume, v.name, answer.location, answer.bytes, answer.sum);
  }

  /** The first n volumes as listed, with their checksum recorded exactly where the archive was stored. */
  ghost predicate Marked(volumes: seq<VolumeSpec>, marked: seq<VolumeSpec>, artifacts: seq<Artifact>, seg: seq<Event>,
                         n: nat)
    requires n <= |volumes|
  {
    && |marked| == |volumes| && |seg| == n
    && (forall i | 0 <= i < |volumes| ::
         marked[i].name == volumes[i].name
         && marked[i].sizeBytes == volumes[i].sizeBytes)
    && (forall i | 0 <= i < n && seg[i].ok :: Recorded(marked[i], artifacts))
    && (forall i | 0 <= i < |volumes| && (i >= n || !seg[i].ok) :: marked[i] == volumes[i])
    && (forall i | 0 <= i < |artifacts| :: artifacts[i].component == Volume)
  }

  lemma MarkedStep(volumes: seq<VolumeSpec>, marked: seq<VolumeSpec>, artifacts: seq<Artifact>, seg: seq<Event>,
                   n: nat, e: Event, art: Artifact)
    requires n < |volumes| && Marked(volumes, marked, artifacts, seg, n)
    requires art.component == Volume && art.resourceName == volumes[n].name
    ensures if e.ok then Marked(volumes, marked[n := volumes[n].(checksum := art.checksum)], artifacts + [art],
                                seg + [e], n + 1)
            else Marked(volumes, marked, artifacts, seg + [e], n + 1)
  {
    if e.ok {
      var m := marked[n := volumes[n].(checksum := art.checksum)];
      forall i | 0 <= i < n + 1 && (seg + [e])[i].ok ensures Recorded(m[i], artifacts + [art]) {
        if i == n { assert art in artifacts + [art]; } else { RecordedGrows(m[i], artifacts, art); }
      }
    }
  }

  /** Archives every volume; one failure does not keep the others from being archived. */
  method ArchiveVolumes(out: Outside, volumes: seq<VolumeSpec>)
    returns (ok: bool, marked: seq<VolumeSpec>, artifacts: seq<Artifact>, ghost seg: seq<Event>)
    requires out.Valid()
    modifies out
    ensures out.Valid() && out.trace == old(out.trace) + seg && ArchivedIn(seg, volumes)
    ensures ok <==> AllOk(seg)
    ensures Marked(volumes, marked, artifacts, seg, |volumes|)
  {
    ok, marked, artifacts, seg := true, volumes, [], [];
    assert AllOk([]) && ArchivedUpTo([], volumes) && Marked(volumes, volumes, [], [], 0);
    hide AllOk, ArchivedUpTo, Marked;
    for n := 0 to |volumes|
      invariant out.Valid() && out.trace == old(out.trace) + seg && |seg| == n && ArchivedUpTo(seg, volumes)
      invariant ok <==> AllOk(seg)
      invariant Marked(volumes, marked, artifacts, seg, n)
    {
      var stored, art, e := ArchiveOne(out, volumes[n]);
      MarkedStep(volumes, marked, artifacts, seg, n, e, art);
      ArchivedSnoc(seg, volumes, e);
      if stored {
        marked := marked[n := volumes[n].(checksum := art.checksum)];
        artifacts := artifacts + [art];
      } else {
        ok := false;
      }
      AllOkSnoc(seg, e);
      Joined(old(out.trace), seg, [e]);
      seg := seg + [e];
    }
  }

  lemma RecordedGrows(v: VolumeSpec, artifacts: seq<Artifact>, art: Artifact)
    requires Recorded(v, artifacts)
    ensures Recorded(v, artifacts + [art])
  {
    var a :| a in artifacts && a.component == Volume && a.resourceName == v.name && a.checksum == v.checksum;
    assert a in artifacts + [art];
  }

  // ---- the window --------------------------------------------------------------------------------------

  /** What happened from pausing the token rotation to resuming it. */
  datatype Window = Window(pause: seq<Event>, stops: seq<Event>, work: seq<Event>, resumes: seq<Event>,
                           unpause: seq<Event>) {
    function All(): seq<Event> {
      pause + stops + work + resumes + unpause
    }
  }

  /** The wait for the pods to stop and, if they did, the archives. */
  ghost predicate Worked(work: seq<Event>, volumes: seq<VolumeSpec>) {
    && work != [] && work[0].effect == WaitStopped
    && if work[0].ok then ArchivedIn(work[1..], volumes) else |work| == 1
  }

  /** Every exit: stops in plan order until one fails; the wait and the archives only after all of them; then,
      whatever happened, exactly one resume per target in reverse order. */
  ghost predicate WindowOf(w: Window, plan: seq<QuiesceTarget>, volumes: seq<VolumeSpec>, pauser: bool) {
    && Only(w.pause, PauseRotation, pauser)
    && Stopped(w.stops, plan)
    && (forall i | 0 <= i < |w.stops| - 1 :: w.stops[i].ok)
    && (if |w.stops| == |plan| && AllOk(w.stops) then
          Worked(w.work, volumes)
        else
          w.work == [] && w.stops != [] && !w.stops[|w.stops| - 1].ok)
    && Resumed(w.resumes, plan)
    && Only(w.unpause, ResumeRotation, pauser)
  }

  /** Resumes every target, detached from the request; a failed one does not keep the others back. */
  method ResumeAll(out: Outside, plan: seq<QuiesceTarget>) returns (ghost seg: seq<Event>)
    requires out.Valid()
    modifies out
    ensures out.Valid() && out.trace == old(out.trace) + seg && Resumed(seg, plan)
  {
    seg := [];
    var order := ResumeOrder(plan);
    for i := 0 to |order|
      invariant out.Valid() && out.trace == old(out.trace) + seg && Resumed(seg, plan[|plan| - i..])
    {
      var ok, answer, e := out.Call(Scale(order[i].id, order[i].originalReplicas), true);
      seg := seg + [e];
    }
  }

  /** Stops the targets one by one; gives up at the first failure. */
  method StopAll(out: Outside, plan: seq<QuiesceTarget>) returns (ok: bool, ghost seg: seq<Event>)
    requires out.Valid()
    modifies out
    ensures out.Valid() && out.trace == old(out.trace) + seg
    ensures Stopped(seg, plan)
    ensures forall i | 0 <= i < |seg| - 1 :: seg[i].ok
    ensures ok ==> |seg| == |plan| && AllOk(seg)
    ensures !ok ==> seg != [] && !seg[|seg| - 1].ok
  {
    seg, ok := [], true;
    for i := 0 to |plan|
      invariant out.Valid() && out.trace == old(out.trace) + seg
      invariant |seg| == i && Stopped(seg, plan)
      invariant ok && AllOk(seg)
    {
      var answer;
      ghost var e;
      ok, answer, e := out.Call(Scale(plan[i].id, plan[i].scaleDownTo), false);
      seg := seg + [e];
      if !ok { return; }
    }
  }

  lemma WorkedOn(wait: Event, seg: seq<Event>, volumes: seq<VolumeSpec>)
    requires wait.effect == WaitStopped && wait.ok && ArchivedIn(seg, volumes)
    ensures Worked([wait] + seg, volumes) && (AllOk([wait] + seg) <==> AllOk(seg))
  {
    var work := [wait] + seg;
    assert work[1..] == seg;
    if AllOk(work) {
      forall i | 0 <= i < |seg| ensures seg[i].ok { assert work[i + 1] == seg[i]; }
    }
  }

  /** Everything between opening and closing: the stops and, once all are down, the archives. */
  method ColdWork(out: Outside, plan: seq<QuiesceTarget>, volumes: seq<VolumeSpec>)
    returns (ok: bool, archived: bool, marked: seq<VolumeSpec>, artifacts: seq<Artifact>, ghost stops: seq<Event>,
             ghost work: seq<Event>)
    requires out.Valid()
    modifies out
    ensures out.Valid() && out.trace == old(out.trace) + stops + work
    ensures Stopped(stops, plan)
    ensures forall i | 0 <= i < |stops| - 1 :: stops[i].ok
    ensures if |stops| == |plan| && AllOk(stops) then
              Worked(work, volumes)
            else
              work == [] && stops != [] && !stops[|stops| - 1].ok
    ensures ok <==> work != [] && work[0].ok
    ensures ok ==> ArchiveResult(volumes, marked, artifacts, archived) && (archived <==> AllOk(work))
  {
    archived, marked, artifacts, work := false, volumes, [], [];
    ok, stops := StopAll(out, plan);
    if ok {
      var answer;
      ghost var e, seg;
      ok, answer, e := out.Call(WaitStopped, false);
      work := [e];
      if ok {
        archived, marked, artifacts, seg := ArchiveVolumes(out, volumes);
        work := [e] + seg;
        WorkedOn(e, seg, volumes);
        Joined(old(out.trace) + stops, [e], seg);
      }
    }
  }

  /** The volumes as they were listed, and, when all were archived, each with its recorded artifact. */
  ghost predicate ArchiveResult(volumes: seq<VolumeSpec>, marked: seq<VolumeSpec>, artifacts: seq<Artifact>,
                                archived: bool) {
    && |marked| == |volumes|
    && (forall i | 0 <= i < |volumes| ::
         marked[i].name == volumes[i].name
         && marked[i].sizeBytes == volumes[i].sizeBytes)
    && (archived ==> forall i | 0 <= i < |volumes| :: Recorded(marked[i], artifacts))
    && (forall i | 0 <= i < |artifacts| :: artifacts[i].component == Volume)
  }

  /** Pauses or resumes the token rotation, where one is wired; a failure is only logged. */
  method Rotation(out: Outside, effect: Effect, detached: bool, wired: bool) returns (ghost seg: seq<Event>)
    requires out.Valid()
    modifies out
    ensures out.Valid() && out.trace == old(out.trace) + seg && Only(seg, effect, wired)
  {
    seg := [];
    if wired {
      var ok, answer, e := out.Call(effect, detached);
      seg := [e];
    }
  }

  /** Stops, works and, whatever happened, resumes; the plan has something to stop. */
  method OpenWindow(out: Outside, plan: seq<QuiesceTarget>, volumes: seq<VolumeSpec>, pauser: bool)
    returns (ok: bool, archived: bool, marked: seq<VolumeSpec>, artifacts: seq<Artifact>, ghost w: Window)
    requires out.Valid()
    modifies out
    ensures out.Valid() && out.trace == old(out.trace) + w.All()
    ensures WindowOf(w, plan, volumes, pauser) && (ok <==> w.work != [] && w.work[0].ok)
    ensures ok ==> ArchiveResult(volumes, marked, artifacts, archived) && (archived <==> AllOk(w.work))
  {
    ghost var pause := Rotation(out, PauseRotation, false, pauser);
    ghost var stops, work;
    ok, archived, marked, artifacts, stops, work := ColdWork(out, plan, volumes);
    ghost var resumes := ResumeAll(out, plan);
    ghost var unpause := Rotation(out, ResumeRotation, true, pauser);
    w := Window(pause, stops, work, resumes, unpause);
    Associate(old(out.trace), pause, stops, work, resumes, unpause);
  }

  lemma Associate(head: seq<Event>, a: seq<Event>, b: seq<Event>, c: seq<Event>, d: seq<Event>, e: seq<Event>)
    ensures head + a + b + c + d + e == head + (a + b + c + d + e)
  {
  }

  /** The archives alone, as the work of a window without stops. */
  method Unwindowed(out: Outside, volumes: seq<VolumeSpec>)
    returns (archived: bool, marked: seq<VolumeSpec>, artifacts: seq<Artifact>, ghost w: Window)
    requires out.Valid()
    modifies out
    ensures out.Valid() && out.trace == old(out.trace) + w.All()
    ensures w == Window([], [], w.work, [], []) && ArchivedIn(w.All(), volumes)
    ensures ArchiveResult(volumes, marked, artifacts, archived) && (archived <==> AllOk(w.work))
  {
    ghost var work;
    archived, marked, artifacts, work := ArchiveVolumes(out, volumes);
    w := Window([], [], work, [], []);
    assert w.All() == work;
  }

  /** The work of a plan: with nothing to stop, no window is opened and the archives run at once. */
  method Windowed(out: Outside, plan: seq<QuiesceTarget>, volumes: seq<VolumeSpec>, pauser: bool)
    returns (ok: bool, archived: bool, marked: seq<VolumeSpec>, artifacts: seq<Artifact>, ghost w: Window)
    requires out.Valid()
    modifies out
    ensures out.Valid() && out.trace == old(out.trace) + w.All()
    ensures if plan == [] then w == Window([], [], w.work, [], [])
            && ArchivedIn(w.All(), volumes) else WindowOf(w, plan, volumes, pauser)
    ensures ok <==> plan == [] || (w.work != [] && w.work[0].ok)
    ensures ok ==> ArchiveResult(volumes, marked, artifacts, archived) && (archived <==> AllOk(w.work))
  {
    hide WindowOf;
    if plan == [] {
      archived, marked, artifacts, w := Unwindowed(out, volumes);
      ok := true;
    } else {
      ok, archived, marked, artifacts, w := OpenWindow(out, plan, volumes, pauser);
    }
  }

  /** What the stopping part may look like: nothing stopped, or a window of the plan. */
  ghost predicate ColdPart(listing: Event, w: Window, plan: seq<QuiesceTarget>, workloads: seq<Workload>,
                           volumes: seq<VolumeSpec>, pauser: bool) {
    && listing.effect == ListWorkloads
    && (plan == [] ==>
         w == Window([], [], w.work, [], [])
         && if listing.ok then ArchivedIn(w.All(), volumes) else w.All() == [])
    && (plan != [] ==> plan == PlanOf(workloads) && WindowOf(w, plan, volumes, pauser))
  }

  /** The cold part of a backup: lists the workloads, then the work of the plan made of them. */
  method WithQuiesce(out: Outside, workloads: seq<Workload>, volumes: seq<VolumeSpec>, pauser: bool)
    returns (ok: bool, plan: seq<QuiesceTarget>, archived: bool, marked: seq<VolumeSpec>, artifacts: seq<Artifact>,
             ghost listing: Event, ghost w: Window)
    requires out.Valid()
    modifies out
    ensures out.Valid() && out.trace == old(out.trace) + ([listing] + w.All())
    ensures ColdPart(listing, w, plan, workloads, volumes, pauser)
    ensures listing.ok ==> plan == PlanOf(workloads)
    ensures ok <==> listing.ok && (plan == [] || (w.work != [] && w.work[0].ok))
    ensures ok ==> ArchiveResult(volumes, marked, artifacts, archived) && (archived <==> AllOk(w.work))
  {
    plan, archived, marked, artifacts := [], false, volumes, [];
    var answer;
    ok, answer, listing := out.Call(ListWorkloads, false);
    if !ok {
      w := Window([], [], [], [], []);
      assert w.All() == [];
      return;
    }
    plan := NewQuiescePlan(workloads);
    ok, archived, marked, artifacts, w := Windowed(out, plan, volumes, pauser);
    Joined(old(out.trace), [listing], w.All());
  }
}
