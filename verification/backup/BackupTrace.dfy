/** A backup as its trace shows it: the order of its effects, and what became of the workloads it stopped. */
module BackupTrace {
  import opened Sequences
  import opened World
  import opened Quiesce
  import opened QuiesceWindow
  import opened QuiesceLaws

  // ---- the order of a backup ---------------------------------------------------------------------------

  /** Where an effect belongs: destination check, dumps, stop, archive, resume, exports, closing the record. */
  function Rank(e: Effect): nat {
    match e
    case CreateRun => 0
    case SaveRun(final) => if final then 18 else 0
    case SchemaState => 1
    case ListReleases => 2
    case ListPVCs => 3
    case Preflight(_) => 4
    case Put(c, _) =>
      (match c
       case NamespaceResources => 5 case SharedResources => 6 case Volume => 11
       case OpenBaoKV => 14 case PlatformDB => 15 case KeycloakDB => 16)
    case DumpShared => 6
    case ListWorkloads => 7
    case PauseRotation => 8
    case Scale(_, replicas) => if replicas <= 0 then 9 else 12
    case WaitStopped => 10
    case ResumeRotation => 13
    case ServerVersion => 17
    case Notify => 19
    case _ => 20
  }

  ghost predicate InOrder(seg: seq<Event>, lo: nat, hi: nat) {
    && (forall i | 0 <= i < |seg| :: lo <= Rank(seg[i].effect) <= hi)
    && (forall i, j | 0 <= i < j < |seg| :: Rank(seg[i].effect) <= Rank(seg[j].effect))
  }

  lemma OrderJoin(a: seq<Event>, b: seq<Event>, lo: nat, mid: nat, hi: nat)
    requires lo <= mid <= hi && InOrder(a, lo, mid) && InOrder(b, mid, hi)
    ensures InOrder(a + b, lo, hi)
  {
  }

  lemma OrderFirst(e: Event)
    ensures InOrder([e], Rank(e.effect), Rank(e.effect))
  {
  }

  lemma OrderSnoc(seg: seq<Event>, e: Event, lo: nat)
    requires InOrder(seg, lo, Rank(e.effect)) && lo <= Rank(e.effect)
    ensures InOrder(seg + [e], lo, Rank(e.effect))
  {
  }

  lemma OrderWider(seg: seq<Event>, lo: nat, hi: nat, wide: nat)
    requires InOrder(seg, lo, hi) && hi <= wide
    ensures InOrder(seg, lo, wide)
  {
  }

  lemma LaterSnoc(seg: seq<Event>, e: Event, lo: nat, hi: nat)
    requires InOrder(seg, lo, hi) && lo <= hi <= Rank(e.effect)
    ensures InOrder(seg + [e], lo, Rank(e.effect))
  {
  }

  lemma StopsOrdered(w: Window, plan: seq<QuiesceTarget>, volumes: seq<VolumeSpec>, pauser: bool)
    requires WindowOf(w, plan, volumes, pauser) && forall t | t in plan :: t.originalReplicas > 0 && t.scaleDownTo == 0
    ensures InOrder(w.stops, 9, 9) && InOrder(w.work, 10, 11) && InOrder(w.resumes, 12, 12)
  {
    forall i | 0 <= i < |w.work| ensures Rank(w.work[i].effect) == if i == 0 then 10 else 11 {
      if i > 0 { assert w.work[i] == w.work[1..][i - 1]; }
    }
    forall i | 0 <= i < |w.resumes| ensures Rank(w.resumes[i].effect) == 12 {
      assert Reversed(plan)[i] == plan[|plan| - 1 - i];
    }
  }

  lemma WindowOrdered(w: Window, plan: seq<QuiesceTarget>, volumes: seq<VolumeSpec>, pauser: bool)
    requires WindowOf(w, plan, volumes, pauser) && forall t | t in plan :: t.originalReplicas > 0 && t.scaleDownTo == 0
    ensures InOrder(w.All(), 8, 13)
  {
    StopsOrdered(w, plan, volumes, pauser);
    OrderJoin(w.pause, w.stops, 8, 9, 9);
    OrderJoin(w.pause + w.stops, w.work, 8, 10, 11);
    OrderJoin(w.pause + w.stops + w.work, w.resumes, 8, 12, 12);
    OrderJoin(w.pause + w.stops + w.work + w.resumes, w.unpause, 8, 13, 13);
  }

  lemma ColdOrdered(workloads: seq<Workload>, volumes: seq<VolumeSpec>, pauser: bool, listing: Event,
                    plan: seq<QuiesceTarget>, w: Window)
    requires ColdPart(listing, w, plan, workloads, volumes, pauser)
    ensures InOrder([listing] + w.All(), 7, 13)
  {
    if plan != [] { WindowOrdered(w, plan, volumes, pauser); }
    OrderJoin([listing], w.All(), 7, 8, 13);
  }

  // ---- stops and resumes in a trace ----------------------------------------------------------------------

  predicate Scales(e: Event, up: bool) {
    e.effect.Scale? && (e.effect.replicas > 0) == up
  }

  /** The resumes of a trace (up), or its stops, in order. */
  function ScalesOf(seg: seq<Event>, up: bool): seq<Event> {
    if seg == [] then []
    else ScalesOf(seg[..|seg| - 1], up) + if Scales(seg[|seg| - 1], up) then [seg[|seg| - 1]] else []
  }

  lemma {:induction false} ScalesJoin(a: seq<Event>, b: seq<Event>, up: bool)
    ensures ScalesOf(a + b, up) == ScalesOf(a, up) + ScalesOf(b, up)
  {
    if b == [] {
      assert a + b == a;
    } else {
      ScalesJoin(a, b[..|b| - 1], up);
      assert (a + b)[..|a + b| - 1] == a + b[..|b| - 1];
    }
  }

  lemma {:induction false} NoScales(seg: seq<Event>, up: bool)
    requires forall i | 0 <= i < |seg| :: !Scales(seg[i], up)
    ensures ScalesOf(seg, up) == []
  {
    if seg != [] { NoScales(seg[..|seg| - 1], up); }
  }

  lemma {:induction false} OnlyScales(seg: seq<Event>, up: bool)
    requires forall i | 0 <= i < |seg| :: Scales(seg[i], up)
    ensures ScalesOf(seg, up) == seg
  {
    if seg != [] {
      OnlyScales(seg[..|seg| - 1], up);
      assert seg == seg[..|seg| - 1] + [seg[|seg| - 1]];
    }
  }

  predicate Archives(e: Event) {
    e.effect.Put? && e.effect.component == Volume
  }

  /** Something is archived only after every target was stopped and a wait found them down. */
  ghost predicate ArchivesLate(seg: seq<Event>, plan: seq<QuiesceTarget>) {
    forall i | 0 <= i < |seg| && Archives(seg[i]) ::
      && |ScalesOf(seg, false)| == |plan| && AllOk(ScalesOf(seg, false))
      && (plan != [] ==> exists j :: 0 <= j < i && seg[j].effect == WaitStopped && seg[j].ok)
  }

  /** Whatever failed or was cancelled: either no workload was touched, or targets were stopped in plan order up to the
      first failure, and every target of the plan has exactly one resume, to its original replicas, in reverse order. */
  ghost predicate BroughtBack(seg: seq<Event>, plan: seq<QuiesceTarget>) {
    var stops, resumes := ScalesOf(seg, false), ScalesOf(seg, true);
    && ArchivesLate(seg, plan)
    && (NoScale(seg)
        || (Stopped(stops, plan) && (forall i | 0 <= i < |stops| - 1 :: stops[i].ok) && Resumed(resumes, plan)))
  }

  /** Stages that neither stop, archive nor resume. */
  ghost predicate Quiet(seg: seq<Event>) {
    NoScale(seg) && forall i | 0 <= i < |seg| :: !Archives(seg[i])
  }

  lemma OrderQuiet(seg: seq<Event>, lo: nat, hi: nat)
    requires InOrder(seg, lo, hi) && (hi < 9 || lo > 12)
    ensures Quiet(seg)
  {
    forall i | 0 <= i < |seg|
      ensures !seg[i].effect.Scale? && !Archives(seg[i]) { assert lo <= Rank(seg[i].effect) <= hi; }
  }

  lemma QuietScales(seg: seq<Event>)
    requires NoScale(seg)
    ensures ScalesOf(seg, false) == [] && ScalesOf(seg, true) == []
  {
    NoScales(seg, false);
    NoScales(seg, true);
  }

  lemma QuietBack(seg: seq<Event>, plan: seq<QuiesceTarget>)
    requires Quiet(seg)
    ensures BroughtBack(seg, plan)
  {
  }

  /** Quiet stages before and after change nothing about that. */
  lemma BackAround(head: seq<Event>, seg: seq<Event>, tail: seq<Event>, plan: seq<QuiesceTarget>)
    requires Quiet(head) && BroughtBack(seg, plan) && Quiet(tail)
    ensures BroughtBack(head + seg + tail, plan)
    ensures forall up :: ScalesOf(head + seg + tail, up) == ScalesOf(seg, up)
  {
    var all := head + seg + tail;
    QuietScales(head);
    QuietScales(tail);
    forall up ensures ScalesOf(all, up) == ScalesOf(seg, up) {
      ScalesJoin(head + seg, tail, up);
      ScalesJoin(head, seg, up);
    }
    assert forall i | 0 <= i < |seg| :: all[|head| + i] == seg[i];
    LateAround(head, seg, tail, plan);
    if NoScale(seg) {
      forall i | 0 <= i < |all| ensures !all[i].effect.Scale? { PartOf(head, seg, tail, i); }
    }
  }

  lemma PartOf(head: seq<Event>, seg: seq<Event>, tail: seq<Event>, i: nat)
    requires i < |head + seg + tail|
    ensures (head + seg + tail)[i] == if i < |head| then head[i] else
            if i < |head| + |seg| then seg[i - |head|] else tail[i - |head| - |seg|]
  {
  }

  lemma LateAround(head: seq<Event>, seg: seq<Event>, tail: seq<Event>, plan: seq<QuiesceTarget>)
    requires Quiet(head) && ArchivesLate(seg, plan) && Quiet(tail)
    requires ScalesOf(head + seg + tail, false) == ScalesOf(seg, false)
    ensures ArchivesLate(head + seg + tail, plan)
  {
    var all := head + seg + tail;
    forall i | 0 <= i < |all| && Archives(all[i])
      ensures |ScalesOf(seg, false)| == |plan| && AllOk(ScalesOf(seg, false))
      ensures plan != [] ==> exists j :: 0 <= j < i && all[j].effect == WaitStopped && all[j].ok
    {
      PartOf(head, seg, tail, i);
      var k := i - |head|;
      assert Archives(seg[k]);
      if plan != [] {
        var j :| 0 <= j < k && seg[j].effect == WaitStopped && seg[j].ok;
        PartOf(head, seg, tail, |head| + j);
        assert all[|head| + j] == seg[j];
      }
    }
  }

  /** A window, after the listing it was made from. */
  lemma ListedBack(listing: Event, w: Window, plan: seq<QuiesceTarget>)
    requires listing.effect == ListWorkloads && BroughtBack(w.All(), plan)
    ensures BroughtBack([listing] + w.All(), plan)
    ensures ScalesOf([listing] + w.All(), true) == ScalesOf(w.All(), true)
  {
    BackAround([listing], w.All(), [], plan);
    hide ScalesOf, BroughtBack;
    assert [listing] + w.All() + [] == [listing] + w.All();
  }

  /** Every exit of the cold part, as its trace shows it. */
  lemma ColdBack(workloads: seq<Workload>, volumes: seq<VolumeSpec>, pauser: bool, listing: Event,
                 plan: seq<QuiesceTarget>, w: Window)
    requires ColdPart(listing, w, plan, workloads, volumes, pauser) && (listing.ok ==> plan == PlanOf(workloads))
    ensures BroughtBack([listing] + w.All(), PlanOf(workloads)) && ScalesOf([listing] + w.All(), true) == w.resumes
  {
    if plan == [] {
      assert w.All() == w.work;
      QuietScales([listing] + w.All());
      hide ScalesOf;
    } else {
      WindowBack(w, plan, volumes, pauser);
      hide ScalesOf, WindowOf, BroughtBack;
      ListedBack(listing, w, plan);
    }
  }

  lemma WindowParts(w: Window, plan: seq<QuiesceTarget>, volumes: seq<VolumeSpec>, pauser: bool, up: bool)
    requires WindowOf(w, plan, volumes, pauser) && forall t | t in plan :: t.originalReplicas > 0 && t.scaleDownTo == 0
    ensures ScalesOf(w.pause, up) == [] && ScalesOf(w.work, up) == [] && ScalesOf(w.unpause, up) == []
    ensures ScalesOf(w.stops, up) == if up then [] else w.stops
    ensures ScalesOf(w.resumes, up) == if up then w.resumes else []
  {
    NoScales(w.pause, up);
    NoScales(w.unpause, up);
    WorkKeepsScale(w.work, volumes);
    NoScales(w.work, up);
    forall i | 0 <= i < |w.resumes| ensures Scales(w.resumes[i], true) && !Scales(w.resumes[i], false) {
      assert Reversed(plan)[i] == plan[|plan| - 1 - i];
    }
    forall i | 0 <= i < |w.stops|
      ensures Scales(w.stops[i], false) && !Scales(w.stops[i], true) { assert plan[i] in plan; }
    if up {
      NoScales(w.stops, up);
      OnlyScales(w.resumes, up);
    } else {
      OnlyScales(w.stops, up);
      NoScales(w.resumes, up);
    }
  }

  lemma WindowScales(w: Window, plan: seq<QuiesceTarget>, volumes: seq<VolumeSpec>, pauser: bool, up: bool)
    requires WindowOf(w, plan, volumes, pauser) && forall t | t in plan :: t.originalReplicas > 0 && t.scaleDownTo == 0
    ensures ScalesOf(w.All(), up) == if up then w.resumes else w.stops
  {
    hide ScalesOf, WindowOf;
    WindowParts(w, plan, volumes, pauser, up);
    ScalesJoin(w.pause, w.stops, up);
    ScalesJoin(w.pause + w.stops, w.work, up);
    assert ScalesOf(w.pause + w.stops + w.work, up) == ScalesOf(w.stops, up);
    ScalesJoin(w.pause + w.stops + w.work, w.resumes, up);
    ScalesJoin(w.pause + w.stops + w.work + w.resumes, w.unpause, up);
  }

  lemma WindowBack(w: Window, plan: seq<QuiesceTarget>, volumes: seq<VolumeSpec>, pauser: bool)
    requires WindowOf(w, plan, volumes, pauser) && forall t | t in plan :: t.originalReplicas > 0 && t.scaleDownTo == 0
    ensures BroughtBack(w.All(), plan) && ScalesOf(w.All(), true) == w.resumes
  {
    WindowScales(w, plan, volumes, pauser, true);
    WindowScales(w, plan, volumes, pauser, false);
    forall i | 0 <= i < |w.All()| && Archives(w.All()[i])
      ensures |w.stops| == |plan| && AllOk(w.stops)
      ensures exists j :: 0 <= j < i && w.All()[j].effect == WaitStopped && w.All()[j].ok
    {
      ArchiveInWork(plan, volumes, pauser, w, i);
      WaitBefore(w, plan, volumes, pauser, i);
    }
    hide ScalesOf;
  }

  lemma WaitBefore(w: Window, plan: seq<QuiesceTarget>, volumes: seq<VolumeSpec>, pauser: bool, i: nat)
    requires WindowOf(w, plan, volumes, pauser) && i < |w.All()| && Archives(w.All()[i])
    requires |w.pause| + |w.stops| <= i < |w.pause| + |w.stops| + |w.work|
    ensures exists j :: 0 <= j < i && w.All()[j].effect == WaitStopped && w.All()[j].ok
  {
    var head := w.pause + w.stops;
    assert w.All() == head + w.work + (w.resumes + w.unpause);
    assert w.All()[i] == w.work[i - |head|] && w.All()[|head|] == w.work[0];
    assert |w.work| > 1;
  }

  // ---- the cluster afterwards ----------------------------------------------------------------------------

  lemma StopsFirst(init: seq<Event>, e: Event, lo: nat, hi: nat)
    requires InOrder(init + [e], lo, hi)
    ensures InOrder(init, lo, hi) && (Scales(e, false) ==> ScalesOf(init, true) == [])
  {
    var seg := init + [e];
    assert forall i | 0 <= i < |init| :: seg[i] == init[i];
    if Scales(e, false) {
      forall i | 0 <= i < |init|
        ensures !Scales(init[i], true) { assert Rank(seg[i].effect) <= Rank(seg[|init|].effect); }
      NoScales(init, true);
    }
  }

  lemma ScalesSnoc(init: seq<Event>, e: Event, up: bool)
    ensures ScalesOf(init + [e], up) == if Scales(e, up) then ScalesOf(init, up) + [e] else ScalesOf(init, up)
  {
    assert (init + [e])[..|init|] == init;
  }

  /** In an ordered trace, the cluster is what its stops and then its resumes make of it. */
  lemma {:induction false} ReplayScales(c: Cluster, seg: seq<Event>, lo: nat, hi: nat)
    requires InOrder(seg, lo, hi)
    ensures Replay(c, seg) == Replay(Replay(c, ScalesOf(seg, false)), ScalesOf(seg, true))
  {
    if seg != [] {
      var init, e := seg[..|seg| - 1], seg[|seg| - 1];
      assert init + [e] == seg;
      StopsFirst(init, e, lo, hi);
      ReplayScales(c, init, lo, hi);
      ReplaySnoc(c, init, e);
      ScalesSnoc(init, e, false);
      ScalesSnoc(init, e, true);
      hide InOrder, ScalesOf;
      if Scales(e, false) {
        ReplaySnoc(c, ScalesOf(init, false), e);
      } else if Scales(e, true) {
        ReplaySnoc(Replay(c, ScalesOf(init, false)), ScalesOf(init, true), e);
      }
    }
  }

  /** On every exit of a backup: if its resumes succeeded, the cluster is as it was when it was listed. */
  lemma BackupRestores(c: Cluster, seg: seq<Event>, lo: nat, hi: nat, workloads: seq<Workload>)
    requires InOrder(seg, lo, hi) && BroughtBack(seg, PlanOf(workloads))
    requires Truthful(c, workloads) && AllOk(ScalesOf(seg, true))
    ensures Replay(c, seg) == c
  {
    if NoScale(seg) {
      NoScaleNoChange(c, seg);
    } else {
      ReplayScales(c, seg, lo, hi);
      TruthfulFits(c, workloads);
      StopsThenResumes(c, PlanOf(workloads), ScalesOf(seg, false), ScalesOf(seg, true));
    }
  }

  lemma {:induction false} ScalesIn(seg: seq<Event>, up: bool, e: Event)
    requires e in ScalesOf(seg, up)
    ensures e in seg
  {
    if e !in ScalesOf(seg[..|seg| - 1], up) { assert e == seg[|seg| - 1]; } else { ScalesIn(seg[..|seg| - 1], up, e); }
  }

  /** If no call fails of itself, every target is brought back, though the request be cancelled at any moment. */
  lemma ResumedWithoutFailures(seg: seq<Event>, plan: seq<QuiesceTarget>)
    requires seg != [] && Answered(seg) && NeverFails(seg[0].ahead) && BroughtBack(seg, plan)
    ensures AllOk(ScalesOf(seg, true))
  {
    var resumes := ScalesOf(seg, true);
    if NoScale(seg) { QuietScales(seg); }
    forall i | 0 <= i < |resumes| ensures resumes[i].ok {
      assert resumes[i] in resumes && resumes[i].detached;
      ScalesIn(seg, true, resumes[i]);
      var j :| 0 <= j < |seg| && seg[j] == resumes[i];
      assert seg[j].gone == resumes[i].gone;
    }
  }

  lemma SidesOfArchive(seg: seq<Event>, lo: nat, hi: nat, i: nat)
    requires InOrder(seg, lo, hi) && i < |seg| && Archives(seg[i])
    ensures InOrder(seg[..i], lo, hi)
    ensures forall k | 0 <= k < |seg[i..]| :: !Scales(seg[i..][k], false)
    ensures forall k | 0 <= k < |seg[..i]| :: !Scales(seg[..i][k], true)
  {
    forall k | i <= k < |seg| ensures !Scales(seg[k], false) {
      assert Rank(seg[i].effect) <= Rank(seg[k].effect);
    }
    forall k | 0 <= k < i ensures !Scales(seg[k], true) {
      assert Rank(seg[k].effect) <= Rank(seg[i].effect);
    }
  }

  /** What comes after an archive stops nothing, and what comes before resumes nothing. */
  lemma AroundArchive(seg: seq<Event>, lo: nat, hi: nat, i: nat)
    requires InOrder(seg, lo, hi) && i < |seg| && Archives(seg[i])
    ensures InOrder(seg[..i], lo, hi)
    ensures ScalesOf(seg[..i], false) == ScalesOf(seg, false) && ScalesOf(seg[..i], true) == []
  {
    var head, tail := seg[..i], seg[i..];
    assert seg == head + tail;
    SidesOfArchive(seg, lo, hi, i);
    hide InOrder, Scales, ScalesOf, Archives, Rank;
    NoScales(tail, false);
    NoScales(head, true);
    ScalesJoin(head, tail, false);
  }

  /** In a whole backup, volumes are archived only while every target is at zero. */
  lemma ArchivedWhileDown(c: Cluster, seg: seq<Event>, lo: nat, hi: nat, workloads: seq<Workload>, i: nat, t: nat)
    requires InOrder(seg, lo, hi) && BroughtBack(seg, PlanOf(workloads)) && Truthful(c, workloads)
    requires i < |seg| && Archives(seg[i]) && t < |PlanOf(workloads)|
    ensures var d, id := Replay(c, seg[..i]), PlanOf(workloads)[t].id; id in d && d[id] == 0
  {
    var plan := PlanOf(workloads);
    AroundArchive(seg, lo, hi, i);
    ReplayScales(c, seg[..i], lo, hi);
    TruthfulFits(c, workloads);
    if NoScale(seg) { QuietScales(seg); }
    StopsZero(c, ScalesOf(seg, false), plan);
  }
}
