/** What the quiesce window guarantees on every exit. */
module QuiesceLaws {
  import opened Sequences
  import opened World
  import opened Quiesce
  import opened QuiesceWindow

  /** The listing told the truth about the cluster. */
  ghost predicate Truthful(c: Cluster, workloads: seq<Workload>) {
    forall w | w in workloads :: w.id in c && c[w.id] == w.replicas
  }

  /** The plan's targets, as the cluster had them. */
  ghost predicate PlanFits(c: Cluster, plan: seq<QuiesceTarget>) {
    forall i | 0 <= i < |plan| :: plan[i].id in c && c[plan[i].id] == plan[i].originalReplicas
      && plan[i].scaleDownTo == 0
  }

  lemma TruthfulFits(c: Cluster, workloads: seq<Workload>)
    requires Truthful(c, workloads)
    ensures PlanFits(c, PlanOf(workloads))
  {
    forall t | t in PlanOf(workloads) ensures t.id in c && c[t.id] == t.originalReplicas { PlanCovers(workloads, t); }
  }

  ghost predicate Targets(plan: seq<QuiesceTarget>, id: WorkloadId) {
    exists i :: 0 <= i < |plan| && plan[i].id == id
  }

  ghost predicate NoScale(seg: seq<Event>) {
    forall i | 0 <= i < |seg| :: !seg[i].effect.Scale?
  }

  lemma {:induction false} NoScaleNoChange(c: Cluster, seg: seq<Event>)
    requires NoScale(seg)
    ensures Replay(c, seg) == c
  {
    if seg != [] {
      NoScaleNoChange(c, seg[..|seg| - 1]);
      ReplayLast(c, seg);
    }
  }

  lemma {:induction false} StopsZero(c: Cluster, stops: seq<Event>, plan: seq<QuiesceTarget>)
    requires Stopped(stops, plan) && PlanFits(c, plan) && AllOk(stops)
    ensures forall i | 0 <= i < |stops| :: var d := Replay(c, stops); plan[i].id in d && d[plan[i].id] == 0
  {
    if stops != [] {
      StopsZero(c, stops[..|stops| - 1], plan);
      ReplayLast(c, stops);
    }
  }

  /** Stops reach only the plan's targets, however they end. */
  lemma {:induction false} StopsStayInPlan(c: Cluster, stops: seq<Event>, plan: seq<QuiesceTarget>)
    requires Stopped(stops, plan) && PlanFits(c, plan)
    ensures var d := Replay(c, stops); d.Keys == c.Keys && forall id | id in c && !Targets(plan, id) :: d[id] == c[id]
  {
    if stops != [] {
      StopsStayInPlan(c, stops[..|stops| - 1], plan);
      ReplayLast(c, stops);
      assert plan[|stops| - 1].id in c;
    }
  }

  /** Resumes put back what they reach and leave the rest alone. */
  lemma {:induction false} ResumesPutBack(c: Cluster, d: Cluster, plan: seq<QuiesceTarget>, resumes: seq<Event>)
    requires PlanFits(c, plan) && d.Keys == c.Keys && |resumes| <= |plan| && AllOk(resumes)
    requires forall i | 0 <= i < |resumes| ::
             resumes[i].effect == Scale(Reversed(plan)[i].id, Reversed(plan)[i].originalReplicas)
    ensures var e := Replay(d, resumes);
            && e.Keys == c.Keys
            && (forall id | id in c :: e[id] == c[id] || e[id] == d[id])
            && (forall i | 0 <= i < |resumes| :: e[Reversed(plan)[i].id] == c[Reversed(plan)[i].id])
  {
    if resumes != [] {
      ResumesPutBack(c, d, plan, resumes[..|resumes| - 1]);
      ReplayLast(d, resumes);
      assert Reversed(plan)[|resumes| - 1] == plan[|plan| - |resumes|];
      forall i | 0 <= i < |resumes|
        ensures Reversed(plan)[i].id in c { assert Reversed(plan)[i] == plan[|plan| - 1 - i]; }
    }
  }

  lemma WorkKeepsScale(work: seq<Event>, volumes: seq<VolumeSpec>)
    requires work == [] || Worked(work, volumes)
    ensures NoScale(work)
  {
    forall i | 0 <= i < |work| ensures !work[i].effect.Scale? {
      if i > 0 { assert work[i] == work[1..][i - 1]; }
    }
  }

  /** A target is put back by its resume. */
  lemma TargetPutBack(c: Cluster, d: Cluster, plan: seq<QuiesceTarget>, resumes: seq<Event>, id: WorkloadId)
    requires PlanFits(c, plan) && d.Keys == c.Keys && Resumed(resumes, plan) && AllOk(resumes) && id in c
             && Targets(plan, id)
    ensures id in Replay(d, resumes) && Replay(d, resumes)[id] == c[id]
  {
    ResumesPutBack(c, d, plan, resumes);
    var i :| 0 <= i < |plan| && plan[i].id == id;
    assert Reversed(plan)[|plan| - 1 - i] == plan[i];
  }

  /** What is no target was not touched. */
  lemma OthersKept(c: Cluster, d: Cluster, plan: seq<QuiesceTarget>, resumes: seq<Event>, id: WorkloadId)
    requires PlanFits(c, plan) && d.Keys == c.Keys && Resumed(resumes, plan) && AllOk(resumes) && id in c
             && d[id] == c[id]
    ensures id in Replay(d, resumes) && Replay(d, resumes)[id] == c[id]
  {
    ResumesPutBack(c, d, plan, resumes);
  }

  lemma StopsThenResumes(c: Cluster, plan: seq<QuiesceTarget>, stops: seq<Event>, resumes: seq<Event>)
    requires PlanFits(c, plan) && Stopped(stops, plan) && Resumed(resumes, plan) && AllOk(resumes)
    ensures Replay(Replay(c, stops), resumes) == c
  {
    StopsStayInPlan(c, stops, plan);
    var d := Replay(c, stops);
    ResumesPutBack(c, d, plan, resumes);
    var e := Replay(d, resumes);
    hide PlanFits, Stopped, Resumed, Replay, Targets;
    forall id | id in c ensures e[id] == c[id] {
      if Targets(plan, id) { TargetPutBack(c, d, plan, resumes, id); } else { OthersKept(c, d, plan, resumes, id); }
    }
  }

  /** On every exit, if the resumes succeeded, the cluster is as it was when it was listed. */
  lemma ClusterRestored(c: Cluster, plan: seq<QuiesceTarget>, volumes: seq<VolumeSpec>, pauser: bool, w: Window)
    requires PlanFits(c, plan) && WindowOf(w, plan, volumes, pauser) && AllOk(w.resumes)
    ensures Replay(c, w.All()) == c
  {
    WorkKeepsScale(w.work, volumes);
    StopsThenResumes(c, plan, w.stops, w.resumes);
    WindowReplay(c, w);
  }

  /** The replay of a window: only its stops and resumes move the cluster. */
  lemma WindowReplay(c: Cluster, w: Window)
    requires NoScale(w.pause) && NoScale(w.work) && NoScale(w.unpause)
    ensures Replay(c, w.All()) == Replay(Replay(c, w.stops), w.resumes)
  {
    ReplayConcat(c, w.pause + w.stops + w.work + w.resumes, w.unpause);
    ReplayConcat(c, w.pause + w.stops + w.work, w.resumes);
    ReplayConcat(c, w.pause + w.stops, w.work);
    ReplayConcat(c, w.pause, w.stops);
    NoScaleNoChange(c, w.pause);
    NoScaleNoChange(Replay(c, w.stops), w.work);
    NoScaleNoChange(Replay(Replay(c, w.stops), w.resumes), w.unpause);
  }

  /** An archive lies in the work of the window, after all stops succeeded. */
  lemma ArchiveInWork(plan: seq<QuiesceTarget>, volumes: seq<VolumeSpec>, pauser: bool, w: Window, i: nat)
    requires WindowOf(w, plan, volumes, pauser) && i < |w.All()| && w.All()[i].effect.Put?
    ensures |w.pause| + |w.stops| <= i < |w.pause| + |w.stops| + |w.work|
    ensures |w.stops| == |plan| && AllOk(w.stops)
  {
    var head, tail := w.pause + w.stops, w.resumes + w.unpause;
    assert w.All() == head + w.work + tail;
  }

  /** Volumes are archived only while every target is at zero. */
  lemma ArchivedAtZero(c: Cluster, plan: seq<QuiesceTarget>, volumes: seq<VolumeSpec>, pauser: bool, w: Window, i: nat,
                       t: nat)
    requires PlanFits(c, plan) && WindowOf(w, plan, volumes, pauser)
    requires i < |w.All()| && w.All()[i].effect.Put? && t < |plan|
    ensures var d := Replay(c, w.All()[..i]); plan[t].id in d && d[plan[t].id] == 0
  {
    ArchiveInWork(plan, volumes, pauser, w, i);
    var n := i - |w.pause| - |w.stops|;
    assert w.All()[..i] == w.pause + w.stops + w.work[..n];
    WorkKeepsScale(w.work, volumes);
    ReplayConcat(c, w.pause + w.stops, w.work[..n]);
    ReplayConcat(c, w.pause, w.stops);
    NoScaleNoChange(c, w.pause);
    NoScaleNoChange(Replay(c, w.stops), w.work[..n]);
    StopsZero(c, w.stops, plan);
  }

  lemma WorkScalesNothing(work: seq<Event>, volumes: seq<VolumeSpec>)
    requires Worked(work, volumes)
    ensures forall n | 0 <= n < |work| :: !work[n].effect.Scale?
  {
    forall n | 0 <= n < |work| ensures !work[n].effect.Scale? {
      if n > 0 { assert work[1..][n - 1] == work[n]; }
    }
  }

  /** A window scales nothing but its targets; workloads that were at zero are not among them. */
  lemma OnlyTargetsScaled(plan: seq<QuiesceTarget>, volumes: seq<VolumeSpec>, pauser: bool, w: Window, i: nat)
    requires WindowOf(w, plan, volumes, pauser) && i < |w.All()| && w.All()[i].effect.Scale?
    ensures Targets(plan, w.All()[i].effect.id)
    ensures i < |w.pause| + |w.stops| || i >= |w.pause| + |w.stops| + |w.work|
  {
    var head := w.pause + w.stops;
    assert w.All() == head + w.work + (w.resumes + w.unpause);
    if w.work != [] { WorkScalesNothing(w.work, volumes); }
    hide Worked;
    if i >= |head| + |w.work| {
      var n := i - |head| - |w.work|;
      assert w.All()[i] == (w.resumes + w.unpause)[n];
      assert Reversed(plan)[n] == plan[|plan| - 1 - n];
    }
  }
}
