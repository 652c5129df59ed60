/** Applications grouped by stack, and the order postures are shown in
    (`internal/observability/domain/security_posture.go`). */
module AppGroups {
  import opened Wrappers
  import opened Sorting
  import opened Ordering
  import opened AppPosture

  datatype StackRef = StackRef(name: string, clusterId: string)

  datatype Group = Group(stackId: string, stackName: string, clusterId: string, clusterName: string, tally: Tally,
                         bestRank: int)

  function AppsOf(ps: seq<Posture>, id: string): seq<Posture> {
    if ps == [] then []
    else AppsOf(ps[..|ps| - 1], id) + if ps[|ps| - 1].app.stackId == id then [ps[|ps| - 1]] else []
  }

  lemma AppsOfSnoc(ps: seq<Posture>, p: Posture, id: string)
    ensures AppsOf(ps + [p], id) == AppsOf(ps, id) + if p.app.stackId == id then [p] else []
  {
    assert (ps + [p])[..|ps|] == ps;
  }

  lemma {:induction false} AppsOfEmpty(ps: seq<Posture>, id: string)
    ensures AppsOf(ps, id) == [] <==> forall p | p in ps :: p.app.stackId != id
  {
    if ps != [] {
      AppsOfEmpty(ps[..|ps| - 1], id);
      assert ps == ps[..|ps| - 1] + [ps[|ps| - 1]];
    }
  }

  function BestRank(ps: seq<Posture>): int {
    if ps == [] then NO_STAGE + 1
    else var before, r := BestRank(ps[..|ps| - 1]), ps[|ps| - 1].rank; if r < before then r else before
  }

  lemma BestSnoc(ps: seq<Posture>, p: Posture)
    ensures BestRank(ps + [p]) == if p.rank < BestRank(ps) then p.rank else BestRank(ps)
  {
    assert (ps + [p])[..|ps|] == ps;
  }

  /** The best rank is a lower bound, and one of the applications has it, unless none is that good. */
  lemma {:induction false} BestIsLeast(ps: seq<Posture>)
    ensures forall p | p in ps :: BestRank(ps) <= p.rank
    ensures BestRank(ps) <= NO_STAGE ==> exists p | p in ps :: p.rank == BestRank(ps)
  {
    if ps != [] {
      var init, last := ps[..|ps| - 1], ps[|ps| - 1];
      BestIsLeast(init);
      assert ps == init + [last];
      if BestRank(init) <= last.rank && BestRank(ps) <= NO_STAGE {
        var p :| p in init && p.rank == BestRank(init);
        assert p in ps;
      } else {
        assert last in ps;
      }
    }
  }

  // ---- the groups -----------------------------------------------------------------------------------------

  /** A group counts the applications of its stack, and no others. */
  ghost predicate CountsStack(g: Group, ps: seq<Posture>) {
    g.tally == Sum(AppsOf(ps, g.stackId), Unit) && g.bestRank == BestRank(AppsOf(ps, g.stackId))
      && AppsOf(ps, g.stackId) != []
  }

  function Together(gs: seq<Group>): Tally {
    if gs == [] then NOTHING else Together(gs[..|gs| - 1]).Plus(gs[|gs| - 1].tally)
  }

  lemma PlusSwaps(a: Tally, b: Tally, c: Tally)
    ensures a.Plus(b).Plus(c) == a.Plus(c).Plus(b) == a.Plus(b.Plus(c))
  {
  }

  /** Where the group of each stack is, while the list is built. */
  ghost predicate Indexed(gs: seq<Group>, index: map<string, nat>) {
    && (forall i | 0 <= i < |gs| :: gs[i].stackId in index && index[gs[i].stackId] == i)
    && (forall k | k in index :: index[k] < |gs| && gs[index[k]].stackId == k)
  }

  ghost predicate AllCount(gs: seq<Group>, ps: seq<Posture>) {
    forall i | 0 <= i < |gs| :: CountsStack(gs[i], ps)
  }

  function Added(g: Group, p: Posture): Group {
    g.(tally := g.tally.Plus(Unit(p)), bestRank := if p.rank < g.bestRank then p.rank else g.bestRank)
  }

  lemma CountsAdded(g: Group, ps: seq<Posture>, p: Posture, now: Group, unit: Posture -> Tally)
    requires g.tally == Sum(AppsOf(ps, g.stackId), unit) && g.bestRank == BestRank(AppsOf(ps, g.stackId))
             && p.app.stackId == g.stackId
    requires now == g.(tally := g.tally.Plus(unit(p)), bestRank := if p.rank < g.bestRank then p.rank else g.bestRank)
    ensures now.tally == Sum(AppsOf(ps + [p], now.stackId), unit)
            && now.bestRank == BestRank(AppsOf(ps + [p], now.stackId)) && AppsOf(ps + [p], now.stackId) != []
  {
    AppsOfSnoc(ps, p, g.stackId);
    SumSnoc(AppsOf(ps, g.stackId), p, unit);
    BestSnoc(AppsOf(ps, g.stackId), p);
  }

  lemma OthersCount(gs: seq<Group>, ps: seq<Posture>, p: Posture, i: nat)
    requires AllCount(gs, ps) && i < |gs| && gs[i].stackId != p.app.stackId
    ensures CountsStack(gs[i], ps + [p])
  {
    AppsOfSnoc(ps, p, gs[i].stackId);
    assert AppsOf(ps, gs[i].stackId) + [] == AppsOf(ps, gs[i].stackId);
  }

  lemma AppAdded(gs: seq<Group>, index: map<string, nat>, ps: seq<Posture>, p: Posture, i: nat)
    requires AllCount(gs, ps) && Indexed(gs, index) && i < |gs| && gs[i].stackId == p.app.stackId
    ensures var now := gs[i := Added(gs[i], p)];
              AllCount(now, ps + [p]) && Indexed(now, index)
  {
    var now := gs[i := Added(gs[i], p)];
    CountsAdded(gs[i], ps, p, now[i], Unit);
    forall k | 0 <= k < |gs| && k != i ensures CountsStack(now[k], ps + [p]) { OthersCount(gs, ps, p, k); }
  }

  lemma IndexedNew(gs: seq<Group>, index: map<string, nat>, g: Group)
    requires Indexed(gs, index) && g.stackId !in index
    ensures Indexed(gs + [g], index[g.stackId := |gs|])
  {
  }

  lemma CountsNew(gs: seq<Group>, ps: seq<Posture>, p: Posture, g: Group)
    requires AllCount(gs, ps) && CountsStack(g, ps + [p]) && forall k | 0 <= k < |gs| :: gs[k].stackId != p.app.stackId
    ensures AllCount(gs + [g], ps + [p])
  {
    forall k | 0 <= k < |gs| ensures CountsStack(gs[k], ps + [p]) { OthersCount(gs, ps, p, k); }
  }

  /** The first application of a stack. */
  lemma FirstCounts(ps: seq<Posture>, p: Posture, fresh': Group, now: Group, unit: Posture -> Tally)
    requires fresh'.stackId == p.app.stackId && fresh'.tally == NOTHING && fresh'.bestRank == NO_STAGE + 1
             && AppsOf(ps, p.app.stackId) == []
    requires now == fresh'.(tally := fresh'.tally.Plus(unit(p)), bestRank :=
                            if p.rank < fresh'.bestRank then p.rank else fresh'.bestRank)
    ensures now.tally == Sum(AppsOf(ps + [p], now.stackId), unit)
            && now.bestRank == BestRank(AppsOf(ps + [p], now.stackId)) && AppsOf(ps + [p], now.stackId) != []
    ensures now.tally == unit(p)
  {
    CountsAdded(fresh', ps, p, now, unit);
  }

  // ---- grouping ---------------------------------------------------------------------------------------------

  function NewGroup(id: string, stacks: map<string, StackRef>, clusterNames: map<string, string>): Group {
    if id in stacks && id != "" then
      var ref := stacks[id];
      Group(id, ref.name, ref.clusterId,
            if ref.clusterId in clusterNames then clusterNames[ref.clusterId] else "", NOTHING, NO_STAGE + 1)
    else Group(id, "", "", "", NOTHING, NO_STAGE + 1)
  }

  /** The group carries the names its stack and cluster are known by; none where the stack is not known, and none where
      there is no stack. */
  ghost predicate Labelled(g: Group, stacks: map<string, StackRef>, clusterNames: map<string, string>) {
    && (g.stackId != "" && g.stackId in stacks ==>
          && g.stackName == stacks[g.stackId].name && g.clusterId == stacks[g.stackId].clusterId
          && (g.clusterId in clusterNames ==> g.clusterName == clusterNames[g.clusterId])
          && (g.clusterId !in clusterNames ==> g.clusterName == ""))
    && (g.stackId == "" || g.stackId !in stacks ==> g.stackName == g.clusterId == g.clusterName == "")
  }

  /** Counts an application in its group. */
  method AddApp(g: Group, p: Posture) returns (now: Group)
    ensures now == Added(g, p)
  {
    var f := FlagsOf(p);
    var t := g.tally;
    t := t.(apps := t.apps + 1);
    if f.blocked { t := t.(blocked := t.blocked + 1); }
    if f.secret { t := t.(secrets := t.secrets + 1); }
    if f.critical { t := t.(critical := t.critical + 1); }
    if f.undetermined { t := t.(undetermined := t.undetermined + 1); }
    if IsProblemRank(p.rank) { t := t.(problems := t.problems + 1); }
    now := g.(tally := t);
    if p.rank < now.bestRank { now := now.(bestRank := p.rank); }
  }

  /** The groups of a list, while it is gone through. */
  ghost predicate Grouping(gs: seq<Group>, index: map<string, nat>, ps: seq<Posture>) {
    AllCount(gs, ps) && Indexed(gs, index)
      && forall p | p in ps :: p.app.stackId in index
  }

  lemma GroupingAdded(gs: seq<Group>, index: map<string, nat>, ps: seq<Posture>, p: Posture, i: nat)
    requires Grouping(gs, index, ps) && i < |gs| && gs[i].stackId == p.app.stackId
    ensures Grouping(gs[i := Added(gs[i], p)], index, ps + [p])
  {
    AppAdded(gs, index, ps, p, i);
  }

  lemma PlacesGrow(ps: seq<Posture>, p: Posture, index: map<string, nat>, n: nat)
    requires forall q | q in ps :: q.app.stackId in index
    ensures forall q | q in ps + [p] :: q.app.stackId in index[p.app.stackId := n]
  {
  }

  lemma GroupingOpened(gs: seq<Group>, index: map<string, nat>, ps: seq<Posture>, p: Posture, g: Group, now: Group,
                       places: map<string, nat>)
    requires Grouping(gs, index, ps) && p.app.stackId !in index && places == index[p.app.stackId := |gs|]
    requires g.stackId == p.app.stackId && g.tally == NOTHING && g.bestRank == NO_STAGE + 1 && now == Added(g, p)
    ensures Grouping(gs + [now], places, ps + [p])
  {
    PlacesGrow(ps, p, index, |gs|);
    GroupOpened(gs, index, ps, p, g, now);
  }

  lemma StillLabelled(gs: seq<Group>, p: Posture, i: nat, stacks: map<string, StackRef>,
                      clusterNames: map<string, string>)
    requires (forall g | g in gs :: Labelled(g, stacks, clusterNames)) && i < |gs|
    ensures forall g | g in gs[i := Added(gs[i], p)] :: Labelled(g, stacks, clusterNames)
  {
    assert gs[i] in gs && forall g | g in gs[i := Added(gs[i], p)] :: g in gs || g == Added(gs[i], p);
  }

  lemma NewLabelled(id: string, p: Posture, stacks: map<string, StackRef>, clusterNames: map<string, string>)
    ensures Labelled(Added(NewGroup(id, stacks, clusterNames), p), stacks, clusterNames)
  {
  }

  method PlaceApp(gs: seq<Group>, index: map<string, nat>, ghost ps: seq<Posture>, p: Posture,
                  stacks: map<string, StackRef>, clusterNames: map<string, string>)
    returns (all: seq<Group>, places: map<string, nat>)
    requires Grouping(gs, index, ps) && forall g | g in gs :: Labelled(g, stacks, clusterNames)
    ensures Grouping(all, places, ps + [p]) && forall g | g in all :: Labelled(g, stacks, clusterNames)
  {
    hide Labelled, Added, CountsStack;
    if p.app.stackId in index {
      var i := index[p.app.stackId];
      StillLabelled(gs, p, i, stacks, clusterNames);
      GroupingAdded(gs, index, ps, p, i);
      var now := AddApp(gs[i], p);
      all, places := gs[i := now], index;
    } else {
      var g := NewGroup(p.app.stackId, stacks, clusterNames);
      NewLabelled(p.app.stackId, p, stacks, clusterNames);
      var now := AddApp(g, p);
      all, places := gs + [now], index[p.app.stackId := |gs|];
      GroupingOpened(gs, index, ps, p, g, now, places);
    }
  }

  method CollectGroups(ps: seq<Posture>, stacks: map<string, StackRef>, clusterNames: map<string, string>)
    returns (gs: seq<Group>, index: map<string, nat>)
    ensures Grouping(gs, index, ps) && forall g | g in gs :: Labelled(g, stacks, clusterNames)
  {
    gs, index := [], map[];
    for n := 0 to |ps|
      invariant Grouping(gs, index, ps[..n]) && forall g | g in gs :: Labelled(g, stacks, clusterNames)
    {
      assert ps[..n + 1] == ps[..n] + [ps[n]];
      gs, index := PlaceApp(gs, index, ps[..n], ps[n], stacks, clusterNames);
    }
    assert ps[..|ps|] == ps;
  }

  lemma GroupOpened(gs: seq<Group>, index: map<string, nat>, ps: seq<Posture>, p: Posture, g: Group, now: Group)
    requires AllCount(gs, ps) && Indexed(gs, index) && p.app.stackId !in index
             && (forall q | q in ps :: q.app.stackId in index)
    requires g.stackId == p.app.stackId && g.tally == NOTHING && g.bestRank == NO_STAGE + 1 && now == Added(g, p)
    ensures AllCount(gs + [now], ps + [p]) && Indexed(gs + [now], index[p.app.stackId := |gs|])
  {
    AppsOfEmpty(ps, p.app.stackId);
    FirstCounts(ps, p, g, now, Unit);
    CountsNew(gs, ps, p, now);
    IndexedNew(gs, index, now);
  }

  // ---- order ------------------------------------------------------------------------------------------------

  /** Groups without a stack last, then by how bad their worst application is, how many problems there are, and name. */
  function GroupKey(g: Group): Key {
    Key([if g.stackId == "" then 1 else 0, g.bestRank, -g.tally.problems], g.stackName, g.stackId)
  }

  /** A group comes no later than another: one without a stack last, else the one with the worse application first, or
      with more problems, or by name. */
  predicate GroupNoLater(g: Group, h: Group) {
    if g.stackId == "" || h.stackId == "" then h.stackId == ""
    else
      || g.bestRank < h.bestRank
      || (g.bestRank == h.bestRank
          && (|| g.tally.problems > h.tally.problems
              || (g.tally.problems == h.tally.problems
                  && if g.stackName != h.stackName then StringLeq(g.stackName, h.stackName)
                     else StringLeq(g.stackId, h.stackId))))
  }

  lemma GroupKeyOrders(g: Group, h: Group)
    requires By(GroupKey)(g, h) && (g.stackId == "" && h.stackId == "" ==> g == h)
    ensures GroupNoLater(g, h)
  {
    assert By(GroupKey)(g, h) == KeyLeq(GroupKey(g), GroupKey(h));
    ThreeLeq(if g.stackId == "" then 1 else 0, g.bestRank, -g.tally.problems,
             if h.stackId == "" then 1 else 0, h.bestRank, -h.tally.problems);
  }

  lemma GroupsNoLater(gs: seq<Group>, ps: seq<Posture>)
    requires Sorted(gs, By(GroupKey)) && Partition(gs, ps)
    ensures Sorted(gs, GroupNoLater)
  {
    hide GroupNoLater, By;
    forall i, j | 0 <= i < j < |gs| ensures GroupNoLater(gs[i], gs[j]) {
      assert gs[i] in gs && gs[j] in gs;
      GroupKeyOrders(gs[i], gs[j]);
    }
  }

  lemma {:induction false} IndexedOnce(gs: seq<Group>, g: Group)
    requires forall i, j | 0 <= i < j < |gs| :: gs[i].stackId != gs[j].stackId
    ensures multiset(gs)[g] == if g in gs then 1 else 0
  {
    if gs != [] {
      IndexedOnce(gs[..|gs| - 1], g);
      assert gs == gs[..|gs| - 1] + [gs[|gs| - 1]];
    }
  }

  /** Each application is counted in exactly one group, that of its stack; each group counts its stack's applications
      and no others. */
  ghost predicate Partition(gs: seq<Group>, ps: seq<Posture>) {
    && (forall g | g in gs :: multiset(gs)[g] == 1 && CountsStack(g, ps))
    && (forall g, h | g in gs && h in gs && g.stackId == h.stackId :: g == h)
    && (forall p | p in ps :: exists g | g in gs :: g.stackId == p.app.stackId)
  }

  lemma GroupsSorted(gs: seq<Group>, index: map<string, nat>, ps: seq<Posture>, le: (Group, Group) -> bool)
    requires Grouping(gs, index, ps)
    ensures Partition(SortBy(gs, le), ps)
  {
    var sorted := SortBy(gs, le);
    forall g ensures g in sorted <==> g in gs { assert g in multiset(sorted) <==> g in multiset(gs); }
    forall g | g in sorted ensures multiset(sorted)[g] == 1 { IndexedOnce(gs, g); }
    forall p | p in ps ensures exists g | g in sorted ::
      g.stackId == p.app.stackId { assert gs[index[p.app.stackId]] in sorted; }
  }

  method GroupAppsByStack(ps: seq<Posture>, stacks: map<string, StackRef>, clusterNames: map<string, string>)
    returns (out: seq<Group>)
    ensures Partition(out, ps) && Sorted(out, GroupNoLater)
    ensures forall g | g in out :: Labelled(g, stacks, clusterNames)
  {
    var gs, index := CollectGroups(ps, stacks, clusterNames);
    GroupsSorted(gs, index, ps, By(GroupKey));
    ByPreorder(GroupKey);
    SortSorted(gs, By(GroupKey));
    GroupsNoLater(SortBy(gs, By(GroupKey)), ps);
    out := SortBy(gs, By(GroupKey));
    forall g | g in out ensures g in gs { assert g in multiset(out); }
  }

  // ---- the groups and the summary -----------------------------------------------------------------------------

  /** The counters of the applications of these stacks. */
  function OverStacks(ids: seq<string>, ps: seq<Posture>, unit: Posture -> Tally): Tally {
    if ids == [] then NOTHING
    else OverStacks(ids[..|ids| - 1], ps, unit).Plus(Sum(AppsOf(ps, ids[|ids| - 1]), unit))
  }

  ghost predicate Distinct(ids: seq<string>) {
    forall i, j | 0 <= i < j < |ids| :: ids[i] != ids[j]
  }

  lemma {:induction false} OverNobody(ids: seq<string>, unit: Posture -> Tally)
    ensures OverStacks(ids, [], unit) == NOTHING
  {
    if ids != [] { OverNobody(ids[..|ids| - 1], unit); }
  }

  lemma SumOfOne(ps: seq<Posture>, p: Posture, id: string, unit: Posture -> Tally)
    ensures Sum(AppsOf(ps + [p], id), unit) ==
            if p.app.stackId == id then Sum(AppsOf(ps, id), unit).Plus(unit(p)) else Sum(AppsOf(ps, id), unit)
  {
    AppsOfSnoc(ps, p, id);
    if p.app.stackId == id { SumSnoc(AppsOf(ps, id), p, unit); } else { assert AppsOf(ps, id) + [] == AppsOf(ps, id); }
  }

  /** One more application counts once, in its own stack. */
  lemma {:induction false} OverOneMore(ids: seq<string>, ps: seq<Posture>, p: Posture, unit: Posture -> Tally)
    requires Distinct(ids)
    ensures OverStacks(ids, ps + [p], unit) ==
            if p.app.stackId in ids then OverStacks(ids, ps, unit).Plus(unit(p)) else OverStacks(ids, ps, unit)
  {
    if ids != [] {
      var init, last := ids[..|ids| - 1], ids[|ids| - 1];
      assert ids == init + [last];
      OverOneMore(init, ps, p, unit);
      SumOfOne(ps, p, last, unit);
      PlusSwaps(OverStacks(init, ps, unit), Sum(AppsOf(ps, last), unit), unit(p));
      PlusSwaps(OverStacks(init, ps, unit), unit(p), Sum(AppsOf(ps, last), unit));
      if p.app.stackId == last { assert last !in init; }
      hide Sum, AppsOf;
    }
  }

  /** Stacks that hold every application, each stack once, hold each application once. */
  lemma {:induction false} OverEverybody(ids: seq<string>, ps: seq<Posture>, unit: Posture -> Tally)
    requires Distinct(ids) && forall p | p in ps :: p.app.stackId in ids
    ensures OverStacks(ids, ps, unit) == Sum(ps, unit)
  {
    if ps == [] {
      OverNobody(ids, unit);
    } else {
      var init, last := ps[..|ps| - 1], ps[|ps| - 1];
      assert ps == init + [last] && last in ps;
      OverEverybody(ids, init, unit);
      OverOneMore(ids, init, last, unit);
    }
  }

  function StacksOf(gs: seq<Group>): (ids: seq<string>)
    ensures |ids| == |gs| && forall i | 0 <= i < |gs| :: ids[i] == gs[i].stackId
  {
    seq(|gs|, i requires 0 <= i < |gs| => gs[i].stackId)
  }

  lemma {:induction false} TogetherOver(gs: seq<Group>, ps: seq<Posture>, unit: Posture -> Tally)
    requires forall i | 0 <= i < |gs| :: gs[i].tally == Sum(AppsOf(ps, gs[i].stackId), unit)
    ensures Together(gs) == OverStacks(StacksOf(gs), ps, unit)
  {
    if gs != [] {
      TogetherOver(gs[..|gs| - 1], ps, unit);
      assert StacksOf(gs)[..|gs| - 1] == StacksOf(gs[..|gs| - 1]);
    }
  }

  lemma CountedTwice(gs: seq<Group>, i: nat, j: nat)
    requires i < j < |gs| && gs[i] == gs[j]
    ensures multiset(gs)[gs[i]] >= 2
  {
    assert gs == gs[..i + 1] + gs[i + 1..];
    assert gs[..i + 1][i] == gs[i] && gs[i + 1..][j - i - 1] == gs[j];
    assert gs[i] in multiset(gs[..i + 1]) && gs[i] in multiset(gs[i + 1..]);
  }

  lemma StacksDistinct(gs: seq<Group>, ps: seq<Posture>)
    requires Partition(gs, ps)
    ensures Distinct(StacksOf(gs))
  {
    forall i, j | 0 <= i < j < |gs| ensures gs[i].stackId != gs[j].stackId {
      if gs[i] == gs[j] { CountedTwice(gs, i, j); }
    }
  }

  /** The counters of the groups add up to those of the summary. */
  lemma GroupsMatchSummary(gs: seq<Group>, ps: seq<Posture>)
    requires Partition(gs, ps)
    ensures var t, s := Together(gs), SummaryOf(ps);
            t.apps == s.apps && t.blocked == s.blocked && t.secrets == s.secrets && t.critical == s.critical
              && t.undetermined == s.undetermined
  {
    StacksDistinct(gs, ps);
    forall i | 0 <= i < |gs| ensures CountsStack(gs[i], ps) { assert gs[i] in gs; }
    TogetherOver(gs, ps, Unit);
    forall p | p in ps ensures p.app.stackId in StacksOf(gs) {
      var g :| g in gs && g.stackId == p.app.stackId;
      var i :| 0 <= i < |gs| && gs[i] == g;
      assert StacksOf(gs)[i] == g.stackId;
    }
    OverEverybody(StacksOf(gs), ps, Unit);
  }

  /** How applications are ordered: by rank, critical findings, latest run, name and pipeline. A time of no run is the
      zero time. */
  function PostureKey(p: Posture): Key {
    Key([p.rank, -(p.critical as int), -(if p.app.latestRun.Some? then p.app.latestRun.value.1 else 0)], p.app.name,
        p.app.pipelineId)
  }

  /** An application comes no later than another: the worse rank first, then more critical findings, then the later
      run, then by name and pipeline. */
  predicate ShownNoLater(p: Posture, q: Posture) {
    var at := if p.app.latestRun.Some? then p.app.latestRun.value.1 else 0;
    var other := if q.app.latestRun.Some? then q.app.latestRun.value.1 else 0;
    || p.rank < q.rank
    || (p.rank == q.rank
        && (|| p.critical > q.critical
            || (p.critical == q.critical
                && (|| at > other
                    || (at == other
                        && if p.app.name != q.app.name then StringLeq(p.app.name, q.app.name)
                           else StringLeq(p.app.pipelineId, q.app.pipelineId))))))
  }

  lemma PostureKeyOrders(p: Posture, q: Posture)
    ensures By(PostureKey)(p, q) <==> ShownNoLater(p, q)
  {
    assert By(PostureKey)(p, q) == KeyLeq(PostureKey(p), PostureKey(q));
    ThreeLeq(p.rank, -(p.critical as int), -(if p.app.latestRun.Some? then p.app.latestRun.value.1 else 0),
             q.rank, -(q.critical as int), -(if q.app.latestRun.Some? then q.app.latestRun.value.1 else 0));
  }

  /** The list shown: every application as often as it was given, the worst first. */
  lemma WorstFirst(ps: seq<Posture>)
    ensures multiset(SortBy(ps, By(PostureKey))) == multiset(ps) && Sorted(SortBy(ps, By(PostureKey)), ShownNoLater)
  {
    ByPreorder(PostureKey);
    SortSorted(ps, By(PostureKey));
    var shown := SortBy(ps, By(PostureKey));
    hide ShownNoLater, By;
    forall i, j | 0 <= i < j < |shown| ensures ShownNoLater(shown[i], shown[j]) {
      PostureKeyOrders(shown[i], shown[j]);
    }
  }

  /** With distinct pipelines, the order applications are shown in does not depend on the order they came in. */
  lemma OrderIgnoresInput(ps: seq<Posture>, qs: seq<Posture>)
    requires multiset(ps) == multiset(qs)
    requires forall p, q | p in ps && q in ps && p.app.pipelineId == q.app.pipelineId :: p == q
    ensures SortBy(ps, By(PostureKey)) == SortBy(qs, By(PostureKey))
  {
    ByPreorder(PostureKey);
    ByDistinguishes(ps, PostureKey);
    SortIgnoresOrder(ps, qs, By(PostureKey));
  }
}
