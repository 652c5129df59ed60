/** A whole collection cycle (`CollectStackAlerts.Run`), and what a run of cycles publishes while
    the cycle lock keeps replicas apart. */
module AlertCycle {
  import opened Wrappers
  import opened AlertStore
  import opened AlertHistory
  import opened AlertRepository
  import opened CollectAlerts

  /** How taking the cycle lock went: not wired, taken, held by another replica, or failed. */
  datatype Lock = Unwired | Acquired | Busy | Broken

  datatype Cycle = Cycle(visits: seq<Visit>, start: int, end: int)

  function SeenBy(v: Visit, accept: SourceAlert -> bool): set<string> {
    if v.alerts.None? then {} else Fingerprints(Handled(v.alerts.value, accept))
  }

  function AudibleTo(v: Visit, accept: SourceAlert -> bool): set<string> {
    if v.alerts.None? then {} else Audible(Handled(v.alerts.value, accept))
  }

  function StacksOf(visits: seq<Visit>): (r: set<string>)
    ensures forall k | 0 <= k < |visits| :: visits[k].stack in r
  {
    set v | v in visits :: v.stack
  }

  ghost predicate DistinctStacks(visits: seq<Visit>) {
    forall j, k | 0 <= j < k < |visits| :: visits[j].stack != visits[k].stack
  }

  /** One stack: its sightings, then what it no longer reports. An unreached stack is left alone. */
  method CollectStack(repo: Repository, v: Visit, accept: SourceAlert -> bool, timing: Timing)
    returns (reached: bool, events: seq<Mark>)
    requires repo.Valid()
    modifies repo
    ensures repo.Valid() && reached == v.alerts.Some?
    ensures !reached ==> events == [] && unchanged(repo)
    ensures Visited(old(repo.records), old(repo.log), repo.records, repo.log, events, v, SeenBy(v, accept),
                    AudibleTo(v, accept), timing)
    ensures OnePerKey(events) && forall e | e in events :: e.key.stack == v.stack
    ensures Undisturbed(old(repo.script)) ==>
              && Undisturbed(repo.script) && AllMine(repo.log, |old(repo.log)|)
              && ResolutionsAnnounced(old(repo.records), repo.records, events, v.now)
    ensures reached && old(repo.script) == [] ==>
              && repo.script == []
              && VisitDone(old(repo.records), repo.records, v, SeenBy(v, accept), AudibleTo(v, accept), timing)
              && SightingsAnnounced(old(repo.records), repo.records, events, v, AudibleTo(v, accept), timing)
  {
    if v.alerts.None? { return false, []; }
    ghost var audible := AudibleTo(v, accept);
    AudibleSeen(v, accept);
    var fired, seen := HandleSightings(repo, v, v.alerts.value, accept, timing);
    ghost var mid, log := repo.records, repo.log;
    var resolved := ResolveUnseen(repo, v, timing, seen, audible);
    VisitedJoin(old(repo.records), old(repo.log), mid, log, fired, repo.records, repo.log, resolved, v, seen, audible,
                timing);
    JoinEvents(fired, resolved, v.stack, seen);
    if old(repo.script) == [] {
      VisitEnds(old(repo.log), log, repo.log, v, seen, audible, timing);
      AnnouncedDespite(old(repo.records), mid, repo.records, fired, resolved, v, seen, audible, timing);
    }
    return true, fired + resolved;
  }

  lemma AudibleSeen(v: Visit, accept: SourceAlert -> bool)
    ensures AudibleTo(v, accept) <= SeenBy(v, accept)
  {
  }

  /** Resolving what was not seen says nothing of what was. */
  lemma AnnouncedDespite(s: Store, t: Store, u: Store, fired: seq<Mark>, resolved: seq<Mark>, v: Visit,
                         seen: set<string>, audible: set<string>, timing: Timing)
    requires SightingsAnnounced(s, t, fired, v, audible, timing) && AllUnseenResolved(t, u, v, seen, timing)
    requires EventsOfUnseen(resolved, v.stack, seen) && audible <= seen
    ensures SightingsAnnounced(s, u, fired + resolved, v, audible, timing)
  {
    forall id: nat | OpenAt(s, id) && s[id].key.stack == v.stack && s[id].key.fingerprint in audible
      ensures AnnouncedAs(s[id], id, fired + resolved, v, timing)
    {
      assert AnnouncedAs(s[id], id, fired, v, timing);
    }
    forall id: nat | |s| <= id < |u| && u[id].key.stack == v.stack && u[id].key.fingerprint in audible
      ensures Mark(Fired, id, u[id].key, v.now) in fired + resolved
    {
      assert u[id].key == t[id].key;
    }
  }

  lemma JoinEvents(fired: seq<Mark>, resolved: seq<Mark>, stack: string, seen: set<string>)
    requires EventsOfSeen(fired, stack, seen) && EventsOfUnseen(resolved, stack, seen)
    ensures OnePerKey(fired + resolved) && forall e | e in fired + resolved :: e.key.stack == stack
  {
    var all := fired + resolved;
    forall i, j | 0 <= i < j < |all| ensures all[i].key != all[j].key {
      if j < |fired| {
      } else if i < |fired| {
        assert all[i] in fired && all[j] in resolved;
      }
    }
  }

  lemma VisitEnds(l0: seq<Entry>, l1: seq<Entry>, l2: seq<Entry>, v: Visit, seen: set<string>, audible: set<string>,
                  timing: Timing)
    requires SightingsDone(Run(OpsOf(l0)), Run(OpsOf(l1)), v, seen, audible, timing)
    requires AllUnseenResolved(Run(OpsOf(l1)), Run(OpsOf(l2)), v, seen, timing)
    ensures VisitDone(Run(OpsOf(l0)), Run(OpsOf(l2)), v, seen, audible, timing)
  {
    var s, t, u := Run(OpsOf(l0)), Run(OpsOf(l1)), Run(OpsOf(l2));
    forall f | f in seen ensures FindOpen(u, Key(v.stack, f)).Some? {
      assert OpenWithKey(u, FindOpen(t, Key(v.stack, f)).value, Key(v.stack, f));
    }
  }

  // ---- the whole cycle ---------------------------------------------------------------------------

  /** What a cycle may do: close silently for stacks it does not know, or what one of the visits that
      reached its stack may do. */
  ghost predicate CycleMay(op: Op, s: Store, c: Cycle, accept: SourceAlert -> bool, timing: Timing) {
    || op == CloseMissing(StacksOf(c.visits), c.end, c.start)
    || exists k :: 0 <= k < |c.visits| && MayDuring(op, s, c.visits[k], accept, timing)
  }

  ghost predicate MayDuring(op: Op, s: Store, v: Visit, accept: SourceAlert -> bool, timing: Timing) {
    v.alerts.Some? && VisitMay(op, s, v, SeenBy(v, accept), AudibleTo(v, accept), timing)
  }

  ghost predicate CycleKept(log: seq<Entry>, from: nat, s: Store, c: Cycle, accept: SourceAlert -> bool,
                            timing: Timing) {
    forall i | from <= i < |log| && log[i].mine :: CycleMay(log[i].op, s, c, accept, timing)
  }

  /** From table s and history `before` to t and `after`: lawful calls of ours, entitling us to `events`. */
  ghost predicate Cycled(s: Store, before: seq<Entry>, t: Store, after: seq<Entry>, events: seq<Mark>,
                         c: Cycle, accept: SourceAlert -> bool, timing: Timing) {
    && Grows(s, t) && before <= after
    && OwnEvents(after) == OwnEvents(before) + events
    && CycleKept(after, |before|, t, c, accept, timing)
  }

  lemma CycledVisit(s: Store, l0: seq<Entry>, t: Store, l1: seq<Entry>, sofar: seq<Mark>, u: Store, l2: seq<Entry>,
                    found: seq<Mark>,
                    c: Cycle, k: nat, accept: SourceAlert -> bool, timing: Timing)
    requires k < |c.visits| && Cycled(s, l0, t, l1, sofar, c, accept, timing)
    requires var v := c.visits[k]; Visited(t, l1, u, l2, found, v, SeenBy(v, accept), AudibleTo(v, accept), timing)
    requires c.visits[k].alerts.None? ==> l2 == l1
    ensures Cycled(s, l0, u, l2, sofar + found, c, accept, timing) && l0 <= l1 <= l2
  {
    GrowsTransitive(s, t, u);
    assert OwnEvents(l0) + sofar + found == OwnEvents(l0) + (sofar + found);
    forall i | |l0| <= i < |l2| && l2[i].mine ensures CycleMay(l2[i].op, u, c, accept, timing) {
      if i < |l1| {
        assert l1[i] == l2[i] && CycleMay(l1[i].op, t, c, accept, timing);
        MayGrows(l1[i].op, t, u, c, accept, timing);
      } else {
        assert MayDuring(l2[i].op, u, c.visits[k], accept, timing);
      }
    }
  }

  lemma MayGrows(op: Op, s: Store, t: Store, c: Cycle, accept: SourceAlert -> bool, timing: Timing)
    requires CycleMay(op, s, c, accept, timing) && Grows(s, t)
    ensures CycleMay(op, t, c, accept, timing)
  {
    if op != CloseMissing(StacksOf(c.visits), c.end, c.start) {
      var k :| 0 <= k < |c.visits| && MayDuring(op, s, c.visits[k], accept, timing);
      assert MayDuring(op, t, c.visits[k], accept, timing);
    }
  }

  /** A stored record after the visits of an undisturbed cycle; an unreached stack leaves it alone. */
  function AfterVisits(r: Record, visits: seq<Visit>, accept: SourceAlert -> bool, timing: Timing): Record {
    if visits == [] then r
    else
      var before, v := AfterVisits(r, visits[..|visits| - 1], accept, timing), visits[|visits| - 1];
      if v.alerts.None? then before else Outcome(before, v, SeenBy(v, accept), AudibleTo(v, accept), timing)
  }

  /** ... and after the silent closing that ends the cycle. */
  function AfterCycle(r: Record, c: Cycle, accept: SourceAlert -> bool, timing: Timing): Record {
    var t := AfterVisits(r, c.visits, accept, timing);
    if t.resolvedAt.None? && t.key.stack !in StacksOf(c.visits) && t.lastSeen < c.start
      then t.(resolvedAt := Some(c.end)) else t
  }

  ghost predicate VisitsDone(s: Store, t: Store, visits: seq<Visit>, accept: SourceAlert -> bool, timing: Timing) {
    && |s| <= |t|
    && (forall id: nat | id < |s| :: t[id] == AfterVisits(s[id], visits, accept, timing))
    && (DistinctStacks(visits) ==> AllRecorded(t, visits, accept))
  }

  /** Every accepted sighting of a reached stack has an open record. */
  ghost predicate AllRecorded(t: Store, visits: seq<Visit>, accept: SourceAlert -> bool) {
    forall k, f | 0 <= k < |visits| && f in SeenBy(visits[k], accept) :: FindOpen(t, Key(visits[k].stack, f)).Some?
  }

  lemma VisitsStep(s: Store, t: Store, u: Store, visits: seq<Visit>, k: nat, accept: SourceAlert -> bool,
                   timing: Timing)
    requires k < |visits| && VisitsDone(s, t, visits[..k], accept, timing)
    requires var v := visits[k];
             if v.alerts.None? then u == t else VisitDone(t, u, v, SeenBy(v, accept), AudibleTo(v, accept), timing)
    ensures VisitsDone(s, u, visits[..k + 1], accept, timing)
  {
    var done := visits[..k + 1];
    assert done[..|done| - 1] == visits[..k];
    if DistinctStacks(done) {
      forall j, f | 0 <= j < |done| && f in SeenBy(done[j], accept) ensures FindOpen(u, Key(done[j].stack, f)).Some? {
        if j < k {
          assert visits[..k][j] == done[j] && done[j].stack != visits[k].stack;
          var id := FindOpen(t, Key(done[j].stack, f)).value;
          assert OpenWithKey(u, id, Key(done[j].stack, f));
        }
      }
    }
  }

  /** Every record that was notified and that a visit closed between s and t has its resolution among the events, at the
      time of a visit. */
  ghost predicate AnnouncedBy(s: Store, t: Store, events: seq<Mark>, visits: seq<Visit>) {
    forall id: nat | OpenAt(s, id) && id < |t| && !OpenAt(t, id) && t[id].notifiedAt.Some? ::
      exists k :: 0 <= k < |visits| && Mark(Kind.Resolved, id, t[id].key, visits[k].now) in events
  }

  lemma AnnouncedOn(s: Store, t: Store, u: Store, events: seq<Mark>, found: seq<Mark>, visits: seq<Visit>, v: Visit)
    requires Grows(s, t) && Grows(t, u) && AnnouncedBy(s, t, events, visits) && ResolutionsAnnounced(t, u, found, v.now)
    ensures AnnouncedBy(s, u, events + found, visits + [v])
  {
    var all := visits + [v];
    forall id: nat | OpenAt(s, id) && id < |u| && !OpenAt(u, id) && u[id].notifiedAt.Some?
      ensures exists k :: 0 <= k < |all| && Mark(Kind.Resolved, id, u[id].key, all[k].now) in events + found
    {
      if OpenAt(t, id) {
        assert all[|visits|] == v && Mark(Kind.Resolved, id, u[id].key, v.now) in found;
      } else {
        var k :| 0 <= k < |visits| && Mark(Kind.Resolved, id, t[id].key, visits[k].now) in events;
        assert all[k] == visits[k];
      }
    }
  }

  /** The silent closing that ends a cycle touches only stacks the cycle does not know. */
  lemma AnnouncedAtEnd(s: Store, t: Store, u: Store, events: seq<Mark>, c: Cycle, keep: set<string>)
    requires Grows(s, t) && AnnouncedBy(s, t, events, c.visits) && keep == StacksOf(c.visits)
    requires u == t || u == Apply(t, CloseMissing(keep, c.end, c.start))
    ensures CycleAnnounced(s, u, events, c)
  {
    forall id: nat | OpenAt(s, id) && id < |u| && !OpenAt(u, id) && u[id].notifiedAt.Some? && u[id].key.stack in keep
      ensures exists k :: 0 <= k < |c.visits| && Mark(Kind.Resolved, id, u[id].key, c.visits[k].now) in events
    {
      assert u[id] == t[id];
    }
  }

  /** Every record of a listed stack that was notified and that the cycle closed has its resolution among the events. */
  ghost predicate CycleAnnounced(s: Store, u: Store, events: seq<Mark>, c: Cycle) {
    forall id: nat |
      OpenAt(s, id) && id < |u| && !OpenAt(u, id) && u[id].notifiedAt.Some? && u[id].key.stack in StacksOf(c.visits) ::
      exists k :: 0 <= k < |c.visits| && Mark(Kind.Resolved, id, u[id].key, c.visits[k].now) in events
  }

  /** What an undisturbed cycle without failed calls says of the alerts of the first k stacks; every record it made is
      of one of them. */
  ghost predicate CycleNotified(s: Store, t: Store, events: seq<Mark>, visits: seq<Visit>, k: nat,
                                accept: SourceAlert -> bool, timing: Timing)
    requires k <= |visits|
  {
    && |s| <= |t| && (forall id: nat | |s| <= id < |t| :: t[id].key.stack in StacksOf(visits[..k]))
    && (forall j | 0 <= j < k && visits[j].alerts.Some? ::
          SightingsAnnounced(s, t, events, visits[j], AudibleTo(visits[j], accept), timing))
  }

  lemma {:induction false} OtherStacksKeep(r: Record, visits: seq<Visit>, accept: SourceAlert -> bool, timing: Timing)
    requires r.key.stack !in StacksOf(visits)
    ensures AfterVisits(r, visits, accept, timing) == r
  {
    if visits != [] {
      assert visits[|visits| - 1] in visits;
      assert forall v | v in visits[..|visits| - 1] :: v in visits;
      OtherStacksKeep(r, visits[..|visits| - 1], accept, timing);
    }
  }

  /** What was said stays true while events of another stack are added and other records change. */
  lemma AnnouncedLater(s: Store, t: Store, u: Store, events: seq<Mark>, found: seq<Mark>, v: Visit,
                       audible: set<string>, timing: Timing)
    requires SightingsAnnounced(s, t, events, v, audible, timing) && Grows(t, u)
    requires forall id: nat | |t| <= id < |u| :: u[id].key.stack != v.stack
    requires forall e | e in found :: e.key.stack != v.stack
    ensures SightingsAnnounced(s, u, events + found, v, audible, timing)
  {
    forall id: nat | OpenAt(s, id) && s[id].key.stack == v.stack && s[id].key.fingerprint in audible
      ensures AnnouncedAs(s[id], id, events + found, v, timing)
    {
      assert AnnouncedAs(s[id], id, events, v, timing);
    }
    forall id: nat | |s| <= id < |u| && u[id].key.stack == v.stack && u[id].key.fingerprint in audible
      ensures Mark(Fired, id, u[id].key, v.now) in events + found
    {
      assert u[id].key == t[id].key;
    }
  }

  /** What a stack's visit says of the records as it finds them, it says of them as the cycle found them. */
  lemma AnnouncedFirst(s: Store, t: Store, u: Store, events: seq<Mark>, found: seq<Mark>, v: Visit,
                       audible: set<string>, timing: Timing)
    requires SightingsAnnounced(t, u, found, v, audible, timing) && Grows(s, t) && Grows(t, u)
    requires forall id: nat | id < |s| && s[id].key.stack == v.stack :: t[id] == s[id]
    requires forall id: nat | |s| <= id < |t| :: t[id].key.stack != v.stack
    requires forall e | e in events :: e.key.stack != v.stack
    ensures SightingsAnnounced(s, u, events + found, v, audible, timing)
  {
    forall id: nat | OpenAt(s, id) && s[id].key.stack == v.stack && s[id].key.fingerprint in audible
      ensures AnnouncedAs(s[id], id, events + found, v, timing)
    {
      assert t[id] == s[id] && AnnouncedAs(t[id], id, found, v, timing);
    }
    forall id: nat | |s| <= id < |u| && u[id].key.stack == v.stack && u[id].key.fingerprint in audible
      ensures Mark(Fired, id, u[id].key, v.now) in events + found
    {
    }
  }

  lemma NotifiedNext(s: Store, t: Store, u: Store, events: seq<Mark>, found: seq<Mark>, visits: seq<Visit>, k: nat,
                     accept: SourceAlert -> bool, timing: Timing)
    requires k < |visits| && DistinctStacks(visits) && CycleNotified(s, t, events, visits, k, accept, timing)
    requires Grows(s, t) && Grows(t, u) && VisitsDone(s, t, visits[..k], accept, timing)
    requires forall e | e in events :: e.key.stack in StacksOf(visits[..k])
    requires forall e | e in found :: e.key.stack == visits[k].stack
    requires visits[k].alerts.None? ==> u == t
    requires var v := visits[k];
             v.alerts.Some? ==>
               && SightingsAnnounced(t, u, found, v, AudibleTo(v, accept), timing)
               && forall id: nat | |t| <= id < |u| :: u[id].key.stack == v.stack
    ensures CycleNotified(s, u, events + found, visits, k + 1, accept, timing)
  {
    StacksSnoc(visits, k);
    var v := visits[k];
    forall j | 0 <= j < k ensures visits[..k][j].stack != v.stack {}
    forall id: nat | |s| <= id < |u| ensures u[id].key.stack in StacksOf(visits[..k + 1]) {
      if id < |t| { assert u[id].key == t[id].key; }
    }
    forall j | 0 <= j < k + 1 && visits[j].alerts.Some?
      ensures SightingsAnnounced(s, u, events + found, visits[j], AudibleTo(visits[j], accept), timing)
    {
      if j < k {
        AnnouncedLater(s, t, u, events, found, visits[j], AudibleTo(visits[j], accept), timing);
      } else {
        forall id: nat | id < |s| && s[id].key.stack == v.stack ensures t[id] == s[id] {
          OtherStacksKeep(s[id], visits[..k], accept, timing);
        }
        AnnouncedFirst(s, t, u, events, found, v, AudibleTo(v, accept), timing);
      }
    }
  }

  /** The first k stacks of a cycle are done: `quiet` if no other replica called meanwhile, `smooth` if besides no call
      failed. */
  ghost predicate Underway(s: Store, l0: seq<Entry>, t: Store, l1: seq<Entry>, keep: set<string>, events: seq<Mark>,
                           c: Cycle, k: nat, accept: SourceAlert -> bool, timing: Timing, quiet: bool, smooth: bool) {
    && k <= |c.visits| && keep == StacksOf(c.visits[..k])
    && Cycled(s, l0, t, l1, events, c, accept, timing)
    && (forall e | e in events :: e.key.stack in keep)
    && (DistinctStacks(c.visits) ==> OnePerKey(events))
    && (quiet ==> AllMine(l1, |l0|) && AnnouncedBy(s, t, events, c.visits[..k]))
    && (smooth ==> VisitsDone(s, t, c.visits[..k], accept, timing))
    && (smooth && DistinctStacks(c.visits) ==> CycleNotified(s, t, events, c.visits, k, accept, timing))
  }

  lemma CycledOn(s: Store, l0: seq<Entry>, t: Store, l1: seq<Entry>, events: seq<Mark>, u: Store, l2: seq<Entry>,
                 found: seq<Mark>, c: Cycle, k: nat, accept: SourceAlert -> bool, timing: Timing)
    requires k < |c.visits| && Cycled(s, l0, t, l1, events, c, accept, timing)
    requires var v := c.visits[k]; Visited(t, l1, u, l2, found, v, SeenBy(v, accept), AudibleTo(v, accept), timing)
    ensures Grows(s, t) && Grows(t, u) && l0 <= l1 <= l2
  {
  }

  lemma FreshOfStack(t: Store, u: Store, v: Visit, seen: set<string>, audible: set<string>, timing: Timing)
    requires VisitDone(t, u, v, seen, audible, timing)
    ensures forall id: nat | |t| <= id < |u| :: u[id].key.stack == v.stack
  {
  }

  lemma UnderwayNext(s: Store, l0: seq<Entry>, t: Store, l1: seq<Entry>, keep: set<string>, events: seq<Mark>,
                     u: Store, l2: seq<Entry>, found: seq<Mark>,
                     c: Cycle, k: nat, accept: SourceAlert -> bool, timing: Timing, quiet: bool, smooth: bool)
    requires k < |c.visits| && Underway(s, l0, t, l1, keep, events, c, k, accept, timing, quiet, smooth)
    requires var v := c.visits[k]; Visited(t, l1, u, l2, found, v, SeenBy(v, accept), AudibleTo(v, accept), timing)
    requires OnePerKey(found) && forall e | e in found :: e.key.stack == c.visits[k].stack
    requires quiet ==> AllMine(l2, |l1|) && ResolutionsAnnounced(t, u, found, c.visits[k].now)
    requires c.visits[k].alerts.None? ==> l2 == l1 && u == t
    requires var v := c.visits[k];
             smooth && v.alerts.Some? ==>
               && VisitDone(t, u, v, SeenBy(v, accept), AudibleTo(v, accept), timing)
               && SightingsAnnounced(t, u, found, v, AudibleTo(v, accept), timing)
    ensures Underway(s, l0, u, l2, keep + {c.visits[k].stack}, events + found, c, k + 1, accept, timing, quiet, smooth)
  {
    hide Cycled, Visited, VisitDone, VisitsDone, CycleNotified, SightingsAnnounced, AnnouncedBy, ResolutionsAnnounced;
    hide AllMine, OnePerKey, DistinctStacks, StacksOf, SeenBy, AudibleTo, Grows;
    StacksSnoc(c.visits, k);
    CycledVisit(s, l0, t, l1, events, u, l2, found, c, k, accept, timing);
    CycledOn(s, l0, t, l1, events, u, l2, found, c, k, accept, timing);
    if quiet {
      MineOn(l0, l1, l2);
      AnnouncedOn(s, t, u, events, found, c.visits[..k], c.visits[k]);
      assert c.visits[..k] + [c.visits[k]] == c.visits[..k + 1];
    }
    if smooth { VisitsStep(s, t, u, c.visits, k, accept, timing); }
    if smooth && DistinctStacks(c.visits) {
      if c.visits[k].alerts.Some? {
        FreshOfStack(t, u, c.visits[k], SeenBy(c.visits[k], accept), AudibleTo(c.visits[k], accept), timing);
      }
      NotifiedNext(s, t, u, events, found, c.visits, k, accept, timing);
    }
    StackApart(events, found, c.visits[k].stack, keep, c.visits, k);
  }

  /** The stacks of a cycle in turn; every listed stack is kept, reached or not. */
  method CollectStacks(repo: Repository, c: Cycle, accept: SourceAlert -> bool, timing: Timing)
    returns (keep: set<string>, events: seq<Mark>)
    requires repo.Valid()
    modifies repo
    ensures repo.Valid()
    ensures Underway(old(repo.records), old(repo.log), repo.records, repo.log, keep, events, c, |c.visits|, accept,
                     timing,
                     Undisturbed(old(repo.script)), old(repo.script) == [])
    ensures Undisturbed(old(repo.script)) ==> Undisturbed(repo.script)
    ensures old(repo.script) == [] ==> repo.script == []
  {
    keep, events := {}, [];
    for k := 0 to |c.visits|
      invariant repo.Valid()
      invariant Underway(old(repo.records), old(repo.log), repo.records, repo.log, keep, events, c, k, accept, timing,
                         Undisturbed(old(repo.script)), old(repo.script) == [])
      invariant Undisturbed(old(repo.script)) ==> Undisturbed(repo.script)
      invariant old(repo.script) == [] ==> repo.script == []
    {
      ghost var before, log := repo.records, repo.log;
      var reached, found := CollectStack(repo, c.visits[k], accept, timing);
      UnderwayNext(old(repo.records), old(repo.log), before, log, keep, events, repo.records, repo.log, found,
                   c, k, accept, timing, Undisturbed(old(repo.script)), old(repo.script) == []);
      keep := keep + {c.visits[k].stack};
      events := events + found;
    }
  }

  /** What an undisturbed cycle without failed calls makes of the table: every record as AfterCycle says, and an open
      record for every sighting it accepted. */
  ghost predicate CycleDone(s: Store, t: Store, c: Cycle, accept: SourceAlert -> bool, timing: Timing) {
    && |s| <= |t|
    && (forall id: nat | id < |s| :: t[id] == AfterCycle(s[id], c, accept, timing))
    && (DistinctStacks(c.visits) ==> AllRecorded(t, c.visits, accept))
  }

  lemma UnderwayEnds(s: Store, l0: seq<Entry>, t: Store, l1: seq<Entry>, keep: set<string>, events: seq<Mark>,
                     u: Store, l2: seq<Entry>, c: Cycle, accept: SourceAlert -> bool, timing: Timing, quiet: bool,
                     smooth: bool)
    requires Underway(s, l0, t, l1, keep, events, c, |c.visits|, accept, timing, quiet, smooth)
    requires Grows(t, u) && OwnEvents(l2) == OwnEvents(l1)
    requires var op := CloseMissing(keep, c.end, c.start); OthersOnly(l1, l2) || OneCall(l1, l2, op)
    requires quiet ==> AllMine(l2, |l1|) && (u == t || u == Apply(t, CloseMissing(keep, c.end, c.start)))
    requires smooth ==> u == Apply(t, CloseMissing(keep, c.end, c.start))
    ensures Cycled(s, l0, u, l2, events, c, accept, timing)
    ensures DistinctStacks(c.visits) ==> OnePerKey(events)
    ensures quiet ==> AllMine(l2, |l0|) && CycleAnnounced(s, u, events, c)
    ensures smooth ==> CycleDone(s, u, c, accept, timing)
    ensures smooth && DistinctStacks(c.visits) ==>
              CycleNotified(s, u, events, c.visits, |c.visits|, accept, timing)
  {
    assert c.visits[..|c.visits|] == c.visits;
    CycledClose(s, l0, t, l1, u, l2, events, c, accept, timing);
    if quiet {
      MineOn(l0, l1, l2);
      AnnouncedAtEnd(s, t, u, events, c, keep);
    }
    if smooth && DistinctStacks(c.visits) {
      StillRecorded(t, u, c, accept);
      forall j | 0 <= j < |c.visits| && c.visits[j].alerts.Some?
        ensures SightingsAnnounced(s, u, events, c.visits[j], AudibleTo(c.visits[j], accept), timing)
      {
        AnnouncedLater(s, t, u, events, [], c.visits[j], AudibleTo(c.visits[j], accept), timing);
        assert events + [] == events;
      }
    }
  }

  /** The cycle gets to the stacks: it has the lock, or needs none, and could list them. */
  predicate Starts(lock: Lock, listed: bool) {
    lock !in {Busy, Broken} && listed
  }

  /** A cycle as this replica runs it; `listed` says whether the monitored stacks could be listed, `events` is what it
      publishes at the end. */
  method RunCycle(repo: Repository, lock: Lock, listed: bool, c: Cycle, accept: SourceAlert -> bool, timing: Timing)
    returns (skipped: bool, failed: bool, events: seq<Mark>)
    requires repo.Valid()
    modifies repo
    ensures repo.Valid()
    ensures skipped == (lock == Busy) && failed == (!skipped && !Starts(lock, listed))
    ensures !Starts(lock, listed) ==> unchanged(repo) && events == []
    ensures Cycled(old(repo.records), old(repo.log), repo.records, repo.log, events, c, accept, timing)
    ensures DistinctStacks(c.visits) ==> OnePerKey(events)
    ensures Undisturbed(old(repo.script)) ==>
              && Undisturbed(repo.script) && AllMine(repo.log, |old(repo.log)|)
              && CycleAnnounced(old(repo.records), repo.records, events, c)
    ensures Starts(lock, listed) && old(repo.script) == [] ==>
              && CycleDone(old(repo.records), repo.records, c, accept, timing)
              && (DistinctStacks(c.visits) ==>
                    CycleNotified(old(repo.records), repo.records, events, c.visits, |c.visits|, accept, timing))
  {
    events, skipped, failed := [], lock == Busy, lock == Broken;
    if skipped || failed { return; }
    if !listed {
      failed := true;
      return;
    }
    var keep;
    keep, events := CollectStacks(repo, c, accept, timing);
    ghost var before, log := repo.records, repo.log;
    var closed := repo.CloseForMissingStacks(keep, c.end, c.start);
    UnderwayEnds(old(repo.records), old(repo.log), before, log, keep, events, repo.records, repo.log,
                 c, accept, timing, Undisturbed(old(repo.script)), old(repo.script) == []);
  }

  lemma StillRecorded(s: Store, t: Store, c: Cycle, accept: SourceAlert -> bool)
    requires AllRecorded(s, c.visits, accept) && t == Apply(s, CloseMissing(StacksOf(c.visits), c.end, c.start))
    ensures AllRecorded(t, c.visits, accept)
  {
    forall k, f | 0 <= k < |c.visits| && f in SeenBy(c.visits[k], accept)
      ensures FindOpen(t, Key(c.visits[k].stack, f)).Some? {
      var id := FindOpen(s, Key(c.visits[k].stack, f)).value;
      assert OpenWithKey(t, id, Key(c.visits[k].stack, f));
    }
  }

  lemma StacksSnoc(visits: seq<Visit>, k: nat)
    requires k < |visits|
    ensures StacksOf(visits[..k + 1]) == StacksOf(visits[..k]) + {visits[k].stack}
  {
    assert visits[..k + 1] == visits[..k] + [visits[k]];
  }

  lemma StackApart(events: seq<Mark>, found: seq<Mark>, stack: string, keep: set<string>, visits: seq<Visit>, k: nat)
    requires k < |visits| && visits[k].stack == stack && keep == StacksOf(visits[..k])
    requires forall e | e in events :: e.key.stack in keep
    requires OnePerKey(found) && forall e | e in found :: e.key.stack == stack
    ensures forall e | e in events + found :: e.key.stack in keep + {stack}
    ensures DistinctStacks(visits) && OnePerKey(events) ==> OnePerKey(events + found)
  {
    if DistinctStacks(visits) && OnePerKey(events) {
      assert stack !in keep;
      var all := events + found;
      forall i, j | 0 <= i < j < |all| ensures all[i].key != all[j].key {
        if i < |events| && j >= |events| {
          assert all[i] in events && all[j] in found;
        }
      }
    }
  }

  lemma CycledClose(s: Store, l0: seq<Entry>, t: Store, l1: seq<Entry>, u: Store, l2: seq<Entry>, events: seq<Mark>,
                    c: Cycle, accept: SourceAlert -> bool, timing: Timing)
    requires Cycled(s, l0, t, l1, events, c, accept, timing) && Grows(t, u) && OwnEvents(l2) == OwnEvents(l1)
    requires OthersOnly(l1, l2)
             || (|l2| > |l1| && OthersOnly(l1, l2[..|l2| - 1])
                 && l2[|l2| - 1].op == CloseMissing(StacksOf(c.visits), c.end, c.start))
    ensures Cycled(s, l0, u, l2, events, c, accept, timing) && l1 <= l2
  {
    hide CycleKept;
    GrowsTransitive(s, t, u);
    hide Grows;
    var rest := if OthersOnly(l1, l2) then l2 else l2[..|l2| - 1];
    KeptOn(l0, l1, rest, l2, t, u, c, accept, timing);
  }

  lemma KeptOn(l0: seq<Entry>, l1: seq<Entry>, rest: seq<Entry>, l2: seq<Entry>, t: Store, u: Store, c: Cycle,
               accept: SourceAlert -> bool, timing: Timing)
    requires l0 <= l1 && Grows(t, u) && CycleKept(l1, |l0|, t, c, accept, timing)
    requires OthersOnly(l1, rest) && rest <= l2
             && (l2 == rest || (|l2| == |rest| + 1
                                && l2[|rest|].op == CloseMissing(StacksOf(c.visits), c.end, c.start)))
    ensures CycleKept(l2, |l0|, u, c, accept, timing) && l1 <= l2
  {
    hide CycleMay, Grows;
    forall i | |l0| <= i < |l2| && l2[i].mine ensures CycleMay(l2[i].op, u, c, accept, timing) {
      assert i < |rest| ==> rest[i] == l2[i];
      if i < |l1| {
        assert l1[i] == rest[i] && CycleMay(l1[i].op, t, c, accept, timing);
        MayGrows(l1[i].op, t, u, c, accept, timing);
      } else {
        ClosingMay(u, c, accept, timing);
        assert i >= |rest|;
      }
    }
  }

  lemma ClosingMay(s: Store, c: Cycle, accept: SourceAlert -> bool, timing: Timing)
    ensures CycleMay(CloseMissing(StacksOf(c.visits), c.end, c.start), s, c, accept, timing)
  {
  }

  /** An alert that a reached stack reports, that is accepted and not suppressed, is announced by such a cycle as its
      open record calls for: fired if it was never notified, repeated if that was at least the repeat interval ago,
      and not at all before. */
  lemma ReportedIsAnnounced(s: Store, t: Store, events: seq<Mark>, visits: seq<Visit>, j: nat, i: nat, id: nat,
                            accept: SourceAlert -> bool, timing: Timing)
    requires CycleNotified(s, t, events, visits, |visits|, accept, timing)
    requires j < |visits| && visits[j].alerts.Some? && i < |visits[j].alerts.value|
    requires var a := visits[j].alerts.value[i];
             && FirstAccepted(visits[j].alerts.value, i, accept) && !a.suppressed
             && OpenWithKey(s, id, Key(visits[j].stack, a.fingerprint))
    ensures var now, r := visits[j].now, s[id];
            match r.notifiedAt
            case None => Mark(Fired, id, r.key, now) in events
            case Some(at) =>
              if now - at >= timing.repeat then Mark(Repeated, id, r.key, now) in events
              else forall e | e in events :: e.key != r.key
  {
    var v := visits[j];
    AudibleIff(v.alerts.value, accept, v.alerts.value[i].fingerprint);
    assert SightingsAnnounced(s, t, events, v, AudibleTo(v, accept), timing);
    assert AnnouncedAs(s[id], id, events, v, timing);
  }

  // ---- what follows for the records --------------------------------------------------------------------

  /** A call reaches a record of this stack: writes it, claims it, resolves it, or may close it. */
  predicate Touches(op: Op, s: Store, stack: string) {
    match op
    case Upsert(key, _) => key.stack == stack
    case Claim(id, _, _) => id < |s| && s[id].key.stack == stack
    case Resolve(id, _, _, _) => id < |s| && s[id].key.stack == stack
    case CloseMissing(keep, _, _) => stack !in keep
  }

  /** A cycle that could not reach a stack changes none of its records. */
  lemma UnreachedStackUntouched(log: seq<Entry>, from: nat, s: Store, c: Cycle, j: nat, accept: SourceAlert -> bool,
                                timing: Timing, i: nat)
    requires CycleKept(log, from, s, c, accept, timing) && DistinctStacks(c.visits)
    requires j < |c.visits| && c.visits[j].alerts.None?
    requires from <= i < |log| && log[i].mine
    ensures !Touches(log[i].op, s, c.visits[j].stack)
  {
    assert CycleMay(log[i].op, s, c, accept, timing);
    if log[i].op != CloseMissing(StacksOf(c.visits), c.end, c.start) {
      var k :| 0 <= k < |c.visits| && MayDuring(log[i].op, s, c.visits[k], accept, timing);
      assert k < j || j < k;
    }
  }

  /** A cycle asks to resolve a record only if it reached the record's stack, no accepted alert of it
      carried the record's fingerprint, and then only for sightings older than the grace period. */
  lemma ResolvedOnlyUnseen(log: seq<Entry>, from: nat, s: Store, c: Cycle, accept: SourceAlert -> bool, timing: Timing,
                           i: nat)
    requires CycleKept(log, from, s, c, accept, timing)
    requires from <= i < |log| && log[i].mine && log[i].op.Resolve?
    ensures exists k :: 0 <= k < |c.visits| && UnseenIn(log[i].op, s, c.visits[k], accept, timing)
  {
    assert CycleMay(log[i].op, s, c, accept, timing);
    var k :| 0 <= k < |c.visits| && MayDuring(log[i].op, s, c.visits[k], accept, timing);
    var v := c.visits[k];
    forall a | a in v.alerts.value && accept(a) ensures a.fingerprint != s[log[i].op.id].key.fingerprint {
      AcceptedIsSeen(v.alerts.value, accept, a);
    }
    assert UnseenIn(log[i].op, s, v, accept, timing);
  }

  ghost predicate UnseenIn(op: Op, s: Store, v: Visit, accept: SourceAlert -> bool, timing: Timing)
    requires op.Resolve?
  {
    && v.alerts.Some? && op.id < |s| && s[op.id].key.stack == v.stack
    && (forall a | a in v.alerts.value && accept(a) :: a.fingerprint != s[op.id].key.fingerprint)
    && op.at == v.now && op.staleBefore == v.now - timing.grace
  }

  // ---- publishing under the lock ---------------------------------------------------------------------------

  /** A finished cycle: what it collected, and the order in which its concurrent sends came out. */
  datatype Finished = Finished(events: seq<Mark>, published: seq<Mark>)

  ghost predicate SentAll(f: Finished) {
    multiset(f.published) == multiset(f.events) && OnePerKey(f.events)
  }

  function Collected(cycles: seq<Finished>): seq<Mark> {
    if cycles == [] then [] else Collected(cycles[..|cycles| - 1]) + cycles[|cycles| - 1].events
  }

  /** Under the lock a cycle publishes before it lets the next one start. */
  function Published(cycles: seq<Finished>): seq<Mark> {
    if cycles == [] then [] else Published(cycles[..|cycles| - 1]) + cycles[|cycles| - 1].published
  }

  function ForKey(marks: seq<Mark>, key: Key): seq<Mark> {
    if marks == [] then []
    else ForKey(marks[..|marks| - 1], key) + if marks[|marks| - 1].key == key then [marks[|marks| - 1]] else []
  }

  /** What a listener hears of one key: Fired, then Repeated and at most one Resolved of the same record;
      a new Fired may follow without a Resolved when the earlier record was closed silently. */
  function Heard(phase: Option<Phase>, m: Mark): Option<Phase> {
    if phase.None? then None
    else
      match m.kind
      case Fired => if phase.value == Ringing(m.id) then None else Some(Ringing(m.id))
      case Repeated => if phase.value == Ringing(m.id) then phase else None
      case Resolved => if phase.value == Ringing(m.id) then Some(Quiet) else None
      case Silenced => None
  }

  function HeardAll(marks: seq<Mark>): Option<Phase> {
    if marks == [] then Some(Quiet) else Heard(HeardAll(marks[..|marks| - 1]), marks[|marks| - 1])
  }

  lemma {:induction false} ForKeyConcat(a: seq<Mark>, b: seq<Mark>, key: Key)
    ensures ForKey(a + b, key) == ForKey(a, key) + ForKey(b, key)
  {
    if b == [] {
      assert a + b == a;
    } else {
      assert (a + b)[..|a + b| - 1] == a + b[..|b| - 1];
      ForKeyConcat(a, b[..|b| - 1], key);
    }
  }

  lemma {:induction false} ForKeyAlone(marks: seq<Mark>, key: Key, i: nat)
    requires i < |marks| && marks[i].key == key
    requires forall j | 0 <= j < |marks| && j != i :: marks[j].key != key
    ensures ForKey(marks, key) == [marks[i]]
  {
    var init := marks[..|marks| - 1];
    if i < |marks| - 1 { ForKeyAlone(init, key, i); } else { ForKeyNone(init, key); }
  }

  lemma {:induction false} ForKeyNone(marks: seq<Mark>, key: Key)
    requires forall m | m in marks :: m.key != key
    ensures ForKey(marks, key) == []
  {
    if marks != [] {
      assert marks[|marks| - 1] in marks;
      ForKeyNone(marks[..|marks| - 1], key);
    }
  }

  /** With one event per key the order of the sends does not matter to any one key. */
  lemma SameForKey(f: Finished, key: Key)
    requires SentAll(f)
    ensures ForKey(f.published, key) == ForKey(f.events, key)
  {
    if i :| 0 <= i < |f.events| && f.events[i].key == key {
      ForKeyAlone(f.events, key, i);
      assert f.events[i] in multiset(f.published);
      var j :| 0 <= j < |f.published| && f.published[j] == f.events[i];
      forall k | 0 <= k < |f.published| && k != j ensures f.published[k].key != key {
        if f.published[k].key == key {
          OnceOnly(f, i, j, k);
        }
      }
      ForKeyAlone(f.published, key, j);
    } else {
      forall m | m in f.published ensures m.key != key {
        assert m in multiset(f.events);
      }
      ForKeyNone(f.published, key);
      ForKeyNone(f.events, key);
    }
  }

  lemma OnceOnly(f: Finished, i: nat, j: nat, k: nat)
    requires SentAll(f) && i < |f.events| && j < |f.published| && k < |f.published| && j != k
    requires f.published[j] == f.events[i]
    ensures f.published[k].key != f.events[i].key
  {
    assert f.published[k] in multiset(f.events);
    var l :| 0 <= l < |f.events| && f.events[l] == f.published[k];
    if l == i {
      Multiplicity(f.published, j, k);
      Multiplicity1(f.events, i);
    }
  }

  lemma Multiplicity(marks: seq<Mark>, j: nat, k: nat)
    requires j < |marks| && k < |marks| && j != k && marks[j] == marks[k]
    ensures multiset(marks)[marks[j]] >= 2
  {
    var a, b := if j < k then j else k, if j < k then k else j;
    assert marks == marks[..a + 1] + marks[a + 1..];
    assert marks[a + 1..][b - a - 1] == marks[b] && marks[..a + 1][a] == marks[a];
    assert marks[a] in multiset(marks[..a + 1]) && marks[b] in multiset(marks[a + 1..]);
  }

  lemma Multiplicity1(marks: seq<Mark>, i: nat)
    requires i < |marks| && OnePerKey(marks)
    ensures multiset(marks)[marks[i]] == 1
  {
    assert marks == marks[..i] + [marks[i]] + marks[i + 1..];
    assert marks[i] !in marks[..i] && marks[i] !in marks[i + 1..];
  }

  lemma {:induction false} PublishedForKey(cycles: seq<Finished>, key: Key)
    requires forall f | f in cycles :: SentAll(f)
    ensures ForKey(Published(cycles), key) == ForKey(Collected(cycles), key)
  {
    if cycles != [] {
      var init, f := cycles[..|cycles| - 1], cycles[|cycles| - 1];
      assert f in cycles;
      PublishedForKey(init, key);
      SameForKey(f, key);
      ForKeyConcat(Published(init), f.published, key);
      ForKeyConcat(Collected(init), f.events, key);
    }
  }

  /** What has been heard of a key fits the table: an open, notified record is the one ringing. */
  ghost predicate HeardFits(s: Store, heard: Option<Phase>, key: Key) {
    && heard.Some?
    && (forall id: nat :: OpenWithKey(s, id, key) && s[id].notifiedAt.Some? ==> heard.value == Ringing(id))
    && (heard.value.Ringing? ==> heard.value.id < |s| && s[heard.value.id].notifiedAt.Some?)
  }

  lemma HeardStep(s: Store, op: Op, heard: Option<Phase>, key: Key)
    requires UniqueOpen(s) && UniqueOpen(Apply(s, op)) && HeardFits(s, heard, key)
    ensures HeardFits(Apply(s, op),
                      if Sent(s, op) != [] && Sent(s, op)[0].key == key then Heard(heard, Sent(s, op)[0]) else heard,
                        key)
  {
    ApplyGrows(s, op);
    var t := Apply(s, op);
    var after := if Sent(s, op) != [] && Sent(s, op)[0].key == key then Heard(heard, Sent(s, op)[0]) else heard;
    if Sent(s, op) != [] && Sent(s, op)[0].key == key { assert OpenWithKey(s, op.id, key); }
    forall id: nat | OpenWithKey(t, id, key) && t[id].notifiedAt.Some?
      ensures after.Some? && after.value == Ringing(id) {
      assert op.Claim? && Claims(s, op) ==> OpenWithKey(t, op.id, t[op.id].key);
      assert id < |s| ==> OpenWithKey(s, id, key);
    }
  }

  lemma HeardSent(events: seq<Mark>, sent: seq<Mark>, key: Key)
    requires |sent| <= 1
    ensures HeardAll(ForKey(events + sent, key)) ==
            var heard := HeardAll(ForKey(events, key));
            if sent != [] && sent[0].key == key then Heard(heard, sent[0]) else heard
  {
    ForKeyConcat(events, sent, key);
    var before := ForKey(events, key);
    if sent != [] && sent[0].key == key {
      assert sent == [sent[0]] && sent[..0] == [];
      assert ForKey(sent, key) == [sent[0]];
      assert (before + [sent[0]])[..|before|] == before;
    } else {
      assert sent != [] ==> ForKey(sent[..0], key) == [];
      assert before + ForKey(sent, key) == before;
    }
  }

  lemma {:induction false} HeardAlways(log: seq<Entry>, key: Key)
    requires forall e | e in log :: e.mine
    ensures HeardFits(Run(OpsOf(log)), HeardAll(ForKey(OwnEvents(log), key)), key)
  {
    if log != [] {
      var init, e := log[..|log| - 1], log[|log| - 1];
      assert e in log && init + [e] == log;
      HeardAlways(init, key);
      AlwaysInv(OpsOf(init));
      AlwaysInv(OpsOf(log));
      LogSnoc(init, e);
      HeardSent(OwnEvents(init), Sent(Run(OpsOf(init)), e.op), key);
      HeardStep(Run(OpsOf(init)), e.op, HeardAll(ForKey(OwnEvents(init), key)), key);
    }
  }

  /** While every cycle holds the lock, what listeners hear of a (stack, fingerprint) is well-formed:
      nothing is repeated or resolved that was not fired, whatever order each cycle's sends came out in. */
  lemma PublishedInOrder(log: seq<Entry>, cycles: seq<Finished>, key: Key)
    requires forall e | e in log :: e.mine
    requires OwnEvents(log) == Collected(cycles) && forall f | f in cycles :: SentAll(f)
    ensures HeardAll(ForKey(Published(cycles), key)).Some?
  {
    HeardAlways(log, key);
    PublishedForKey(cycles, key);
  }

  /** Sends the events at once; `order` says which of those still under way comes out next. */
  method PublishAll(events: seq<Mark>, order: seq<nat>) returns (published: seq<Mark>)
    ensures multiset(published) == multiset(events)
  {
    published := [];
    var left := events;
    while left != []
      invariant multiset(published) + multiset(left) == multiset(events)
      decreases |left|
    {
      var n := if |published| < |order| then order[|published|] % |left| else 0;
      assert left == left[..n] + [left[n]] + left[n + 1..];
      published := published + [left[n]];
      left := left[..n] + left[n + 1..];
    }
  }

  /** A cycle that comes to its turn: how the lock and the listing went, what it meets, and how its sends come out. */
  datatype Turned = Turned(lock: Lock, listed: bool, cycle: Cycle, order: seq<nat>)

  lemma FinishedSnoc(cycles: seq<Finished>, f: Finished)
    ensures Collected(cycles + [f]) == Collected(cycles) + f.events
    ensures Published(cycles + [f]) == Published(cycles) + f.published
  {
    assert (cycles + [f])[..|cycles|] == cycles;
  }

  /** The cycles of all replicas from an empty table, one after the other as the lock lets them: what their listeners
      hear of any key is well-formed. */
  method RunLocked(repo: Repository, turns: seq<Turned>, accept: SourceAlert -> bool, timing: Timing)
    returns (published: seq<Mark>)
    requires repo.Valid() && repo.log == [] && Undisturbed(repo.script)
    requires forall turn | turn in turns :: turn.lock != Unwired && DistinctStacks(turn.cycle.visits)
    modifies repo
    ensures repo.Valid() && forall key :: HeardAll(ForKey(published, key)).Some?
  {
    published := [];
    ghost var done: seq<Finished> := [];
    for n := 0 to |turns|
      invariant repo.Valid() && Undisturbed(repo.script) && AllMine(repo.log, 0)
      invariant OwnEvents(repo.log) == Collected(done) && published == Published(done)
      invariant forall f | f in done :: SentAll(f)
    {
      var turn := turns[n];
      assert turn in turns;
      ghost var log := repo.log;
      var skipped, failed, events := RunCycle(repo, turn.lock, turn.listed, turn.cycle, accept, timing);
      var sent := PublishAll(events, turn.order);
      MineOn([], log, repo.log);
      FinishedSnoc(done, Finished(events, sent));
      done := done + [Finished(events, sent)];
      published := published + sent;
    }
    forall key ensures HeardAll(ForKey(published, key)).Some? {
      PublishedInOrder(repo.log, done, key);
    }
  }

  // ---- what the replicas send --------------------------------------------------------

  lemma {:induction false} CountConcat(a: seq<Mark>, b: seq<Mark>, id: nat, kinds: set<Kind>)
    ensures Count(a + b, id, kinds) == Count(a, id, kinds) + Count(b, id, kinds)
  {
    if b == [] {
      assert a + b == a;
    } else {
      CountConcat(a, b[..|b| - 1], id, kinds);
      assert (a + b)[..|a + b| - 1] == a + b[..|b| - 1];
    }
  }

  lemma {:induction false} CountNone(marks: seq<Mark>, id: nat, kinds: set<Kind>)
    requires forall i | 0 <= i < |marks| :: marks[i].kind !in kinds
    ensures Count(marks, id, kinds) == 0
  {
    if marks != [] { CountNone(marks[..|marks| - 1], id, kinds); }
  }

  /** A caller sends what its call entitles it to; what is closed silently is not sent. */
  lemma SentCounts(s: Store, op: Op, id: nat, kinds: set<Kind>)
    requires Silenced !in kinds
    ensures Count(Sent(s, op), id, kinds) == Count(MarksOf(s, op), id, kinds)
  {
    match op
    case Upsert(_, _) =>
    case Claim(_, _, _) =>
    case Resolve(_, _, _, _) =>
      if Sent(s, op) == [] { CountNone(MarksOf(s, op), id, kinds); }
    case CloseMissing(_, _, _) =>
      SilencedSilent(s, op, |s|);
      CountNone(MarksOf(s, op), id, kinds);
  }

  /** The same history as the other replicas see it. */
  function Theirs(log: seq<Entry>): (r: seq<Entry>)
    ensures |r| == |log| && forall i | 0 <= i < |log| :: r[i] == Entry(!log[i].mine, log[i].op)
  {
    seq(|log|, i requires 0 <= i < |log| => Entry(!log[i].mine, log[i].op))
  }

  /** What we send and what the others send is together what the history has marked, but for silent closes. */
  lemma {:induction false} OursAndTheirs(log: seq<Entry>, id: nat, kinds: set<Kind>)
    requires Silenced !in kinds
    ensures Count(OwnEvents(log), id, kinds) + Count(OwnEvents(Theirs(log)), id, kinds) ==
            Count(Marks(OpsOf(log)), id, kinds)
  {
    if log != [] {
      var init, e := log[..|log| - 1], log[|log| - 1];
      var other := Entry(!e.mine, e.op);
      assert init + [e] == log && OpsOf(log) == OpsOf(init) + [e.op] && Theirs(log) == Theirs(init) + [other];
      assert OpsOf(Theirs(init)) == OpsOf(init);
      OursAndTheirs(init, id, kinds);
      LogSnoc(init, e);
      LogSnoc(Theirs(init), other);
      RunSnoc(OpsOf(init), e.op);
      var s := Run(OpsOf(init));
      SentCounts(s, e.op, id, kinds);
      CountConcat(Marks(OpsOf(init)), MarksOf(s, e.op), id, kinds);
      CountConcat(OwnEvents(init), if e.mine then Sent(s, e.op) else [], id, kinds);
      CountConcat(OwnEvents(Theirs(init)), if other.mine then Sent(s, e.op) else [], id, kinds);
      hide Count, OwnEvents, Marks, Run, Sent, MarksOf;
      assert Count([], id, kinds) == 0 by { CountNone([], id, kinds); }
    } else {
      assert Theirs(log) == [];
    }
  }

  /** All replicas together send at most one first firing and at most one resolution of a record. */
  lemma SentOnce(log: seq<Entry>, id: nat)
    ensures Count(OwnEvents(log), id, {Fired}) + Count(OwnEvents(Theirs(log)), id, {Fired}) <= 1
    ensures Count(OwnEvents(log), id, {Kind.Resolved}) + Count(OwnEvents(Theirs(log)), id, {Kind.Resolved}) <= 1
  {
    AnnouncedOnce(OpsOf(log), id);
    OursAndTheirs(log, id, {Fired});
    OursAndTheirs(log, id, {Kind.Resolved});
  }
}
