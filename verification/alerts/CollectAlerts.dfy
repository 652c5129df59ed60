/** One collection cycle of one replica (`internal/observability/usecase/collect_stack_alerts.go`),
    while other replicas run theirs against the same table. */
module CollectAlerts {
  import opened Wrappers
  import opened AlertStore
  import opened AlertHistory
  import opened AlertRepository

  datatype SourceAlert = SourceAlert(fingerprint: string, labels: map<string, string>, suppressed: bool)

  /** A monitored stack, what its Alertmanager answered (None: not reached) and our clock then. */
  datatype Visit = Visit(stack: string, alerts: Option<seq<SourceAlert>>, now: int)

  datatype Timing = Timing(repeat: int, grace: int)

  // ---- what a visit looks at ---------------------------------------------------------------------

  /** The alerts a visit handles: accepted ones, the first of each fingerprint. */
  function Handled(alerts: seq<SourceAlert>, accept: SourceAlert -> bool): (r: seq<SourceAlert>)
    ensures forall i, j | 0 <= i < j < |r| :: r[i].fingerprint != r[j].fingerprint
  {
    if alerts == [] then []
    else
      var before, a := Handled(alerts[..|alerts| - 1], accept), alerts[|alerts| - 1];
      if accept(a) && a.fingerprint !in Fingerprints(before) then before + [a] else before
  }

  function Fingerprints(alerts: seq<SourceAlert>): (r: set<string>)
    ensures forall i | 0 <= i < |alerts| :: alerts[i].fingerprint in r
  {
    set a | a in alerts :: a.fingerprint
  }

  /** Fingerprints that may be announced: their first accepted sighting is not suppressed. */
  function Audible(handled: seq<SourceAlert>): set<string> {
    set a | a in handled && !a.suppressed :: a.fingerprint
  }

  /** Every accepted alert is handled under its fingerprint, suppressed or repeated as it may be. */
  lemma {:induction false} AcceptedIsSeen(alerts: seq<SourceAlert>, accept: SourceAlert -> bool, a: SourceAlert)
    requires a in alerts && accept(a)
    ensures a.fingerprint in Fingerprints(Handled(alerts, accept))
  {
    var init, last := alerts[..|alerts| - 1], alerts[|alerts| - 1];
    var before := Handled(init, accept);
    if a in init {
      AcceptedIsSeen(init, accept, a);
      var b :| b in before && b.fingerprint == a.fingerprint;
      assert b in Handled(alerts, accept);
    } else {
      assert a == last;
      if accept(a) && a.fingerprint !in Fingerprints(before) { assert a in before + [a]; }
    }
  }

  lemma HandledSnoc(alerts: seq<SourceAlert>, a: SourceAlert, accept: SourceAlert -> bool)
    ensures Handled(alerts + [a], accept) ==
            var before := Handled(alerts, accept);
            if accept(a) && a.fingerprint !in Fingerprints(before) then before + [a] else before
  {
    assert (alerts + [a])[..|alerts|] == alerts;
  }

  /** The first accepted alert of its fingerprint. */
  ghost predicate FirstAccepted(alerts: seq<SourceAlert>, i: nat, accept: SourceAlert -> bool) {
    && i < |alerts| && accept(alerts[i])
    && forall j | 0 <= j < i && accept(alerts[j]) :: alerts[j].fingerprint != alerts[i].fingerprint
  }

  lemma FirstInPrefix(alerts: seq<SourceAlert>, i: nat, accept: SourceAlert -> bool)
    requires alerts != [] && i < |alerts| - 1
    ensures FirstAccepted(alerts[..|alerts| - 1], i, accept) <==> FirstAccepted(alerts, i, accept)
  {
  }

  /** Handled are exactly the first accepted alerts. */
  lemma {:induction false} HandledIff(alerts: seq<SourceAlert>, accept: SourceAlert -> bool, a: SourceAlert)
    ensures a in Handled(alerts, accept) <==>
            exists i :: 0 <= i < |alerts| && FirstAccepted(alerts, i, accept) && alerts[i] == a
  {
    if alerts != [] {
      var k, init := |alerts| - 1, alerts[..|alerts| - 1];
      HandledIff(init, accept, a);
      LastIsFirst(alerts, accept);
      hide FirstAccepted, Fingerprints;
      if i :| 0 <= i < |init| && FirstAccepted(init, i, accept) && init[i] == a {
        FirstInPrefix(alerts, i, accept);
        assert FirstAccepted(alerts, i, accept) && alerts[i] == a;
      }
      if i :| 0 <= i < |alerts| && FirstAccepted(alerts, i, accept) && alerts[i] == a && i < k {
        FirstInPrefix(alerts, i, accept);
        assert FirstAccepted(init, i, accept) && init[i] == a;
      }
      assert a in Handled(alerts, accept) <==>
             a in Handled(init, accept) || (a == alerts[k] && FirstAccepted(alerts, k, accept));
    }
  }

  /** The last alert is the first accepted one of its fingerprint exactly if it is accepted and that is new. */
  lemma LastIsFirst(alerts: seq<SourceAlert>, accept: SourceAlert -> bool)
    requires alerts != []
    ensures var k, before := |alerts| - 1, Handled(alerts[..|alerts| - 1], accept);
            FirstAccepted(alerts, k, accept) <==>
            accept(alerts[k]) && alerts[k].fingerprint !in Fingerprints(before)
  {
    var k, init := |alerts| - 1, alerts[..|alerts| - 1];
    var before := Handled(init, accept);
    forall j | 0 <= j < k && accept(alerts[j]) ensures alerts[j].fingerprint in Fingerprints(before) {
      AcceptedIsSeen(init, accept, init[j]);
    }
    if alerts[k].fingerprint in Fingerprints(before) {
      var b :| b in before && b.fingerprint == alerts[k].fingerprint;
      HandledAmong(init, accept, b);
    }
  }

  lemma {:induction false} HandledAmong(alerts: seq<SourceAlert>, accept: SourceAlert -> bool, a: SourceAlert)
    requires a in Handled(alerts, accept)
    ensures a in alerts && accept(a)
  {
    var init, last := alerts[..|alerts| - 1], alerts[|alerts| - 1];
    if a in Handled(init, accept) { HandledAmong(init, accept, a); }
  }

  /** A fingerprint may be announced exactly if its first accepted alert is not suppressed. */
  lemma AudibleIff(alerts: seq<SourceAlert>, accept: SourceAlert -> bool, f: string)
    ensures f in Audible(Handled(alerts, accept)) <==>
            exists i :: 0 <= i < |alerts| && FirstAccepted(alerts, i, accept) && alerts[i].fingerprint == f
                        && !alerts[i].suppressed
  {
    if f in Audible(Handled(alerts, accept)) {
      var a :| a in Handled(alerts, accept) && !a.suppressed && a.fingerprint == f;
      HandledIff(alerts, accept, a);
    }
    if i :| 0 <= i < |alerts| && FirstAccepted(alerts, i, accept) && alerts[i].fingerprint == f
            && !alerts[i].suppressed {
      HandledIff(alerts, accept, alerts[i]);
    }
  }

  // ---- what a visit may do, whoever else is calling ------------------------------------------------

  /** The calls a visit may make: it records and announces only what it saw, and resolves only what it
      did not see, after the grace period. */
  ghost predicate VisitMay(op: Op, s: Store, v: Visit, seen: set<string>, audible: set<string>, timing: Timing) {
    match op
    case Upsert(key, at) => key.stack == v.stack && key.fingerprint in seen && at == v.now
    case Claim(id, now, repeat) =>
      id < |s| && s[id].key.stack == v.stack && s[id].key.fingerprint in audible && now == v.now
        && repeat == timing.repeat
    case Resolve(id, at, staleBefore, _) =>
      id < |s| && s[id].key.stack == v.stack && s[id].key.fingerprint !in seen && at == v.now
        && staleBefore == v.now - timing.grace
    case CloseMissing(_, _, _) => false
  }

  /** Our calls among log[from..] are all ones the visit may make. */
  ghost predicate VisitKept(log: seq<Entry>, from: nat, s: Store, v: Visit, seen: set<string>, audible: set<string>,
                            timing: Timing) {
    forall i | from <= i < |log| && log[i].mine :: VisitMay(log[i].op, s, v, seen, audible, timing)
  }

  lemma VisitKeptOn(before: seq<Entry>, after: seq<Entry>, from: nat, s: Store, t: Store, v: Visit,
                    seen: set<string>, audible: set<string>, timing: Timing)
    requires from <= |before| && VisitKept(before, from, s, v, seen, audible, timing) && Grows(s, t)
    requires OthersOnly(before, after)
             || (|after| > |before| && OthersOnly(before, after[..|after| - 1])
                 && VisitMay(after[|after| - 1].op, t, v, seen, audible, timing))
    ensures VisitKept(after, from, t, v, seen, audible, timing)
    ensures before <= after
  {
    var rest := if OthersOnly(before, after) then after else after[..|after| - 1];
    assert before <= rest <= after;
    forall i | from <= i < |after| && after[i].mine ensures VisitMay(after[i].op, t, v, seen, audible, timing) {
      if i < |before| {
        assert before[i] == after[i];
        assert VisitMay(before[i].op, s, v, seen, audible, timing);
      }
    }
  }

  ghost predicate StillOpen(s: Store, t: Store) {
    forall id :: OpenAt(s, id) ==> OpenAt(t, id)
  }

  ghost predicate OnePerKey(events: seq<Mark>) {
    forall i, j | 0 <= i < j < |events| :: events[i].key != events[j].key
  }

  // ---- what a visit does when nothing gets in its way ------------------------------------------------

  /** A record after an undisturbed visit. */
  function Outcome(r: Record, v: Visit, seen: set<string>, audible: set<string>, timing: Timing): Record {
    if r.resolvedAt.Some? || r.key.stack != v.stack then r
    else if r.key.fingerprint in seen then
      r.(lastSeen := v.now,
         notifiedAt := if r.key.fingerprint in audible
                          && (r.notifiedAt.None? || v.now - r.notifiedAt.value >= timing.repeat)
           then Some(v.now) else r.notifiedAt)
    else if r.lastSeen < v.now - timing.grace then r.(resolvedAt := Some(v.now))
    else r
  }

  /** The record of an alert first seen by an undisturbed visit. */
  function Fresh(v: Visit, fingerprint: string, audible: set<string>): Record {
    Record(Key(v.stack, fingerprint), v.now, if fingerprint in audible then Some(v.now) else None, None)
  }

  /** The table after an undisturbed visit: old records as `Outcome` says, plus one fresh record for each
      sighting without an open record. */
  ghost predicate VisitDone(s: Store, t: Store, v: Visit, seen: set<string>, audible: set<string>, timing: Timing) {
    && |s| <= |t|
    && (forall id: nat | id < |s| :: t[id] == Outcome(s[id], v, seen, audible, timing))
    && (forall id: nat | |s| <= id < |t| ::
          t[id].key.fingerprint in seen && FindOpen(s, t[id].key).None?
            && t[id] == Fresh(v, t[id].key.fingerprint, audible))
    && (forall f | f in seen :: FindOpen(t, Key(v.stack, f)).Some?)
  }

  /** The same, half way: only the sightings have been handled. */
  ghost predicate SightingsDone(s: Store, t: Store, v: Visit, seen: set<string>, audible: set<string>, timing: Timing) {
    && |s| <= |t|
    && (forall id: nat | id < |s| ::
          t[id] == if s[id].key.fingerprint in seen then Outcome(s[id], v, seen, audible, timing) else s[id])
    && (forall id: nat | |s| <= id < |t| ::
          t[id].key.fingerprint in seen && FindOpen(s, t[id].key).None?
            && t[id] == Fresh(v, t[id].key.fingerprint, audible))
    && (forall f | f in seen :: FindOpen(t, Key(v.stack, f)).Some?)
  }

  /** What an undisturbed visit says of the alerts it saw and may announce: an open record is fired if it was never
      notified, repeated if that was at least the repeat interval ago, and kept quiet otherwise; a new one is fired. */
  ghost predicate SightingsAnnounced(s: Store, t: Store, events: seq<Mark>, v: Visit, audible: set<string>,
                                     timing: Timing) {
    && |s| <= |t|
    && (forall id: nat | OpenAt(s, id) && s[id].key.stack == v.stack && s[id].key.fingerprint in audible ::
          AnnouncedAs(s[id], id, events, v, timing))
    && (forall id: nat | |s| <= id < |t| && t[id].key.stack == v.stack && t[id].key.fingerprint in audible ::
          Mark(Fired, id, t[id].key, v.now) in events)
  }

  ghost predicate AnnouncedAs(r: Record, id: nat, events: seq<Mark>, v: Visit, timing: Timing) {
    match r.notifiedAt
    case None => Mark(Fired, id, r.key, v.now) in events
    case Some(at) =>
      if v.now - at >= timing.repeat then Mark(Repeated, id, r.key, v.now) in events
      else forall e | e in events :: e.key != r.key
  }

  /** The event of one sighting, by the record that the table holds for it. */
  ghost predicate OneAnnounced(s: Store, t: Store, event: seq<Mark>, v: Visit, a: SourceAlert, timing: Timing) {
    var id := UpsertId(s, Key(v.stack, a.fingerprint));
    if a.suppressed then event == []
    else if id >= |s| then id < |t| && event == [Mark(Fired, id, t[id].key, v.now)]
    else if s[id].notifiedAt.None? then event == [Mark(Fired, id, s[id].key, v.now)]
    else event == if v.now - s[id].notifiedAt.value >= timing.repeat then [Mark(Repeated, id, s[id].key, v.now)] else []
  }

  /** What handling one sighting alone does to the table. */
  function AfterSighting(s: Store, v: Visit, a: SourceAlert, timing: Timing): Store {
    var key := Key(v.stack, a.fingerprint);
    var t := Apply(s, Upsert(key, v.now));
    if a.suppressed then t else Apply(t, Claim(UpsertId(s, key), v.now, timing.repeat))
  }

  lemma SightingStep(s: Store, t: Store, v: Visit, a: SourceAlert, seen: set<string>, audible: set<string>,
                     timing: Timing)
    requires UniqueOpen(s) && UniqueOpen(t) && UniqueOpen(AfterSighting(t, v, a, timing))
    requires SightingsDone(s, t, v, seen, audible, timing) && a.fingerprint !in seen
    requires a.fingerprint in audible <==> !a.suppressed
    ensures SightingsDone(s, AfterSighting(t, v, a, timing), v, seen + {a.fingerprint}, audible, timing)
  {
    var key, u := Key(v.stack, a.fingerprint), AfterSighting(t, v, a, timing);
    var id := UpsertId(t, key);
    assert OpenWithKey(u, id, key);
    if id < |s| {
      assert t[id] == s[id];
    } else if FindOpen(s, key).Some? {
      assert OpenWithKey(t, FindOpen(s, key).value, key);
    }
    forall i: nat | i < |s|
      ensures u[i] == if s[i].key.fingerprint in seen + {a.fingerprint}
              then Outcome(s[i], v, seen + {a.fingerprint}, audible, timing) else s[i] {
      assert OpenWithKey(t, i, key) ==> OpenWithKey(u, i, key) && i == id;
    }
    forall f | f in seen + {a.fingerprint} ensures FindOpen(u, Key(v.stack, f)).Some? {
      if f != a.fingerprint {
        assert OpenWithKey(u, FindOpen(t, Key(v.stack, f)).value, Key(v.stack, f));
      }
    }
  }

  // ---- the cycle ---------------------------------------------------------------------------------------

  /** From table s and history `before` to t and `after`: lawful calls of ours, entitling us to `events`. */
  ghost predicate Visited(s: Store, before: seq<Entry>, t: Store, after: seq<Entry>, events: seq<Mark>, v: Visit,
                          seen: set<string>, audible: set<string>, timing: Timing) {
    && Grows(s, t) && before <= after
    && OwnEvents(after) == OwnEvents(before) + events
    && VisitKept(after, |before|, t, v, seen, audible, timing)
  }

  lemma VisitedJoin(s: Store, l0: seq<Entry>, t: Store, l1: seq<Entry>, first: seq<Mark>, u: Store, l2: seq<Entry>,
                    second: seq<Mark>,
                    v: Visit, seen: set<string>, audible: set<string>, timing: Timing)
    requires Visited(s, l0, t, l1, first, v, seen, audible, timing)
             && Visited(t, l1, u, l2, second, v, seen, audible, timing)
    ensures Visited(s, l0, u, l2, first + second, v, seen, audible, timing)
  {
    forall i | |l0| <= i < |l2| && l2[i].mine ensures VisitMay(l2[i].op, u, v, seen, audible, timing) {
      if i < |l1| {
        assert l1[i] == l2[i];
        assert VisitMay(l1[i].op, t, v, seen, audible, timing);
      }
    }
    assert OwnEvents(l0) + first + second == OwnEvents(l0) + (first + second);
  }

  lemma StillOpenAfter(s: Store, key: Key, at: int)
    ensures StillOpen(s, Apply(s, Upsert(key, at)))
  {
  }

  /** Asks for the turn to notify the alert just recorded. */
  method Announce(repo: Repository, v: Visit, id: nat, timing: Timing, ghost seen: set<string>,
                  ghost audible: set<string>)
    returns (event: seq<Mark>)
    requires repo.Valid() && id < |repo.records|
    requires repo.records[id].key.stack == v.stack && repo.records[id].key.fingerprint in audible
    modifies repo
    ensures repo.Valid()
    ensures Visited(old(repo.records), old(repo.log), repo.records, repo.log, event, v, seen, audible, timing)
    ensures |event| <= 1 && forall e | e in event :: e.key == old(repo.records[id].key)
    ensures Undisturbed(old(repo.script)) ==>
              Undisturbed(repo.script) && AllMine(repo.log, |old(repo.log)|)
              && StillOpen(old(repo.records), repo.records)
    ensures old(repo.script) == [] ==>
              repo.script == [] && repo.records == Apply(old(repo.records), Claim(id, v.now, timing.repeat))
    ensures old(repo.script) == [] && OpenAt(old(repo.records), id) ==>
              var r := old(repo.records[id]);
              event == if r.notifiedAt.None? then [Mark(Fired, id, r.key, v.now)]
                else if v.now - r.notifiedAt.value >= timing.repeat then [Mark(Repeated, id, r.key, v.now)] else []
  {
    var claimed, first := repo.ClaimNotification(id, v.now, timing.repeat);
    VisitKeptOn(old(repo.log), repo.log, |old(repo.log)|, old(repo.records), repo.records, v, seen, audible, timing);
    event := if claimed then [Mark(if first then Fired else Repeated, id, repo.records[id].key, v.now)] else [];
  }

  /** The claim's event, read off the table before the upsert that comes first. */
  lemma UpsertThenClaim(s: Store, mid: Store, event: seq<Mark>, v: Visit, a: SourceAlert, timing: Timing)
    requires var key := Key(v.stack, a.fingerprint); mid == Apply(s, Upsert(key, v.now)) && !a.suppressed
    requires var id := UpsertId(s, Key(v.stack, a.fingerprint));
             var r := mid[id];
             event == if r.notifiedAt.None? then [Mark(Fired, id, r.key, v.now)]
               else if v.now - r.notifiedAt.value >= timing.repeat then [Mark(Repeated, id, r.key, v.now)] else []
    ensures OneAnnounced(s, AfterSighting(s, v, a, timing), event, v, a, timing)
  {
  }

  /** Records one sighting and, unless it is suppressed, asks for its turn to notify. */
  method Sight(repo: Repository, v: Visit, a: SourceAlert, timing: Timing, ghost seen: set<string>,
               ghost audible: set<string>)
    returns (event: seq<Mark>)
    requires repo.Valid()
    requires a.fingerprint in seen && (!a.suppressed ==> a.fingerprint in audible)
    modifies repo
    ensures repo.Valid()
    ensures Visited(old(repo.records), old(repo.log), repo.records, repo.log, event, v, seen, audible, timing)
    ensures |event| <= 1 && forall e | e in event :: e.key == Key(v.stack, a.fingerprint)
    ensures Undisturbed(old(repo.script)) ==>
              Undisturbed(repo.script) && AllMine(repo.log, |old(repo.log)|)
              && StillOpen(old(repo.records), repo.records)
    ensures old(repo.script) == [] ==>
              repo.script == []
              && repo.records == AfterSighting(old(repo.records), v, a, timing)
              && OneAnnounced(old(repo.records), repo.records, event, v, a, timing)
  {
    hide Run, Apply, OwnEvents, VisitKept, UpsertId;
    event := [];
    StillOpenAfter(repo.records, Key(v.stack, a.fingerprint), v.now);
    var id := repo.Upsert(Key(v.stack, a.fingerprint), v.now);
    VisitKeptOn(old(repo.log), repo.log, |old(repo.log)|, old(repo.records), repo.records, v, seen, audible, timing);
    if id.Some? && !a.suppressed {
      ghost var mid, log := repo.records, repo.log;
      event := Announce(repo, v, id.value, timing, seen, audible);
      if old(repo.script) == [] { UpsertThenClaim(old(repo.records), mid, event, v, a, timing); }
      VisitedJoin(old(repo.records), old(repo.log), mid, log, [], repo.records, repo.log, event, v, seen, audible,
                  timing);
    }
  }

  lemma {:induction false} HandledPrefix(alerts: seq<SourceAlert>, accept: SourceAlert -> bool, n: nat)
    requires n <= |alerts|
    ensures Handled(alerts[..n], accept) <= Handled(alerts, accept)
  {
    if n < |alerts| {
      HandledPrefix(alerts[..|alerts| - 1], accept, n);
      assert alerts[..|alerts| - 1][..n] == alerts[..n];
    } else {
      assert alerts[..n] == alerts;
    }
  }

  /** A handled alert is one of the visit's sightings, and audible unless it is suppressed. */
  lemma HandledMember(handled: seq<SourceAlert>, i: nat)
    requires forall j, k | 0 <= j < k < |handled| :: handled[j].fingerprint != handled[k].fingerprint
    requires i < |handled|
    ensures handled[i].fingerprint in Fingerprints(handled)
    ensures handled[i].fingerprint in Audible(handled) <==> !handled[i].suppressed
  {
    forall b | b in handled && b.fingerprint == handled[i].fingerprint ensures b == handled[i] {
      var j :| 0 <= j < |handled| && handled[j] == b;
    }
    assert handled[i] in handled;
  }

  /** What the n-th alert adds. */
  lemma HandledNext(alerts: seq<SourceAlert>, accept: SourceAlert -> bool, n: nat)
    requires n < |alerts|
    ensures Handled(alerts[..n + 1], accept) ==
            var before := Handled(alerts[..n], accept);
            if accept(alerts[n]) && alerts[n].fingerprint !in Fingerprints(before) then before + [alerts[n]] else before
  {
    assert alerts[..n + 1] == alerts[..n] + [alerts[n]];
    HandledSnoc(alerts[..n], alerts[n], accept);
  }

  lemma PrefixMember(before: seq<SourceAlert>, a: SourceAlert, all: seq<SourceAlert>)
    requires before + [a] <= all
    requires forall j, k | 0 <= j < k < |all| :: all[j].fingerprint != all[k].fingerprint
    ensures a.fingerprint in Fingerprints(all) && (a.fingerprint in Audible(all) <==> !a.suppressed)
  {
    assert all[|before|] == (before + [a])[|before|] == a;
    HandledMember(all, |before|);
  }

  lemma FingerprintsSnoc(alerts: seq<SourceAlert>, a: SourceAlert)
    ensures Fingerprints(alerts + [a]) == Fingerprints(alerts) + {a.fingerprint}
  {
    assert forall b :: b in alerts + [a] <==> b in alerts || b == a;
  }

  ghost predicate EventsOfSeen(events: seq<Mark>, stack: string, seen: set<string>) {
    OnePerKey(events) && forall e | e in events :: e.key.stack == stack && e.key.fingerprint in seen
  }

  lemma EventsGrow(events: seq<Mark>, event: seq<Mark>, stack: string, seen: set<string>, f: string)
    requires EventsOfSeen(events, stack, seen) && f !in seen
    requires |event| <= 1 && forall e | e in event :: e.key == Key(stack, f)
    ensures EventsOfSeen(events + event, stack, seen + {f})
  {
    var all := events + event;
    forall i, j | 0 <= i < j < |all| ensures all[i].key != all[j].key {
      assert all[i] in events;
      if j >= |events| { assert all[j] in event; }
    }
  }

  /** The first loop of a visit: every accepted alert, once per fingerprint. */
  method HandleSightings(repo: Repository, v: Visit, alerts: seq<SourceAlert>, accept: SourceAlert -> bool,
                         timing: Timing)
    returns (events: seq<Mark>, seen: set<string>)
    requires repo.Valid()
    modifies repo
    ensures repo.Valid()
    ensures seen == Fingerprints(Handled(alerts, accept))
    ensures EventsOfSeen(events, v.stack, seen)
    ensures Visited(old(repo.records), old(repo.log), repo.records, repo.log, events, v, seen,
                    Audible(Handled(alerts, accept)), timing)
    ensures Undisturbed(old(repo.script)) ==>
              Undisturbed(repo.script) && AllMine(repo.log, |old(repo.log)|)
              && StillOpen(old(repo.records), repo.records)
    ensures old(repo.script) == [] ==>
              var audible := Audible(Handled(alerts, accept));
              && repo.script == [] && SightingsDone(old(repo.records), repo.records, v, seen, audible, timing)
              && SightingsAnnounced(old(repo.records), repo.records, events, v, audible, timing)
  {
    events, seen := [], {};
    ghost var quiet, smooth := Undisturbed(repo.script), repo.script == [];
    SightingStarts(repo.records, repo.log, alerts, accept, v, timing, quiet, smooth);
    hide Sighting, Sighted;
    for n := 0 to |alerts|
      invariant repo.Valid()
      invariant Sighting(old(repo.records), old(repo.log), repo.records, repo.log, alerts, n, accept, seen, events, v,
                         timing, quiet, smooth)
      invariant quiet ==> Undisturbed(repo.script)
      invariant smooth ==> repo.script == []
    {
      var a := alerts[n];
      SightingNext(old(repo.records), old(repo.log), repo.records, repo.log, alerts, n, accept, seen, events, v, timing,
                   quiet, smooth);
      if !accept(a) || a.fingerprint in seen { continue; }
      ghost var before, log := repo.records, repo.log;
      var event := Sight(repo, v, a, timing, Fingerprints(Handled(alerts, accept)), Audible(Handled(alerts, accept)));
      SightingTaken(old(repo.records), old(repo.log), before, log, alerts, n, accept, seen, events, repo.records,
                    repo.log, event, v, timing, quiet, smooth);
      seen := seen + {a.fingerprint};
      events := events + event;
    }
    SightingEnds(old(repo.records), old(repo.log), repo.records, repo.log, alerts, accept, seen, events, v, timing,
                 quiet, smooth);
  }

  /** The first n alerts have been looked at: `quiet` if no other replica called meanwhile, `smooth` if besides no call
      failed. */
  ghost predicate Sighting(s: Store, l0: seq<Entry>, t: Store, l1: seq<Entry>, alerts: seq<SourceAlert>, n: nat,
                           accept: SourceAlert -> bool, seen: set<string>, events: seq<Mark>, v: Visit, timing: Timing,
                           quiet: bool, smooth: bool) {
    var handled := Handled(alerts, accept);
    && n <= |alerts| && seen == Fingerprints(Handled(alerts[..n], accept))
    && EventsOfSeen(events, v.stack, seen)
    && Visited(s, l0, t, l1, events, v, Fingerprints(handled), Audible(handled), timing)
    && (quiet ==> AllMine(l1, |l0|) && StillOpen(s, t))
    && (smooth ==>
          && SightingsDone(s, t, v, seen, Audible(handled), timing)
          && SightingsAnnounced(s, t, events, v, Audible(handled) * seen, timing))
  }

  /** What looking at one more alert made of the table and the log. */
  ghost predicate Sighted(t: Store, l1: seq<Entry>, u: Store, l2: seq<Entry>, event: seq<Mark>, v: Visit,
                          a: SourceAlert, handled: seq<SourceAlert>, timing: Timing, quiet: bool, smooth: bool) {
    && Visited(t, l1, u, l2, event, v, Fingerprints(handled), Audible(handled), timing)
    && |event| <= 1 && (forall e | e in event :: e.key == Key(v.stack, a.fingerprint))
    && (quiet ==> AllMine(l2, |l1|) && StillOpen(t, u))
    && (smooth ==>
          && t == Run(OpsOf(l1)) && u == AfterSighting(t, v, a, timing) && u == Run(OpsOf(l2))
          && OneAnnounced(t, u, event, v, a, timing))
  }

  lemma SightingStarts(s: Store, l0: seq<Entry>, alerts: seq<SourceAlert>, accept: SourceAlert -> bool, v: Visit,
                       timing: Timing, quiet: bool, smooth: bool)
    ensures Sighting(s, l0, s, l0, alerts, 0, accept, {}, [], v, timing, quiet, smooth)
  {
    assert alerts[..0] == [];
    assert OwnEvents(l0) + [] == OwnEvents(l0);
  }

  lemma SightingNext(s: Store, l0: seq<Entry>, t: Store, l1: seq<Entry>, alerts: seq<SourceAlert>, n: nat,
                     accept: SourceAlert -> bool, seen: set<string>, events: seq<Mark>, v: Visit, timing: Timing,
                     quiet: bool, smooth: bool)
    requires Sighting(s, l0, t, l1, alerts, n, accept, seen, events, v, timing, quiet, smooth) && n < |alerts|
    ensures !accept(alerts[n]) || alerts[n].fingerprint in seen ==>
              Sighting(s, l0, t, l1, alerts, n + 1, accept, seen, events, v, timing, quiet, smooth)
    ensures accept(alerts[n]) && alerts[n].fingerprint !in seen ==>
              var handled := Handled(alerts, accept);
              alerts[n].fingerprint in Fingerprints(handled)
              && (alerts[n].fingerprint in Audible(handled) <==> !alerts[n].suppressed)
  {
    HandledNext(alerts, accept, n);
    hide Visited, SightingsDone, SightingsAnnounced, EventsOfSeen, AllMine, StillOpen, Fingerprints, Audible;
    if accept(alerts[n]) && alerts[n].fingerprint !in seen {
      HandledPrefix(alerts, accept, n + 1);
      PrefixMember(Handled(alerts[..n], accept), alerts[n], Handled(alerts, accept));
    }
  }

  lemma SightingTaken(s: Store, l0: seq<Entry>, t: Store, l1: seq<Entry>, alerts: seq<SourceAlert>, n: nat,
                      accept: SourceAlert -> bool, seen: set<string>, events: seq<Mark>, u: Store, l2: seq<Entry>,
                      event: seq<Mark>, v: Visit, timing: Timing, quiet: bool, smooth: bool)
    requires Sighting(s, l0, t, l1, alerts, n, accept, seen, events, v, timing, quiet, smooth) && n < |alerts|
    requires accept(alerts[n]) && alerts[n].fingerprint !in seen
    requires Sighted(t, l1, u, l2, event, v, alerts[n], Handled(alerts, accept), timing, quiet, smooth)
    requires smooth ==> s == Run(OpsOf(l0))
    ensures Sighting(s, l0, u, l2, alerts, n + 1, accept, seen + {alerts[n].fingerprint}, events + event, v, timing,
                     quiet, smooth)
  {
    hide Visited, SightingsDone, SightingsAnnounced, EventsOfSeen, Fingerprints, Audible, AfterSighting, OneAnnounced;
    hide Run, AllMine, StillOpen, Handled;
    Prefixed(s, l0, t, l1, events, u, l2, event, v, Handled(alerts, accept), timing);
    var a, handled := alerts[n], Handled(alerts, accept);
    SightingNext(s, l0, t, l1, alerts, n, accept, seen, events, v, timing, quiet, smooth);
    HandledNext(alerts, accept, n);
    FingerprintsSnoc(Handled(alerts[..n], accept), a);
    VisitedJoin(s, l0, t, l1, events, u, l2, event, v, Fingerprints(handled), Audible(handled), timing);
    EventsGrow(events, event, v.stack, seen, a.fingerprint);
    if quiet {
      MineOn(l0, l1, l2);
      StillOn(s, t, u);
    }
    if smooth {
      SightingStepAt(l0, l1, l2, v, a, seen, Audible(handled), timing);
      SightAnnouncedAt(l0, l1, l2, events, event, v, a, seen, Audible(handled), timing);
    }
  }

  lemma StillOn(s: Store, t: Store, u: Store)
    requires StillOpen(s, t) && StillOpen(t, u)
    ensures StillOpen(s, u)
  {
  }

  lemma Prefixed(s: Store, l0: seq<Entry>, t: Store, l1: seq<Entry>, events: seq<Mark>, u: Store, l2: seq<Entry>,
                 event: seq<Mark>, v: Visit, handled: seq<SourceAlert>, timing: Timing)
    requires Visited(s, l0, t, l1, events, v, Fingerprints(handled), Audible(handled), timing)
    requires Visited(t, l1, u, l2, event, v, Fingerprints(handled), Audible(handled), timing)
    ensures l0 <= l1 <= l2
  {
  }

  lemma SightingEnds(s: Store, l0: seq<Entry>, t: Store, l1: seq<Entry>, alerts: seq<SourceAlert>,
                     accept: SourceAlert -> bool, seen: set<string>, events: seq<Mark>, v: Visit, timing: Timing,
                     quiet: bool, smooth: bool)
    requires Sighting(s, l0, t, l1, alerts, |alerts|, accept, seen, events, v, timing, quiet, smooth)
    ensures var audible := Audible(Handled(alerts, accept));
            && seen == Fingerprints(Handled(alerts, accept)) && EventsOfSeen(events, v.stack, seen)
            && Visited(s, l0, t, l1, events, v, seen, audible, timing)
            && (quiet ==> AllMine(l1, |l0|) && StillOpen(s, t))
            && (smooth ==>
                  SightingsDone(s, t, v, seen, audible, timing) && SightingsAnnounced(s, t, events, v, audible, timing))
  {
    assert alerts[..|alerts|] == alerts;
    var handled := Handled(alerts, accept);
    assert Audible(handled) * Fingerprints(handled) == Audible(handled);
  }

  lemma SightAnnounced(s: Store, t: Store, u: Store, events: seq<Mark>, event: seq<Mark>, v: Visit, a: SourceAlert,
                       seen: set<string>, audible: set<string>, timing: Timing)
    requires UniqueOpen(t) && SightingsDone(s, t, v, seen, audible, timing) && a.fingerprint !in seen
    requires EventsOfSeen(events, v.stack, seen) && SightingsAnnounced(s, t, events, v, audible * seen, timing)
    requires u == AfterSighting(t, v, a, timing) && OneAnnounced(t, u, event, v, a, timing)
    requires a.fingerprint in audible <==> !a.suppressed
    ensures SightingsAnnounced(s, u, events + event, v, audible * (seen + {a.fingerprint}), timing)
  {
    var key, now := Key(v.stack, a.fingerprint), audible * (seen + {a.fingerprint});
    forall id: nat | OpenAt(s, id) && s[id].key.stack == v.stack && s[id].key.fingerprint in now
      ensures AnnouncedAs(s[id], id, events + event, v, timing)
    {
      if s[id].key.fingerprint == a.fingerprint {
        assert t[id] == s[id] && OpenWithKey(t, id, key);
        assert id == UpsertId(t, key);
        assert event != [] ==> event[0] in events + event;
      } else {
        assert AnnouncedAs(s[id], id, events, v, timing);
      }
    }
    forall id: nat | |s| <= id < |u| && u[id].key.stack == v.stack && u[id].key.fingerprint in now
      ensures Mark(Fired, id, u[id].key, v.now) in events + event
    {
      if id < |t| {
        assert u[id].key == t[id].key;
      } else {
        assert event[0] in events + event;
      }
    }
  }

  lemma SightAnnouncedAt(l0: seq<Entry>, l1: seq<Entry>, l2: seq<Entry>, events: seq<Mark>, event: seq<Mark>, v: Visit,
                         a: SourceAlert, seen: set<string>, audible: set<string>, timing: Timing)
    requires var s, t, u := Run(OpsOf(l0)), Run(OpsOf(l1)), Run(OpsOf(l2));
             && SightingsDone(s, t, v, seen, audible, timing) && a.fingerprint !in seen
             && EventsOfSeen(events, v.stack, seen) && SightingsAnnounced(s, t, events, v, audible * seen, timing)
             && u == AfterSighting(t, v, a, timing) && OneAnnounced(t, u, event, v, a, timing)
    requires a.fingerprint in audible <==> !a.suppressed
    ensures SightingsAnnounced(Run(OpsOf(l0)), Run(OpsOf(l2)), events + event, v,
                               audible * (seen + {a.fingerprint}), timing)
  {
    AlwaysInv(OpsOf(l1));
    SightAnnounced(Run(OpsOf(l0)), Run(OpsOf(l1)), Run(OpsOf(l2)), events, event, v, a, seen, audible, timing);
  }

  lemma SightingStepAt(l0: seq<Entry>, l1: seq<Entry>, l2: seq<Entry>, v: Visit, a: SourceAlert,
                       seen: set<string>, audible: set<string>, timing: Timing)
    requires Run(OpsOf(l2)) == AfterSighting(Run(OpsOf(l1)), v, a, timing)
    requires SightingsDone(Run(OpsOf(l0)), Run(OpsOf(l1)), v, seen, audible, timing) && a.fingerprint !in seen
    requires a.fingerprint in audible <==> !a.suppressed
    ensures SightingsDone(Run(OpsOf(l0)), Run(OpsOf(l2)), v, seen + {a.fingerprint}, audible, timing)
  {
    AlwaysInv(OpsOf(l0));
    AlwaysInv(OpsOf(l1));
    AlwaysInv(OpsOf(l2));
    SightingStep(Run(OpsOf(l0)), Run(OpsOf(l1)), v, a, seen, audible, timing);
  }

  ghost predicate EventsOfUnseen(events: seq<Mark>, stack: string, seen: set<string>) {
    OnePerKey(events) && forall e | e in events :: e.key.stack == stack && e.key.fingerprint !in seen
  }

  /** Every record that was notified and is closed between s and t has its resolution among the events. */
  ghost predicate ResolutionsAnnounced(s: Store, t: Store, events: seq<Mark>, at: int) {
    forall id: nat | OpenAt(s, id) && id < |t| && !OpenAt(t, id)
      && t[id].notifiedAt.Some? :: Mark(Resolved, id, t[id].key, at) in events
  }

  predicate Unseen(r: Record, v: Visit, seen: set<string>, timing: Timing) {
    r.resolvedAt.None? && r.key.stack == v.stack && r.key.fingerprint !in seen && r.lastSeen < v.now - timing.grace
  }

  /** The table after resolving, undisturbed, what the visit did not see among the first n listed alerts. */
  ghost predicate UnseenResolved(s: Store, t: Store, open: seq<Listed>, n: nat, v: Visit, seen: set<string>,
                                 timing: Timing)
    requires n <= |open|
  {
    && |t| == |s|
    && forall id: nat | id < |s| ::
         t[id] == if Unseen(s[id], v, seen, timing) && (exists k | 0 <= k < n :: open[k].id == id)
                  then s[id].(resolvedAt := Some(v.now)) else s[id]
  }

  lemma AnnouncedStep(s: Store, t: Store, u: Store, events: seq<Mark>, event: seq<Mark>, id: nat, at: int)
    requires ResolutionsAnnounced(s, t, events, at) && |s| == |t| == |u| && id < |t|
    requires forall i: nat | i < |t| && i != id :: u[i] == t[i]
    requires u[id].key == t[id].key && (u[id].notifiedAt == t[id].notifiedAt)
    requires t[id].notifiedAt.Some? && OpenAt(t, id) && !OpenAt(u, id) ==> event == [Mark(Resolved, id, t[id].key, at)]
    ensures ResolutionsAnnounced(s, u, events + event, at)
  {
    forall i: nat | OpenAt(s, i) && i < |u| && !OpenAt(u, i) && u[i].notifiedAt.Some?
      ensures Mark(Resolved, i, u[i].key, at) in events + event
    {
      if OpenAt(t, i) {
        assert i == id && Mark(Resolved, id, t[id].key, at) in event;
      } else {
        assert Mark(Resolved, i, t[i].key, at) in events;
      }
    }
  }

  /** What resolving one listed alert does: `quiet` if no other replica called meanwhile, `smooth` if besides no call
      failed. */
  ghost predicate OneResolved(s: Store, l0: seq<Entry>, t: Store, l1: seq<Entry>, event: seq<Mark>, listed: Listed,
                              v: Visit,
                              seen: set<string>, audible: set<string>, timing: Timing, quiet: bool, smooth: bool)
    requires listed.id < |s|
  {
    && Visited(s, l0, t, l1, event, v, seen, audible, timing)
    && |event| <= 1 && (forall e | e in event :: e.key == listed.copy.key)
    && (quiet ==>
          && AllMine(l1, |l0|) && |t| == |s|
          && (forall id: nat | id < |t| && id != listed.id :: t[id] == s[id])
          && t[listed.id].notifiedAt == s[listed.id].notifiedAt
          && (listed.copy.notifiedAt.Some? && OpenAt(s, listed.id) && !OpenAt(t, listed.id) ==>
                event == [Mark(Resolved, listed.id, listed.copy.key, v.now)]))
    && (smooth ==>
          t == if OpenAt(s, listed.id) && s[listed.id].lastSeen < v.now - timing.grace
               then s[listed.id := s[listed.id].(resolvedAt := Some(v.now))] else s)
  }

  /** Resolves one listed alert the visit did not see. */
  method ResolveOne(repo: Repository, v: Visit, listed: Listed, timing: Timing, ghost seen: set<string>,
                    ghost audible: set<string>)
    returns (event: seq<Mark>)
    requires repo.Valid() && listed.id < |repo.records|
    requires listed.copy.key == repo.records[listed.id].key && listed.copy.key.stack == v.stack
    requires listed.copy.key.fingerprint !in seen
    requires listed.copy.notifiedAt.Some? ==> repo.records[listed.id].notifiedAt.Some?
    modifies repo
    ensures repo.Valid()
    ensures OneResolved(old(repo.records), old(repo.log), repo.records, repo.log, event, listed, v, seen, audible,
                        timing,
                        Undisturbed(old(repo.script)), old(repo.script) == [])
    ensures Undisturbed(old(repo.script)) ==> Undisturbed(repo.script)
    ensures old(repo.script) == [] ==> repo.script == []
  {
    hide Run, OwnEvents, VisitKept, OthersOnly;
    var told := listed.copy.notifiedAt.Some?;
    var resolved := repo.Resolve(listed.id, v.now, v.now - timing.grace, told);
    VisitKeptOn(old(repo.log), repo.log, |old(repo.log)|, old(repo.records), repo.records, v, seen, audible, timing);
    event := if resolved && told then [Mark(Resolved, listed.id, listed.copy.key, v.now)] else [];
  }

  lemma UnseenEventsGrow(events: seq<Mark>, event: seq<Mark>, stack: string, seen: set<string>, open: seq<Listed>,
                         s: Store, k: nat)
    requires OpenListOf(s, stack, open) && UniqueOpen(s) && k < |open| && open[k].copy.key.fingerprint !in seen
    requires EventsOfUnseen(events, stack, seen)
    requires forall e | e in events :: exists j | 0 <= j < k :: open[j].copy.key == e.key
    requires |event| <= 1 && forall e | e in event :: e.key == open[k].copy.key
    ensures EventsOfUnseen(events + event, stack, seen)
    ensures forall e | e in events + event :: exists j | 0 <= j < k + 1 :: open[j].copy.key == e.key
  {
    var all, key := events + event, open[k].copy.key;
    forall e | e in events ensures e.key != key {
      var j :| 0 <= j < k && open[j].copy.key == e.key;
      assert OpenWithKey(s, open[j].id, e.key) && OpenWithKey(s, open[k].id, key);
    }
    forall i, j | 0 <= i < j < |all| ensures all[i].key != all[j].key {
      assert all[i] in events;
      if j >= |events| { assert all[j] in event; }
    }
  }

  /** The first k listed alerts have been looked at. */
  ghost predicate Resolving(s: Store, l0: seq<Entry>, t: Store, l1: seq<Entry>, open: seq<Listed>, k: nat,
                            events: seq<Mark>,
                            v: Visit, seen: set<string>, audible: set<string>, timing: Timing, quiet: bool,
                            smooth: bool) {
    && k <= |open| && EventsOfUnseen(events, v.stack, seen)
    && (forall e | e in events :: exists j | 0 <= j < k :: open[j].copy.key == e.key)
    && Visited(s, l0, t, l1, events, v, seen, audible, timing)
    && (quiet ==>
          && AllMine(l1, |l0|) && |t| == |s|
          && (forall j | k <= j < |open| :: open[j].id < |t| && t[open[j].id] == open[j].copy)
          && ResolutionsAnnounced(s, t, events, v.now))
    && (smooth ==> UnseenResolved(s, t, open, k, v, seen, timing))
  }

  lemma ListedFits(s: Store, l0: seq<Entry>, t: Store, l1: seq<Entry>, open: seq<Listed>, k: nat, events: seq<Mark>,
                   v: Visit, seen: set<string>, audible: set<string>, timing: Timing, quiet: bool, smooth: bool)
    requires Resolving(s, l0, t, l1, open, k, events, v, seen, audible, timing, quiet, smooth)
    requires OpenListOf(s, v.stack, open) && k < |open|
    ensures open[k].id < |t| && open[k].copy.key == t[open[k].id].key && open[k].copy.key.stack == v.stack
    ensures open[k].copy.notifiedAt.Some? ==> t[open[k].id].notifiedAt.Some?
  {
  }

  lemma ResolvingSkips(s: Store, l0: seq<Entry>, t: Store, l1: seq<Entry>, open: seq<Listed>, k: nat, events: seq<Mark>,
                       v: Visit, seen: set<string>, audible: set<string>, timing: Timing, quiet: bool, smooth: bool)
    requires Resolving(s, l0, t, l1, open, k, events, v, seen, audible, timing, quiet, smooth)
    requires OpenListOf(s, v.stack, open) && k < |open| && open[k].copy.key.fingerprint in seen
    ensures Resolving(s, l0, t, l1, open, k + 1, events, v, seen, audible, timing, quiet, smooth)
  {
    hide Visited, ResolutionsAnnounced, EventsOfUnseen;
    if smooth {
      assert !Unseen(s[open[k].id], v, seen, timing);
    }
  }

  lemma ResolvingNext(s: Store, l0: seq<Entry>, t: Store, l1: seq<Entry>, open: seq<Listed>, k: nat, events: seq<Mark>,
                      u: Store, l2: seq<Entry>, event: seq<Mark>,
                      v: Visit, seen: set<string>, audible: set<string>, timing: Timing, quiet: bool, smooth: bool)
    requires Resolving(s, l0, t, l1, open, k, events, v, seen, audible, timing, quiet, smooth)
    requires OpenListOf(s, v.stack, open) && UniqueOpen(s) && k < |open| && open[k].copy.key.fingerprint !in seen
    requires open[k].id < |t| && OneResolved(t, l1, u, l2, event, open[k], v, seen, audible, timing, quiet, smooth)
    ensures Resolving(s, l0, u, l2, open, k + 1, events + event, v, seen, audible, timing, quiet, smooth)
  {
    VisitedJoin(s, l0, t, l1, events, u, l2, event, v, seen, audible, timing);
    UnseenEventsGrow(events, event, v.stack, seen, open, s, k);
    if quiet {
      AnnouncedStep(s, t, u, events, event, open[k].id, v.now);
      MineOn(l0, l1, l2);
    }
    if smooth { ResolvedNext(s, t, u, open, k, v, seen, timing); }
    hide Visited, ResolutionsAnnounced, EventsOfUnseen, UnseenResolved, AllMine;
  }

  lemma MineOn(l0: seq<Entry>, l1: seq<Entry>, l2: seq<Entry>)
    requires l0 <= l1 <= l2 && AllMine(l1, |l0|) && AllMine(l2, |l1|)
    ensures AllMine(l2, |l0|)
  {
    forall i | |l0| <= i < |l2| ensures l2[i].mine {
      if i < |l1| { assert l1[i] == l2[i]; }
    }
  }

  lemma ResolvedNext(s: Store, t: Store, u: Store, open: seq<Listed>, k: nat, v: Visit, seen: set<string>,
                     timing: Timing)
    requires k < |open| && UnseenResolved(s, t, open, k, v, seen, timing)
    requires OpenListOf(s, v.stack, open) && open[k].copy.key.fingerprint !in seen
    requires var id := open[k].id;
             u == if OpenAt(t, id) && t[id].lastSeen < v.now - timing.grace
               then t[id := t[id].(resolvedAt := Some(v.now))] else t
    ensures UnseenResolved(s, u, open, k + 1, v, seen, timing)
  {
    assert forall j | 0 <= j < k :: open[j].id != open[k].id;
    assert t[open[k].id] == s[open[k].id];
  }

  /** Once all listed alerts have been looked at, every unseen record of the stack has been. */
  lemma ResolvedEnds(s: Store, t: Store, open: seq<Listed>, v: Visit, seen: set<string>, timing: Timing)
    requires UnseenResolved(s, t, open, |open|, v, seen, timing) && OpenListOf(s, v.stack, open)
    ensures AllUnseenResolved(s, t, v, seen, timing)
  {
    forall id: nat | id < |s| && Unseen(s[id], v, seen, timing) ensures exists k | 0 <= k < |open| :: open[k].id == id {
      assert OpenAt(s, id) && Listed(id, s[id]) in open;
    }
  }

  ghost predicate AllUnseenResolved(s: Store, t: Store, v: Visit, seen: set<string>, timing: Timing) {
    |t| == |s| && forall id: nat | id < |s| ::
      t[id] == if Unseen(s[id], v, seen, timing) then s[id].(resolvedAt := Some(v.now)) else s[id]
  }

  /** From the listing on; before it only others called. */
  lemma ResolvingEnds(s: Store, before: seq<Entry>, mid: Store, l0: seq<Entry>, t: Store, l1: seq<Entry>,
                      open: seq<Listed>,
                      events: seq<Mark>, v: Visit, seen: set<string>, audible: set<string>, timing: Timing,
                      quiet: bool, smooth: bool)
    requires Grows(s, mid) && OthersOnly(before, l0) && OwnEvents(l0) == OwnEvents(before)
    requires quiet ==> mid == s && l0 == before
    requires smooth ==> quiet
    requires Resolving(mid, l0, t, l1, open, |open|, events, v, seen, audible, timing, quiet, smooth)
    requires OpenListOf(mid, v.stack, open)
    ensures EventsOfUnseen(events, v.stack, seen)
    ensures Visited(s, before, t, l1, events, v, seen, audible, timing)
    ensures quiet ==> AllMine(l1, |before|) && ResolutionsAnnounced(s, t, events, v.now)
    ensures smooth ==> AllUnseenResolved(s, t, v, seen, timing)
  {
    assert OwnEvents(before) + [] == OwnEvents(before);
    VisitKeptOn(before, l0, |before|, s, mid, v, seen, audible, timing);
    VisitedJoin(s, before, mid, l0, [], t, l1, events, v, seen, audible, timing);
    if smooth { ResolvedEnds(mid, t, open, v, seen, timing); }
    assert [] + events == events;
    hide Visited, ResolutionsAnnounced, EventsOfUnseen, UnseenResolved, AllMine;
  }

  /** The second loop of a visit: open alerts it did not see, unless they were seen within the grace period. */
  method ResolveUnseen(repo: Repository, v: Visit, timing: Timing, seen: set<string>, ghost audible: set<string>)
    returns (events: seq<Mark>)
    requires repo.Valid()
    modifies repo
    ensures repo.Valid()
    ensures EventsOfUnseen(events, v.stack, seen)
    ensures Visited(old(repo.records), old(repo.log), repo.records, repo.log, events, v, seen, audible, timing)
    ensures Undisturbed(old(repo.script)) ==>
              && Undisturbed(repo.script) && AllMine(repo.log, |old(repo.log)|)
              && ResolutionsAnnounced(old(repo.records), repo.records, events, v.now)
    ensures old(repo.script) == [] ==>
              repo.script == [] && AllUnseenResolved(old(repo.records), repo.records, v, seen, timing)
  {
    events := [];
    ghost var quiet, smooth := Undisturbed(repo.script), repo.script == [];
    var listing := repo.ListOpen(v.stack);
    if listing.None? { return; }
    var open := listing.value;
    ghost var mid, log := repo.records, repo.log;
    AlwaysInv(OpsOf(log));
    for k := 0 to |open|
      invariant repo.Valid()
      invariant Resolving(mid, log, repo.records, repo.log, open, k, events, v, seen, audible, timing, quiet, smooth)
      invariant quiet ==> Undisturbed(repo.script)
      invariant smooth ==> repo.script == []
    {
      ghost var before, at := repo.records, repo.log;
      ListedFits(mid, log, before, at, open, k, events, v, seen, audible, timing, quiet, smooth);
      if open[k].copy.key.fingerprint in seen {
        ResolvingSkips(mid, log, before, at, open, k, events, v, seen, audible, timing, quiet, smooth);
        continue;
      }
      var event := ResolveOne(repo, v, open[k], timing, seen, audible);
      ResolvingNext(mid, log, before, at, open, k, events, repo.records, repo.log, event, v, seen, audible, timing,
                    quiet, smooth);
      events := events + event;
    }
    ResolvingEnds(old(repo.records), old(repo.log), mid, log, repo.records, repo.log, open, events, v, seen, audible,
                  timing, quiet, smooth);
  }
}
