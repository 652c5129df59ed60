/** What every history of repository calls keeps, whatever the number of replicas and however their
    calls interleave: the calls are atomic, so a history is any sequence of calls. */
module AlertHistory {
  import opened Wrappers
  import opened AlertStore

  // ---- per-record accounting -------------------------------------------------------------------

  function Count(marks: seq<Mark>, id: nat, kinds: set<Kind>): nat {
    if marks == [] then 0
    else
      var m := marks[|marks| - 1];
      Count(marks[..|marks| - 1], id, kinds) + if m.id == id && m.kind in kinds then 1 else 0
  }

  /** The times at which a record was notified, oldest first. */
  function Notifications(marks: seq<Mark>, id: nat): seq<int> {
    if marks == [] then []
    else
      var m := marks[|marks| - 1];
      Notifications(marks[..|marks| - 1], id) + if m.id == id && m.kind in {Fired, Repeated} then [m.at] else []
  }

  // ---- the life of one key -----------------------------------------------------------------------

  datatype Phase = Quiet | Ringing(id: nat)

  /** One mark of a key: (Fired Repeated* (Resolved | Silenced))*, each life on one record; a record
      that was never notified may also be closed silently. None is a mark out of turn. */
  function Next(phase: Phase, m: Mark): Option<Phase> {
    match m.kind
    case Fired => if phase.Quiet? then Some(Ringing(m.id)) else None
    case Repeated => if phase == Ringing(m.id) then Some(phase) else None
    case Resolved => if phase == Ringing(m.id) then Some(Quiet) else None
    case Silenced => if phase.Quiet? || phase == Ringing(m.id) then Some(Quiet) else None
  }

  function PhaseAfter(marks: seq<Mark>, key: Key): Option<Phase> {
    if marks == [] then Some(Quiet)
    else
      var before := PhaseAfter(marks[..|marks| - 1], key);
      var m := marks[|marks| - 1];
      if before.Some? && m.key == key then Next(before.value, m) else before
  }

  /** The phase a key must be in, read off the table. */
  function TablePhase(s: Store, key: Key): Phase {
    match FindOpen(s, key)
    case Some(id) => if s[id].notifiedAt.Some? then Ringing(id) else Quiet
    case None => Quiet
  }

  // ---- the invariant -----------------------------------------------------------------------------

  ghost predicate UniqueOpen(s: Store) {
    forall i, j, key :: OpenWithKey(s, i, key) && OpenWithKey(s, j, key) ==> i == j
  }

  ghost predicate Accounted(s: Store, marks: seq<Mark>, id: nat) {
    && Count(marks, id, {Fired}) == (if id < |s| && s[id].notifiedAt.Some? then 1 else 0)
    && Count(marks, id, {Resolved, Silenced}) == (if id < |s| && s[id].resolvedAt.Some? then 1 else 0)
    && Count(marks, id, {Resolved}) <= Count(marks, id, {Fired})
    && Count(marks, id, {Resolved}) <= Count(marks, id, {Resolved, Silenced})
    && (Notifications(marks, id) == [] <==> !(id < |s| && s[id].notifiedAt.Some?))
    && (id < |s| && s[id].notifiedAt.Some? ==>
          var times := Notifications(marks, id); times[|times| - 1] == s[id].notifiedAt.value)
  }

  ghost predicate Inv(s: Store, marks: seq<Mark>) {
    && UniqueOpen(s)
    && (forall id :: Accounted(s, marks, id))
    && (forall key :: PhaseAfter(marks, key) == Some(TablePhase(s, key)))
  }

  lemma Snoc(marks: seq<Mark>, m: Mark)
    ensures forall id, kinds ::
              Count(marks + [m], id, kinds) == Count(marks, id, kinds) +
                if m.id == id && m.kind in kinds then 1 else 0
    ensures forall id ::
              Notifications(marks + [m], id) == Notifications(marks, id) +
                if m.id == id && m.kind in {Fired, Repeated} then [m.at] else []
    ensures forall key :: PhaseAfter(marks + [m], key) ==
                          var before := PhaseAfter(marks, key);
                          if before.Some? && m.key == key then Next(before.value, m) else before
  {
    assert (marks + [m])[..|marks|] == marks;
  }

  lemma TableUnique(s: Store, id: nat)
    requires UniqueOpen(s) && OpenAt(s, id)
    ensures FindOpen(s, s[id].key) == Some(id)
  {
    assert OpenWithKey(s, id, s[id].key);
  }

  lemma UpsertStep(s: Store, marks: seq<Mark>, key: Key, at: int)
    requires Inv(s, marks)
    ensures Inv(Apply(s, Upsert(key, at)), marks)
  {
    var t := Apply(s, Upsert(key, at));
    forall i: nat, j: nat, k | OpenWithKey(t, i, k) && OpenWithKey(t, j, k) ensures i == j {
      if i < |s| { assert OpenWithKey(s, i, k); }
      if j < |s| { assert OpenWithKey(s, j, k); }
    }
    forall id ensures Accounted(t, marks, id) { assert Accounted(s, marks, id); }
    forall k ensures TablePhase(t, k) == TablePhase(s, k) {
      SameTable(s, t, k);
    }
  }

  /** Records that differ only in `lastSeen`, or are new and not yet notified, do not move the phase. */
  lemma SameTable(s: Store, t: Store, key: Key)
    requires UniqueOpen(s) && UniqueOpen(t) && |s| <= |t|
    requires forall id: nat | id < |s| ::
               t[id].key == s[id].key && t[id].notifiedAt == s[id].notifiedAt && t[id].resolvedAt == s[id].resolvedAt
    requires forall id: nat | |s| <= id < |t| :: t[id].notifiedAt.None?
    ensures TablePhase(t, key) == TablePhase(s, key)
  {
    var before, after := FindOpen(s, key), FindOpen(t, key);
    if before.Some? {
      assert OpenWithKey(t, before.value, key);
      TableUnique(t, before.value);
    } else if after.Some? && after.value < |s| {
      assert OpenWithKey(s, after.value, key);
    }
  }

  lemma ClaimStep(s: Store, marks: seq<Mark>, op: Op)
    requires Inv(s, marks) && op.Claim? && Claims(s, op)
    ensures Inv(Apply(s, op), marks + MarksOf(s, op))
  {
    var t, m := Apply(s, op), MarksOf(s, op)[0];
    Snoc(marks, m);
    KeepsOpen(s, t);
    forall id ensures Accounted(t, marks + [m], id) { assert Accounted(s, marks, id); }
    TableUnique(s, op.id);
    TableUnique(t, op.id);
    forall k ensures PhaseAfter(marks + [m], k) == Some(TablePhase(t, k)) {
      assert PhaseAfter(marks, k) == Some(TablePhase(s, k));
      if k != m.key { SamePhase(s, t, k); }
    }
  }

  lemma KeepsOpen(s: Store, t: Store)
    requires UniqueOpen(s) && |s| == |t|
    requires forall id: nat | id < |s| :: t[id].key == s[id].key && (t[id].resolvedAt.None? ==> s[id].resolvedAt.None?)
    ensures UniqueOpen(t)
  {
    forall i: nat, j: nat, k | OpenWithKey(t, i, k) && OpenWithKey(t, j, k) ensures i == j {
      assert OpenWithKey(s, i, k) && OpenWithKey(s, j, k);
    }
  }

  /** A call that writes no record of a key leaves the phase of that key alone. */
  lemma SamePhase(s: Store, t: Store, key: Key)
    requires UniqueOpen(s) && UniqueOpen(t) && |s| == |t|
    requires forall id: nat | id < |s| :: t[id].key == s[id].key && (s[id].key == key ==> t[id] == s[id])
    ensures TablePhase(t, key) == TablePhase(s, key)
  {
    var before, after := FindOpen(s, key), FindOpen(t, key);
    if before.Some? { assert OpenWithKey(t, before.value, key); TableUnique(t, before.value); }
    if after.Some? { assert OpenWithKey(s, after.value, key); }
  }

  lemma CloseStep(s: Store, marks: seq<Mark>, id: nat, at: int, kind: Kind)
    requires Inv(s, marks) && OpenAt(s, id)
    requires kind == Silenced || (kind == Resolved && s[id].notifiedAt.Some?)
    ensures Inv(s[id := s[id].(resolvedAt := Some(at))], marks + [Mark(kind, id, s[id].key, at)])
  {
    var t, m := s[id := s[id].(resolvedAt := Some(at))], Mark(kind, id, s[id].key, at);
    Snoc(marks, m);
    KeepsOpen(s, t);
    assert Accounted(s, marks, id);
    forall j ensures Accounted(t, marks + [m], j) { assert Accounted(s, marks, j); }
    TableUnique(s, id);
    forall k ensures PhaseAfter(marks + [m], k) == Some(TablePhase(t, k)) {
      assert PhaseAfter(marks, k) == Some(TablePhase(s, k));
      if k != m.key {
        SamePhase(s, t, k);
      } else if FindOpen(t, k).Some? {
        assert OpenWithKey(s, FindOpen(t, k).value, k);
      }
    }
  }

  lemma {:induction false} CloseMissingSteps(s: Store, marks: seq<Mark>, op: Op, n: nat)
    requires Inv(s, marks) && op.CloseMissing? && n <= |s|
    ensures Inv(CloseUpTo(s, op, n), marks + SilencedUpTo(s, op, n))
  {
    if n == 0 {
      assert marks + [] == marks;
    } else {
      CloseMissingSteps(s, marks, op, n - 1);
      var t, sent := CloseUpTo(s, op, n - 1), marks + SilencedUpTo(s, op, n - 1);
      if Closes(s, op, n - 1) {
        CloseStep(t, sent, n - 1, op.at, Silenced);
        assert sent + [Mark(Silenced, n - 1, s[n - 1].key, op.at)] == marks + SilencedUpTo(s, op, n);
      } else {
        assert marks + SilencedUpTo(s, op, n) == sent;
      }
    }
  }

  lemma Step(s: Store, marks: seq<Mark>, op: Op)
    requires Inv(s, marks)
    ensures Inv(Apply(s, op), marks + MarksOf(s, op))
  {
    assert marks + [] == marks;
    match op
    case Upsert(key, at) => UpsertStep(s, marks, key, at);
    case Claim(_, _, _) => if Claims(s, op) { ClaimStep(s, marks, op); }
    case Resolve(id, at, _, told) =>
      if Resolves(s, op) { CloseStep(s, marks, id, at, MarksOf(s, op)[0].kind); }
    case CloseMissing(_, _, _) => CloseMissingSteps(s, marks, op, |s|);
  }

  lemma {:induction false} AlwaysInv(ops: seq<Op>)
    ensures Inv(Run(ops), Marks(ops))
  {
    if ops != [] {
      var init := ops[..|ops| - 1];
      AlwaysInv(init);
      Step(Run(init), Marks(init), ops[|ops| - 1]);
    }
  }

  // ---- what its readers rely on ----------------------------------------------------------

  /** Two records of one (stack, fingerprint) are never open at once. */
  lemma OneOpenRecordPerKey(ops: seq<Op>, i: nat, j: nat)
    requires OpenAt(Run(ops), i) && OpenAt(Run(ops), j) && Run(ops)[i].key == Run(ops)[j].key
    ensures i == j
  {
    AlwaysInv(ops);
    assert OpenWithKey(Run(ops), i, Run(ops)[i].key) && OpenWithKey(Run(ops), j, Run(ops)[i].key);
  }

  /** A record is announced once, resolved once, and its resolution is announced only if its firing was. */
  lemma AnnouncedOnce(ops: seq<Op>, id: nat)
    ensures Count(Marks(ops), id, {Fired}) <= 1
    ensures Count(Marks(ops), id, {Resolved, Silenced}) <= 1
    ensures Count(Marks(ops), id, {Resolved}) <= Count(Marks(ops), id, {Fired})
  {
    AlwaysInv(ops);
    assert Accounted(Run(ops), Marks(ops), id);
  }

  /** The marks of a key form (Fired Repeated* (Resolved | Silenced))*, and the table says where it stands. */
  lemma KeyLifecycle(ops: seq<Op>, key: Key)
    ensures PhaseAfter(Marks(ops), key) == Some(TablePhase(Run(ops), key))
  {
    AlwaysInv(ops);
  }

  // ---- spacing of notifications ----------------------------------------------------------------------

  ghost predicate ClaimsEvery(ops: seq<Op>, repeat: int) {
    forall i | 0 <= i < |ops| :: ops[i].Claim? ==> ops[i].repeat == repeat
  }

  ghost predicate SpacedBy(times: seq<int>, repeat: int) {
    forall i | 0 < i < |times| :: times[i] - times[i - 1] >= repeat
  }

  lemma {:induction false} NotificationsSpaced(ops: seq<Op>, id: nat, repeat: int)
    requires ClaimsEvery(ops, repeat)
    ensures SpacedBy(Notifications(Marks(ops), id), repeat)
  {
    if ops != [] {
      var init, op := ops[..|ops| - 1], ops[|ops| - 1];
      NotificationsSpaced(init, id, repeat);
      AlwaysInv(init);
      assert Accounted(Run(init), Marks(init), id);
      NotifiedBy(Run(init), Marks(init), op, id);
    }
  }

  /** Only a granted claim on a record adds to its notifications. */
  lemma NotifiedBy(s: Store, marks: seq<Mark>, op: Op, id: nat)
    ensures Notifications(marks + MarksOf(s, op), id) ==
            Notifications(marks, id) + if op.Claim? && op.id == id && Claims(s, op) then [op.now] else []
  {
    var sent := MarksOf(s, op);
    if op.CloseMissing? {
      SilencedSilent(s, op, |s|);
      SilentMarks(marks, sent, id);
    } else if sent == [] {
      assert marks + sent == marks;
    } else {
      assert sent == [sent[0]];
      Snoc(marks, sent[0]);
    }
  }

  lemma {:induction false} SilentMarks(marks: seq<Mark>, more: seq<Mark>, id: nat)
    requires forall i | 0 <= i < |more| :: more[i].kind == Silenced
    ensures Notifications(marks + more, id) == Notifications(marks, id)
  {
    if more == [] {
      assert marks + more == marks;
    } else {
      SilentMarks(marks, more[..|more| - 1], id);
      assert (marks + more)[..|marks + more| - 1] == marks + more[..|more| - 1];
    }
  }

  lemma {:induction false} SilencedSilent(s: Store, op: Op, n: nat)
    requires op.CloseMissing? && n <= |s|
    ensures forall i | 0 <= i < |SilencedUpTo(s, op, n)| :: SilencedUpTo(s, op, n)[i].kind == Silenced
  {
    if n > 0 { SilencedSilent(s, op, n - 1); }
  }

  lemma {:induction false} SpanOf(times: seq<int>, repeat: int, i: nat, j: nat)
    requires SpacedBy(times, repeat) && i <= j < |times|
    ensures times[j] - times[i] >= (j - i) * repeat
    decreases j
  {
    if i < j { SpanOf(times, repeat, i, j - 1); }
  }

  /** Any span of `length` carries at most length / repeat + 1 notifications of one record. */
  lemma NotificationRate(ops: seq<Op>, id: nat, repeat: int, length: int, i: nat, j: nat)
    requires ClaimsEvery(ops, repeat) && repeat > 0
    requires i <= j < |Notifications(Marks(ops), id)|
    requires Notifications(Marks(ops), id)[j] - Notifications(Marks(ops), id)[i] <= length
    ensures j - i + 1 <= length / repeat + 1
  {
    NotificationsSpaced(ops, id, repeat);
    SpanOf(Notifications(Marks(ops), id), repeat, i, j);
    QuotientBound(j - i, repeat, length);
  }

  lemma QuotientBound(n: int, d: int, length: int)
    requires d > 0 && n * d <= length
    ensures n <= length / d
  {
    var over := n - length / d;
    assert over * d == n * d - length / d * d;
    AtLeastOne(over, d);
  }

  lemma AtLeastOne(n: int, d: int)
    requires d > 0
    ensures n >= 1 ==> n * d >= d
  {
  }

  // ---- the recorded sighting and the latest one --------------------------------------------------------

  /** The latest time at which any replica reported seeing the record. */
  function LatestSighting(ops: seq<Op>, id: nat): Option<int> {
    if ops == [] then None
    else
      var init, op := ops[..|ops| - 1], ops[|ops| - 1];
      var before := LatestSighting(init, id);
      if op.Upsert? && UpsertId(Run(init), op.key) == id && (before.None? || before.value < op.at)
      then Some(op.at) else before
  }

  lemma {:induction false} SightingBound(ops: seq<Op>, id: nat)
    ensures id < |Run(ops)| <==> LatestSighting(ops, id).Some?
    ensures id < |Run(ops)| ==> Run(ops)[id].lastSeen <= LatestSighting(ops, id).value
  {
    if ops != [] { SightingBound(ops[..|ops| - 1], id); }
  }

  /** Every resolution the table would grant leaves out each sighting within the grace period. */
  ghost predicate GraceRespected(ops: seq<Op>, id: nat) {
    forall at, staleBefore, told ::
      Resolves(Run(ops), Resolve(id, at, staleBefore, told)) ==>
        LatestSighting(ops, id).Some? && LatestSighting(ops, id).value < staleBefore
  }

  /** The grace period covers the latest sighting exactly when the table recorded it. */
  lemma GraceIffRecorded(ops: seq<Op>, id: nat)
    requires OpenAt(Run(ops), id)
    ensures GraceRespected(ops, id) <==> LatestSighting(ops, id) == Some(Run(ops)[id].lastSeen)
  {
    SightingBound(ops, id);
    if GraceRespected(ops, id) {
      assert Resolves(Run(ops), Resolve(id, 0, Run(ops)[id].lastSeen + 1, false));
    }
  }

  /** A replica that stalled between reading its clock and its upsert takes the sighting back. */
  lemma StaleUpsertForgetsASighting()
    ensures var key := Key("s", "f");
            var ops := [Upsert(key, 100), Upsert(key, 10)];
            && Resolves(Run(ops), Resolve(0, 110, 50, false))
            && LatestSighting(ops, 0) == Some(100)
  {
    var key := Key("s", "f");
    var ops := [Upsert(key, 100), Upsert(key, 10)];
    assert ops[..1] == [Upsert(key, 100)];
    assert ops[..1][..0] == [];
    assert Run(ops[..1]) == [Record(key, 100, None, None)];
    assert OpenWithKey(Run(ops[..1]), 0, key);
    assert FindOpen(Run(ops[..1]), key) == Some(0);
    assert Run(ops) == [Record(key, 10, None, None)];
    assert UpsertId(Run([]), key) == 0;
    assert LatestSighting(ops[..1][..0], 0) == None;
    assert LatestSighting(ops[..1], 0) == Some(100);
  }

  /** The i-th call sights the record. */
  predicate Sights(ops: seq<Op>, i: nat, id: nat)
    requires i < |ops|
  {
    ops[i].Upsert? && UpsertId(Run(ops[..i]), ops[i].key) == id
  }

  /** The time of the last call that sighted the record. */
  function LastSighting(ops: seq<Op>, id: nat): Option<int> {
    if ops == [] then None
    else
      var init, op := ops[..|ops| - 1], ops[|ops| - 1];
      if op.Upsert? && UpsertId(Run(init), op.key) == id then Some(op.at) else LastSighting(init, id)
  }

  /** It is the one the table records. */
  lemma {:induction false} LastIsRecorded(ops: seq<Op>, id: nat)
    ensures LastSighting(ops, id) == if id < |Run(ops)| then Some(Run(ops)[id].lastSeen) else None
  {
    if ops != [] { LastIsRecorded(ops[..|ops| - 1], id); }
  }

  /** The grace period is kept exactly if the last call to sight the record brought the latest time. */
  lemma GraceIffLastIsLatest(ops: seq<Op>, id: nat)
    requires OpenAt(Run(ops), id)
    ensures GraceRespected(ops, id) <==> LatestSighting(ops, id) == LastSighting(ops, id)
  {
    LastIsRecorded(ops, id);
    GraceIffRecorded(ops, id);
  }

  /** The sightings of this record come in time order; those of others may come in any. */
  ghost predicate SightingsInOrder(ops: seq<Op>, id: nat) {
    forall i, j | 0 <= i <= j < |ops| && Sights(ops, i, id) && Sights(ops, j, id) :: ops[i].at <= ops[j].at
  }

  lemma SightsBefore(ops: seq<Op>, i: nat, id: nat)
    requires i < |ops| - 1
    ensures Sights(ops[..|ops| - 1], i, id) <==> Sights(ops, i, id)
  {
    assert ops[..|ops| - 1][..i] == ops[..i];
  }

  lemma {:induction false} LastIsSighting(ops: seq<Op>, id: nat) returns (i: nat)
    requires LastSighting(ops, id).Some?
    ensures i < |ops| && Sights(ops, i, id) && LastSighting(ops, id) == Some(ops[i].at)
  {
    var init, op := ops[..|ops| - 1], ops[|ops| - 1];
    if op.Upsert? && UpsertId(Run(init), op.key) == id {
      i := |ops| - 1;
    } else {
      i := LastIsSighting(init, id);
      SightsBefore(ops, i, id);
    }
  }

  lemma OrderedBefore(ops: seq<Op>, id: nat)
    requires ops != [] && SightingsInOrder(ops, id)
    ensures SightingsInOrder(ops[..|ops| - 1], id)
  {
    var init := ops[..|ops| - 1];
    forall i | 0 <= i < |init| ensures Sights(init, i, id) <==> Sights(ops, i, id) { SightsBefore(ops, i, id); }
    hide Sights;
  }

  lemma LaterThanLast(ops: seq<Op>, id: nat)
    requires ops != [] && SightingsInOrder(ops, id) && Sights(ops, |ops| - 1, id)
    ensures var before := LastSighting(ops[..|ops| - 1], id); before.Some? ==> before.value <= ops[|ops| - 1].at
  {
    if LastSighting(ops[..|ops| - 1], id).Some? {
      var i := LastIsSighting(ops[..|ops| - 1], id);
      SightsBefore(ops, i, id);
    }
  }

  lemma {:induction false} OrderedLastIsLatest(ops: seq<Op>, id: nat)
    requires SightingsInOrder(ops, id)
    ensures LatestSighting(ops, id) == LastSighting(ops, id)
  {
    if ops != [] {
      OrderedBefore(ops, id);
      OrderedLastIsLatest(ops[..|ops| - 1], id);
      if Sights(ops, |ops| - 1, id) { LaterThanLast(ops, id); }
      hide SightingsInOrder, Run, UpsertId;
    }
  }

  /** A record sighted in time order keeps the grace period exact. */
  lemma OrderedSightingsKeepGrace(ops: seq<Op>, id: nat)
    requires SightingsInOrder(ops, id) && OpenAt(Run(ops), id)
    ensures GraceRespected(ops, id)
  {
    OrderedLastIsLatest(ops, id);
    GraceIffLastIsLatest(ops, id);
  }
}
