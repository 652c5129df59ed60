/** The stack alert repository contract (`internal/observability/port/stack_alerts.go`): what one
    atomic repository call does to the stored alerts, and which notification it entitles the caller to. */
module AlertStore {
  import opened Wrappers

  /** An alert is identified by its stack and its Alertmanager fingerprint. */
  datatype Key = Key(stack: string, fingerprint: string)

  datatype Record = Record(key: Key, lastSeen: int, notifiedAt: Option<int>, resolvedAt: Option<int>)

  /** A record's ID is its position: IDs are handed out in order and never reused. */
  type Store = seq<Record>

  /** One repository call. `told` says whether the caller's copy of the alert carried a notification time. */
  datatype Op =
    | Upsert(key: Key, at: int)
    | Claim(id: nat, now: int, repeat: int)
    | Resolve(id: nat, at: int, staleBefore: int, told: bool)
    | CloseMissing(keep: set<string>, at: int, seenBefore: int)

  datatype Kind = Fired | Repeated | Resolved | Silenced

  /** What a call means for the outside: a notification, or (Silenced) a record closed without one. */
  datatype Mark = Mark(kind: Kind, id: nat, key: Key, at: int)

  predicate OpenAt(s: Store, id: nat) {
    id < |s| && s[id].resolvedAt.None?
  }

  predicate OpenWithKey(s: Store, id: nat, key: Key) {
    OpenAt(s, id) && s[id].key == key
  }

  /** The open record of a key, if there is one. */
  function FindOpen(s: Store, key: Key): (r: Option<nat>)
    ensures r.Some? ==> OpenWithKey(s, r.value, key)
    ensures r.None? ==> forall id :: !OpenWithKey(s, id, key)
  {
    if s == [] then None
    else if OpenWithKey(s, |s| - 1, key) then Some(|s| - 1)
    else
      var r := FindOpen(s[..|s| - 1], key);
      assert forall id: nat | id < |s| - 1 :: s[..|s| - 1][id] == s[id];
      assert r.None? ==> forall id :: OpenWithKey(s, id, key) ==> OpenWithKey(s[..|s| - 1], id, key);
      r
  }

  /** The record an upsert writes: the open one of the key, or a new one. */
  function UpsertId(s: Store, key: Key): nat {
    match FindOpen(s, key)
    case Some(id) => id
    case None => |s|
  }

  /** It is this alert's turn to be notified: never notified, or `repeat` has passed since. */
  predicate Due(r: Record, now: int, repeat: int) {
    r.notifiedAt.None? || r.notifiedAt.value <= now - repeat
  }

  predicate Claims(s: Store, op: Op)
    requires op.Claim?
  {
    OpenAt(s, op.id) && Due(s[op.id], op.now, op.repeat)
  }

  predicate Resolves(s: Store, op: Op)
    requires op.Resolve?
  {
    OpenAt(s, op.id) && s[op.id].lastSeen < op.staleBefore
  }

  /** The records `CloseForMissingStacks` closes: open, of a stack not kept, unseen since `seenBefore`. */
  predicate Closes(s: Store, op: Op, id: nat)
    requires op.CloseMissing?
  {
    OpenAt(s, id) && s[id].key.stack !in op.keep && s[id].lastSeen < op.seenBefore
  }

  function CloseUpTo(s: Store, op: Op, n: nat): (t: Store)
    requires op.CloseMissing? && n <= |s|
    ensures |t| == |s|
    ensures forall id: nat | id < |s| ::
              t[id] ==
                if id < n && Closes(s, op, id) then s[id].(resolvedAt := Some(op.at)) else s[id]
  {
    if n == 0 then s
    else
      var t := CloseUpTo(s, op, n - 1);
      if Closes(s, op, n - 1) then t[n - 1 := s[n - 1].(resolvedAt := Some(op.at))] else t
  }

  function SilencedUpTo(s: Store, op: Op, n: nat): seq<Mark>
    requires op.CloseMissing? && n <= |s|
  {
    if n == 0 then []
    else SilencedUpTo(s, op, n - 1) +
         if Closes(s, op, n - 1) then [Mark(Silenced, n - 1, s[n - 1].key, op.at)] else []
  }

  /** The store after one atomic call. */
  function Apply(s: Store, op: Op): Store {
    match op
    case Upsert(key, at) =>
      (match FindOpen(s, key)
       case Some(id) => s[id := s[id].(lastSeen := at)]
       case None => s + [Record(key, at, None, None)])
    case Claim(id, now, _) =>
      if Claims(s, op) then s[id := s[id].(notifiedAt := Some(now))] else s
    case Resolve(id, at, _, _) =>
      if Resolves(s, op) then s[id := s[id].(resolvedAt := Some(at))] else s
    case CloseMissing(_, _, _) => CloseUpTo(s, op, |s|)
  }

  /** What one atomic call entitles its caller to send, or closes without a word. */
  function MarksOf(s: Store, op: Op): seq<Mark> {
    match op
    case Upsert(_, _) => []
    case Claim(id, now, _) =>
      if !Claims(s, op) then []
      else [Mark(if s[id].notifiedAt.None? then Fired else Repeated, id, s[id].key, now)]
    case Resolve(id, at, _, told) =>
      if !Resolves(s, op) then []
      else [Mark(if told && s[id].notifiedAt.Some? then Resolved else Silenced, id, s[id].key, at)]
    case CloseMissing(_, _, _) => SilencedUpTo(s, op, |s|)
  }

  /** The store after a history of calls, from the empty table. */
  function Run(ops: seq<Op>): Store {
    if ops == [] then [] else Apply(Run(ops[..|ops| - 1]), ops[|ops| - 1])
  }

  function Marks(ops: seq<Op>): seq<Mark> {
    if ops == [] then []
    else Marks(ops[..|ops| - 1]) + MarksOf(Run(ops[..|ops| - 1]), ops[|ops| - 1])
  }

  lemma RunSnoc(ops: seq<Op>, op: Op)
    ensures Run(ops + [op]) == Apply(Run(ops), op)
    ensures Marks(ops + [op]) == Marks(ops) + MarksOf(Run(ops), op)
  {
    assert (ops + [op])[..|ops|] == ops;
  }

  /** What no call ever undoes: records stay, keep their key, and stay notified or resolved. */
  ghost predicate Grows(s: Store, t: Store) {
    && |s| <= |t|
    && forall id: nat | id < |s| ::
         && t[id].key == s[id].key
         && (s[id].notifiedAt.Some? ==> t[id].notifiedAt.Some?)
         && (s[id].resolvedAt.Some? ==> t[id].resolvedAt == s[id].resolvedAt && t[id].notifiedAt == s[id].notifiedAt)
  }

  lemma ApplyGrows(s: Store, op: Op)
    ensures Grows(s, Apply(s, op))
  {
  }
}
