/** The alert table as one replica meets it: each of its calls is atomic, other replicas may call in
    between, and a call may fail without effect. */
module AlertRepository {
  import opened Wrappers
  import opened AlertStore
  import opened AlertHistory

  /** A call in the table's history, and whether the replica we watch made it. */
  datatype Entry = Entry(mine: bool, op: Op)

  /** What happens at one of our calls: the calls of others that come first, and whether ours fails. */
  datatype Turn = Turn(others: seq<Op>, fails: bool)

  /** A copy of a stored alert, as `ListOpen` hands it out. */
  datatype Listed = Listed(id: nat, copy: Record)

  function OpsOf(log: seq<Entry>): (ops: seq<Op>)
    ensures |ops| == |log| && forall i | 0 <= i < |log| :: ops[i] == log[i].op
  {
    seq(|log|, i requires 0 <= i < |log| => log[i].op)
  }

  ghost predicate OthersOnly(before: seq<Entry>, after: seq<Entry>) {
    before <= after && forall i | |before| <= i < |after| :: !after[i].mine
  }

  ghost predicate AllMine(log: seq<Entry>, from: nat) {
    forall i | from <= i < |log| :: log[i].mine
  }

  /** No other replica calls while this script lasts. */
  predicate Undisturbed(script: seq<Turn>) {
    forall turn | turn in script :: turn.others == []
  }

  /** The notifications a call of ours entitles us to send. */
  function Sent(s: Store, op: Op): seq<Mark> {
    match op
    case Claim(_, _, _) => MarksOf(s, op)
    case Resolve(_, _, _, _) => if MarksOf(s, op) != [] && MarksOf(s, op)[0].kind.Resolved? then MarksOf(s, op) else []
    case _ => []
  }

  /** The notifications our own calls in this history entitle us to send, in call order. */
  function OwnEvents(log: seq<Entry>): seq<Mark> {
    if log == [] then []
    else
      var init, last := log[..|log| - 1], log[|log| - 1];
      OwnEvents(init) + if last.mine then Sent(Run(OpsOf(init)), last.op) else []
  }

  lemma LogSnoc(log: seq<Entry>, e: Entry)
    ensures Run(OpsOf(log + [e])) == Apply(Run(OpsOf(log)), e.op)
    ensures OwnEvents(log + [e]) == OwnEvents(log) + if e.mine then Sent(Run(OpsOf(log)), e.op) else []
  {
    assert (log + [e])[..|log|] == log;
    assert OpsOf(log + [e]) == OpsOf(log) + [e.op];
    RunSnoc(OpsOf(log), e.op);
  }

  lemma GrowsTransitive(s: Store, t: Store, u: Store)
    requires Grows(s, t) && Grows(t, u)
    ensures Grows(s, u)
  {
  }

  /** Others' calls, then this one of ours. */
  ghost predicate OneCall(before: seq<Entry>, after: seq<Entry>, op: Op) {
    |after| > |before| && OthersOnly(before, after[..|after| - 1]) && after[|after| - 1] == Entry(true, op)
  }

  lemma OneCallAfter(before: seq<Entry>, others: seq<Entry>, op: Op)
    requires OthersOnly(before, others)
    ensures OneCall(before, others + [Entry(true, op)], op)
  {
    assert (others + [Entry(true, op)])[..|others|] == others;
  }

  lemma NotOthersOnly(before: seq<Entry>, after: seq<Entry>, op: Op)
    requires OneCall(before, after, op)
    ensures !OthersOnly(before, after)
  {
  }

  class Repository {
    var records: Store
    var script: seq<Turn>
    ghost var log: seq<Entry>

    ghost predicate Valid()
      reads this
    {
      records == Run(OpsOf(log))
    }

    constructor (script: seq<Turn>)
      ensures Valid() && this.script == script && records == [] && log == []
    {
      this.script := script;
      records, log := [], [];
    }

    /** One atomic call, ours or another replica's, that did not fail. */
    method Commit(ghost mine: bool, op: Op)
      requires Valid()
      modifies this`records, this`log
      ensures Valid() && records == Apply(old(records), op) && Grows(old(records), records)
      ensures log == old(log) + [Entry(mine, op)]
      ensures OwnEvents(log) == OwnEvents(old(log)) + if mine then Sent(old(records), op) else []
    {
      LogSnoc(log, Entry(mine, op));
      ApplyGrows(records, op);
      records := Apply(records, op);
      log := log + [Entry(mine, op)];
    }

    /** The others' calls that come before ours, and whether ours will fail. */
    method Wait() returns (fails: bool)
      requires Valid()
      modifies this
      ensures Valid() && Grows(old(records), records)
      ensures OthersOnly(old(log), log) && OwnEvents(log) == OwnEvents(old(log))
      ensures Undisturbed(old(script)) ==> log == old(log) && records == old(records) && Undisturbed(script)
      ensures old(script) == [] ==> !fails && script == []
    {
      if script == [] { return false; }
      var turn := script[0];
      assert turn in script && forall later | later in script[1..] :: later in script;
      script := script[1..];
      for i := 0 to |turn.others|
        invariant Valid() && Grows(old(records), records)
        invariant OthersOnly(old(log), log) && OwnEvents(log) == OwnEvents(old(log))
        invariant i == 0 ==> log == old(log) && records == old(records)
        invariant script == old(script)[1..]
      {
        ghost var before := records;
        Commit(false, turn.others[i]);
        GrowsTransitive(old(records), before, records);
      }
      fails := turn.fails;
    }

    /** A call of our own, after the others' that come first; `was` is the store it acted on. */
    method Call(op: Op) returns (ok: bool, was: Store)
      requires Valid()
      modifies this
      ensures Valid() && Grows(old(records), was) && Grows(was, records)
      ensures OwnEvents(log) == OwnEvents(old(log)) + if ok then Sent(was, op) else []
      ensures if ok then OneCall(old(log), log, op) && records == Apply(was, op) else OthersOnly(old(log), log)
      ensures Undisturbed(old(script)) ==>
                was == old(records) && Undisturbed(script) && AllMine(log, |old(log)|)
                && (ok || records == was)
      ensures old(script) == [] ==> ok && script == []
    {
      hide Apply, Sent, Run, OwnEvents;
      var fails := Wait();
      was := records;
      ok := !fails;
      if ok {
        ghost var others := log;
        Commit(true, op);
        OneCallAfter(old(log), others, op);
      }
    }

    /** Records a sighting and returns the alert's ID. */
    method Upsert(key: Key, at: int) returns (id: Option<nat>)
      requires Valid()
      modifies this
      ensures Valid() && Grows(old(records), records)
      ensures OwnEvents(log) == OwnEvents(old(log))
      ensures id.None? ==> OthersOnly(old(log), log)
      ensures id.Some? ==> OneCall(old(log), log, Op.Upsert(key, at)) && OpenWithKey(records, id.value, key)
      ensures Undisturbed(old(script)) ==>
                && Undisturbed(script) && AllMine(log, |old(log)|)
                && records == if id.Some? then Apply(old(records), Op.Upsert(key, at)) else old(records)
      ensures old(script) == [] ==> script == [] && id == Some(UpsertId(old(records), key))
    {
      var ok, was := Call(Op.Upsert(key, at));
      GrowsTransitive(old(records), was, records);
      assert OwnEvents(old(log)) + [] == OwnEvents(old(log));
      id := if ok then Some(UpsertId(was, key)) else None;
    }

    /** Takes the turn to notify, if it is due; `first` says the alert was never notified before. */
    method ClaimNotification(id: nat, now: int, repeat: int) returns (claimed: bool, first: bool)
      requires Valid() && id < |records|
      modifies this
      ensures Valid() && Grows(old(records), records)
      ensures OwnEvents(log) == OwnEvents(old(log)) +
                if claimed then [Mark(if first then Fired else Repeated, id, records[id].key, now)] else []
      ensures OthersOnly(old(log), log) || OneCall(old(log), log, Claim(id, now, repeat))
      ensures claimed ==> !OthersOnly(old(log), log)
      ensures Undisturbed(old(script)) ==>
                && Undisturbed(script) && AllMine(log, |old(log)|)
                && records == if claimed then Apply(old(records), Claim(id, now, repeat)) else old(records)
      ensures old(script) == [] ==> script == [] && records == Apply(old(records), Claim(id, now, repeat))
      ensures old(script) == [] ==>
                var was := old(records[id]);
                && (claimed <==> was.resolvedAt.None? && (was.notifiedAt.None? || now - was.notifiedAt.value >= repeat))
                && (claimed ==> (first <==> was.notifiedAt.None?))
    {
      var op := Claim(id, now, repeat);
      var ok, was := Call(op);
      GrowsTransitive(old(records), was, records);
      claimed, first := ok && Claims(was, op), was[id].notifiedAt.None?;
      if claimed { NotOthersOnly(old(log), log, op); }
    }

    /** The open alerts of a stack; None when the call failed. */
    method ListOpen(stack: string) returns (open: Option<seq<Listed>>)
      requires Valid()
      modifies this
      ensures Valid() && Grows(old(records), records)
      ensures OthersOnly(old(log), log) && OwnEvents(log) == OwnEvents(old(log))
      ensures open.Some? ==> OpenListOf(records, stack, open.value)
      ensures Undisturbed(old(script)) ==> Undisturbed(script) && records == old(records) && log == old(log)
      ensures old(script) == [] ==> script == [] && open.Some?
    {
      var fails := Wait();
      open := None;
      if !fails {
        var found := FindOpenOf(records, stack);
        open := Some(found);
      }
    }

    /** Resolves an open alert unseen since `staleBefore`; true when this call did it. */
    method Resolve(id: nat, at: int, staleBefore: int, told: bool) returns (resolved: bool)
      requires Valid() && id < |records|
      requires told ==> records[id].notifiedAt.Some?
      modifies this
      ensures Valid() && Grows(old(records), records)
      ensures OwnEvents(log) == OwnEvents(old(log)) +
                if resolved && told then [Mark(Resolved, id, records[id].key, at)] else []
      ensures OthersOnly(old(log), log) || OneCall(old(log), log, Op.Resolve(id, at, staleBefore, told))
      ensures resolved ==> !OthersOnly(old(log), log)
      ensures Undisturbed(old(script)) ==>
                && Undisturbed(script) && AllMine(log, |old(log)|)
                && records == if resolved then Apply(old(records), Op.Resolve(id, at, staleBefore, told))
                  else old(records)
      ensures old(script) == [] ==>
                script == []
                && records == Apply(old(records), Op.Resolve(id, at, staleBefore, told))
                && (resolved <==> OpenAt(old(records), id) && old(records[id]).lastSeen < staleBefore)
    {
      var op := Op.Resolve(id, at, staleBefore, told);
      var ok, was := Call(op);
      GrowsTransitive(old(records), was, records);
      resolved := ok && Resolves(was, op);
      assert Sent(was, op) == if Resolves(was, op) && told then [Mark(Kind.Resolved, id, was[id].key, at)] else [];
      if resolved { NotOthersOnly(old(log), log, op); }
    }

    /** Closes, without a word, what stacks that are not kept left open and unseen. */
    method CloseForMissingStacks(keep: set<string>, at: int, seenBefore: int) returns (closed: bool)
      requires Valid()
      modifies this
      ensures Valid() && Grows(old(records), records)
      ensures OwnEvents(log) == OwnEvents(old(log))
      ensures !closed ==> OthersOnly(old(log), log)
      ensures closed ==> OneCall(old(log), log, CloseMissing(keep, at, seenBefore))
      ensures Undisturbed(old(script)) ==>
                && Undisturbed(script) && AllMine(log, |old(log)|)
                && records == if closed then Apply(old(records), CloseMissing(keep, at, seenBefore)) else old(records)
      ensures old(script) == [] ==> script == [] && closed
    {
      var was;
      closed, was := Call(CloseMissing(keep, at, seenBefore));
      GrowsTransitive(old(records), was, records);
      assert OwnEvents(old(log)) + [] == OwnEvents(old(log));
    }
  }

  /** The open alerts of a stack, in order of their IDs. */
  method FindOpenOf(s: Store, stack: string) returns (found: seq<Listed>)
    ensures OpenListOf(s, stack, found)
  {
    found := [];
    for id := 0 to |s|
      invariant forall k | 0 <= k < |found| ::
                  found[k].id < id && OpenAt(s, found[k].id)
                  && found[k].copy == s[found[k].id] && found[k].copy.key.stack == stack
      invariant forall j, k | 0 <= j < k < |found| :: found[j].id < found[k].id
      invariant forall i: nat | i < id && OpenAt(s, i) && s[i].key.stack == stack :: Listed(i, s[i]) in found
    {
      if OpenAt(s, id) && s[id].key.stack == stack {
        found := found + [Listed(id, s[id])];
      }
    }
  }

  ghost predicate OpenListOf(s: Store, stack: string, open: seq<Listed>) {
    && (forall k | 0 <= k < |open| ::
          OpenAt(s, open[k].id) && open[k].copy == s[open[k].id] && open[k].copy.key.stack == stack)
    && (forall j, k | 0 <= j < k < |open| :: open[j].id < open[k].id)
    && (forall id: nat | OpenAt(s, id) && s[id].key.stack == stack :: Listed(id, s[id]) in open)
  }
}
