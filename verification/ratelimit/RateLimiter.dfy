/** The limiter itself: per-key buffers compacted in place, and their cleanup
    (`internal/shared/middleware/rate_limiter.go`). Each request and each cleanup of a key is one step, and time does
    not run backwards between steps. */
module RateLimiter {
  import opened SlidingWindow

  lemma LiveNext(stamps: seq<int>, cutoff: int, i: nat)
    requires i < |stamps|
    ensures Live(stamps[..i + 1], cutoff) ==
            if stamps[i] > cutoff then Live(stamps[..i], cutoff) + [stamps[i]] else Live(stamps[..i], cutoff)
  {
    assert stamps[..i + 1] == stamps[..i] + [stamps[i]];
    LiveSnoc(stamps[..i], cutoff, stamps[i]);
  }

  class Entry {
    var buffer: array<int>
    var count: nat
    var expiresAt: int
    ghost var stamps: seq<int>
    ghost const key: string

    ghost predicate Valid()
      reads this, buffer
    {
      count <= buffer.Length && buffer[..count] == stamps
    }

    /** These stamps, for this key. */
    ghost predicate Holds(key: string, stamps: seq<int>)
      reads this, buffer
    {
      Valid() && this.key == key && this.stamps == stamps
    }

    constructor (ghost key: string)
      ensures Valid() && fresh(buffer) && stamps == [] && this.key == key
    {
      buffer, count, expiresAt, stamps := new int[0], 0, 0, [];
      this.key := key;
    }

    /** Moves the stamps after the cutoff to the front. */
    method Compact(cutoff: int)
      requires Valid()
      modifies `count, `stamps, buffer
      ensures Valid() && stamps == Live(old(stamps), cutoff)
    {
      var kept := 0;
      for i := 0 to count
        invariant count == old(count) && stamps == old(stamps) && kept <= i
        invariant forall j | i <= j < count :: buffer[j] == stamps[j]
        invariant buffer[..kept] == Live(stamps[..i], cutoff)
      {
        ghost var live := buffer[..kept];
        LiveNext(stamps, cutoff, i);
        if buffer[i] > cutoff {
          buffer[kept] := buffer[i];
          kept := kept + 1;
          assert buffer[..kept] == live + [stamps[i]];
        }
      }
      assert stamps[..count] == stamps;
      count, stamps := kept, buffer[..kept];
    }

    /** Appends a stamp; a full buffer is moved to a larger one. */
    method Push(now: int)
      requires Valid()
      modifies this, buffer
      ensures Valid() && (buffer == old(buffer) || fresh(buffer)) && stamps == old(stamps) + [now]
      ensures expiresAt == old(expiresAt)
    {
      if count == buffer.Length {
        var larger := new int[2 * count + 1](i => 0);
        for i := 0 to count
          invariant Valid() && buffer == old(buffer) && count == old(count) && stamps == old(stamps)
                    && expiresAt == old(expiresAt)
          invariant larger[..i] == stamps[..i]
        {
          larger[i] := buffer[i];
        }
        buffer := larger;
      }
      buffer[count] := now;
      count, stamps := count + 1, stamps + [now];
    }

    /** Drops what has expired, then decides. */
    method Admit(limit: int, now: int, window: int) returns (d: Decision)
      requires Valid() && limit > 0 && window > 0
      modifies this, buffer
      ensures Valid() && (buffer == old(buffer) || fresh(buffer)) && d == Decide(old(stamps), limit, now, window)
      ensures stamps == After(old(stamps), limit, now, window)
    {
      FirstLive(stamps, now - window);
      Compact(now - window);
      if count >= limit {
        assert buffer[0] == stamps[0];
        var resetAt := buffer[0] + window;
        d := Decision(false, 0, resetAt, RetryAfter(resetAt - now));
        expiresAt := resetAt;
      } else {
        Push(now);
        assert buffer[0] == stamps[0];
        var resetAt := buffer[0] + window;
        d := Decision(true, limit - count, resetAt, 0);
        expiresAt := resetAt;
      }
    }
  }

  /** A buffer and the whole history agree on what is live now, and so from now on. */
  ghost predicate Agree(stamps: seq<int>, accepted: seq<int>, cutoff: int) {
    Live(stamps, cutoff) == Live(accepted, cutoff)
  }

  lemma AgreeLater(stamps: seq<int>, accepted: seq<int>, early: int, late: int)
    requires Agree(stamps, accepted, early) && early <= late
    ensures Agree(stamps, accepted, late)
  {
    LiveLive(stamps, early, late);
    LiveLive(accepted, early, late);
  }

  lemma AgreeSnoc(stamps: seq<int>, accepted: seq<int>, cutoff: int, t: int)
    requires Agree(stamps, accepted, cutoff)
    ensures Agree(stamps + [t], accepted + [t], cutoff)
  {
    LiveSnoc(stamps, cutoff, t);
    LiveSnoc(accepted, cutoff, t);
  }

  function HeldOf(held: map<string, seq<int>>, key: string): seq<int> {
    if key in held then held[key] else []
  }

  /** What is held of every key agrees with all of its history. */
  ghost predicate Refines(held: map<string, seq<int>>, ops: seq<Op>, window: int, clock: int) {
    && window > 0 && Positive(ops) && Ordered(ops) && RequestsBy(ops, |ops|, clock)
    && forall key :: KeyAgrees(held, ops, window, clock, key)
  }

  ghost predicate KeyAgrees(held: map<string, seq<int>>, ops: seq<Op>, window: int, clock: int, key: string)
    requires window > 0 && Positive(ops)
  {
    Agree(HeldOf(held, key), Accepted(ops, key, window), clock - window)
  }

  lemma OpsSnoc(ops: seq<Op>, op: Op, clock: int, later: int)
    requires Positive(ops) && Ordered(ops) && RequestsBy(ops, |ops|, clock) && clock <= later
    requires op.Request? ==> op.limit > 0 && op.at == later
    ensures Positive(ops + [op]) && Ordered(ops + [op]) && RequestsBy(ops + [op], |ops + [op]|, later)
  {
  }

  /** What is held of one key after a decision on it. */
  function After(stamps: seq<int>, limit: int, now: int, window: int): seq<int>
    requires limit > 0 && window > 0
  {
    Live(stamps, now - window) + if Decide(stamps, limit, now, window).allowed then [now] else []
  }

  lemma DecideAgrees(stamps: seq<int>, accepted: seq<int>, limit: int, now: int, window: int)
    requires limit > 0 && window > 0 && Agree(stamps, accepted, now - window)
    ensures Decide(stamps, limit, now, window) == Decide(accepted, limit, now, window)
  {
  }

  lemma KeptAgrees(stamps: seq<int>, accepted: seq<int>, cutoff: int, now: int, allowed: bool)
    requires Agree(stamps, accepted, cutoff)
    ensures Agree(Live(stamps, cutoff) + if allowed then [now] else [], accepted +
                  if allowed then [now] else [], cutoff)
  {
    var left := Live(stamps, cutoff);
    LiveLive(stamps, cutoff, cutoff);
    if allowed {
      AgreeSnoc(left, accepted, cutoff, now);
    } else {
      assert left + [] == left && accepted + [] == accepted;
    }
  }

  lemma StepAgrees(stamps: seq<int>, before: seq<int>, after: seq<int>, limit: int, early: int, now: int, window: int)
    requires limit > 0 && window > 0 && Agree(stamps, before, early) && early <= now - window
    requires after == before + if Decide(before, limit, now, window).allowed then [now] else []
    ensures Decide(stamps, limit, now, window) == Decide(before, limit, now, window)
    ensures Agree(After(stamps, limit, now, window), after, now - window)
  {
    AgreeLater(stamps, before, early, now - window);
    DecideAgrees(stamps, before, limit, now, window);
    KeptAgrees(stamps, before, now - window, now, Decide(stamps, limit, now, window).allowed);
  }

  /** Histories after a request of one key: its own may grow, the others stay. */
  lemma HistoryStep(ops: seq<Op>, window: int, key: string, limit: int, now: int, k: string)
    requires Positive(ops) && Positive(ops + [Request(key, limit, now)]) && limit > 0 && window > 0
    ensures Accepted(ops + [Request(key, limit, now)], k, window) ==
            Accepted(ops, k, window) +
              if k == key && Decide(Accepted(ops, key, window), limit, now, window).allowed then [now] else []
  {
    AcceptedSnoc(ops, Request(key, limit, now), k, window);
    assert Accepted(ops, k, window) + [] == Accepted(ops, k, window);
  }

  lemma RefinesAt(held: map<string, seq<int>>, ops: seq<Op>, window: int, clock: int, k: string)
    requires Refines(held, ops, window, clock)
    ensures Agree(HeldOf(held, k), Accepted(ops, k, window), clock - window)
  {
    assert KeyAgrees(held, ops, window, clock, k);
  }

  /** A step about another key, or a cleanup, leaves the history of a key as it is. */
  lemma OtherKeeps(held: map<string, seq<int>>, ops: seq<Op>, window: int, clock: int, op: Op, later: int, k: string)
    requires Refines(held, ops, window, clock) && clock <= later && Positive(ops + [op])
    requires op.Request? ==> op.limit > 0 && op.key != k
    ensures Agree(HeldOf(held, k), Accepted(ops + [op], k, window), later - window)
  {
    RefinesAt(held, ops, window, clock, k);
    AcceptedSnoc(ops, op, k, window);
    AgreeLater(HeldOf(held, k), Accepted(ops, k, window), clock - window, later - window);
    hide Agree, Accepted, Decide, HeldOf;
  }

  lemma OwnKeeps(held: map<string, seq<int>>, ops: seq<Op>, window: int, clock: int, key: string, limit: int, now: int)
    requires Refines(held, ops, window, clock) && limit > 0 && clock <= now
             && Positive(ops + [Request(key, limit, now)])
    ensures Decide(HeldOf(held, key), limit, now, window) == Decide(Accepted(ops, key, window), limit, now, window)
    ensures var all := ops + [Request(key, limit, now)];
            Agree(After(HeldOf(held, key), limit, now, window), Accepted(all, key, window), now - window)
  {
    var all := ops + [Request(key, limit, now)];
    RefinesAt(held, ops, window, clock, key);
    HistoryStep(ops, window, key, limit, now, key);
    StepAgrees(HeldOf(held, key), Accepted(ops, key, window), Accepted(all, key, window), limit, clock - window, now,
               window);
  }

  /** Dropping by a cutoff of the past, or of now, loses nothing that is still live. */
  lemma DroppedKeeps(held: map<string, seq<int>>, ops: seq<Op>, window: int, clock: int, key: string, tick: int,
                     later: int)
    requires Refines(held, ops, window, clock) && clock <= later && tick <= later && Positive(ops + [Sweep(key, tick)])
    ensures Agree(Live(HeldOf(held, key), tick - window), Accepted(ops + [Sweep(key, tick)], key, window),
                  later - window)
  {
    OtherKeeps(held, ops, window, clock, Sweep(key, tick), later, key);
    LiveLive(HeldOf(held, key), tick - window, later - window);
  }

  /** If the key of a step agrees afterwards, all do: the others are as before. */
  lemma StepRefines(held: map<string, seq<int>>, ops: seq<Op>, window: int, clock: int, op: Op, later: int,
                    next: map<string, seq<int>>)
    requires Refines(held, ops, window, clock) && clock <= later && Positive(ops + [op])
    requires op.Request? ==> op.limit > 0 && op.at == later
    requires forall k | k != op.key :: HeldOf(next, k) == HeldOf(held, k)
    requires Agree(HeldOf(next, op.key), Accepted(ops + [op], op.key, window), later - window)
    ensures Refines(next, ops + [op], window, later)
  {
    OpsSnoc(ops, op, clock, later);
    forall k ensures KeyAgrees(next, ops + [op], window, later, k) {
      if k != op.key { OtherKeeps(held, ops, window, clock, op, later, k); }
    }
  }

  lemma KeptRefines(held: map<string, seq<int>>, ops: seq<Op>, window: int, clock: int, op: Op, kept: seq<int>)
    requires Refines(held, ops, window, clock) && op.Request? && clock <= op.at && op.limit > 0 && Positive(ops + [op])
    requires Agree(kept, Accepted(ops + [op], op.key, window), op.at - window)
    ensures Refines(held[op.key := kept], ops + [op], window, op.at)
  {
    var next := held[op.key := kept];
    assert HeldOf(next, op.key) == kept;
    StepRefines(held, ops, window, clock, op, op.at, next);
  }

  /** A request, decided on what is held, is decided as the history would have it, and keeps the agreement. */
  lemma RequestRefines(held: map<string, seq<int>>, ops: seq<Op>, window: int, clock: int, key: string, limit: int,
                       now: int)
    requires Refines(held, ops, window, clock) && limit > 0 && clock <= now
    ensures Decide(HeldOf(held, key), limit, now, window) == Decide(Accepted(ops, key, window), limit, now, window)
    ensures Refines(held[key := After(HeldOf(held, key), limit, now, window)], ops + [Request(key, limit, now)],
                    window, now)
  {
    OpsSnoc(ops, Request(key, limit, now), clock, now);
    OwnKeeps(held, ops, window, clock, key, limit, now);
    KeptRefines(held, ops, window, clock, Request(key, limit, now), After(HeldOf(held, key), limit, now, window));
  }

  /** What has expired of a key was dropped, and perhaps the key with it if nothing was left. */
  ghost predicate Swept(held: map<string, seq<int>>, key: string, cutoff: int, next: map<string, seq<int>>)
    requires key in held
  {
    var live := Live(held[key], cutoff);
    next == held[key := live] || (live == [] && next == held[key := live] - {key})
  }

  /** The time of the latest step: a pass that began earlier does not turn it back. */
  function Later(clock: int, tick: int): int {
    if clock < tick then tick else clock
  }

  /** So do dropping what has expired, and forgetting a key of which nothing is left, even by a pass that began before
      requests served meanwhile. */
  lemma SweepRefines(held: map<string, seq<int>>, ops: seq<Op>, window: int, clock: int, key: string, tick: int,
                     next: map<string, seq<int>>)
    requires Refines(held, ops, window, clock) && key in held && Swept(held, key, tick - window, next)
    ensures Refines(next, ops + [Sweep(key, tick)], window, Later(clock, tick))
  {
    var later := Later(clock, tick);
    OpsSnoc(ops, Sweep(key, tick), clock, later);
    DroppedKeeps(held, ops, window, clock, key, tick, later);
    assert HeldOf(next, key) == Live(HeldOf(held, key), tick - window);
    StepRefines(held, ops, window, clock, Sweep(key, tick), later, next);
  }

  lemma Overwritten(m: map<string, seq<int>>, k: string, a: seq<int>, b: seq<int>)
    ensures m[k := a][k := b] == m[k := b]
  {
  }

  /** What a limiter's entries hold, whose buffers they use, and the run so far. */
  datatype Book = Book(held: map<string, seq<int>>, owner: map<array<int>, string>, ops: seq<Op>, clock: int)

  /** Each entry holds what is said to be held of its key, in a buffer of its own. */
  ghost predicate Tracks(entries: map<string, Entry>, held: map<string, seq<int>>, owner: map<array<int>, string>,
                         repr: set<object>)
    reads repr
  {
    && entries.Keys == held.Keys
    && forall k | k in entries :: var e := entries[k];
         e in repr && e.buffer in repr && e.Holds(k, held[k]) && e.buffer in owner && owner[e.buffer] == k
  }

  /** The entries of all keys but one do. */
  ghost predicate TracksBut(entries: map<string, Entry>, held: map<string, seq<int>>, owner: map<array<int>, string>,
                            repr: set<object>,
                            key: string)
    reads repr
  {
    && entries.Keys == held.Keys + {key}
    && forall k | k in entries && k != key :: var e := entries[k];
         e in repr && e.buffer in repr && e.Holds(k, held[k]) && e.buffer in owner && owner[e.buffer] == k
  }

  /** Entries of different keys share nothing. */
  lemma Apart(entries: map<string, Entry>, held: map<string, seq<int>>, owner: map<array<int>, string>,
              repr: set<object>, key: string)
    requires Tracks(entries, held, owner, repr) && key in entries
    ensures var e := entries[key]; e in repr && e.buffer in repr && e.Holds(key, held[key])
    ensures TracksBut(entries, held, owner, repr, key) && entries[key].buffer in owner
            && owner[entries[key].buffer] == key
    ensures forall k | k in entries && k != key ::
              entries[k] != entries[key]
              && entries[k].buffer != entries[key].buffer
  {
  }

  /** One entry holds something new, in its own buffer or a new one. */
  lemma Reentered(entries: map<string, Entry>, held: map<string, seq<int>>, owner: map<array<int>, string>,
                  repr: set<object>,
                  key: string, stamps: seq<int>)
    requires TracksBut(entries, held, owner, repr, key) && key in entries && entries[key] in repr
             && entries[key].Holds(key, stamps)
    requires entries[key].buffer in owner ==> owner[entries[key].buffer] == key
    ensures var b := entries[key].buffer; Tracks(entries, held[key := stamps], owner[b := key], repr + {b})
  {
  }

  class Limiter {
    const window: int
    var entries: map<string, Entry>
    ghost var book: Book
    ghost var Repr: set<object>

    ghost predicate Tracked()
      reads this, Repr
    {
      this !in Repr && Tracks(entries, book.held, book.owner, Repr)
    }

    ghost predicate Valid()
      reads this, Repr
    {
      Tracked() && Refines(book.held, book.ops, window, book.clock)
    }

    constructor (window: int)
      requires window > 0
      ensures Valid() && fresh(Repr) && this.window == window && book.ops == []
    {
      this.window, entries := window, map[];
      book, Repr := Book(map[], map[], [], 0), {};
    }

    /** Writes down what one entry now holds, the others being as they were. */
    ghost method Note(key: string, stamps: seq<int>)
      requires this !in Repr && TracksBut(entries, book.held, book.owner, Repr, key)
      requires key in entries && entries[key] in Repr && entries[key].Holds(key, stamps)
      requires entries[key].buffer in book.owner ==> book.owner[entries[key].buffer] == key
      modifies this`book, this`Repr
      ensures Tracked() && Repr == old(Repr) + {entries[key].buffer}
      ensures book == old(book).(held := old(book).held[key := stamps],
                                 owner := old(book).owner[entries[key].buffer := key])
    {
      Reentered(entries, book.held, book.owner, Repr, key, stamps);
      hide Tracks, TracksBut;
      book := book.(held := book.held[key := stamps], owner := book.owner[entries[key].buffer := key]);
      Repr := Repr + {entries[key].buffer};
    }

    method Create(key: string) returns (entry: Entry)
      requires Tracked() && key !in entries
      modifies this
      ensures Tracked() && fresh(Repr - old(Repr)) && entries == old(entries)[key := entry]
      ensures book == old(book).(held := old(book).held[key := []], owner := book.owner)
    {
      entry := new Entry(key);
      entries := entries[key := entry];
      Repr := Repr + {entry};
      Note(key, []);
    }

    /** The entry of a key, new if there is none. */
    method Enter(key: string) returns (entry: Entry)
      requires Tracked()
      modifies this
      ensures Tracked() && fresh(Repr - old(Repr))
      ensures key in entries && entry == entries[key]
      ensures book == old(book).(held := old(book).held[key := HeldOf(old(book).held, key)], owner := book.owner)
    {
      if key in entries { entry := entries[key]; } else { entry := Create(key); }
    }

    /** Decides on what is held of the key. */
    method Serve(key: string, limit: int, now: int) returns (d: Decision)
      requires Tracked() && limit > 0 && window > 0
      modifies this, Repr
      ensures Tracked() && fresh(Repr - old(Repr)) && book.ops == old(book).ops && book.clock == old(book).clock
      ensures d == Decide(HeldOf(old(book).held, key), limit, now, window)
      ensures book.held == old(book).held[key := After(HeldOf(old(book).held, key), limit, now, window)]
    {
      ghost var before := book.held;
      var entry := Enter(key);
      d := ServeEntry(key, entry, limit, now);
      Overwritten(before, key, HeldOf(before, key), book.held[key]);
    }

    method ServeEntry(key: string, entry: Entry, limit: int, now: int) returns (d: Decision)
      requires Tracked() && limit > 0 && window > 0 && key in entries && entry == entries[key]
      modifies this, entry, entry.buffer
      ensures Tracked() && fresh(Repr - old(Repr))
      ensures d == Decide(old(book).held[key], limit, now, window)
      ensures book == old(book).(held := old(book).held[key := After(old(book).held[key], limit, now, window)],
                                 owner := book.owner)
    {
      ghost var left := After(book.held[key], limit, now, window);
      Apart(entries, book.held, book.owner, Repr, key);
      hide Tracks, Refines, After, Decide, Live;
      d := entry.Admit(limit, now, window);
      Note(key, left);
    }

    /** Decides one request. The decision is the one the whole history calls for, whatever was forgotten of it. */
    method Allow(key: string, limit: int, now: int) returns (d: Decision)
      requires Valid() && limit > 0 && book.clock <= now
      modifies this, Repr
      ensures Valid() && fresh(Repr - old(Repr)) && book.clock == now
              && book.ops == old(book).ops + [Request(key, limit, now)]
      ensures d == Decide(Accepted(old(book).ops, key, window), limit, now, window)
    {
      ghost var before := book.held;
      assert window > 0;
      hide Tracks, Refines;
      d := Serve(key, limit, now);
      RequestRefines(before, book.ops, window, book.clock, key, limit, now);
      book := book.(ops := book.ops + [Request(key, limit, now)], clock := now);
    }

    /** Drops what has expired of one key. */
    method Drop(key: string, now: int) returns (idle: bool)
      requires Tracked() && key in entries
      modifies this, Repr
      ensures Tracked() && Repr == old(Repr) && entries == old(entries)
      ensures book == old(book).(held := old(book).held[key := Live(old(book).held[key], now - window)],
                                 owner := book.owner)
      ensures idle ==> book.held[key] == []
    {
      var entry := entries[key];
      ghost var live := Live(book.held[key], now - window);
      Apart(entries, book.held, book.owner, Repr, key);
      hide Tracks, Refines, Live;
      entry.Compact(now - window);
      Note(key, live);
      idle := entry.count == 0 && entry.expiresAt <= now;
    }

    /** Forgets a key. */
    method Delete(key: string)
      requires Tracked() && key in entries
      modifies this
      ensures Tracked() && Repr == old(Repr) && book == old(book).(held := old(book).held - {key})
    {
      entries := entries - {key};
      book := book.(held := book.held - {key});
    }

    method Sweep(key: string, now: int)
      requires Tracked() && key in entries
      modifies this, Repr
      ensures Tracked() && Repr == old(Repr) && book == old(book).(held := book.held, owner := book.owner)
      ensures Swept(old(book).held, key, now - window, book.held)
    {
      var idle := Drop(key, now);
      if idle { Delete(key); }
    }

    /** Cleans up one key in a pass that began at `tick`, however many requests were served since; no decision to come
        is any different for it. */
    method Clean(key: string, tick: int)
      requires Valid() && key in entries
      modifies this, Repr
      ensures Valid() && Repr == old(Repr)
      ensures book.clock == Later(old(book).clock, tick) && book.ops == old(book).ops + [Op.Sweep(key, tick)]
    {
      ghost var before := book.held;
      assert key in book.held;
      hide Tracks, Live, Refines, Swept;
      Sweep(key, tick);
      SweepRefines(before, book.ops, window, book.clock, key, tick, book.held);
      book := book.(ops := book.ops + [Op.Sweep(key, tick)], clock := Later(book.clock, tick));
    }
  }
}
