/** What the limiter promises, in terms of the whole history of accepted requests
    (`internal/shared/middleware/rate_limiter.go`). Times are nanoseconds. */
module SlidingWindow {
  const SECOND := 1_000_000_000

  /** The stamps after the cutoff, in order. */
  function Live(stamps: seq<int>, cutoff: int): (r: seq<int>)
    ensures |r| <= |stamps|
  {
    if stamps == [] then []
    else
      var last := stamps[|stamps| - 1];
      Live(stamps[..|stamps| - 1], cutoff) + if last > cutoff then [last] else []
  }

  lemma {:induction false} LiveIn(stamps: seq<int>, cutoff: int, t: int)
    ensures t in Live(stamps, cutoff) <==> t in stamps && t > cutoff
  {
    if stamps != [] {
      LiveIn(stamps[..|stamps| - 1], cutoff, t);
      assert stamps == stamps[..|stamps| - 1] + [stamps[|stamps| - 1]];
    }
  }

  lemma LiveSnoc(stamps: seq<int>, cutoff: int, t: int)
    ensures Live(stamps + [t], cutoff) == Live(stamps, cutoff) + if t > cutoff then [t] else []
  {
    assert (stamps + [t])[..|stamps|] == stamps;
  }

  /** Dropping twice is dropping once, at the later cutoff. */
  lemma {:induction false} LiveLive(stamps: seq<int>, early: int, late: int)
    requires early <= late
    ensures Live(Live(stamps, early), late) == Live(stamps, late)
  {
    if stamps != [] {
      var init, last := stamps[..|stamps| - 1], stamps[|stamps| - 1];
      LiveLive(init, early, late);
      if last > early {
        LiveSnoc(Live(init, early), late, last);
      } else {
        assert Live(stamps, early) == Live(init, early) && Live(stamps, late) == Live(init, late);
      }
    }
  }

  datatype Decision = Decision(allowed: bool, remaining: int, resetAt: int, retryAfter: int)

  /** Whole seconds, at least one. */
  function RetryAfter(wait: int): int
    requires wait > 0
  {
    if wait / SECOND < 1 then 1 else wait / SECOND
  }

  /** The decision, from every request ever accepted. */
  function Decide(accepted: seq<int>, limit: int, now: int, window: int): Decision
    requires limit > 0 && window > 0
  {
    var live := Live(accepted, now - window);
    if |live| >= limit then
      FirstLive(accepted, now - window);
      Decision(false, 0, live[0] + window, RetryAfter(live[0] + window - now))
    else
      Decision(true, limit - |live| - 1, (live + [now])[0] + window, 0)
  }

  lemma FirstLive(stamps: seq<int>, cutoff: int)
    ensures Live(stamps, cutoff) != [] ==> Live(stamps, cutoff)[0] > cutoff
  {
    if Live(stamps, cutoff) != [] { LiveIn(stamps, cutoff, Live(stamps, cutoff)[0]); }
  }

  // ---- runs ------------------------------------------------------------------------------------------------

  /** A request, or the cleanup of one key. */
  datatype Op = Request(key: string, limit: int, at: int) | Sweep(key: string, at: int)

  ghost predicate Positive(ops: seq<Op>) {
    forall i | 0 <= i < |ops| && ops[i].Request? :: ops[i].limit > 0
  }

  /** Requests come in order of their times. A cleanup carries the time its pass began, and may be overtaken. */
  ghost predicate Ordered(ops: seq<Op>) {
    forall i, j | 0 <= i < j < |ops| && ops[i].Request? && ops[j].Request? :: ops[i].at <= ops[j].at
  }

  /** The first n steps hold no request after `now`. */
  ghost predicate RequestsBy(ops: seq<Op>, n: nat, now: int)
    requires n <= |ops|
  {
    forall i | 0 <= i < n && ops[i].Request? :: ops[i].at <= now
  }

  /** When requests of a key were accepted among the first n steps, had nothing ever been forgotten. */
  ghost function AcceptedBy(ops: seq<Op>, key: string, window: int, n: nat): seq<int>
    requires Positive(ops) && window > 0 && n <= |ops|
  {
    if n == 0 then []
    else
      var before, op := AcceptedBy(ops, key, window, n - 1), ops[n - 1];
      if op.Request? && op.key == key && Decide(before, op.limit, op.at, window).allowed then before + [op.at]
        else before
  }

  ghost function Accepted(ops: seq<Op>, key: string, window: int): seq<int>
    requires Positive(ops) && window > 0
  {
    AcceptedBy(ops, key, window, |ops|)
  }

  lemma {:induction false} AcceptedPrefix(ops: seq<Op>, more: seq<Op>, key: string, window: int, n: nat)
    requires Positive(ops) && Positive(ops + more) && window > 0 && n <= |ops|
    ensures AcceptedBy(ops + more, key, window, n) == AcceptedBy(ops, key, window, n)
  {
    if n > 0 { AcceptedPrefix(ops, more, key, window, n - 1); }
  }

  lemma AcceptedSnoc(ops: seq<Op>, op: Op, key: string, window: int)
    requires Positive(ops) && Positive(ops + [op]) && window > 0 && (op.Request? ==> op.limit > 0)
    ensures Accepted(ops + [op], key, window) ==
            var before := Accepted(ops, key, window);
            if op.Request? && op.key == key && Decide(before, op.limit, op.at, window).allowed then before + [op.at]
              else before
  {
    AcceptedPrefix(ops, [op], key, window, |ops|);
  }

  // ---- the bound ---------------------------------------------------------------------------------------------

  ghost predicate Rising(h: seq<int>) {
    forall i, j | 0 <= i < j < |h| :: h[i] <= h[j]
  }

  /** A request and the one `limit` places before it are a window apart. */
  ghost predicate Spaced(h: seq<int>, limit: int, window: int)
    requires limit > 0
  {
    forall i | limit <= i < |h| :: h[i] - h[i - limit] >= window
  }

  lemma TailSnoc(h: seq<int>, n: nat)
    requires n < |h|
    ensures h[n..] == h[..|h| - 1][n..] + [h[|h| - 1]]
  {
  }

  lemma {:induction false} LiveFrom(h: seq<int>, cutoff: int, n: nat)
    requires n <= |h|
    requires forall i | 0 <= i < |h| :: h[i] > cutoff <==> i >= n
    ensures Live(h, cutoff) == h[n..]
  {
    if h != [] {
      var init := h[..|h| - 1];
      if n == |h| {
        LiveFrom(init, cutoff, n - 1);
      } else {
        LiveFrom(init, cutoff, n);
        TailSnoc(h, n);
      }
    }
  }

  /** Where the live stamps begin. */
  ghost function Cut(h: seq<int>, cutoff: int): (n: nat)
    requires Rising(h)
    ensures n <= |h| && forall i | 0 <= i < |h| :: h[i] > cutoff <==> i >= n
  {
    if h == [] || h[|h| - 1] <= cutoff then |h| else Cut(h[..|h| - 1], cutoff)
  }

  /** The live stamps of a rising history are its tail. */
  lemma LiveTail(h: seq<int>, cutoff: int)
    requires Rising(h)
    ensures Live(h, cutoff) == h[|h| - |Live(h, cutoff)|..]
    ensures forall i | 0 <= i < |h| :: h[i] > cutoff <==> i >= |h| - |Live(h, cutoff)|
  {
    LiveFrom(h, cutoff, Cut(h, cutoff));
  }

  /** As the cutoff moves on, the live stamps stay the same until the first of them is reached. */
  lemma FirstExpires(h: seq<int>, early: int, late: int)
    requires Rising(h) && early <= late && Live(h, early) != []
    ensures if Live(h, early)[0] > late then Live(h, late) == Live(h, early) else |Live(h, late)| < |Live(h, early)|
  {
    var n := Cut(h, early);
    LiveFrom(h, early, n);
    if h[n] > late {
      LiveFrom(h, late, n);
    } else {
      LiveFrom(h, late, Cut(h, late));
    }
  }

  /** A history of requests accepted within the limit, up to now. */
  ghost predicate Paced(h: seq<int>, limit: int, window: int, now: int) {
    limit > 0 && window > 0 && Rising(h) && Spaced(h, limit, window) && (h != [] ==> h[|h| - 1] <= now)
  }

  lemma SpacedSnoc(h: seq<int>, limit: int, window: int, at: int)
    requires Paced(h, limit, window, at) && |Live(h, at - window)| < limit
    ensures Paced(h + [at], limit, window, at)
  {
    LiveTail(h, at - window);
  }

  /** All requests of this key carry this limit. */
  ghost predicate Limited(ops: seq<Op>, key: string, limit: int) {
    forall i | 0 <= i < |ops| && ops[i].Request? && ops[i].key == key :: ops[i].limit == limit
  }

  lemma DecideOnLive(h: seq<int>, limit: int, now: int, window: int)
    requires limit > 0 && window > 0
    ensures var live, d := Live(h, now - window), Decide(h, limit, now, window);
            && d.allowed == (|live| < limit)
            && (!d.allowed ==>
                 live != [] && live[0] > now - window && d.resetAt == live[0] + window
                 && d.retryAfter == RetryAfter(d.resetAt - now))
  {
    FirstLive(h, now - window);
  }

  lemma PacedLater(h: seq<int>, limit: int, window: int, now: int, later: int)
    requires Paced(h, limit, window, now) && now <= later
    ensures Paced(h, limit, window, later)
  {
  }

  lemma {:induction false} AcceptedPaced(ops: seq<Op>, key: string, limit: int, window: int, n: nat, now: int)
    requires Positive(ops) && Ordered(ops) && Limited(ops, key, limit) && limit > 0 && window > 0
    requires n <= |ops| && RequestsBy(ops, n, now)
    ensures Paced(AcceptedBy(ops, key, window, n), limit, window, now)
  {
    if n > 0 {
      var op, before := ops[n - 1], AcceptedBy(ops, key, window, n - 1);
      if op.Request? && op.key == key {
        AcceptedPaced(ops, key, limit, window, n - 1, op.at);
        hide Paced, Decide, Live;
        if Decide(before, limit, op.at, window).allowed {
          DecideOnLive(before, limit, op.at, window);
          SpacedSnoc(before, limit, window, op.at);
          PacedLater(before + [op.at], limit, window, op.at, now);
        } else {
          PacedLater(before, limit, window, op.at, now);
        }
      } else {
        AcceptedPaced(ops, key, limit, window, n - 1, now);
      }
    }
  }

  /** The time of the last request of a run. */
  ghost function LastRequest(ops: seq<Op>): (at: int)
    requires Ordered(ops)
    ensures RequestsBy(ops, |ops|, at)
  {
    if ops == [] then 0
    else if ops[|ops| - 1].Request? then ops[|ops| - 1].at
    else
      var at := LastRequest(ops[..|ops| - 1]);
      assert forall i | 0 <= i < |ops| - 1 && ops[i].Request? :: ops[..|ops| - 1][i] == ops[i];
      at
  }

  /** The stamps from lo up to but not including hi, or after lo up to and including hi. */
  function Within(h: seq<int>, lo: int, hi: int, closedBelow: bool): (r: seq<int>)
    ensures |r| <= |h|
  {
    if h == [] then []
    else
      var last := h[|h| - 1];
      Within(h[..|h| - 1], lo, hi, closedBelow)
      + if (if closedBelow then lo <= last < hi else lo < last <= hi) then [last] else []
  }

  lemma {:induction false} WithinFrom(h: seq<int>, lo: int, hi: int, closedBelow: bool, n: nat)
    requires n <= |h| && forall i | 0 <= i < n :: if closedBelow then h[i] < lo else h[i] <= lo
    ensures |Within(h, lo, hi, closedBelow)| <= |h| - n
  {
    if |h| > n {
      WithinFrom(h[..|h| - 1], lo, hi, closedBelow, n);
    } else if h != [] {
      WithinFrom(h[..|h| - 1], lo, hi, closedBelow, n - 1);
    }
  }

  lemma {:induction false} SpacedWithin(h: seq<int>, limit: int, window: int, lo: int, closedBelow: bool)
    requires limit > 0 && window > 0 && Rising(h) && Spaced(h, limit, window)
    ensures |Within(h, lo, lo + window, closedBelow)| <= limit
  {
    if h != [] {
      var init, last := h[..|h| - 1], h[|h| - 1];
      SpacedWithin(init, limit, window, lo, closedBelow);
      if (if closedBelow then lo <= last < lo + window else lo < last <= lo + window) && |h| > limit {
        assert h[|h| - 1 - limit] <= last - window;
        forall i | 0 <= i < |h| - limit ensures h[i] <= last - window { assert h[i] <= h[|h| - 1 - limit]; }
        WithinFrom(h, lo, lo + window, closedBelow, |h| - limit);
      }
    }
  }

  /** However requests and cleanups interleave, no window of the configured length, closed below or above, holds more
      accepted requests of a key than its limit. */
  lemma WindowBound(ops: seq<Op>, key: string, limit: int, window: int, lo: int, closedBelow: bool)
    requires Positive(ops) && Ordered(ops) && Limited(ops, key, limit) && limit > 0 && window > 0
    ensures |Within(Accepted(ops, key, window), lo, lo + window, closedBelow)| <= limit
  {
    AcceptedPaced(ops, key, limit, window, |ops|, LastRequest(ops));
    SpacedWithin(Accepted(ops, key, window), limit, window, lo, closedBelow);
  }

  // ---- denial ------------------------------------------------------------------------------------------------

  lemma LiveBounded(h: seq<int>, limit: int, window: int, now: int)
    requires Paced(h, limit, window, now)
    ensures |Live(h, now - window)| <= limit
  {
    LiveTail(h, now - window);
    if |h| > limit { assert h[|h| - 1 - limit] <= now - window; }
  }

  /** A key denied once is denied before the reported time and allowed from it on. */
  lemma DeniedUntil(h: seq<int>, limit: int, window: int, now: int, later: int)
    requires Paced(h, limit, window, now) && now <= later
    requires !Decide(h, limit, now, window).allowed
    ensures now < Decide(h, limit, now, window).resetAt
    ensures Decide(h, limit, later, window).allowed <==> later >= Decide(h, limit, now, window).resetAt
    ensures !Decide(h, limit, later, window).allowed ==>
            Decide(h, limit, later, window).resetAt == Decide(h, limit, now, window).resetAt
  {
    DecideOnLive(h, limit, now, window);
    DecideOnLive(h, limit, later, window);
    LiveBounded(h, limit, window, now);
    FirstExpires(h, now - window, later - window);
    hide Decide, Live, Rising, Spaced;
  }

  /** Until the reported time, no request of the key is accepted, whatever else happens. */
  lemma {:induction false} NothingAccepted(ops: seq<Op>, key: string, limit: int, window: int, now: int, more: seq<Op>)
    requires Positive(ops) && Positive(ops + more) && Limited(more, key, limit) && limit > 0 && window > 0
    requires var h := Accepted(ops, key, window);
             && Paced(h, limit, window, now)
             && !Decide(h, limit, now, window).allowed
             && forall i | 0 <= i < |more|
               && more[i].Request? :: now <= more[i].at < Decide(h, limit, now, window).resetAt
    ensures Accepted(ops + more, key, window) == Accepted(ops, key, window)
  {
    if more == [] {
      assert ops + more == ops;
    } else {
      var init, op := more[..|more| - 1], more[|more| - 1];
      assert ops + more == (ops + init) + [op];
      forall i | 0 <= i < |ops + init| && (ops + init)[i].Request? ensures (ops + init)[i].limit > 0 {
        assert (ops + init)[i] == (ops + more)[i];
      }
      NothingAccepted(ops, key, limit, window, now, init);
      assert op == (ops + more)[|ops + init|];
      AcceptedSnoc(ops + init, op, key, window);
      if op.Request? { DeniedUntil(Accepted(ops, key, window), limit, window, now, op.at); }
    }
  }

  /** Over whole runs: after a denial, the next request of the key is allowed exactly if it comes at or after the time
      reported. */
  lemma DeniedThenAllowed(ops: seq<Op>, key: string, limit: int, window: int, now: int, more: seq<Op>, later: int)
    requires Positive(ops) && Positive(ops + more) && Ordered(ops) && Limited(ops + more, key, limit) && limit > 0
             && window > 0
    requires RequestsBy(ops, |ops|, now) && now <= later
    requires var d := Decide(Accepted(ops, key, window), limit, now, window);
             !d.allowed && forall i | 0 <= i < |more| && more[i].Request? :: now <= more[i].at < d.resetAt
    ensures Decide(Accepted(ops + more, key, window), limit, later, window).allowed
        <==> later >= Decide(Accepted(ops, key, window), limit, now, window).resetAt
  {
    forall i | 0 <= i < |ops| && ops[i].Request? && ops[i].key == key
      ensures ops[i].limit == limit { assert (ops + more)[i] == ops[i]; }
    forall i | 0 <= i < |more| && more[i].Request? && more[i].key == key
      ensures more[i].limit == limit { assert (ops + more)[|ops| + i] == more[i]; }
    AcceptedPaced(ops, key, limit, window, |ops|, now);
    NothingAccepted(ops, key, limit, window, now, more);
    DeniedUntil(Accepted(ops, key, window), limit, window, now, later);
  }

  /** Waiting the seconds it was told is enough for a denied client exactly when the wait is whole seconds, or less than
      one: Retry-After rounds down. */
  lemma RetryAfterSuffices(h: seq<int>, limit: int, window: int, now: int)
    requires Paced(h, limit, window, now)
    requires !Decide(h, limit, now, window).allowed
    ensures var d := Decide(h, limit, now, window); var wait := d.resetAt - now;
            Decide(h, limit, now + d.retryAfter * SECOND, window).allowed <==> wait % SECOND == 0 || wait < SECOND
  {
    var d := Decide(h, limit, now, window);
    DecideOnLive(h, limit, now, window);
    DeniedUntil(h, limit, window, now, now + d.retryAfter * SECOND);
    hide Decide, Live, Paced;
  }

  /** A second and a half to go, told to wait one: denied again. */
  lemma RetryTooEarly()
    ensures var h := [0]; var now := 58_500_000_000; var d := Decide(h, 1, now, 60 * SECOND);
            !d.allowed && d.retryAfter == 1 && !Decide(h, 1, now + d.retryAfter * SECOND, 60 * SECOND).allowed
  {
    assert [0][..0] == [];
    assert Live([0], 58_500_000_000 - 60 * SECOND) == [0];
    assert Live([0], 59_500_000_000 - 60 * SECOND) == [0];
  }

  // ---- what an allowed client is told ------------------------------------------------------------------------

  /** The history after n more requests accepted at one instant. */
  function Again(h: seq<int>, now: int, n: nat): seq<int> {
    if n == 0 then h else Again(h, now, n - 1) + [now]
  }

  lemma {:induction false} LiveAgain(h: seq<int>, now: int, n: nat, window: int)
    requires window > 0
    ensures |Live(Again(h, now, n), now - window)| == |Live(h, now - window)| + n
  {
    if n > 0 {
      LiveAgain(h, now, n - 1, window);
      LiveSnoc(Again(h, now, n - 1), now - window, now);
    }
  }

  /** A client that is allowed and told `remaining` is allowed exactly that many more requests at once. */
  lemma RemainingIsExact(h: seq<int>, limit: int, now: int, window: int, n: nat)
    requires limit > 0 && window > 0 && Decide(h, limit, now, window).allowed
    requires n <= Decide(h, limit, now, window).remaining
    ensures Decide(Again(h, now, n + 1), limit, now, window).allowed <==> n < Decide(h, limit, now, window).remaining
  {
    DecideOnLive(h, limit, now, window);
    LiveAgain(h, now, n + 1, window);
    DecideOnLive(Again(h, now, n + 1), limit, now, window);
  }

  /** Until the time an allowed client is told, all that counts against it now still does; from then on something less
      does. */
  lemma ResetIsExact(h: seq<int>, limit: int, now: int, window: int, later: int)
    requires Paced(h, limit, window, now) && Decide(h, limit, now, window).allowed && now <= later
    ensures var all := h + [now];
            |Live(all, later - window)| == |Live(all, now - window)| <==> later < Decide(h, limit, now, window).resetAt
  {
    hide Decide, Live, Rising, Spaced, Paced;
    var all := h + [now];
    RisingSnoc(h, limit, window, now);
    LiveSnoc(h, now - window, now);
    AllowedReset(h, limit, now, window);
    FirstExpires(all, now - window, later - window);
  }

  lemma RisingSnoc(h: seq<int>, limit: int, window: int, now: int)
    requires Paced(h, limit, window, now)
    ensures Rising(h + [now]) && limit > 0 && window > 0
  {
  }

  lemma AllowedReset(h: seq<int>, limit: int, now: int, window: int)
    requires limit > 0 && window > 0 && Decide(h, limit, now, window).allowed
    ensures Decide(h, limit, now, window).resetAt == (Live(h, now - window) + [now])[0] + window
  {
  }
}
