/** The silhouette of a set of points: a monotone chain in each direction
    (`_silhouette` in `scripts/emit-keycloak-theme-art.py`). */
module Hull {
  import opened Sequences
  import opened Plane

  /** Distinct points, sorted in the direction. */
  predicate Directed(rising: bool, pts: seq<Point>) {
    forall i, j | 0 <= i < j < |pts| :: Before(rising, pts[i], pts[j])
  }

  predicate TurnsLeft(chain: seq<Point>) {
    forall i | 0 <= i < |chain| - 2 :: Side(chain[i], chain[i + 1], chain[i + 2]) > 0.0
  }

  /** No point is to the right of an edge. */
  predicate Encloses(chain: seq<Point>, pts: seq<Point>) {
    forall k, i | 0 <= k < |chain| - 1 && 0 <= i < |pts| :: Side(chain[k], chain[k + 1], pts[i]) >= 0.0
  }

  /** The chain is the points at these places, in order, from the first to the last. */
  predicate Picks(chain: seq<Point>, at: seq<nat>, pts: seq<Point>) {
    && |chain| == |at| && (chain == [] <==> pts == [])
    && (forall i | 0 <= i < |at| :: at[i] < |pts| && chain[i] == pts[at[i]])
    && (forall i, j | 0 <= i < j < |at| :: at[i] < at[j])
    && (at != [] ==> at[0] == 0 && at[|at| - 1] == |pts| - 1)
  }

  ghost predicate ChainOf(chain: seq<Point>, at: seq<nat>, pts: seq<Point>) {
    Picks(chain, at, pts) && TurnsLeft(chain) && Encloses(chain, pts)
  }

  // ---- adding a point ---------------------------------------------------------------------------------------

  lemma SideSum(a: Point, b: Point, c: Point, q: Point)
    ensures Side(a, b, q) == Side(a, b, c) + Cross(b.Minus(a), q.Minus(c))
  {
  }

  /** Seen from its last edge on the left, a point further ahead is on the left of every edge before. */
  lemma {:induction false} NewOnLeft(rising: bool, kept: seq<Point>, q: Point, k: nat)
    requires Directed(rising, kept + [q]) && TurnsLeft(kept) && k + 1 < |kept|
    requires Side(kept[|kept| - 2], kept[|kept| - 1], q) > 0.0
    ensures Side(kept[k], kept[k + 1], q) >= 0.0
    decreases |kept| - k
  {
    if k + 2 < |kept| {
      NewOnLeft(rising, kept, q, k + 1);
      var a, b, c := kept[k], kept[k + 1], kept[k + 2];
      var all := kept + [q];
      assert Before(rising, all[k], all[k + 1]) && Before(rising, all[k + 1], all[k + 2])
        && Before(rising, all[k + 2], all[|kept|]);
      SideSum(b, c, c, q);
      TurnsTransitive(rising, b.Minus(a), c.Minus(b), q.Minus(c));
      SideSum(a, b, c, q);
    }
  }

  /** Points up to the last one kept are on the left of the new edge. */
  lemma EarlierOnLeft(rising: bool, a: Point, top: Point, p: Point, q: Point)
    requires Before(rising, a, top) && Before(rising, p, top) && Before(rising, top, q)
    requires Side(a, top, p) >= 0.0 && Side(a, top, q) > 0.0
    ensures Side(top, q, p) >= 0.0
  {
    var u, e, v := top.Minus(p), top.Minus(a), q.Minus(top);
    SideSum(a, top, top, p);
    SideSum(a, top, top, q);
    assert Cross(u, e) == Side(a, top, p) && Cross(e, v) == Side(a, top, q);
    TurnsTransitive(rising, u, e, v);
    assert Side(top, q, p) == Cross(u, v);
  }

  /** So are the points after it: they are on the left of the edge that was dropped, and that turned right to q. */
  lemma LaterOnLeft(rising: bool, top: Point, dropped: Point, p: Point, q: Point)
    requires Before(rising, top, dropped) && Before(rising, top, p) && Before(rising, top, q)
    requires Side(top, dropped, q) <= 0.0 && Side(top, dropped, p) >= 0.0
    ensures Side(top, q, p) >= 0.0
  {
    var v, d, w := q.Minus(top), dropped.Minus(top), p.Minus(top);
    assert Cross(v, d) == 0.0 - Side(top, dropped, q) && Cross(d, w) == Side(top, dropped, p);
    TurnsTransitive(rising, v, d, w);
  }

  /** What popping leaves: a beginning of the chain, last dropped point and last kept edge on the proper sides of q. */
  ghost predicate Popped(chain: seq<Point>, kept: seq<Point>, q: Point) {
    && kept <= chain && (chain != [] ==> kept != [])
    && (|kept| >= 2 ==> Side(kept[|kept| - 2], kept[|kept| - 1], q) > 0.0)
    && (|kept| < |chain| ==> Side(kept[|kept| - 1], chain[|kept|], q) <= 0.0)
  }

  method PopRight(chain: seq<Point>, q: Point) returns (kept: seq<Point>)
    ensures Popped(chain, kept, q)
  {
    kept := chain;
    while |kept| >= 2
      invariant kept <= chain && (chain != [] ==> kept != [])
      invariant |kept| < |chain| ==> Side(kept[|kept| - 1], chain[|kept|], q) <= 0.0
    {
      if Side(kept[|kept| - 2], kept[|kept| - 1], q) > 0.0 { break; }
      kept := kept[..|kept| - 1];
    }
  }

  lemma NewEdge(rising: bool, pts: seq<Point>, chain: seq<Point>, at: seq<nat>, kept: seq<Point>, q: Point, i: nat)
    requires Directed(rising, pts + [q]) && ChainOf(chain, at, pts) && Popped(chain, kept, q) && chain != []
             && i < |pts|
    ensures Side(kept[|kept| - 1], q, pts[i]) >= 0.0
  {
    var all, top, t := pts + [q], kept[|kept| - 1], at[|kept| - 1];
    assert Before(rising, all[t], all[|pts|]);
    if i < t {
      assert Before(rising, all[i], all[t]);
      assert |kept| >= 2;
      assert Before(rising, all[at[|kept| - 2]], all[t]);
      EarlierOnLeft(rising, kept[|kept| - 2], top, pts[i], q);
    } else if i > t {
      assert Before(rising, all[t], all[i]);
      assert |kept| < |chain|;
      assert Before(rising, all[t], all[at[|kept|]]);
      LaterOnLeft(rising, top, chain[|kept|], pts[i], q);
    }
  }

  lemma PickedDirected(rising: bool, pts: seq<Point>, chain: seq<Point>, at: seq<nat>, kept: seq<Point>, q: Point)
    requires Directed(rising, pts + [q]) && Picks(chain, at, pts) && kept <= chain
    ensures Directed(rising, kept + [q])
  {
    var all, new' := pts + [q], kept + [q];
    forall i, j | 0 <= i < j < |new'| ensures Before(rising, new'[i], new'[j]) {
      assert Before(rising, all[at[i]], all[if j < |kept| then at[j] else |pts|]);
    }
  }

  lemma PickedSnoc(pts: seq<Point>, chain: seq<Point>, at: seq<nat>, kept: seq<Point>, q: Point)
    requires Picks(chain, at, pts) && Popped(chain, kept, q)
    ensures Picks(kept + [q], at[..|kept|] + [|pts|], pts + [q])
  {
  }

  lemma TurnsSnoc(chain: seq<Point>, kept: seq<Point>, q: Point)
    requires TurnsLeft(chain) && Popped(chain, kept, q)
    ensures TurnsLeft(kept + [q]) && TurnsLeft(kept)
  {
    var now := kept + [q];
    forall i | 0 <= i < |now| - 2 ensures Side(now[i], now[i + 1], now[i + 2]) > 0.0 {
      if i + 2 < |kept| { assert Side(chain[i], chain[i + 1], chain[i + 2]) > 0.0; }
    }
  }

  lemma EdgeEncloses(rising: bool, pts: seq<Point>, chain: seq<Point>, at: seq<nat>, kept: seq<Point>, q: Point,
                     k: nat, i: nat)
    requires Directed(rising, pts + [q]) && ChainOf(chain, at, pts) && Popped(chain, kept, q) && k < |kept|
             && i <= |pts|
    requires Directed(rising, kept + [q]) && TurnsLeft(kept)
    ensures Side((kept + [q])[k], (kept + [q])[k + 1], (pts + [q])[i]) >= 0.0
  {
    if k < |kept| - 1 {
      if i < |pts| { assert Side(chain[k], chain[k + 1], pts[i]) >= 0.0; } else { NewOnLeft(rising, kept, q, k); }
    } else if i < |pts| {
      NewEdge(rising, pts, chain, at, kept, q, i);
    }
  }

  /** The chain stays one when a point ahead of all is added. */
  lemma ChainSnoc(rising: bool, pts: seq<Point>, chain: seq<Point>, at: seq<nat>, kept: seq<Point>, q: Point)
    requires Directed(rising, pts + [q]) && ChainOf(chain, at, pts) && Popped(chain, kept, q)
    ensures ChainOf(kept + [q], at[..|kept|] + [|pts|], pts + [q])
  {
    var now, all := kept + [q], pts + [q];
    PickedSnoc(pts, chain, at, kept, q);
    PickedDirected(rising, pts, chain, at, kept, q);
    TurnsSnoc(chain, kept, q);
    forall k, i | 0 <= k < |now| - 1 && 0 <= i < |all| ensures Side(now[k], now[k + 1], all[i]) >= 0.0 {
      EdgeEncloses(rising, pts, chain, at, kept, q, k, i);
    }
  }

  /** The chain of the first n points. */
  ghost predicate ChainUpTo(chain: seq<Point>, at: seq<nat>, pts: seq<Point>, n: nat)
    requires n <= |pts|
  {
    ChainOf(chain, at, pts[..n])
  }

  lemma ChainGrows(rising: bool, pts: seq<Point>, n: nat, chain: seq<Point>, at: seq<nat>, kept: seq<Point>)
    requires Directed(rising, pts) && n < |pts| && ChainUpTo(chain, at, pts, n) && Popped(chain, kept, pts[n])
    ensures |kept| <= |at| && ChainUpTo(kept + [pts[n]], at[..|kept|] + [n], pts, n + 1)
  {
    assert pts[..n + 1] == pts[..n] + [pts[n]];
    ChainSnoc(rising, pts[..n], chain, at, kept, pts[n]);
  }

  lemma ChainStarts(pts: seq<Point>)
    ensures ChainUpTo([], [], pts, 0)
  {
  }

  lemma ChainEnds(chain: seq<Point>, at: seq<nat>, pts: seq<Point>)
    requires ChainUpTo(chain, at, pts, |pts|)
    ensures ChainOf(chain, at, pts)
  {
    assert pts[..|pts|] == pts;
  }

  // ---- one direction -----------------------------------------------------------------------------------------

  /** The next point, after dropping what turns right towards it. */
  method AddPoint(pts: seq<Point>, n: nat, chain: seq<Point>, ghost at: seq<nat>, ghost rising: bool)
    returns (now: seq<Point>, ghost places: seq<nat>)
    requires Directed(rising, pts) && n < |pts| && ChainUpTo(chain, at, pts, n)
    ensures ChainUpTo(now, places, pts, n + 1)
  {
    var kept := PopRight(chain, pts[n]);
    ChainGrows(rising, pts, n, chain, at, kept);
    now, places := kept + [pts[n]], at[..|kept|] + [n];
  }

  /** One half of the outline: the chain without its last point. */
  method Half(pts: seq<Point>, ghost rising: bool)
    returns (out: seq<Point>, ghost chain: seq<Point>, ghost at: seq<nat>)
    requires Directed(rising, pts)
    ensures ChainOf(chain, at, pts) && out == if chain == [] then [] else chain[..|chain| - 1]
  {
    out, at := [], [];
    ChainStarts(pts);
    for n := 0 to |pts|
      invariant ChainUpTo(out, at, pts, n)
    {
      out, at := AddPoint(pts, n, out, at, rising);
    }
    ChainEnds(out, at, pts);
    chain := out;
    out := if out == [] then [] else out[..|out| - 1];
  }

  // ---- the whole outline -------------------------------------------------------------------------------------

  lemma ReversedDirected(pts: seq<Point>)
    requires Directed(true, pts)
    ensures Directed(false, Reversed(pts))
  {
    forall i, j | 0 <= i < j < |pts| ensures Before(false, Reversed(pts)[i], Reversed(pts)[j]) {
      assert Before(true, pts[|pts| - 1 - j], pts[|pts| - 1 - i]);
    }
  }

  /** The two halves, one after the other. */
  function Outline(lower: seq<Point>, upper: seq<Point>): seq<Point> {
    if lower == [] || upper == [] then [] else lower[..|lower| - 1] + upper[..|upper| - 1]
  }

  /** The next corner of a closed outline. */
  function Next(poly: seq<Point>, i: nat): Point
    requires i < |poly|
  {
    if i + 1 < |poly| then poly[i + 1] else poly[0]
  }

  /** Chains that run from one end to the other and back. */
  predicate RoundTrip(lower: seq<Point>, upper: seq<Point>) {
    |lower| >= 2 && |upper| >= 2 && lower[|lower| - 1] == upper[0] && upper[|upper| - 1] == lower[0]
  }

  /** Every edge of the outline is an edge of one of the two chains. */
  lemma EdgesOfHalves(lower: seq<Point>, upper: seq<Point>, i: nat)
    requires RoundTrip(lower, upper) && i < |Outline(lower, upper)|
    ensures var poly := Outline(lower, upper);
            if i < |lower| - 1 then poly[i] == lower[i] && Next(poly, i) == lower[i + 1]
            else var k := i - (|lower| - 1); poly[i] == upper[k] && Next(poly, i) == upper[k + 1]
  {
  }

  /** All points are on the left of every edge, or on it. */
  ghost predicate Surrounds(poly: seq<Point>, pts: seq<Point>) {
    forall i, j | 0 <= i < |poly| && 0 <= j < |pts| :: Side(poly[i], Next(poly, i), pts[j]) >= 0.0
  }

  ghost predicate NoEmptyEdge(poly: seq<Point>) {
    forall i | 0 <= i < |poly| :: poly[i] != Next(poly, i)
  }

  lemma ChainMoves(rising: bool, pts: seq<Point>, chain: seq<Point>, at: seq<nat>, k: nat)
    requires Directed(rising, pts) && Picks(chain, at, pts) && k + 1 < |chain|
    ensures chain[k] != chain[k + 1]
  {
    assert Before(rising, pts[at[k]], pts[at[k + 1]]);
  }

  lemma LongEnough(pts: seq<Point>, chain: seq<Point>, at: seq<nat>)
    requires Picks(chain, at, pts) && |pts| >= 2
    ensures |chain| >= 2 && chain[0] == pts[0] && chain[|chain| - 1] == pts[|pts| - 1]
  {
  }

  lemma OutlineSurrounds(pts: seq<Point>, lower: seq<Point>, below: seq<nat>, upper: seq<Point>, above: seq<nat>)
    requires Directed(true, pts) && |pts| >= 2 && ChainOf(lower, below, pts) && ChainOf(upper, above, Reversed(pts))
    ensures Surrounds(Outline(lower, upper), pts) && NoEmptyEdge(Outline(lower, upper))
  {
    ReversedDirected(pts);
    LongEnough(pts, lower, below);
    LongEnough(Reversed(pts), upper, above);
    var poly := Outline(lower, upper);
    forall i, j | 0 <= i < |poly| && 0 <= j < |pts| ensures Side(poly[i], Next(poly, i), pts[j]) >= 0.0 {
      EdgesOfHalves(lower, upper, i);
      if i >= |lower| - 1 {
        assert Side(upper[i - (|lower| - 1)], upper[i - (|lower| - 1) + 1], Reversed(pts)[|pts| - 1 - j]) >= 0.0;
      }
    }
    forall i | 0 <= i < |poly| ensures poly[i] != Next(poly, i) {
      EdgesOfHalves(lower, upper, i);
      if i < |lower| - 1 {
        ChainMoves(true, pts, lower, below, i);
      } else {
        ChainMoves(false, Reversed(pts), upper, above, i - (|lower| - 1));
      }
    }
  }

  /** The outline of points sorted by coordinates: its corners are some of them, in two strictly left-turning chains,
      and all of them are on the left of every edge or on it. */
  method Silhouette(pts: seq<Point>)
    returns (poly: seq<Point>, ghost lower: seq<Point>, ghost below: seq<nat>, ghost upper: seq<Point>,
             ghost above: seq<nat>)
    requires Directed(true, pts)
    ensures poly == Outline(lower, upper) && ChainOf(lower, below, pts) && ChainOf(upper, above, Reversed(pts))
    ensures |pts| >= 2 ==> |poly| >= 2 && Surrounds(poly, pts) && NoEmptyEdge(poly)
  {
    ReversedDirected(pts);
    var down, up;
    down, lower, below := Half(pts, true);
    up, upper, above := Half(Reversed(pts), false);
    poly := down + up;
    if |pts| >= 2 {
      OutlineSurrounds(pts, lower, below, upper, above);
      LongEnough(pts, lower, below);
      LongEnough(Reversed(pts), upper, above);
    }
  }
}
