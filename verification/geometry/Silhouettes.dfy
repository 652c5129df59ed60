/** Testing the silhouettes of two sets of points for overlap (`check_beacons` in
    `scripts/emit-keycloak-theme-art.py`): what the answer says of the points themselves. */
module Silhouettes {
  import opened Sequences
  import opened Sorting
  import opened Plane
  import opened HalfPlanes
  import opened Hull
  import opened SeparatingAxis
  import opened ConvexHulls
  import opened Overlap

  // ---- the silhouette of points that are not all on one line --------------------------------------------------

  lemma Collinear(n: Point, a: Point, b: Point, c: Point)
    requires n != Point(0.0, 0.0) && Dot(n, a) == Dot(n, b) == Dot(n, c)
    ensures Side(a, b, c) == 0.0
  {
    var u, v := b.Minus(a), c.Minus(a);
    assert n.x * u.x == 0.0 - n.y * u.y && n.x * v.x == 0.0 - n.y * v.y;
    if n.x != 0.0 {
      assert n.x * (u.x * v.y) == 0.0 - n.y * u.y * v.y;
      assert n.x * (u.y * v.x) == 0.0 - n.y * v.y * u.y;
      Cancel(u.x * v.y - u.y * v.x, 0.0, n.x);
    } else {
      assert n.y * u.y == 0.0 && n.y * v.y == 0.0;
      Cancel(u.y, 0.0, n.y);
      Cancel(v.y, 0.0, n.y);
    }
  }

  lemma CornersAmong(pts: seq<Point>, lower: seq<Point>, below: seq<nat>, upper: seq<Point>, above: seq<nat>)
    requires Picks(lower, below, pts) && Picks(upper, above, Reversed(pts))
    ensures forall q | q in Outline(lower, upper) :: q in pts
  {
    forall q | q in Outline(lower, upper) ensures q in pts {
      if q in lower {
        var k :| 0 <= k < |lower| && lower[k] == q;
        assert pts[below[k]] == q;
      } else {
        var k :| 0 <= k < |upper| && upper[k] == q;
        assert pts[|pts| - 1 - above[k]] == q;
      }
    }
  }

  /** A chain with a corner in the middle is not flat. */
  lemma BentChain(n: Point, m: real, chain: seq<Point>)
    requires n != Point(0.0, 0.0) && AllOn(n, m, chain) && TurnsLeft(chain)
    ensures |chain| <= 2
  {
    if |chain| > 2 {
      assert Side(chain[0], chain[0 + 1], chain[0 + 2]) > 0.0;
      Collinear(n, chain[0], chain[1], chain[2]);
    }
  }

  /** Points between two opposite edges are on one line. */
  lemma FlatBetween(pts: seq<Point>, a: Point, b: Point)
    requires a != b && forall i | 0 <= i < |pts| :: Side(a, b, pts[i]) >= 0.0 && Side(b, a, pts[i]) >= 0.0
    ensures Flat(pts)
  {
    var e := b.Minus(a);
    var n := Point(0.0 - e.y, e.x);
    forall i | 0 <= i < |pts| ensures Dot(n, pts[i]) == Dot(n, a) {
      SideTurned(a, b, pts[i]);
      assert Side(a, b, pts[i]) == Dot(n, pts[i]) - Dot(n, a);
    }
    assert AllOn(n, Dot(n, a), pts);
  }

  lemma FlatOutlineFlatPoints(pts: seq<Point>, lower: seq<Point>, below: seq<nat>, upper: seq<Point>,
                              above: seq<nat>)
    requires Directed(true, pts) && |pts| >= 2 && ChainOf(lower, below, pts) && ChainOf(upper, above, Reversed(pts))
    requires Flat(Outline(lower, upper))
    ensures Flat(pts)
  {
    var poly := Outline(lower, upper);
    LongEnough(pts, lower, below);
    LongEnough(Reversed(pts), upper, above);
    var n, m :| n != Point(0.0, 0.0) && AllOn(n, m, poly);
    forall i | 0 <= i < |lower| ensures Dot(n, lower[i]) == m { assert poly[i] == lower[i]; }
    forall i | 0 <= i < |upper| ensures Dot(n, upper[i]) == m {
      assert upper[i] == if i < |upper| - 1 then poly[|lower| - 1 + i] else poly[0];
    }
    BentChain(n, m, lower);
    BentChain(n, m, upper);
    ChainMoves(true, pts, lower, below, 0);
    forall i | 0 <= i < |pts|
      ensures Side(lower[0], lower[1], pts[i]) >= 0.0 && Side(lower[1], lower[0], pts[i]) >= 0.0
    {
      assert Side(lower[0], lower[1], pts[i]) >= 0.0;
      assert Reversed(pts)[|pts| - 1 - i] == pts[i];
      assert Side(upper[0], upper[1], Reversed(pts)[|pts| - 1 - i]) >= 0.0;
    }
    FlatBetween(pts, lower[0], lower[1]);
  }

  /** The outline of points that are not all on one line is convex and not flat, and its corners are among them. */
  lemma OutlineConvex(pts: seq<Point>, lower: seq<Point>, below: seq<nat>, upper: seq<Point>, above: seq<nat>)
    requires Directed(true, pts) && |pts| >= 2 && ChainOf(lower, below, pts) && ChainOf(upper, above, Reversed(pts))
    requires !Flat(pts)
    ensures OutlineOf(Outline(lower, upper), pts)
  {
    var poly := Outline(lower, upper);
    OutlineSurrounds(pts, lower, below, upper, above);
    CornersAmong(pts, lower, below, upper, above);
    LongEnough(pts, lower, below);
    LongEnough(Reversed(pts), upper, above);
    forall i, j | 0 <= i < |poly| && 0 <= j < |poly| ensures Side(poly[i], Next(poly, i), poly[j]) >= 0.0 {
      assert poly[j] in pts;
    }
    if Flat(poly) { FlatOutlineFlatPoints(pts, lower, below, upper, above); }
  }

  ghost predicate OutlineOf(poly: seq<Point>, pts: seq<Point>) {
    ConvexOutline(poly) && Surrounds(poly, pts) && forall q | q in poly :: q in pts
  }

  // ---- the points lie where their outline does -----------------------------------------------------------------

  lemma SomeInside(poly: seq<Point>) returns (p: Point)
    requires ConvexOutline(poly)
    ensures Inside(p, poly)
  {
    var hs := EdgePlanes(poly);
    var free, i, j, k, u, v, w;
    free, p, i, j, k, u, v, w := InPlane(hs);
    if free {
      InsideIffInAll(poly, p);
    } else {
      EdgeSupports(poly, i, poly);
      EdgeSupports(poly, j, poly);
      EdgeSupports(poly, k, poly);
      FlatWhere(hs[i], u, hs[j], v, hs[k], w, poly);
    }
  }

  /** From a point inside towards one that is inside or on an edge, everything before the end is inside. */
  lemma Towards(poly: seq<Point>, z: Point, q: Point, t: real)
    requires Inside(z, poly) && (forall i | 0 <= i < |poly| :: Side(poly[i], Next(poly, i), q) >= 0.0)
             && 0.0 <= t < 1.0
    ensures Inside(Moved(z, q.Minus(z), t), poly)
  {
    hide Side, Moved;
    var x := Moved(z, q.Minus(z), t);
    forall i | 0 <= i < |poly| ensures Side(poly[i], Next(poly, i), x) > 0.0 {
      StaysLeft(poly[i], Next(poly, i), z, q, t);
    }
  }

  lemma StaysLeft(a: Point, b: Point, z: Point, q: Point, t: real)
    requires Side(a, b, z) > 0.0 && Side(a, b, q) >= 0.0 && 0.0 <= t < 1.0
    ensures Side(a, b, Moved(z, q.Minus(z), t)) > 0.0
  {
    SideMoved(a, b, z, q, t);
    hide Side;
    Products(1.0 - t, Side(a, b, z));
    Products(t, Side(a, b, q));
  }

  lemma SideMoved(a: Point, b: Point, z: Point, q: Point, t: real)
    ensures Side(a, b, Moved(z, q.Minus(z), t)) == (1.0 - t) * Side(a, b, z) + t * Side(a, b, q)
  {
  }

  /** A step short of q at which a line that q is beyond has been crossed. */
  lemma StepShort(atZ: real, atQ: real, m: real) returns (t: real)
    requires atZ <= m < atQ
    ensures 0.0 <= t < 1.0 && atZ + t * (atQ - atZ) > m
  {
    var d, gap := atQ - atZ, atQ - m;
    var e := gap / (2.0 * d);
    assert e * d == gap / 2.0;
    t := 1.0 - e;
    assert t * d == d - e * d;
  }

  lemma DotMinus(n: Point, q: Point, z: Point)
    ensures Dot(n, q.Minus(z)) == Dot(n, q) - Dot(n, z)
  {
  }

  /** Inside the outline, and still beyond the line. */
  lemma InsideBeyond(poly: seq<Point>, z: Point, q: Point, n: Point, m: real) returns (x: Point)
    requires Inside(z, poly) && forall i | 0 <= i < |poly| :: Side(poly[i], Next(poly, i), q) >= 0.0
    requires Dot(n, z) <= m < Dot(n, q)
    ensures Inside(x, poly) && Dot(n, x) > m
  {
    hide Side, Dot, Moved;
    var t := StepShort(Dot(n, z), Dot(n, q), m);
    x := Moved(z, q.Minus(z), t);
    Towards(poly, z, q, t);
    DotMoved(n, z, q.Minus(z), t);
    DotMinus(n, q, z);
  }

  /** What bounds the corners of an outline bounds all points it surrounds. */
  lemma BoundedByCorners(poly: seq<Point>, pts: seq<Point>, n: Point, m: real, j: nat)
    requires OutlineOf(poly, pts) && j < |pts| && forall i | 0 <= i < |poly| :: Dot(n, poly[i]) <= m
    ensures Dot(n, pts[j]) <= m
  {
    var z := SomeInside(poly);
    InsideInHull(z, poly);
    HullBelow(n, z, poly, m);
    if Dot(n, pts[j]) > m {
      var x := InsideBeyond(poly, z, pts[j], n, m);
      InsideInHull(x, poly);
      HullBelow(n, x, poly, m);
    }
  }

  lemma ApartPoints(n: Point, outA: seq<Point>, a: seq<Point>, outB: seq<Point>, b: seq<Point>)
    requires OutlineOf(outA, a) && OutlineOf(outB, b) && Apart(n, outA, outB)
    ensures Apart(n, a, b)
  {
    var m :| CutAt(n, m, outA, outB);
    forall j | 0 <= j < |a| ensures Dot(n, a[j]) <= m { BoundedByCorners(outA, a, n, m, j); }
    forall j | 0 <= j < |b| ensures Dot(n, b[j]) >= m {
      forall i | 0 <= i < |outB| ensures Dot(n.Negated(), outB[i]) <= 0.0 - m { DotNegated(n, outB[i]); }
      BoundedByCorners(outB, b, n.Negated(), 0.0 - m, j);
      DotNegated(n, b[j]);
    }
    assert CutAt(n, m, a, b);
  }

  // ---- the answer --------------------------------------------------------------------------------------------

  lemma Separator(outA: seq<Point>, outB: seq<Point>) returns (n: Point)
    requires NoEmptyEdge(outA) && NoEmptyEdge(outB) && Missed(outA, outB)
    ensures (n.x != 0.0 || n.y != 0.0) && Separates(n, outA, outB)
  {
    if SomeNormalSeparates(outA, |outA|, outA, outB) {
      var i :| 0 <= i < |outA| && Separates(Normal(outA, i), outA, outB);
      NormalNotZero(outA, i);
      n := Normal(outA, i);
    } else {
      var i :| 0 <= i < |outB| && Separates(Normal(outB, i), outA, outB);
      NormalNotZero(outB, i);
      n := Normal(outB, i);
    }
  }

  lemma MissedPoints(outA: seq<Point>, a: seq<Point>, outB: seq<Point>, b: seq<Point>)
    requires OutlineOf(outA, a) && OutlineOf(outB, b) && Missed(outA, outB)
    ensures !ShareArea(a, b)
  {
    var n := Separator(outA, outB);
    if Apart(n, outA, outB) { ApartPoints(n, outA, a, outB, b); } else { ApartPoints(n, outB, b, outA, a); }
    SeparatedLine(n, a, b);
    forall p: Point, r: real | r > 0.0 ensures !(TriangleIn(p, r, a) && TriangleIn(p, r, b)) {
      NoCommonSquare(a, b, p, r);
    }
  }

  lemma SharedAlike(xs: seq<Point>, a: seq<Point>, ys: seq<Point>, b: seq<Point>)
    requires (forall p: Point | InHull(p, xs) :: InHull(p, a)) && (forall p: Point | InHull(p, ys) :: InHull(p, b))
    requires ShareArea(xs, ys)
    ensures ShareArea(a, b)
  {
    hide InHull;
    var p, r :| r > 0.0 && TriangleIn(p, r, xs) && TriangleIn(p, r, ys);
    assert TriangleIn(p, r, a) && TriangleIn(p, r, b);
  }

  lemma HitPoints(outA: seq<Point>, a: seq<Point>, outB: seq<Point>, b: seq<Point>)
    requires OutlineOf(outA, a) && OutlineOf(outB, b) && !Missed(outA, outB)
    ensures ShareArea(a, b)
  {
    HitSharesArea(outA, outB);
    forall q: Point | InHull(q, outA) ensures InHull(q, a) { HullOfSome(q, outA, a); }
    forall q: Point | InHull(q, outB) ensures InHull(q, b) { HullOfSome(q, outB, b); }
    SharedAlike(outA, a, outB, b);
  }

  // ---- preparing the points ----------------------------------------------------------------------------------

  /** By the first coordinate, then by the second. */
  predicate Leq(p: Point, q: Point) {
    p.x < q.x || (p.x == q.x && p.y <= q.y)
  }

  /** A point is not repeated. */
  function Appended(pts: seq<Point>, q: Point): (r: seq<Point>)
    ensures r != [] && r[|r| - 1] == q
  {
    if pts == [] || pts[|pts| - 1] != q then pts + [q] else pts
  }

  ghost predicate SamePoints(xs: seq<Point>, ys: seq<Point>) {
    forall p :: p in xs <==> p in ys
  }

  lemma SameSnoc(out: seq<Point>, pts: seq<Point>, n: nat)
    requires n < |pts| && SamePoints(out, pts[..n])
    ensures SamePoints(Appended(out, pts[n]), pts[..n + 1])
  {
    assert pts[..n + 1] == pts[..n] + [pts[n]];
  }

  lemma DirectedSnoc(pts: seq<Point>, q: Point)
    requires Directed(true, pts) && (pts != [] ==> Leq(pts[|pts| - 1], q))
    ensures Directed(true, Appended(pts, q))
  {
    if pts != [] && pts[|pts| - 1] != q {
      var last := pts[|pts| - 1];
      assert Before(true, last, q);
      forall i | 0 <= i < |pts| ensures Before(true, pts[i], q) {
        if i < |pts| - 1 { assert Before(true, pts[i], last); }
      }
    }
  }

  /** The distinct points in order, which `sorted(set(...))` yields too: no other list is ordered and has just them. */
  method Ordered(pts: seq<Point>) returns (out: seq<Point>)
    ensures Directed(true, out) && SamePoints(out, pts)
  {
    SortSorted(pts, Leq);
    var sorted := SortBy(pts, Leq);
    out := [];
    for n := 0 to |sorted|
      invariant Directed(true, out) && SamePoints(out, sorted[..n])
      invariant out == [] <==> n == 0
      invariant n > 0 ==> out[|out| - 1] == sorted[n - 1]
    {
      DirectedSnoc(out, sorted[n]);
      SameSnoc(out, sorted, n);
      hide SamePoints, Appended, Directed;
      out := Appended(out, sorted[n]);
    }
    assert sorted[..|sorted|] == sorted;
    forall p ensures p in sorted <==> p in pts { assert p in multiset(sorted) <==> p in multiset(pts); }
  }

  /** Neither flatness nor a hull depends on how often and in which order the points are given. */
  lemma SameHull(xs: seq<Point>, ys: seq<Point>)
    requires SamePoints(xs, ys)
    ensures Flat(xs) ==> Flat(ys)
    ensures forall p: Point | InHull(p, xs) :: InHull(p, ys)
  {
    if n: Point, m: real :| n != Point(0.0, 0.0) && AllOn(n, m, xs) {
      forall i | 0 <= i < |ys| ensures Dot(n, ys[i]) == m { assert ys[i] in ys; }
      assert AllOn(n, m, ys);
    }
    forall p: Point | InHull(p, xs) ensures InHull(p, ys) { HullOfSome(p, xs, ys); }
  }

  /** Some two of the points differ. */
  predicate Spans(pts: seq<Point>) {
    exists i, j | 0 <= i < |pts| && 0 <= j < |pts| :: pts[i] != pts[j]
  }

  lemma SpansTwo(pts: seq<Point>, out: seq<Point>)
    requires Spans(pts) && SamePoints(out, pts)
    ensures |out| >= 2
  {
    var i, j :| 0 <= i < |pts| && 0 <= j < |pts| && pts[i] != pts[j];
    assert pts[i] in out && pts[j] in out;
  }

  // ---- the test ------------------------------------------------------------------------------------------------

  /** The overlap of the silhouettes of two boxes, given by their corners on the screen. Unless the corners of one of
      them all lie on one line, the answer is yes exactly if the hulls of the corners share an area. */
  method SilhouettesHit(a: seq<Point>, b: seq<Point>) returns (hit: bool)
    requires Spans(a) && Spans(b)
    ensures !Flat(a) && !Flat(b) ==> (hit <==> ShareArea(a, b))
  {
    var xs := Ordered(a);
    var ys := Ordered(b);
    SpansTwo(a, xs);
    SpansTwo(b, ys);
    var outA, outB;
    ghost var lowerA, belowA, upperA, aboveA, lowerB, belowB, upperB, aboveB;
    outA, lowerA, belowA, upperA, aboveA := Silhouette(xs);
    outB, lowerB, belowB, upperB, aboveB := Silhouette(ys);
    hit := ConvexHit(outA, outB);
    SameHull(a, xs);
    SameHull(xs, a);
    SameHull(b, ys);
    SameHull(ys, b);
    if !Flat(a) && !Flat(b) {
      OutlineConvex(xs, lowerA, belowA, upperA, aboveA);
      OutlineConvex(ys, lowerB, belowB, upperB, aboveB);
      if hit {
        HitPoints(outA, xs, outB, ys);
        SharedAlike(xs, a, ys, b);
      } else {
        MissedPoints(outA, xs, outB, ys);
        if ShareArea(a, b) { SharedAlike(a, xs, b, ys); }
      }
    }
  }
}
