/** When the overlap test answers yes: outlines that are not flat are reported exactly if they share an area
    (`check_beacons` in `scripts/emit-keycloak-theme-art.py` tests silhouettes in pairs). */
module Overlap {
  import opened Plane
  import opened HalfPlanes
  import opened Hull
  import opened SeparatingAxis
  import opened ConvexHulls

  /** All on one line. */
  ghost predicate Flat(pts: seq<Point>) {
    exists n: Point, m: real :: n != Point(0.0, 0.0) && AllOn(n, m, pts)
  }

  ghost predicate AllOn(n: Point, m: real, pts: seq<Point>) {
    forall i | 0 <= i < |pts| :: Dot(n, pts[i]) == m
  }

  ghost predicate ConvexOutline(poly: seq<Point>) {
    poly != [] && Surrounds(poly, poly) && NoEmptyEdge(poly) && !Flat(poly)
  }

  // ---- the half-planes of an outline -------------------------------------------------------------------------

  function EdgePlane(poly: seq<Point>, i: nat): HalfPlane
    requires i < |poly|
  {
    HalfPlane(Normal(poly, i), Dot(Normal(poly, i), poly[i]))
  }

  function EdgePlanes(poly: seq<Point>): seq<HalfPlane> {
    seq(|poly|, i requires 0 <= i < |poly| => EdgePlane(poly, i))
  }

  lemma SideOfPlane(poly: seq<Point>, i: nat, p: Point)
    requires i < |poly|
    ensures Side(poly[i], Next(poly, i), p) == 0.0 - Level(EdgePlane(poly, i), p)
  {
  }

  /** All points are in h or on its edge. */
  ghost predicate Supports(h: HalfPlane, pts: seq<Point>) {
    h.n != Point(0.0, 0.0) && forall i | 0 <= i < |pts| :: Level(h, pts[i]) <= 0.0
  }

  lemma EdgeSupports(poly: seq<Point>, i: nat, pts: seq<Point>)
    requires Surrounds(poly, pts) && NoEmptyEdge(poly) && i < |poly|
    ensures Supports(EdgePlane(poly, i), pts)
  {
    NormalNotZero(poly, i);
    forall j | 0 <= j < |pts| ensures Level(EdgePlane(poly, i), pts[j]) <= 0.0 {
      SideOfPlane(poly, i, pts[j]);
      assert Side(poly[i], Next(poly, i), pts[j]) >= 0.0;
    }
  }

  lemma InsideIffInAll(poly: seq<Point>, p: Point)
    ensures Inside(p, poly) <==> InAll(EdgePlanes(poly), p)
  {
    forall i | 0 <= i < |poly|
      ensures Side(poly[i], Next(poly, i), p) > 0.0 <==> In(EdgePlanes(poly)[i], p)
    {
      SideOfPlane(poly, i, p);
    }
  }

  // ---- what a contradiction between edges means -----------------------------------------------------------------

  lemma BalanceAt(f: HalfPlane, u: real, g: HalfPlane, v: real, h: HalfPlane, w: real, p: Point)
    requires Balance(f, u, g, v, h, w)
    ensures u * Level(f, p) + v * Level(g, p) + w * Level(h, p) >= 0.0
  {
    Spread(u, f, p);
    Spread(v, g, p);
    Spread(w, h, p);
    var x, y := u * f.n.x + v * g.n.x + w * h.n.x, u * f.n.y + v * g.n.y + w * h.n.y;
    assert x * p.x + y * p.y == 0.0;
    assert x * p.x == u * f.n.x * p.x + v * g.n.x * p.x + w * h.n.x * p.x;
    assert y * p.y == u * f.n.y * p.y + v * g.n.y * p.y + w * h.n.y * p.y;
  }

  /** Nothing negative weighs in. */
  lemma NotAbove(u: real, a: real)
    requires u >= 0.0 && a <= 0.0
    ensures u * a <= 0.0 && (u > 0.0 && u * a == 0.0 ==> a == 0.0)
  {
    Products(u, 0.0 - a);
  }

  /** Half-planes that contradict each other although all points are in them or on their edges: a flat outline. */
  lemma FlatWhere(f: HalfPlane, u: real, g: HalfPlane, v: real, h: HalfPlane, w: real, pts: seq<Point>)
    requires Balance(f, u, g, v, h, w)
    requires (u == 0.0 || Supports(f, pts)) && (v == 0.0 || Supports(g, pts)) && (w == 0.0 || Supports(h, pts))
    ensures Flat(pts)
  {
    var chosen := if u > 0.0 then f else if v > 0.0 then g else h;
    forall i | 0 <= i < |pts| ensures Level(chosen, pts[i]) == 0.0 {
      BalanceAt(f, u, g, v, h, w, pts[i]);
      if u > 0.0 { NotAbove(u, Level(f, pts[i])); }
      if v > 0.0 { NotAbove(v, Level(g, pts[i])); }
      if w > 0.0 { NotAbove(w, Level(h, pts[i])); }
    }
    assert AllOn(chosen.n, chosen.c, pts);
  }

  /** Points in two of the half-planes are beyond the third. */
  lemma Beyond(f: HalfPlane, u: real, g: HalfPlane, v: real, h: HalfPlane, w: real, p: Point)
    requires Balance(f, u, g, v, h, w) && u > 0.0 && Level(g, p) <= 0.0 && Level(h, p) <= 0.0
    ensures Level(f, p) >= 0.0
  {
    hide Level;
    BalanceAt(f, u, g, v, h, w, p);
    NotAbove(v, Level(g, p));
    NotAbove(w, Level(h, p));
    NotBelow(u, Level(f, p));
  }

  /** One edge against two of the other outline: the one separates. */
  lemma OneAgainstTwo(a: seq<Point>, b: seq<Point>, i: nat, u: real, g: HalfPlane, v: real, h: HalfPlane, w: real)
    requires ConvexOutline(a) && ConvexOutline(b) && i < |a| && Supports(g, b) && Supports(h, b)
    requires Balance(EdgePlane(a, i), u, g, v, h, w)
    ensures Separates(Normal(a, i), a, b)
  {
    var f := EdgePlane(a, i);
    EdgeSupports(a, i, a);
    if u == 0.0 {
      FlatWhere(f, u, g, v, h, w, b);
    } else {
      assert u > 0.0;
      hide Balance, Dot;
      forall j | 0 <= j < |b| ensures Level(f, b[j]) >= 0.0 { Beyond(f, u, g, v, h, w, b[j]); }
      CutByPlane(f, a, b);
    }
  }

  lemma CutByPlane(f: HalfPlane, a: seq<Point>, b: seq<Point>)
    requires Supports(f, a) && forall j | 0 <= j < |b| :: Level(f, b[j]) >= 0.0
    ensures Apart(f.n, b, a)
  {
    forall i | 0 <= i < |a| ensures Dot(f.n, a[i]) >= f.c { assert Level(f, a[i]) <= 0.0; }
    forall j | 0 <= j < |b| ensures Dot(f.n, b[j]) <= f.c { assert Level(f, b[j]) >= 0.0; }
    assert CutAt(f.n, f.c, b, a);
  }

  lemma NotBelow(u: real, a: real)
    requires u > 0.0 && u * a >= 0.0
    ensures a >= 0.0
  {
  }

  ghost predicate Missed(a: seq<Point>, b: seq<Point>) {
    SomeNormalSeparates(a, |a|, a, b) || SomeNormalSeparates(b, |b|, a, b)
  }

  lemma BalanceTurned(f: HalfPlane, u: real, g: HalfPlane, v: real, h: HalfPlane, w: real)
    requires Balance(f, u, g, v, h, w)
    ensures Balance(g, v, f, u, h, w) && Balance(h, w, f, u, g, v)
  {
  }

  lemma MissedByFirst(a: seq<Point>, b: seq<Point>, i: nat)
    requires i < |a| && Separates(Normal(a, i), a, b)
    ensures Missed(a, b)
  {
  }

  lemma MissedBySecond(a: seq<Point>, b: seq<Point>, i: nat)
    requires i < |b| && Separates(Normal(b, i), b, a)
    ensures Missed(a, b)
  {
    assert Separates(Normal(b, i), a, b);
  }

  lemma NotFlat(a: seq<Point>)
    requires ConvexOutline(a)
    ensures !Flat(a)
  {
  }

  lemma EdgeOf(a: seq<Point>, b: seq<Point>, l: nat)
    requires ConvexOutline(a) && ConvexOutline(b) && l < |a| + |b|
    ensures var plane := (EdgePlanes(a) + EdgePlanes(b))[l];
            if l < |a| then plane == EdgePlane(a, l) && Supports(plane, a)
            else plane == EdgePlane(b, l - |a|) && Supports(plane, b)
  {
    hide Supports, EdgePlane, Surrounds, NoEmptyEdge, Flat;
    if l < |a| { EdgeSupports(a, l, a); } else { EdgeSupports(b, l - |a|, b); }
  }

  /** Three edges that contradict each other: an edge of one of the outlines separates them. */
  lemma ContradictionMisses(a: seq<Point>, b: seq<Point>, i: nat, u: real, j: nat, v: real, k: nat, w: real)
    requires ConvexOutline(a) && ConvexOutline(b)
    requires i < |a| + |b| && j < |a| + |b| && k < |a| + |b|
    requires var hs := EdgePlanes(a) + EdgePlanes(b); Balance(hs[i], u, hs[j], v, hs[k], w)
    ensures Missed(a, b)
  {
    hide Balance, Supports, Separates, ConvexOutline, EdgePlane, Flat, Missed;
    var n, hs := |a|, EdgePlanes(a) + EdgePlanes(b);
    var f, g, h := hs[i], hs[j], hs[k];
    EdgeOf(a, b, i);
    EdgeOf(a, b, j);
    EdgeOf(a, b, k);
    BalanceTurned(f, u, g, v, h, w);
    NotFlat(a);
    NotFlat(b);
    if i < n && j < n && k < n {
      FlatWhere(f, u, g, v, h, w, a);
    } else if i >= n && j >= n && k >= n {
      FlatWhere(f, u, g, v, h, w, b);
    } else if i < n && j >= n && k >= n {
      OneAgainstTwo(a, b, i, u, g, v, h, w);
      MissedByFirst(a, b, i);
    } else if j < n && i >= n && k >= n {
      OneAgainstTwo(a, b, j, v, f, u, h, w);
      MissedByFirst(a, b, j);
    } else if k < n && i >= n && j >= n {
      OneAgainstTwo(a, b, k, w, f, u, g, v);
      MissedByFirst(a, b, k);
    } else if i >= n {
      OneAgainstTwo(b, a, i - n, u, g, v, h, w);
      MissedBySecond(a, b, i - n);
    } else if j >= n {
      OneAgainstTwo(b, a, j - n, v, f, u, h, w);
      MissedBySecond(a, b, j - n);
    } else {
      OneAgainstTwo(b, a, k - n, w, f, u, g, v);
      MissedBySecond(a, b, k - n);
    }
  }

  // ---- a hit shares an area ---------------------------------------------------------------------------------

  /** A small triangle (and with it a small square) lies in both hulls. */
  ghost predicate ShareArea(a: seq<Point>, b: seq<Point>) {
    exists p: Point, r: real :: r > 0.0 && TriangleIn(p, r, a) && TriangleIn(p, r, b)
  }

  ghost predicate TriangleIn(p: Point, r: real, poly: seq<Point>) {
    InHull(p, poly) && InHull(Point(p.x + r, p.y), poly) && InHull(Point(p.x, p.y + r), poly)
  }

  /** Outlines no edge of which separates them have a point inside both. */
  lemma HitMeets(a: seq<Point>, b: seq<Point>) returns (p: Point)
    requires ConvexOutline(a) && ConvexOutline(b) && !Missed(a, b)
    ensures Inside(p, a) && Inside(p, b)
  {
    var hs := EdgePlanes(a) + EdgePlanes(b);
    var free, i, j, k, u, v, w;
    free, p, i, j, k, u, v, w := InPlane(hs);
    if free {
      assert forall l | 0 <= l < |a| :: EdgePlanes(a)[l] == hs[l];
      assert forall l | 0 <= l < |b| :: EdgePlanes(b)[l] == hs[|a| + l];
      InsideIffInAll(a, p);
      InsideIffInAll(b, p);
    } else {
      ContradictionMisses(a, b, i, u, j, v, k, w);
    }
  }

  /** Inside an outline there is room for a small triangle. */
  lemma RoomInside(poly: seq<Point>, p: Point) returns (far: real)
    requires poly != [] && Inside(p, poly)
    ensures far > 0.0 && forall r | 0.0 < r <= far :: TriangleIn(p, r, poly)
  {
    InsideIffInAll(poly, p);
    var hs, right, up := EdgePlanes(poly), Point(1.0, 0.0), Point(0.0, 1.0);
    var x := Room(hs, p, right);
    var y := Room(hs, p, up);
    far := if x < y then x else y;
    forall r | 0.0 < r <= far ensures TriangleIn(p, r, poly) {
      assert InAll(hs, Moved(p, right, r));
      assert InAll(hs, Moved(p, up, r));
      assert Moved(p, right, r) == Point(p.x + r, p.y) && Moved(p, up, r) == Point(p.x, p.y + r);
      InsideIffInAll(poly, Moved(p, right, r));
      InsideIffInAll(poly, Moved(p, up, r));
      InsideInHull(p, poly);
      InsideInHull(Moved(p, right, r), poly);
      InsideInHull(Moved(p, up, r), poly);
    }
  }

  lemma HitSharesArea(a: seq<Point>, b: seq<Point>)
    requires ConvexOutline(a) && ConvexOutline(b) && !Missed(a, b)
    ensures ShareArea(a, b)
  {
    var p := HitMeets(a, b);
    var x := RoomInside(a, p);
    var y := RoomInside(b, p);
    var r := if x < y then x else y;
    assert TriangleIn(p, r, a) && TriangleIn(p, r, b);
  }

  /** The test answers yes exactly if the hulls share an area. */
  lemma HitIffArea(a: seq<Point>, b: seq<Point>)
    requires ConvexOutline(a) && ConvexOutline(b)
    ensures !Missed(a, b) <==> ShareArea(a, b)
  {
    if Missed(a, b) {
      MissOnOneLine(a, b);
      forall p: Point, r: real | r > 0.0 ensures !(TriangleIn(p, r, a) && TriangleIn(p, r, b)) {
        NoCommonSquare(a, b, p, r);
      }
    } else {
      HitSharesArea(a, b);
    }
  }
}
