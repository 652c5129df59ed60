/** The overlap test for convex outlines (`_convex_hit` in `scripts/emit-keycloak-theme-art.py`). */
module SeparatingAxis {
  import opened Plane
  import opened Hull

  // ---- hulls -------------------------------------------------------------------------------------------

  function Sum(ws: seq<real>): real {
    if ws == [] then 0.0 else Sum(ws[..|ws| - 1]) + ws[|ws| - 1]
  }

  /** The weighted sum of the corners. */
  function Combine(ws: seq<real>, poly: seq<Point>): Point
    requires |ws| == |poly|
  {
    if ws == [] then Point(0.0, 0.0)
    else
      var k := |ws| - 1;
      var before := Combine(ws[..k], poly[..k]);
      Point(before.x + ws[k] * poly[k].x, before.y + ws[k] * poly[k].y)
  }

  ghost predicate Weights(ws: seq<real>, n: nat) {
    |ws| == n && (forall i | 0 <= i < n :: ws[i] >= 0.0) && Sum(ws) == 1.0
  }

  /** A point of the convex hull. */
  ghost predicate InHull(p: Point, poly: seq<Point>) {
    exists ws :: Weights(ws, |poly|) && Combine(ws, poly) == p
  }

  // ---- projections ---------------------------------------------------------------------------------------

  function Projected(n: Point, poly: seq<Point>): seq<real> {
    seq(|poly|, i requires 0 <= i < |poly| => Dot(n, poly[i]))
  }

  method Max(xs: seq<real>) returns (m: real)
    requires xs != []
    ensures m in xs && forall x | x in xs :: x <= m
  {
    m := xs[0];
    for i := 1 to |xs|
      invariant m in xs && forall k | 0 <= k < i :: xs[k] <= m
    {
      if xs[i] > m { m := xs[i]; }
    }
  }

  method Min(xs: seq<real>) returns (m: real)
    requires xs != []
    ensures m in xs && forall x | x in xs :: m <= x
  {
    m := xs[0];
    for i := 1 to |xs|
      invariant m in xs && forall k | 0 <= k < i :: m <= xs[k]
    {
      if xs[i] < m { m := xs[i]; }
    }
  }

  lemma DotStep(n: Point, w: real, p: Point, before: Point)
    ensures Dot(n, Point(before.x + w * p.x, before.y + w * p.y)) == Dot(n, before) + w * Dot(n, p)
  {
  }

  /** The projection of a weighted sum lies within that of the corners. */
  lemma {:induction false} CombineBelow(n: Point, ws: seq<real>, poly: seq<Point>, m: real)
    requires |ws| == |poly| && (forall i | 0 <= i < |ws| :: ws[i] >= 0.0)
             && forall i | 0 <= i < |poly| :: Dot(n, poly[i]) <= m
    ensures Dot(n, Combine(ws, poly)) <= Sum(ws) * m
  {
    if ws != [] {
      var k := |ws| - 1;
      CombineBelow(n, ws[..k], poly[..k], m);
      DotStep(n, ws[k], poly[k], Combine(ws[..k], poly[..k]));
      Scaled(ws[k], Dot(n, poly[k]), m);
    }
  }

  lemma DotNegated(n: Point, p: Point)
    ensures Dot(n.Negated(), p) == 0.0 - Dot(n, p)
  {
  }

  lemma HullBelow(n: Point, p: Point, poly: seq<Point>, m: real)
    requires InHull(p, poly) && forall i | 0 <= i < |poly| :: Dot(n, poly[i]) <= m
    ensures Dot(n, p) <= m
  {
    var ws :| Weights(ws, |poly|) && Combine(ws, poly) == p;
    CombineBelow(n, ws, poly, m);
  }

  lemma HullAbove(n: Point, p: Point, poly: seq<Point>, m: real)
    requires InHull(p, poly) && forall i | 0 <= i < |poly| :: Dot(n, poly[i]) >= m
    ensures Dot(n, p) >= m
  {
    forall i | 0 <= i < |poly| ensures Dot(n.Negated(), poly[i]) <= 0.0 - m { DotNegated(n, poly[i]); }
    HullBelow(n.Negated(), p, poly, 0.0 - m);
    DotNegated(n, p);
  }

  // ---- the test --------------------------------------------------------------------------------------------

  function Normal(poly: seq<Point>, i: nat): Point
    requires i < |poly|
  {
    var e := Next(poly, i).Minus(poly[i]); Point(0.0 - e.y, e.x)
  }

  /** Along n, one outline is up to m and the other from m on. */
  ghost predicate CutAt(n: Point, m: real, a: seq<Point>, b: seq<Point>) {
    (forall i | 0 <= i < |a| :: Dot(n, a[i]) <= m) && (forall i | 0 <= i < |b| :: Dot(n, b[i]) >= m)
  }

  ghost predicate Apart(n: Point, a: seq<Point>, b: seq<Point>) {
    exists m :: CutAt(n, m, a, b)
  }

  ghost predicate Separates(n: Point, a: seq<Point>, b: seq<Point>) {
    Apart(n, a, b) || Apart(n, b, a)
  }

  method Separated(n: Point, a: seq<Point>, b: seq<Point>) returns (apart: bool)
    requires a != [] && b != []
    ensures apart <==> Separates(n, a, b)
  {
    var maxA := Max(Projected(n, a));
    var minA := Min(Projected(n, a));
    var maxB := Max(Projected(n, b));
    var minB := Min(Projected(n, b));
    apart := maxA <= minB || maxB <= minA;
    ApartIff(n, a, b, maxA, minB);
    ApartIff(n, b, a, maxB, minA);
  }

  ghost predicate IsMax(m: real, n: Point, poly: seq<Point>) {
    m in Projected(n, poly) && forall x | x in Projected(n, poly) :: x <= m
  }

  ghost predicate IsMin(m: real, n: Point, poly: seq<Point>) {
    m in Projected(n, poly) && forall x | x in Projected(n, poly) :: m <= x
  }

  lemma ApartIff(n: Point, a: seq<Point>, b: seq<Point>, high: real, low: real)
    requires IsMax(high, n, a) && IsMin(low, n, b)
    ensures high <= low <==> Apart(n, a, b)
  {
    forall i | 0 <= i < |a| ensures Dot(n, a[i]) <= high { assert Projected(n, a)[i] in Projected(n, a); }
    forall i | 0 <= i < |b| ensures Dot(n, b[i]) >= low { assert Projected(n, b)[i] in Projected(n, b); }
    var i :| 0 <= i < |a| && Projected(n, a)[i] == high;
    var j :| 0 <= j < |b| && Projected(n, b)[j] == low;
    if high <= low { assert CutAt(n, high, a, b); }
  }

  ghost predicate SomeNormalSeparates(poly: seq<Point>, upTo: nat, a: seq<Point>, b: seq<Point>)
    requires upTo <= |poly|
  {
    exists i :: 0 <= i < upTo && Separates(Normal(poly, i), a, b)
  }

  method AnyNormal(poly: seq<Point>, a: seq<Point>, b: seq<Point>) returns (found: bool)
    requires a != [] && b != []
    ensures found <==> SomeNormalSeparates(poly, |poly|, a, b)
  {
    found := false;
    for i := 0 to |poly|
      invariant !found && !SomeNormalSeparates(poly, i, a, b)
    {
      found := Separated(Normal(poly, i), a, b);
      if found { return; }
    }
  }

  /** Two outlines are taken to overlap unless some edge of either separates them. */
  method ConvexHit(a: seq<Point>, b: seq<Point>) returns (hit: bool)
    requires a != [] && b != []
    ensures !hit <==> SomeNormalSeparates(a, |a|, a, b) || SomeNormalSeparates(b, |b|, a, b)
  {
    var found := AnyNormal(a, a, b);
    if !found { found := AnyNormal(b, a, b); }
    hit := !found;
  }

  // ---- what a miss means --------------------------------------------------------------------------------------

  lemma ApartTouches(n: Point, a: seq<Point>, b: seq<Point>, m: real, p: Point)
    requires CutAt(n, m, a, b) && InHull(p, a) && InHull(p, b)
    ensures Dot(n, p) == m
  {
    HullBelow(n, p, a, m);
    HullAbove(n, p, b, m);
  }

  /** The points two hulls share lie on one line. */
  ghost predicate OnOneLine(a: seq<Point>, b: seq<Point>) {
    exists n: Point, m: real :: (n.x != 0.0 || n.y != 0.0) && AllAt(n, m, a, b)
  }

  ghost predicate AllAt(n: Point, m: real, a: seq<Point>, b: seq<Point>) {
    forall p | InHull(p, a) && InHull(p, b) :: Dot(n, p) == m
  }

  lemma SeparatedLine(n: Point, a: seq<Point>, b: seq<Point>)
    requires Separates(n, a, b) && (n.x != 0.0 || n.y != 0.0)
    ensures OnOneLine(a, b)
  {
    if Apart(n, a, b) {
      var m :| CutAt(n, m, a, b);
      forall p | InHull(p, a) && InHull(p, b) ensures Dot(n, p) == m { ApartTouches(n, a, b, m, p); }
      assert AllAt(n, m, a, b);
    } else {
      var m :| CutAt(n, m, b, a);
      forall p | InHull(p, a) && InHull(p, b) ensures Dot(n, p) == m { ApartTouches(n, b, a, m, p); }
      assert AllAt(n, m, a, b);
    }
  }

  lemma NormalNotZero(poly: seq<Point>, i: nat)
    requires NoEmptyEdge(poly) && i < |poly|
    ensures Normal(poly, i).x != 0.0 || Normal(poly, i).y != 0.0
  {
    assert poly[i] != Next(poly, i);
  }

  /** A miss: outlines without empty edges share at most points of one line. */
  lemma MissOnOneLine(a: seq<Point>, b: seq<Point>)
    requires NoEmptyEdge(a) && NoEmptyEdge(b)
    requires SomeNormalSeparates(a, |a|, a, b) || SomeNormalSeparates(b, |b|, a, b)
    ensures OnOneLine(a, b)
  {
    if i :| 0 <= i < |a| && Separates(Normal(a, i), a, b) {
      NormalNotZero(a, i);
      SeparatedLine(Normal(a, i), a, b);
    } else {
      var j :| 0 <= j < |b| && Separates(Normal(b, j), a, b);
      NormalNotZero(b, j);
      SeparatedLine(Normal(b, j), a, b);
    }
  }

  /** Then no square, however small, lies within both. */
  lemma NoCommonSquare(a: seq<Point>, b: seq<Point>, p: Point, r: real)
    requires OnOneLine(a, b) && r > 0.0
    ensures !(InHull(p, a) && InHull(p, b)
              && InHull(Point(p.x + r, p.y), a) && InHull(Point(p.x + r, p.y), b)
              && InHull(Point(p.x, p.y + r), a) && InHull(Point(p.x, p.y + r), b))
  {
    var n: Point, m: real :| (n.x != 0.0 || n.y != 0.0) && AllAt(n, m, a, b);
    DotCorners(n, p, r);
    NonZero(n.x, r);
    NonZero(n.y, r);
    hide Dot, InHull;
  }

  lemma DotCorners(n: Point, p: Point, r: real)
    ensures Dot(n, Point(p.x + r, p.y)) == Dot(n, p) + n.x * r
    ensures Dot(n, Point(p.x, p.y + r)) == Dot(n, p) + n.y * r
  {
  }

  lemma NonZero(a: real, r: real)
    requires r > 0.0
    ensures a * r == 0.0 ==> a == 0.0
  {
  }
}
