/** What lies in a convex hull: corners, blends of its points, and whatever is strictly inside an outline. */
module ConvexHulls {
  import opened Plane
  import opened Hull
  import opened SeparatingAxis

  // ---- blending ---------------------------------------------------------------------------------------------

  function Blend(u: real, a: Point, v: real, b: Point, w: real, c: Point): Point {
    Point(u * a.x + v * b.x + w * c.x, u * a.y + v * b.y + w * c.y)
  }

  function Added(p: Point, w: real, q: Point): Point {
    Point(p.x + w * q.x, p.y + w * q.y)
  }

  function BlendWeights(u: real, xs: seq<real>, v: real, ys: seq<real>, w: real, zs: seq<real>): seq<real>
    requires |xs| == |ys| == |zs|
  {
    seq(|xs|, k requires 0 <= k < |xs| => WeightOf(u, xs[k], v, ys[k], w, zs[k]))
  }

  function WeightOf(u: real, x: real, v: real, y: real, w: real, z: real): real {
    u * x + v * y + w * z
  }

  lemma BlendPrefix(u: real, xs: seq<real>, v: real, ys: seq<real>, w: real, zs: seq<real>, k: nat)
    requires |xs| == |ys| == |zs| && k <= |xs|
    ensures BlendWeights(u, xs, v, ys, w, zs)[..k] == BlendWeights(u, xs[..k], v, ys[..k], w, zs[..k])
  {
    hide WeightOf;
  }

  lemma Distributed(u: real, a: real, b: real)
    ensures u * (a + b) == u * a + u * b
  {
  }

  lemma Grouped(s: real, x: real, p: real)
    ensures s * (x * p) == s * x * p
  {
  }

  lemma BlendStep(u: real, a: real, x: real, v: real, b: real, y: real, w: real, c: real, z: real, p: real)
    ensures u * (a + x * p) + v * (b + y * p) + w * (c + z * p) ==
            u * a + v * b + w * c + WeightOf(u, x, v, y, w, z) * p
  {
    Distributed(u, a, x * p);
    Distributed(v, b, y * p);
    Distributed(w, c, z * p);
    Grouped(u, x, p);
    Grouped(v, y, p);
    Grouped(w, z, p);
    assert (u * x + v * y + w * z) * p == u * x * p + v * y * p + w * z * p;
  }

  lemma BlendAdded(u: real, a: Point, x: real, v: real, b: Point, y: real, w: real, c: Point, z: real, p: Point)
    ensures Blend(u, Added(a, x, p), v, Added(b, y, p), w, Added(c, z, p)) ==
            Added(Blend(u, a, v, b, w, c), WeightOf(u, x, v, y, w, z), p)
  {
    BlendStep(u, a.x, x, v, b.x, y, w, c.x, z, p.x);
    BlendStep(u, a.y, x, v, b.y, y, w, c.y, z, p.y);
    hide WeightOf;
  }

  lemma {:induction false} BlendSum(u: real, xs: seq<real>, v: real, ys: seq<real>, w: real, zs: seq<real>)
    requires |xs| == |ys| == |zs|
    ensures Sum(BlendWeights(u, xs, v, ys, w, zs)) == u * Sum(xs) + v * Sum(ys) + w * Sum(zs)
  {
    if xs != [] {
      var k, all := |xs| - 1, BlendWeights(u, xs, v, ys, w, zs);
      BlendPrefix(u, xs, v, ys, w, zs, k);
      BlendSum(u, xs[..k], v, ys[..k], w, zs[..k]);
      Distributed(u, Sum(xs[..k]), xs[k]);
      Distributed(v, Sum(ys[..k]), ys[k]);
      Distributed(w, Sum(zs[..k]), zs[k]);
    }
  }

  lemma CombineLast(ws: seq<real>, poly: seq<Point>)
    requires |ws| == |poly| && ws != []
    ensures var k := |ws| - 1;
            var before := Combine(ws[..k], poly[..k]);
            && Combine(ws, poly) == Added(before, ws[k], poly[k])
            && Sum(ws) == Sum(ws[..k]) + ws[k]
  {
  }

  lemma {:induction false} BlendCombine(u: real, xs: seq<real>, v: real, ys: seq<real>, w: real, zs: seq<real>,
                                        poly: seq<Point>)
    requires |xs| == |ys| == |zs| == |poly|
    ensures Combine(BlendWeights(u, xs, v, ys, w, zs), poly) ==
            Blend(u, Combine(xs, poly), v, Combine(ys, poly), w, Combine(zs, poly))
  {
    if xs != [] {
      hide Combine, Added, Blend, WeightOf;
      var k, all, p := |xs| - 1, BlendWeights(u, xs, v, ys, w, zs), poly[|xs| - 1];
      BlendPrefix(u, xs, v, ys, w, zs, k);
      BlendCombine(u, xs[..k], v, ys[..k], w, zs[..k], poly[..k]);
      CombineLast(xs, poly);
      CombineLast(ys, poly);
      CombineLast(zs, poly);
      CombineLast(all, poly);
      var a, b, c := Combine(xs[..k], poly[..k]), Combine(ys[..k], poly[..k]), Combine(zs[..k], poly[..k]);
      BlendAdded(u, a, xs[k], v, b, ys[k], w, c, zs[k], p);
    } else {
      assert BlendWeights(u, xs, v, ys, w, zs) == [];
    }
  }

  lemma BlendPositive(u: real, xs: seq<real>, v: real, ys: seq<real>, w: real, zs: seq<real>)
    requires |xs| == |ys| == |zs| && u >= 0.0 && v >= 0.0 && w >= 0.0
    requires forall k | 0 <= k < |xs| :: xs[k] >= 0.0 && ys[k] >= 0.0 && zs[k] >= 0.0
    ensures forall k | 0 <= k < |xs| :: BlendWeights(u, xs, v, ys, w, zs)[k] >= 0.0
  {
    forall k | 0 <= k < |xs| ensures BlendWeights(u, xs, v, ys, w, zs)[k] >= 0.0 {
      Products(u, xs[k]);
      Products(v, ys[k]);
      Products(w, zs[k]);
    }
  }

  /** A hull holds the blends of its points. */
  lemma BlendInHull(u: real, a: Point, v: real, b: Point, w: real, c: Point, poly: seq<Point>)
    requires InHull(a, poly) && InHull(b, poly) && InHull(c, poly)
    requires u >= 0.0 && v >= 0.0 && w >= 0.0 && u + v + w == 1.0
    ensures InHull(Blend(u, a, v, b, w, c), poly)
  {
    var xs :| Weights(xs, |poly|) && Combine(xs, poly) == a;
    var ys :| Weights(ys, |poly|) && Combine(ys, poly) == b;
    var zs :| Weights(zs, |poly|) && Combine(zs, poly) == c;
    BlendPositive(u, xs, v, ys, w, zs);
    BlendSum(u, xs, v, ys, w, zs);
    BlendCombine(u, xs, v, ys, w, zs, poly);
    assert Weights(BlendWeights(u, xs, v, ys, w, zs), |poly|);
  }

  // ---- corners ------------------------------------------------------------------------------------------------

  function Only(n: nat, i: int): seq<real> {
    seq(n, k => if k == i then 1.0 else 0.0)
  }

  lemma {:induction false} OnlySum(poly: seq<Point>, i: int)
    requires i < |poly|
    ensures Sum(Only(|poly|, i)) == if i < 0 then 0.0 else 1.0
    ensures Combine(Only(|poly|, i), poly) == if i < 0 then Point(0.0, 0.0) else poly[i]
  {
    if poly == [] {
      assert Only(0, i) == [];
    } else {
      var k := |poly| - 1;
      assert Only(|poly|, i)[..k] == if i == k then Only(k, -1) else Only(k, i);
      OnlySum(poly[..k], if i == k then -1 else i);
    }
  }

  lemma CornerInHull(poly: seq<Point>, i: nat)
    requires i < |poly|
    ensures InHull(poly[i], poly)
  {
    OnlySum(poly, i);
    assert Weights(Only(|poly|, i), |poly|);
  }

  /** What corners that lie in a hull span lies in it. */
  lemma {:induction false} CombineIn(ws: seq<real>, poly: seq<Point>, pts: seq<Point>) returns (vs: seq<real>)
    requires |ws| == |poly| && (forall i | 0 <= i < |ws| :: ws[i] >= 0.0)
    requires forall i | 0 <= i < |poly| :: InHull(poly[i], pts)
    ensures |vs| == |pts| && (forall i | 0 <= i < |vs| :: vs[i] >= 0.0)
    ensures Sum(vs) == Sum(ws) && Combine(vs, pts) == Combine(ws, poly)
  {
    if ws == [] {
      vs := Only(|pts|, -1);
      OnlySum(pts, -1);
    } else {
      var k := |ws| - 1;
      var before := CombineIn(ws[..k], poly[..k], pts);
      hide Combine, Sum, Added;
      CombineLast(ws, poly);
      var last :| Weights(last, |pts|) && Combine(last, pts) == poly[k];
      vs := AddedWeights(before, ws[k], last, pts);
    }
  }

  lemma AddedWeights(xs: seq<real>, v: real, ys: seq<real>, pts: seq<Point>) returns (vs: seq<real>)
    requires |xs| == |pts| && (forall i | 0 <= i < |xs| :: xs[i] >= 0.0) && v >= 0.0 && Weights(ys, |pts|)
    ensures |vs| == |pts| && (forall i | 0 <= i < |vs| :: vs[i] >= 0.0) && Sum(vs) == Sum(xs) + v
    ensures Combine(vs, pts) == Added(Combine(xs, pts), v, Combine(ys, pts))
  {
    vs := BlendWeights(1.0, xs, v, ys, 0.0, ys);
    BlendPositive(1.0, xs, v, ys, 0.0, ys);
    BlendSum(1.0, xs, v, ys, 0.0, ys);
    BlendCombine(1.0, xs, v, ys, 0.0, ys, pts);
    AddedIsBlend(Combine(xs, pts), v, Combine(ys, pts));
    TimesOne(v, Sum(ys));
    hide Combine, Sum, Blend, Added, BlendWeights;
  }

  lemma AddedIsBlend(a: Point, v: real, b: Point)
    ensures Blend(1.0, a, v, b, 0.0, b) == Added(a, v, b)
  {
  }

  lemma TimesOne(v: real, s: real)
    requires s == 1.0
    ensures v * s == v
  {
  }

  lemma HullOfSome(p: Point, poly: seq<Point>, pts: seq<Point>)
    requires InHull(p, poly) && forall q | q in poly :: q in pts
    ensures InHull(p, pts)
  {
    forall i | 0 <= i < |poly| ensures InHull(poly[i], pts) {
      assert poly[i] in pts;
      var j :| 0 <= j < |pts| && pts[j] == poly[i];
      CornerInHull(pts, j);
    }
    var ws :| Weights(ws, |poly|) && Combine(ws, poly) == p;
    var vs := CombineIn(ws, poly, pts);
    assert Weights(vs, |pts|);
  }

  // ---- inside an outline ------------------------------------------------------------------------------------

  /** Strictly on the left of every edge. */
  ghost predicate Inside(p: Point, poly: seq<Point>) {
    forall i | 0 <= i < |poly| :: Side(poly[i], Next(poly, i), p) > 0.0
  }

  lemma SideTurned(a: Point, b: Point, p: Point)
    ensures Side(b, a, p) == 0.0 - Side(a, b, p) && Side(a, a, p) == 0.0
  {
  }

  /** Among the triangles that fan out from the first corner, one holds the point. */
  lemma Fan(poly: seq<Point>, p: Point) returns (i: nat)
    requires poly != [] && Inside(p, poly)
    ensures 0 < i < |poly| - 1 && Side(poly[0], poly[i], p) > 0.0 && Side(poly[0], poly[i + 1], p) <= 0.0
  {
    var n := |poly|;
    hide Side;
    SideTurned(poly[0], poly[n - 1], p);
    assert Side(poly[n - 1], Next(poly, n - 1), p) > 0.0;
    assert Side(poly[0], Next(poly, 0), p) > 0.0;
    i := 1;
    while Side(poly[0], poly[i + 1], p) > 0.0
      decreases n - i
      invariant 0 < i < n - 1 && Side(poly[0], poly[i], p) > 0.0
    {
      i := i + 1;
    }
  }

  lemma Barycentric(a: Point, b: Point, c: Point, p: Point)
    ensures var u, v, w := Side(b, c, p), Side(c, a, p), Side(a, b, p);
            Blend(u, a, v, b, w, c) == Point((u + v + w) * p.x, (u + v + w) * p.y)
  {
  }

  lemma BlendScaled(u: real, a: Point, v: real, b: Point, w: real, c: Point, d: real, p: Point)
    requires d > 0.0 && Blend(u, a, v, b, w, c) == Point(d * p.x, d * p.y)
    ensures Blend(u / d, a, v / d, b, w / d, c) == p
  {
    DividedSum(u, a.x, v, b.x, w, c.x, d, p.x);
    DividedSum(u, a.y, v, b.y, w, c.y, d, p.y);
  }

  lemma DividedSum(u: real, a: real, v: real, b: real, w: real, c: real, d: real, p: real)
    requires d > 0.0 && u * a + v * b + w * c == d * p
    ensures u / d * a + v / d * b + w / d * c == p
  {
    var x, y, z := u / d, v / d, w / d;
    assert u == x * d && v == y * d && w == z * d;
    assert u * a == x * a * d && v * b == y * b * d && w * c == z * c * d;
    Cancelled(x * a + y * b + z * c, p, d);
  }

  lemma Cancelled(s: real, p: real, d: real)
    requires d > 0.0 && s * d == d * p
    ensures s == p
  {
  }

  lemma Quotient(u: real, d: real)
    requires u >= 0.0 && d > 0.0
    ensures u / d >= 0.0
  {
  }

  lemma QuotientsSum(u: real, v: real, w: real, d: real)
    requires d > 0.0 && u + v + w == d
    ensures u / d + v / d + w / d == 1.0
  {
  }

  lemma TriangleInHull(poly: seq<Point>, a: Point, b: Point, c: Point, p: Point)
    requires InHull(a, poly) && InHull(b, poly) && InHull(c, poly)
    requires Side(a, b, p) > 0.0 && Side(b, c, p) > 0.0 && Side(a, c, p) <= 0.0
    ensures InHull(p, poly)
  {
    hide Side, InHull;
    var u, v, w := Side(b, c, p), Side(c, a, p), Side(a, b, p);
    SideTurned(a, c, p);
    var d := u + v + w;
    Barycentric(a, b, c, p);
    BlendScaled(u, a, v, b, w, c, d, p);
    Quotient(u, d);
    Quotient(v, d);
    Quotient(w, d);
    QuotientsSum(u, v, w, d);
    BlendInHull(u / d, a, v / d, b, w / d, c, poly);
  }

  /** What is strictly on the left of all edges of a closed outline lies in its hull. */
  lemma InsideInHull(p: Point, poly: seq<Point>)
    requires poly != [] && Inside(p, poly)
    ensures InHull(p, poly)
  {
    var i := Fan(poly, p);
    CornerInHull(poly, 0);
    CornerInHull(poly, i);
    CornerInHull(poly, i + 1);
    assert Side(poly[i], Next(poly, i), p) > 0.0;
    TriangleInHull(poly, poly[0], poly[i], poly[i + 1], p);
  }
}
