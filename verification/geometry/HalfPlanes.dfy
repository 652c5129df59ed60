/** Open half-planes: either some point lies in all of a list, or two or three of them leave no room. */
module HalfPlanes {
  import opened Plane

  datatype HalfPlane = HalfPlane(n: Point, c: real)

  predicate In(h: HalfPlane, p: Point) {
    Dot(h.n, p) > h.c
  }

  predicate InAll(hs: seq<HalfPlane>, p: Point) {
    forall k | 0 <= k < |hs| :: In(hs[k], p)
  }

  function Moved(o: Point, d: Point, t: real): Point {
    Point(o.x + t * d.x, o.y + t * d.y)
  }

  lemma DotMoved(n: Point, o: Point, d: Point, t: real)
    ensures Dot(n, Moved(o, d, t)) == Dot(n, o) + t * Dot(n, d)
  {
  }

  // ---- room around a point --------------------------------------------------------------------------------

  /** Short moves from p in the direction d stay in h. */
  ghost predicate RoomFor(h: HalfPlane, p: Point, d: Point, far: real) {
    forall t | 0.0 <= t <= far :: In(h, Moved(p, d, t))
  }

  lemma ShortMove(start: real, rate: real, far: real, t: real)
    requires 0.0 <= t <= far && (rate >= 0.0 || far * rate > 0.0 - start) && start > 0.0
    ensures start + t * rate > 0.0
  {
    if rate < 0.0 {
      Products(far - t, 0.0 - rate);
    } else {
      Products(t, rate);
    }
  }

  lemma RoomInOne(h: HalfPlane, p: Point, d: Point) returns (far: real)
    requires In(h, p)
    ensures far > 0.0 && RoomFor(h, p, d, far)
  {
    var start, rate := Dot(h.n, p) - h.c, Dot(h.n, d);
    far := if rate >= 0.0 then 1.0 else start / (0.0 - 2.0 * rate);
    forall t | 0.0 <= t <= far ensures In(h, Moved(p, d, t)) {
      DotMoved(h.n, p, d, t);
      ShortMove(start, rate, far, t);
    }
  }

  lemma {:induction false} Room(hs: seq<HalfPlane>, p: Point, d: Point) returns (far: real)
    requires InAll(hs, p)
    ensures far > 0.0 && forall k | 0 <= k < |hs| :: RoomFor(hs[k], p, d, far)
  {
    if hs == [] {
      far := 1.0;
    } else {
      var all := Room(hs[..|hs| - 1], p, d);
      var last := RoomInOne(hs[|hs| - 1], p, d);
      far := if all < last then all else last;
      assert forall k | 0 <= k < |hs| - 1 :: hs[..|hs| - 1][k] == hs[k];
    }
  }

  // ---- on a line ----------------------------------------------------------------------------------------------

  function Rate(h: HalfPlane, d: Point): real {
    Dot(h.n, d)
  }

  function Level(h: HalfPlane, o: Point): real {
    h.c - Dot(h.n, o)
  }

  /** On the line through o along d, g and h have no common point. */
  predicate Clash(g: HalfPlane, u: real, h: HalfPlane, v: real, o: Point, d: Point) {
    && u >= 0.0 && v >= 0.0 && u + v > 0.0
    && u * Rate(g, d) + v * Rate(h, d) == 0.0
    && u * Level(g, o) + v * Level(h, o) >= 0.0
  }

  /** A bound s violated at the place x where the other, r, is met with equality, though it held at t. */
  lemma Opposite(rate: real, level: real, other: real, x: real, t: real) returns (u: real, v: real)
    requires rate * x <= level < rate * t && other * t <= other * x
    ensures u >= 0.0 && v >= 0.0 && u + v > 0.0 && u * rate + v * other == 0.0
    ensures u * level + v * (other * x) >= 0.0
  {
    u, v := if other < 0.0 then 0.0 - other else other, if rate < 0.0 then 0.0 - rate else rate;
    Slack(level, rate, x);
    Difference(rate, t, x);
    Difference(other, t, x);
    if t > x {
      SignOf(rate, t - x);
      NotPositive(other, t - x);
      Products(u, level - rate * x);
      assert u * level + v * (other * x) == u * (level - rate * x);
    } else {
      SignOf(0.0 - rate, x - t);
      NotPositive(0.0 - other, x - t);
      Products(u, level - rate * x);
      assert u * level + v * (other * x) == u * (level - rate * x);
    }
  }

  lemma Difference(a: real, t: real, x: real)
    ensures a * (t - x) == a * t - a * x
  {
  }

  lemma Slack(level: real, rate: real, x: real)
    requires rate * x <= level
    ensures level - rate * x >= 0.0
  {
  }

  lemma SignOf(a: real, b: real)
    requires a * b > 0.0 && b >= 0.0
    ensures a > 0.0 && b > 0.0
  {
  }

  lemma NotPositive(a: real, b: real)
    requires a * b <= 0.0 && b > 0.0
    ensures a <= 0.0
  {
  }

  lemma {:induction false} OnLine(hs: seq<HalfPlane>, o: Point, d: Point)
    returns (free: bool, t: real, i: nat, j: nat, u: real, v: real)
    ensures free ==> InAll(hs, Moved(o, d, t))
    ensures !free ==> i < |hs| && j < |hs| && Clash(hs[i], u, hs[j], v, o, d)
  {
    free, t, i, j, u, v := true, 0.0, 0, 0, 0.0, 0.0;
    if hs != [] {
      var k := |hs| - 1;
      var before, h := hs[..k], hs[k];
      free, t, i, j, u, v := OnLine(before, o, d);
      if free && !In(h, Moved(o, d, t)) {
        DotMoved(h.n, o, d, t);
        assert before + [h] == hs;
        if Rate(h, d) == 0.0 {
          free, i, j, u, v := false, k, k, 1.0, 0.0;
        } else {
          free, t, i, u, v := AtBound(before, h, o, d, t);
          j := k;
        }
      }
    }
  }

  /** The place where h begins on the line is free, just beyond, or excluded by another half-plane. */
  lemma AtBound(hs: seq<HalfPlane>, h: HalfPlane, o: Point, d: Point, was: real)
    returns (free: bool, t: real, i: nat, u: real, v: real)
    requires InAll(hs, Moved(o, d, was)) && !In(h, Moved(o, d, was)) && Rate(h, d) != 0.0
    ensures free ==> InAll(hs + [h], Moved(o, d, t))
    ensures !free ==> i < |hs| && Clash(hs[i], u, h, v, o, d)
  {
    hide Dot, Moved;
    var x, rate := Level(h, o) / Rate(h, d), Rate(h, d);
    assert rate * x == Level(h, o);
    DotMoved(h.n, o, d, was);
    DotMoved(h.n, o, d, x);
    free, t, i, u, v := InAll(hs, Moved(o, d, x)), x, 0, 0.0, 0.0;
    if free {
      var e := if rate > 0.0 then d else d.Negated();
      var far := Room(hs, Moved(o, d, x), e);
      t := if rate > 0.0 then x + far else x - far;
      Further(o, d, x, far);
      forall k | 0 <= k < |hs| ensures In(hs[k], Moved(o, d, t)) {
        assert RoomFor(hs[k], Moved(o, d, x), e, far);
      }
      Past(rate, x, far, t);
      InPast(h, o, d, x, t);
      assert forall k | 0 <= k < |hs| + 1 :: (hs + [h])[k] == if k < |hs| then hs[k] else h;
    } else {
      i :| 0 <= i < |hs| && !In(hs[i], Moved(o, d, x));
      DotMoved(hs[i].n, o, d, was);
      DotMoved(hs[i].n, o, d, x);
      u, v := Opposite(Rate(hs[i], d), Level(hs[i], o), rate, x, was);
    }
  }

  lemma Past(rate: real, x: real, far: real, t: real)
    requires rate != 0.0 && far > 0.0 && t == if rate > 0.0 then x + far else x - far
    ensures rate * t > rate * x
  {
    Difference(rate, t, x);
    if rate > 0.0 { Products(far, rate); } else { Products(rate, far); }
  }

  lemma InPast(h: HalfPlane, o: Point, d: Point, x: real, t: real)
    requires Rate(h, d) * x == Level(h, o) && Rate(h, d) * t > Rate(h, d) * x
    ensures In(h, Moved(o, d, t))
  {
    DotMoved(h.n, o, d, t);
    hide Dot, Moved;
  }

  lemma Further(o: Point, d: Point, x: real, s: real)
    ensures Moved(Moved(o, d, x), d, s) == Moved(o, d, x + s)
    ensures Moved(Moved(o, d, x), d.Negated(), s) == Moved(o, d, x - s)
  {
    FurtherAlong(x, s, d.x);
    FurtherAlong(x, s, d.y);
  }

  lemma FurtherAlong(x: real, s: real, d: real)
    ensures (x + s) * d == x * d + s * d && (x - s) * d == x * d + s * (0.0 - d)
  {
  }

  // ---- in the plane --------------------------------------------------------------------------------------------

  /** Weights under which three half-planes contradict each other. */
  predicate Balance(f: HalfPlane, u: real, g: HalfPlane, v: real, h: HalfPlane, w: real) {
    && u >= 0.0 && v >= 0.0 && w >= 0.0 && u + v + w > 0.0
    && u * f.n.x + v * g.n.x + w * h.n.x == 0.0 && u * f.n.y + v * g.n.y + w * h.n.y == 0.0
    && u * f.c + v * g.c + w * h.c >= 0.0
  }

  /** The weighted sum of two half-planes. */
  function Mixed(f: HalfPlane, u: real, g: HalfPlane, v: real): HalfPlane {
    HalfPlane(Point(u * f.n.x + v * g.n.x, u * f.n.y + v * g.n.y), u * f.c + v * g.c)
  }

  lemma InMixed(f: HalfPlane, u: real, g: HalfPlane, v: real, p: Point)
    requires In(f, p) && In(g, p) && u >= 0.0 && v >= 0.0 && u + v > 0.0
    ensures In(Mixed(f, u, g, v), p)
  {
    Together(f, u, g, v, p);
    var a, b := u * Level(f, p), v * Level(g, p);
    Lowered(u, Level(f, p), a);
    Lowered(v, Level(g, p), b);
    assert Level(Mixed(f, u, g, v), p) == a + b;
  }

  lemma ClashMixed(f: HalfPlane, u: real, g: HalfPlane, v: real, o: Point, n: Point)
    requires Clash(f, u, g, v, o, Point(0.0 - n.y, n.x))
    ensures var m := Mixed(f, u, g, v); m.n.y * n.x == m.n.x * n.y && Level(m, o) >= 0.0
  {
    Together(f, u, g, v, o);
    hide Dot;
    Across(u, f, n);
    Across(v, g, n);
  }

  /** A half-plane whose edge is that of h or beyond it, and parallel, looks the other way. */
  lemma OtherWay(m: HalfPlane, h: HalfPlane, p: Point, o: Point) returns (k: real)
    requires m.n.y * h.n.x == m.n.x * h.n.y && h.n != Point(0.0, 0.0)
    requires Dot(h.n, o) == h.c && Level(m, o) >= 0.0 && In(m, p) && !In(h, p)
    ensures k < 0.0 && m.n == Point(k * h.n.x, k * h.n.y) && m.c >= k * h.c
  {
    k := if h.n.x != 0.0 then m.n.x / h.n.x else m.n.y / h.n.y;
    Parallel(m.n, h.n, k);
    Along(k, h.n, o);
    assert Dot(m.n, o) == k * h.c;
    Along(k, h.n, p);
    Falling(k, Dot(h.n, p), h.c, Dot(m.n, p), Dot(m.n, o));
  }

  /** Where two half-planes leave no room on the edge of h, and a point of both is not in h, the three clash. */
  lemma ThirdWeight(f: HalfPlane, u: real, g: HalfPlane, v: real, h: HalfPlane, p: Point, o: Point)
    returns (w: real)
    requires Clash(f, u, g, v, o, Point(0.0 - h.n.y, h.n.x)) && Dot(h.n, o) == h.c && h.n != Point(0.0, 0.0)
    requires In(f, p) && In(g, p) && !In(h, p)
    ensures Balance(f, u, g, v, h, w)
  {
    InMixed(f, u, g, v, p);
    ClashMixed(f, u, g, v, o, h.n);
    hide Dot, Mixed, In, Level, Rate;
    var k := OtherWay(Mixed(f, u, g, v), h, p, o);
    BalanceFrom(f, u, g, v, h, k);
    w := 0.0 - k;
  }

  lemma BalanceFrom(f: HalfPlane, u: real, g: HalfPlane, v: real, h: HalfPlane, k: real)
    requires u >= 0.0 && v >= 0.0 && u + v > 0.0 && k < 0.0
    requires var m := Mixed(f, u, g, v); m.n == Point(k * h.n.x, k * h.n.y) && m.c >= k * h.c
    ensures Balance(f, u, g, v, h, 0.0 - k)
  {
    var w := 0.0 - k;
    assert w * h.n.x == 0.0 - k * h.n.x && w * h.n.y == 0.0 - k * h.n.y && w * h.c == 0.0 - k * h.c;
  }

  lemma Lowered(u: real, a: real, r: real)
    requires u >= 0.0 && a < 0.0 && r == u * a
    ensures r <= 0.0 && (u > 0.0 ==> r < 0.0)
  {
    Products(u, 0.0 - a);
    assert u * (0.0 - a) == 0.0 - r;
  }

  lemma Together(f: HalfPlane, u: real, g: HalfPlane, v: real, p: Point)
    ensures u * Level(f, p) + v * Level(g, p) == Level(Mixed(f, u, g, v), p)
  {
    Spread(u, f, p);
    Spread(v, g, p);
  }

  lemma Spread(u: real, f: HalfPlane, p: Point)
    ensures u * Level(f, p) == u * f.c - u * f.n.x * p.x - u * f.n.y * p.y
  {
  }

  lemma Across(u: real, f: HalfPlane, n: Point)
    ensures u * Rate(f, Point(0.0 - n.y, n.x)) == u * f.n.y * n.x - u * f.n.x * n.y
  {
  }

  lemma Falling(k: real, a: real, b: real, ka: real, kb: real)
    requires ka == k * a && kb == k * b && ka > kb && a <= b
    ensures k < 0.0
  {
    if k >= 0.0 {
      Scaled(k, a, b);
    }
  }

  lemma Along(k: real, n: Point, p: Point)
    ensures Dot(Point(k * n.x, k * n.y), p) == k * Dot(n, p)
  {
  }

  lemma Parallel(m: Point, n: Point, k: real)
    requires m.y * n.x == m.x * n.y && n != Point(0.0, 0.0)
    requires k == if n.x != 0.0 then m.x / n.x else m.y / n.y
    ensures m == Point(k * n.x, k * n.y)
  {
    if n.x != 0.0 {
      assert k * n.x == m.x;
      assert m.y * n.x == (k * n.y) * n.x;
      Cancel(m.y, k * n.y, n.x);
    } else {
      assert k * n.y == m.y;
      Cancel(m.x, 0.0, n.y);
    }
  }

  lemma Cancel(a: real, b: real, c: real)
    requires a * c == b * c && c != 0.0
    ensures a == b
  {
  }

  /** Some point lies in all of the half-planes, or three of them (not necessarily different) contradict each other. */
  lemma {:induction false} InPlane(hs: seq<HalfPlane>)
    returns (free: bool, p: Point, i: nat, j: nat, k: nat, u: real, v: real, w: real)
    ensures free ==> InAll(hs, p)
    ensures !free ==> i < |hs| && j < |hs| && k < |hs| && Balance(hs[i], u, hs[j], v, hs[k], w)
  {
    free, p, i, j, k, u, v, w := true, Point(0.0, 0.0), 0, 0, 0, 0.0, 0.0, 0.0;
    if hs != [] {
      var last := |hs| - 1;
      var before, h := hs[..last], hs[last];
      free, p, i, j, k, u, v, w := InPlane(before);
      if free && !In(h, p) {
        k := last;
        assert before + [h] == hs;
        if h.n == Point(0.0, 0.0) {
          free, i, j, u, v, w := false, last, last, 0.0, 0.0, 1.0;
        } else {
          free, p, i, j, u, v, w := AtEdge(before, h, p);
        }
      }
    }
  }

  /** On the edge of h there is room for all others, or two of them clash there. */
  lemma AtEdge(hs: seq<HalfPlane>, h: HalfPlane, was: Point)
    returns (free: bool, p: Point, i: nat, j: nat, u: real, v: real, w: real)
    requires InAll(hs, was) && !In(h, was) && h.n != Point(0.0, 0.0)
    ensures free ==> InAll(hs + [h], p)
    ensures !free ==> i < |hs| && j < |hs| && Balance(hs[i], u, hs[j], v, h, w)
  {
    var o := Foot(h);
    var d := Point(0.0 - h.n.y, h.n.x);
    var t;
    free, t, i, j, u, v := OnLine(hs, o, d);
    p, w := was, 0.0;
    if free {
      var x := Moved(o, d, t);
      DotMoved(h.n, o, d, t);
      assert Dot(h.n, d) == 0.0;
      var e := Inward(h.n);
      var far := Room(hs, x, e);
      p := Moved(x, e, far);
      DotMoved(h.n, x, e, far);
      Products(far, Dot(h.n, e));
    } else {
      w := ThirdWeight(hs[i], u, hs[j], v, h, was, o);
    }
  }

  /** A direction away from the edge. */
  lemma Inward(n: Point) returns (e: Point)
    requires n != Point(0.0, 0.0)
    ensures Dot(n, e) > 0.0
  {
    e := if n.x != 0.0 then Point(if n.x > 0.0 then 1.0 else -1.0, 0.0)
         else Point(0.0, if n.y > 0.0 then 1.0 else -1.0);
  }

  /** A point of the edge. */
  lemma Foot(h: HalfPlane) returns (o: Point)
    requires h.n != Point(0.0, 0.0)
    ensures Dot(h.n, o) == h.c
  {
    o := if h.n.x != 0.0 then Point(h.c / h.n.x, 0.0) else Point(0.0, h.c / h.n.y);
  }
}
