/** Points, vectors and turns in the plane. */
module Plane {
  datatype Point = Point(x: real, y: real) {
    function Minus(o: Point): Point { Point(x - o.x, y - o.y) }

    function Negated(): Point { Point(0.0 - x, 0.0 - y) }
  }

  /** Positive for a left turn from u to v. */
  function Cross(u: Point, v: Point): real {
    u.x * v.y - u.y * v.x
  }

  function Dot(u: Point, v: Point): real {
    u.x * v.x + u.y * v.y
  }

  /** Where p lies as seen from a to b: positive on the left. */
  function Side(a: Point, b: Point, p: Point): real {
    Cross(b.Minus(a), p.Minus(a))
  }

  /** To the right, or straight up. */
  predicate Rightward(v: Point) {
    v.x > 0.0 || (v.x == 0.0 && v.y > 0.0)
  }

  /** In the direction a list is gone through: by rising or by falling coordinates. */
  predicate Ahead(rising: bool, v: Point) {
    if rising then Rightward(v) else Rightward(v.Negated())
  }

  lemma Products(a: real, b: real)
    ensures a >= 0.0 && b >= 0.0 ==> a * b >= 0.0
    ensures a > 0.0 && b > 0.0 ==> a * b > 0.0
    ensures a < 0.0 && b > 0.0 ==> a * b < 0.0
  {
  }

  lemma Scaled(w: real, a: real, b: real)
    requires w >= 0.0 && a <= b
    ensures w * a <= w * b
  {
  }

  /** Any three vectors of the plane are dependent, with their turns as coefficients. */
  lemma Dependent(u: Point, v: Point, w: Point)
    ensures Cross(u, w) * v.x == Cross(u, v) * w.x + Cross(v, w) * u.x
    ensures Cross(u, w) * v.y == Cross(u, v) * w.y + Cross(v, w) * u.y
  {
  }

  lemma CrossNegated(u: Point, v: Point)
    ensures Cross(u.Negated(), v.Negated()) == Cross(u, v)
  {
  }

  /** Among vectors to the right, turning left is transitive. */
  lemma RightwardTransitive(u: Point, v: Point, w: Point)
    requires Rightward(u) && Rightward(v) && Rightward(w) && Cross(u, v) >= 0.0 && Cross(v, w) >= 0.0
    ensures Cross(u, w) >= 0.0
  {
    Dependent(u, v, w);
    Products(Cross(u, v), w.x);
    Products(Cross(v, w), u.x);
    if v.x > 0.0 {
      Products(Cross(u, w), v.x);
    } else {
      Products(v.y, w.x);
      assert Cross(v, w) == 0.0 - v.y * w.x;
      assert w.x == 0.0 && w.y > 0.0;
      Products(Cross(u, v), w.y);
      Products(Cross(u, w), v.y);
    }
  }

  lemma TurnsTransitive(rising: bool, u: Point, v: Point, w: Point)
    requires Ahead(rising, u) && Ahead(rising, v) && Ahead(rising, w) && Cross(u, v) >= 0.0 && Cross(v, w) >= 0.0
    ensures Cross(u, w) >= 0.0
  {
    if rising {
      RightwardTransitive(u, v, w);
    } else {
      CrossNegated(u, v);
      CrossNegated(v, w);
      CrossNegated(u, w);
      RightwardTransitive(u.Negated(), v.Negated(), w.Negated());
    }
  }

  /** A is before b in the direction. */
  predicate Before(rising: bool, a: Point, b: Point) {
    Ahead(rising, b.Minus(a))
  }
}
