/** Orders to sort by: Go's order on strings, and orders by a key. */
module Ordering {
  import opened Sorting

  /** By code points, a prefix first. */
  predicate StringLeq(a: string, b: string) {
    a == "" || (b != "" && (a[0] < b[0] || (a[0] == b[0] && StringLeq(a[1..], b[1..]))))
  }

  lemma {:induction false} StringTotal(a: string, b: string)
    ensures StringLeq(a, b) || StringLeq(b, a)
  {
    if a != "" && b != "" && a[0] == b[0] { StringTotal(a[1..], b[1..]); }
  }

  lemma {:induction false} StringTransitive(a: string, b: string, c: string)
    requires StringLeq(a, b) && StringLeq(b, c)
    ensures StringLeq(a, c)
  {
    if a != "" && a[0] == b[0] == c[0] { StringTransitive(a[1..], b[1..], c[1..]); }
  }

  lemma {:induction false} StringAntisymmetric(a: string, b: string)
    requires StringLeq(a, b) && StringLeq(b, a)
    ensures a == b
  {
    if a != "" {
      StringAntisymmetric(a[1..], b[1..]);
      assert a == [a[0]] + a[1..] && b == [b[0]] + b[1..];
    }
  }

  /** Up to a place they are the same, and there the first is the smaller. */
  predicate SmallerAt(a: string, b: string, i: nat) {
    i < |a| && i < |b| && a[..i] == b[..i] && a[i] < b[i]
  }

  /** What comes first is a prefix, or smaller where the two first differ. */
  lemma {:induction false} StringLeqIff(a: string, b: string)
    ensures StringLeq(a, b) <==> a <= b || exists i: nat :: SmallerAt(a, b, i)
  {
    if a != "" && b != "" {
      if a[0] < b[0] { assert SmallerAt(a, b, 0); }
      if a[0] == b[0] {
        StringLeqIff(a[1..], b[1..]);
        assert a == [a[0]] + a[1..] && b == [b[0]] + b[1..];
        if i: nat :| SmallerAt(a[1..], b[1..], i) { SmallerLater(a, b, i); }
        if i: nat :| SmallerAt(a, b, i) { SmallerLater(a, b, i - 1); }
      } else if i: nat :| SmallerAt(a, b, i) {
        if i > 0 { assert a[..i][0] == b[..i][0]; }
      }
    }
  }

  lemma SmallerLater(a: string, b: string, i: nat)
    requires a != "" && b != "" && a[0] == b[0]
    ensures SmallerAt(a[1..], b[1..], i) <==> SmallerAt(a, b, i + 1)
  {
    if i + 1 <= |a| && i + 1 <= |b| {
      assert a[..i + 1] == [a[0]] + a[1..][..i] && b[..i + 1] == [b[0]] + b[1..][..i];
      if a[..i + 1] == b[..i + 1] {
        assert a[1..][..i] == a[..i + 1][1..] && b[1..][..i] == b[..i + 1][1..];
      }
    }
  }

  /** First difference decides; a prefix first. */
  predicate IntsLeq(a: seq<int>, b: seq<int>) {
    a == [] || (b != [] && (a[0] < b[0] || (a[0] == b[0] && IntsLeq(a[1..], b[1..]))))
  }

  lemma {:induction false} IntsTotal(a: seq<int>, b: seq<int>)
    ensures IntsLeq(a, b) || IntsLeq(b, a)
  {
    if a != [] && b != [] && a[0] == b[0] { IntsTotal(a[1..], b[1..]); }
  }

  lemma {:induction false} IntsTransitive(a: seq<int>, b: seq<int>, c: seq<int>)
    requires IntsLeq(a, b) && IntsLeq(b, c)
    ensures IntsLeq(a, c)
  {
    if a != [] && a[0] == b[0] == c[0] { IntsTransitive(a[1..], b[1..], c[1..]); }
  }

  lemma {:induction false} IntsAntisymmetric(a: seq<int>, b: seq<int>)
    requires IntsLeq(a, b) && IntsLeq(b, a)
    ensures a == b
  {
    if a != [] {
      IntsAntisymmetric(a[1..], b[1..]);
      assert a == [a[0]] + a[1..] && b == [b[0]] + b[1..];
    }
  }

  lemma ThreeLeq(a: int, b: int, c: int, x: int, y: int, z: int)
    ensures IntsLeq([a, b, c], [x, y, z]) <==> a < x || (a == x && (b < y || (b == y && c <= z)))
    ensures [a, b, c] == [x, y, z] <==> a == x && b == y && c == z
  {
    assert [a, b, c][1..] == [b, c] && [b, c][1..] == [c] && [c][1..] == [];
    assert [x, y, z][1..] == [y, z] && [y, z][1..] == [z] && [z][1..] == [];
    assert [a, b, c][0] == a && [a, b, c][1] == b && [a, b, c][2] == c;
    assert [x, y, z][0] == x && [x, y, z][1] == y && [x, y, z][2] == z;
    assert IntsLeq([c], [z]) <==> c <= z;
    assert IntsLeq([b, c], [y, z]) <==> b < y || (b == y && c <= z);
  }

  lemma OneLeq(a: int, x: int)
    ensures IntsLeq([a], [x]) <==> a <= x
    ensures [a] == [x] <==> a == x
  {
    assert [a][0] == a && [x][0] == x && [a][1..] == [] && [x][1..] == [];
  }

  /** Numbers, then names. */
  datatype Key = Key(ranks: seq<int>, name: string, second: string)

  predicate KeyLeq(k: Key, l: Key) {
    if k.ranks != l.ranks then IntsLeq(k.ranks, l.ranks)
    else if k.name != l.name then StringLeq(k.name, l.name)
    else StringLeq(k.second, l.second)
  }

  lemma KeyTotal(k: Key, l: Key)
    ensures KeyLeq(k, l) || KeyLeq(l, k)
  {
    IntsTotal(k.ranks, l.ranks);
    StringTotal(k.name, l.name);
    StringTotal(k.second, l.second);
  }

  lemma KeyTransitive(k: Key, l: Key, m: Key)
    requires KeyLeq(k, l) && KeyLeq(l, m)
    ensures KeyLeq(k, m)
  {
    if k.ranks != l.ranks && l.ranks != m.ranks {
      IntsTransitive(k.ranks, l.ranks, m.ranks);
      if k.ranks == m.ranks { IntsAntisymmetric(k.ranks, l.ranks); }
    } else if k.ranks == l.ranks == m.ranks {
      if k.name != l.name && l.name != m.name {
        StringTransitive(k.name, l.name, m.name);
        if k.name == m.name { StringAntisymmetric(k.name, l.name); }
      } else if k.name == l.name == m.name {
        StringTransitive(k.second, l.second, m.second);
      }
    }
  }

  lemma KeyAntisymmetric(k: Key, l: Key)
    requires KeyLeq(k, l) && KeyLeq(l, k)
    ensures k == l
  {
    if k.ranks != l.ranks { IntsAntisymmetric(k.ranks, l.ranks); }
    else if k.name != l.name { StringAntisymmetric(k.name, l.name); }
    else { StringAntisymmetric(k.second, l.second); }
  }

  /** Compared by their keys. */
  function By<T(!new)>(key: T -> Key): (T, T) -> bool {
    (x, y) => KeyLeq(key(x), key(y))
  }

  lemma ByPreorder<T(!new)>(key: T -> Key)
    ensures TotalPreorder(By(key))
  {
    forall x, y ensures By(key)(x, y) || By(key)(y, x) { KeyTotal(key(x), key(y)); }
    forall x, y, z | By(key)(x, y) && By(key)(y, z) ensures By(key)(x, z) { KeyTransitive(key(x), key(y), key(z)); }
  }

  /** Elements with different keys do not tie. */
  lemma ByDistinguishes<T(!new)>(xs: seq<T>, key: T -> Key)
    requires forall x, y | x in xs && y in xs && key(x) == key(y) :: x == y
    ensures Distinguishes(xs, By(key))
  {
    forall x, y | x in xs && y in xs && By(key)(x, y) && By(key)(y, x)
      ensures x == y { KeyAntisymmetric(key(x), key(y)); }
  }
}
