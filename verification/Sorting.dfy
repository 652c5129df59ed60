/** The library's stable sort, as a function: what the sorted result is, and when it does not depend on
    the order of the input. */
module Sorting {
  ghost predicate TotalPreorder<T(!new)>(le: (T, T) -> bool) {
    && (forall x, y :: le(x, y) || le(y, x))
    && (forall x, y, z :: le(x, y) && le(y, z) ==> le(x, z))
  }

  ghost predicate Sorted<T>(xs: seq<T>, le: (T, T) -> bool) {
    forall i, j | 0 <= i < j < |xs| :: le(xs[i], xs[j])
  }

  /** No two of these elements tie. */
  ghost predicate Distinguishes<T>(xs: seq<T>, le: (T, T) -> bool) {
    forall x, y | x in xs && y in xs && le(x, y) && le(y, x) :: x == y
  }

  /** x goes after everything that may stand before it, so elements that tie keep their order. */
  function Insert<T>(xs: seq<T>, x: T, le: (T, T) -> bool): (r: seq<T>)
    ensures multiset(r) == multiset(xs) + multiset{x}
  {
    if xs == [] then [x]
    else if le(xs[|xs| - 1], x) then xs + [x]
    else
      assert xs == xs[..|xs| - 1] + [xs[|xs| - 1]];
      Insert(xs[..|xs| - 1], x, le) + [xs[|xs| - 1]]
  }

  function SortBy<T>(xs: seq<T>, le: (T, T) -> bool): (r: seq<T>)
    ensures multiset(r) == multiset(xs)
  {
    if xs == [] then []
    else
      assert xs == xs[..|xs| - 1] + [xs[|xs| - 1]];
      Insert(SortBy(xs[..|xs| - 1], le), xs[|xs| - 1], le)
  }

  lemma {:induction false} InsertSorted<T(!new)>(xs: seq<T>, x: T, le: (T, T) -> bool)
    requires TotalPreorder(le) && Sorted(xs, le)
    ensures Sorted(Insert(xs, x, le), le)
  {
    if xs != [] && !le(xs[|xs| - 1], x) {
      var init, last := xs[..|xs| - 1], xs[|xs| - 1];
      InsertSorted(init, x, le);
      var r := Insert(init, x, le);
      forall y | y in r ensures le(y, last) {
        assert y in multiset(r);
        assert y == x || y in init;
      }
      forall i, j | 0 <= i < j < |r + [last]| ensures le((r + [last])[i], (r + [last])[j]) {
        assert r[i] in r;
      }
    }
  }

  lemma {:induction false} SortSorted<T(!new)>(xs: seq<T>, le: (T, T) -> bool)
    requires TotalPreorder(le)
    ensures Sorted(SortBy(xs, le), le)
  {
    if xs != [] {
      SortSorted(xs[..|xs| - 1], le);
      InsertSorted(SortBy(xs[..|xs| - 1], le), xs[|xs| - 1], le);
    }
  }

  lemma FirstIsLeast<T>(xs: seq<T>, x: T, le: (T, T) -> bool)
    requires Sorted(xs, le) && x in xs && le(x, x)
    ensures le(xs[0], x)
  {
  }

  lemma Rest<T>(xs: seq<T>)
    requires xs != []
    ensures multiset(xs[1..]) == multiset(xs) - multiset{xs[0]} && forall x | x in xs[1..] :: x in xs
  {
    assert xs == [xs[0]] + xs[1..];
  }

  lemma SameMembers<T>(xs: seq<T>, ys: seq<T>, x: T)
    requires multiset(xs) == multiset(ys) && x in xs
    ensures x in ys
  {
    assert x in multiset(xs);
  }

  lemma SplitEqual<T>(xs: seq<T>, ys: seq<T>)
    requires xs != [] && ys != [] && xs[0] == ys[0] && xs[1..] == ys[1..]
    ensures xs == ys
  {
    assert xs == [xs[0]] + xs[1..] && ys == [ys[0]] + ys[1..];
  }

  /** Elements that do not tie have one sorted order. */
  lemma {:induction false} SortedUnique<T>(xs: seq<T>, ys: seq<T>, le: (T, T) -> bool)
    requires Sorted(xs, le) && Sorted(ys, le) && Distinguishes(xs, le)
    requires multiset(xs) == multiset(ys)
    requires forall x | x in xs :: le(x, x)
    ensures xs == ys
  {
    assert |xs| == |multiset(xs)| == |multiset(ys)| == |ys|;
    if xs != [] {
      SameMembers(xs, ys, xs[0]);
      SameMembers(ys, xs, ys[0]);
      FirstIsLeast(xs, ys[0], le);
      FirstIsLeast(ys, xs[0], le);
      Rest(xs);
      Rest(ys);
      SortedUnique(xs[1..], ys[1..], le);
      SplitEqual(xs, ys);
    }
  }

  /** The order of the input does not matter to the sorted result. */
  lemma SortIgnoresOrder<T(!new)>(xs: seq<T>, ys: seq<T>, le: (T, T) -> bool)
    requires TotalPreorder(le) && Distinguishes(xs, le) && multiset(xs) == multiset(ys)
    ensures SortBy(xs, le) == SortBy(ys, le)
  {
    SortSorted(xs, le);
    SortSorted(ys, le);
    var a, b := SortBy(xs, le), SortBy(ys, le);
    forall x | x in a ensures x in xs && le(x, x) { assert x in multiset(a); }
    SortedUnique(a, b, le);
  }

  /** The elements that tie with this one, in the order they come in. */
  function Ties<T>(xs: seq<T>, x: T, le: (T, T) -> bool): seq<T> {
    if xs == [] then []
    else
      var last := xs[|xs| - 1];
      Ties(xs[..|xs| - 1], x, le) + if le(last, x) && le(x, last) then [last] else []
  }

  lemma TiesSnoc<T>(xs: seq<T>, y: T, x: T, le: (T, T) -> bool)
    ensures Ties(xs + [y], x, le) == Ties(xs, x, le) + if le(y, x) && le(x, y) then [y] else []
  {
    assert (xs + [y])[..|xs|] == xs;
  }

  lemma TiesAlike<T>(xs: seq<T>, ys: seq<T>, y: T, x: T, le: (T, T) -> bool)
    requires Ties(xs, x, le) == Ties(ys, x, le)
    ensures Ties(xs + [y], x, le) == Ties(ys + [y], x, le)
  {
    TiesSnoc(xs, y, x, le);
    TiesSnoc(ys, y, x, le);
  }

  /** Two that do not tie with one another are not both tied with a third, so their order does not matter to it. */
  lemma TiesSwap<T(!new)>(xs: seq<T>, y: T, z: T, x: T, le: (T, T) -> bool)
    requires TotalPreorder(le) && !le(y, z)
    ensures Ties(xs + [z] + [y], x, le) == Ties(xs + [y] + [z], x, le)
  {
    TiesSnoc(xs, y, x, le);
    TiesSnoc(xs, z, x, le);
    TiesSnoc(xs + [y], z, x, le);
    TiesSnoc(xs + [z], y, x, le);
  }

  lemma {:induction false} InsertStable<T(!new)>(xs: seq<T>, y: T, x: T, le: (T, T) -> bool)
    requires TotalPreorder(le) && Sorted(xs, le)
    ensures Ties(Insert(xs, y, le), x, le) == Ties(xs + [y], x, le)
  {
    hide Ties;
    if xs == [] {
      assert xs + [y] == [y];
    } else if !le(xs[|xs| - 1], y) {
      var init, last := xs[..|xs| - 1], xs[|xs| - 1];
      InsertStable(init, y, x, le);
      TiesAlike(Insert(init, y, le), init + [y], last, x, le);
      TiesSwap(init, last, y, x, le);
      assert xs == init + [last];
    }
  }

  /** Sorting keeps the order of elements that tie. */
  lemma {:induction false} SortStable<T(!new)>(xs: seq<T>, x: T, le: (T, T) -> bool)
    requires TotalPreorder(le)
    ensures Ties(SortBy(xs, le), x, le) == Ties(xs, x, le)
  {
    hide Ties, Sorted, TotalPreorder, Insert;
    if xs != [] {
      var init, last := xs[..|xs| - 1], xs[|xs| - 1];
      SortStable(init, x, le);
      SortSorted(init, le);
      InsertStable(SortBy(init, le), last, x, le);
      TiesAlike(SortBy(init, le), init, last, x, le);
      assert xs == init + [last];
    }
  }

  /** An already sorted list is left as it is. */
  lemma {:induction false} SortFixpoint<T(!new)>(xs: seq<T>, le: (T, T) -> bool)
    requires Sorted(xs, le)
    ensures SortBy(xs, le) == xs
  {
    if xs != [] {
      var init := xs[..|xs| - 1];
      SortFixpoint(init, le);
      assert init + [xs[|xs| - 1]] == xs;
    }
  }
}
