/** Stable insertion sort by an order given as a function. */
module Sorting {

  /** A strict order in which being unrelated is transitive. */
  ghost predicate WeakOrder<T(!new)>(less: (T, T) -> bool) {
    (forall x :: !less(x, x))
    && (forall x, y :: less(x, y) ==> !less(y, x))
    && (forall x, y, z :: !less(x, y) && !less(y, z) ==> !less(x, z))
  }

  ghost predicate Sorted<T>(xs: seq<T>, less: (T, T) -> bool) {
    forall i, j :: 0 <= i < j < |xs| ==> !less(xs[j], xs[i])
  }

  /** Insert behind everything that does not come later. */
  function Insert<T>(xs: seq<T>, x: T, less: (T, T) -> bool): (ys: seq<T>)
    ensures multiset(ys) == multiset(xs) + multiset{x} && |ys| == |xs| + 1
  {
    if |xs| == 0 || !less(x, xs[|xs| - 1]) then xs + [x]
    else
      var last := xs[|xs| - 1];
      assert xs == xs[..|xs| - 1] + [last];
      Insert(xs[..|xs| - 1], x, less) + [last]
  }

  function SortBy<T>(xs: seq<T>, less: (T, T) -> bool): (ys: seq<T>)
    ensures multiset(ys) == multiset(xs) && |ys| == |xs|
  {
    if |xs| == 0 then []
    else
      assert xs == xs[..|xs| - 1] + [xs[|xs| - 1]];
      Insert(SortBy(xs[..|xs| - 1], less), xs[|xs| - 1], less)
  }

  lemma {:induction false} InsertSorted<T(!new)>(xs: seq<T>, x: T, less: (T, T) -> bool)
    requires WeakOrder(less) && Sorted(xs, less)
    ensures Sorted(Insert(xs, x, less), less)
  {
    if |xs| == 0 {
    } else if !less(x, xs[|xs| - 1]) {
      var last := xs[|xs| - 1];
      forall i | 0 <= i < |xs| ensures !less(x, xs[i]) {
        if i < |xs| - 1 { assert !less(last, xs[i]); }
      }
    } else {
      var front, last := xs[..|xs| - 1], xs[|xs| - 1];
      InsertSorted(front, x, less);
      var ys := Insert(front, x, less);
      forall i | 0 <= i < |ys| ensures !less(last, ys[i]) {
        assert ys[i] in multiset(ys);
        if ys[i] != x {
          assert ys[i] in multiset(front);
          var j :| 0 <= j < |front| && front[j] == ys[i];
          assert xs[j] == ys[i];
        }
      }
    }
  }

  lemma {:induction false} SortBySorts<T(!new)>(xs: seq<T>, less: (T, T) -> bool)
    requires WeakOrder(less)
    ensures Sorted(SortBy(xs, less), less)
  {
    if |xs| > 0 {
      SortBySorts(xs[..|xs| - 1], less);
      InsertSorted(SortBy(xs[..|xs| - 1], less), xs[|xs| - 1], less);
    }
  }

  lemma SameElements<T>(xs: seq<T>, less: (T, T) -> bool)
    ensures forall x :: x in SortBy(xs, less) <==> x in xs
  {
    forall x ensures x in SortBy(xs, less) <==> x in xs {
      assert x in SortBy(xs, less) <==> x in multiset(SortBy(xs, less));
      assert x in xs <==> x in multiset(xs);
    }
  }

  // ---- Stability ----------------------------------------------------------------------------

  /** The elements that come neither before nor after z, as they stand. */
  ghost function Level<T>(xs: seq<T>, z: T, less: (T, T) -> bool): seq<T> {
    if |xs| == 0 then []
    else
      var last := xs[|xs| - 1];
      Level(xs[..|xs| - 1], z, less) + (if less(last, z) || less(z, last) then [] else [last])
  }

  lemma {:induction false} InsertStable<T(!new)>(xs: seq<T>, x: T, less: (T, T) -> bool, z: T)
    requires WeakOrder(less)
    ensures Level(Insert(xs, x, less), z, less) == Level(xs + [x], z, less)
  {
    assert (xs + [x])[..|xs|] == xs;
    if |xs| > 0 && less(x, xs[|xs| - 1]) {
      var front, last := xs[..|xs| - 1], xs[|xs| - 1];
      InsertStable(front, x, less, z);
      assert (front + [x])[..|front|] == front;
      assert Insert(xs, x, less)[..|xs|] == Insert(front, x, less);
      assert Level(front, z, less) + [] == Level(front, z, less);
    }
  }

  /** Elements that come neither before nor after one another keep their order. */
  lemma {:induction false} SortByStable<T(!new)>(xs: seq<T>, less: (T, T) -> bool, z: T)
    requires WeakOrder(less)
    ensures Level(SortBy(xs, less), z, less) == Level(xs, z, less)
  {
    if |xs| > 0 {
      var front, last := xs[..|xs| - 1], xs[|xs| - 1];
      SortByStable(front, less, z);
      InsertStable(SortBy(front, less), last, less, z);
      var sorted := SortBy(front, less);
      assert (sorted + [last])[..|sorted|] == sorted;
    }
  }
}
