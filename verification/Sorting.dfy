/** The stable sort by an integer key that both the nonce history and the flight recorder rely on. */
module Sorting {

  predicate SortedBy<T>(xs: seq<T>, key: T -> int) {
    forall i, j :: 0 <= i < j < |xs| ==> key(xs[i]) <= key(xs[j])
  }

  /** Places `x` after every element whose key is not larger. */
  function Insert<T>(xs: seq<T>, x: T, key: T -> int): (ys: seq<T>)
    ensures |ys| == |xs| + 1
  {
    if xs == [] || key(xs[|xs| - 1]) <= key(x) then xs + [x]
    else Insert(xs[..|xs| - 1], x, key) + [xs[|xs| - 1]]
  }

  function SortBy<T>(xs: seq<T>, key: T -> int): (ys: seq<T>)
    ensures |ys| == |xs|
  {
    if xs == [] then [] else Insert(SortBy(xs[..|xs| - 1], key), xs[|xs| - 1], key)
  }

  lemma {:induction false} SortedIsFixed<T>(xs: seq<T>, key: T -> int)
    requires SortedBy(xs, key)
    ensures SortBy(xs, key) == xs
  {
    if xs != [] {
      SortedIsFixed(xs[..|xs| - 1], key);
      assert xs == xs[..|xs| - 1] + [xs[|xs| - 1]];
    }
  }

  lemma {:induction false} InsertKeeps<T>(xs: seq<T>, x: T, key: T -> int)
    ensures multiset(Insert(xs, x, key)) == multiset(xs) + multiset{x}
  {
    if xs != [] && key(xs[|xs| - 1]) > key(x) {
      InsertKeeps(xs[..|xs| - 1], x, key);
      assert xs == xs[..|xs| - 1] + [xs[|xs| - 1]];
    }
  }

  predicate Below<T>(xs: seq<T>, bound: int, key: T -> int) {
    forall i :: 0 <= i < |xs| ==> key(xs[i]) <= bound
  }

  lemma {:induction false} InsertSorts<T>(xs: seq<T>, x: T, key: T -> int)
    requires SortedBy(xs, key)
    ensures SortedBy(Insert(xs, x, key), key)
    ensures forall bound :: Below(xs, bound, key) && key(x) <= bound ==> Below(Insert(xs, x, key), bound, key)
  {
    if xs != [] && key(xs[|xs| - 1]) > key(x) {
      var front, last := xs[..|xs| - 1], xs[|xs| - 1];
      InsertSorts(front, x, key);
      assert Below(front, key(last), key);
    }
  }

  /** The sort is a sorted permutation. */
  lemma {:induction false} SortBySorts<T>(xs: seq<T>, key: T -> int)
    ensures SortedBy(SortBy(xs, key), key)
  {
    if xs != [] {
      SortBySorts(xs[..|xs| - 1], key);
      InsertSorts(SortBy(xs[..|xs| - 1], key), xs[|xs| - 1], key);
    }
  }

  lemma {:induction false} SortByKeeps<T>(xs: seq<T>, key: T -> int)
    ensures multiset(SortBy(xs, key)) == multiset(xs)
  {
    if xs != [] {
      SortByKeeps(xs[..|xs| - 1], key);
      InsertKeeps(SortBy(xs[..|xs| - 1], key), xs[|xs| - 1], key);
      assert xs == xs[..|xs| - 1] + [xs[|xs| - 1]];
    }
  }
}
