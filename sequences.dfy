/** The array operations the list views apply: Array.prototype.filter and
    Array.prototype.sort with a comparator that subtracts two integer keys.
    The runtime's sort is stable, so the model is a stable insertion sort on
    the key; a descending order is the ascending order of the negated key. */
module Sequences {

  /** xs.filter(keep) */
  function Filter<T(!new)>(xs: seq<T>, keep: T -> bool): (r: seq<T>)
    ensures |r| <= |xs|
    ensures forall x :: x in r ==> keep(x)
    ensures forall x :: multiset(r)[x] == if keep(x) then multiset(xs)[x] else 0
    decreases |xs|
  {
    if xs == [] then []
    else
      var rest := Filter(xs[1..], keep);
      assert xs == [xs[0]] + xs[1..];
      if keep(xs[0]) then [xs[0]] + rest else rest
  }

  /** A filter that rejects nothing returns its input unchanged. */
  lemma {:induction false} FilterKeepingAll<T(!new)>(xs: seq<T>, keep: T -> bool)
    requires forall x :: x in xs ==> keep(x)
    ensures Filter(xs, keep) == xs
    decreases |xs|
  {
    if xs != [] {
      var rest := xs[1..];
      assert xs == [xs[0]] + rest;
      forall x | x in rest
        ensures keep(x)
      {
        assert x in xs;
      }
      FilterKeepingAll(rest, keep);
      FilterCons([xs[0]], rest, keep);
    }
  }

  /** Filtering and picking out one key commute: the kept elements with key
      k are the elements with key k that the filter keeps, in their order in
      xs. */
  lemma {:induction false} FilterWithKey<T(!new)>(xs: seq<T>, keep: T -> bool, key: T -> int, k: int)
    ensures WithKey(Filter(xs, keep), key, k) == Filter(WithKey(xs, key, k), keep)
    decreases |xs|
  {
    if xs != [] {
      var x, rest := xs[0], xs[1..];
      FilterWithKey(rest, keep, key, k);
      var kept := Filter(rest, keep);
      var picked := WithKey(rest, key, k);
      assert WithKey(xs, key, k) == KeyMatch(x, key, k) + picked;
      if keep(x) {
        assert Filter(xs, keep) == [x] + kept;
        WithKeyCons(x, kept, key, k);
      } else {
        assert Filter(xs, keep) == kept;
      }
      FilterCons(KeyMatch(x, key, k), picked, keep);
    }
  }

  /** Filtering a sequence of at most one element in front of ys. */
  lemma FilterCons<T(!new)>(front: seq<T>, ys: seq<T>, keep: T -> bool)
    requires |front| <= 1
    ensures Filter(front + ys, keep) == (if front != [] && keep(front[0]) then front else []) + Filter(ys, keep)
  {
    if front == [] {
      assert front + ys == ys;
    } else {
      var xs := front + ys;
      assert xs[0] == front[0] && xs[1..] == ys;
    }
  }

  /** Ascending by key: every element's key is at most that of every later one. */
  ghost predicate SortedBy<T>(xs: seq<T>, key: T -> int) {
    forall i, j :: 0 <= i < j < |xs| ==> key(xs[i]) <= key(xs[j])
  }

  /** Puts x in front of the first element whose key is not smaller than x's. */
  function InsertBy<T>(x: T, xs: seq<T>, key: T -> int): (r: seq<T>)
    ensures |r| == |xs| + 1
    ensures multiset(r) == multiset(xs) + multiset{x}
    decreases |xs|
  {
    if xs == [] || key(x) <= key(xs[0]) then [x] + xs
    else
      assert xs == [xs[0]] + xs[1..];
      [xs[0]] + InsertBy(x, xs[1..], key)
  }

  /** Inserting into a sequence in key order keeps it in key order. */
  lemma {:induction false} InsertBySorted<T>(x: T, xs: seq<T>, key: T -> int)
    requires SortedBy(xs, key)
    ensures SortedBy(InsertBy(x, xs, key), key)
    decreases |xs|
  {
    if !(xs == [] || key(x) <= key(xs[0])) {
      var r := InsertBy(x, xs[1..], key);
      InsertBySorted(x, xs[1..], key);
      forall j | 0 <= j < |r|
        ensures key(xs[0]) <= key(r[j])
      {
        assert r[j] in multiset(xs[1..]) + multiset{x};
        if r[j] != x {
          var m :| 0 <= m < |xs[1..]| && xs[1..][m] == r[j];
          assert xs[m + 1] == r[j];
        }
      }
      assert InsertBy(x, xs, key) == [xs[0]] + r;
    }
  }

  /** xs.sort((a, b) => key(a) - key(b)) on a copy of xs: the result is
      ordered by key and holds the same elements as many times. */
  function SortBy<T>(xs: seq<T>, key: T -> int): (r: seq<T>)
    ensures |r| == |xs|
    ensures multiset(r) == multiset(xs)
    ensures SortedBy(r, key)
    decreases |xs|
  {
    if xs == [] then []
    else
      assert xs == [xs[0]] + xs[1..];
      InsertBySorted(xs[0], SortBy(xs[1..], key), key);
      InsertBy(xs[0], SortBy(xs[1..], key), key)
  }

  /** The elements of xs whose key is k, in their order in xs. */
  function WithKey<T>(xs: seq<T>, key: T -> int, k: int): seq<T>
    decreases |xs|
  {
    if xs == [] then []
    else KeyMatch(xs[0], key, k) + WithKey(xs[1..], key, k)
  }

  function KeyMatch<T>(x: T, key: T -> int, k: int): seq<T> {
    if key(x) == k then [x] else []
  }

  lemma WithKeyCons<T>(x: T, xs: seq<T>, key: T -> int, k: int)
    ensures WithKey([x] + xs, key, k) == KeyMatch(x, key, k) + WithKey(xs, key, k)
  {
    assert ([x] + xs)[1..] == xs;
  }

  /** Inserting x keeps x ahead of every element with the same key. */
  lemma {:induction false} WithKeyInsertBy<T>(x: T, xs: seq<T>, key: T -> int, k: int)
    ensures WithKey(InsertBy(x, xs, key), key, k) == WithKey([x] + xs, key, k)
    decreases |xs|
  {
    if !(xs == [] || key(x) <= key(xs[0])) {
      var a, rest := xs[0], xs[1..];
      var r := InsertBy(x, rest, key);
      WithKeyInsertBy(x, rest, key, k);
      assert InsertBy(x, xs, key) == [a] + r;
      assert xs == [a] + rest;
      WithKeyCons(a, r, key, k);
      WithKeyCons(x, rest, key, k);
      WithKeyCons(a, rest, key, k);
      WithKeyCons(x, xs, key, k);
      assert KeyMatch(a, key, k) == [] || KeyMatch(x, key, k) == [];
      calc {
        WithKey(InsertBy(x, xs, key), key, k);
        KeyMatch(a, key, k) + WithKey(r, key, k);
        KeyMatch(a, key, k) + (KeyMatch(x, key, k) + WithKey(rest, key, k));
        KeyMatch(x, key, k) + (KeyMatch(a, key, k) + WithKey(rest, key, k));
        WithKey([x] + xs, key, k);
      }
    }
  }

  /** The sort is stable: for every key, the elements with that key come out
      in the order they went in. */
  lemma {:induction false} SortByStable<T>(xs: seq<T>, key: T -> int, k: int)
    ensures WithKey(SortBy(xs, key), key, k) == WithKey(xs, key, k)
    decreases |xs|
  {
    if xs != [] {
      SortByStable(xs[1..], key, k);
      WithKeyInsertBy(xs[0], SortBy(xs[1..], key), key, k);
      assert ([xs[0]] + SortBy(xs[1..], key))[1..] == SortBy(xs[1..], key);
    }
  }

  /** A sequence already in key order comes out of the sort unchanged. */
  lemma {:induction false} SortBySorted<T>(xs: seq<T>, key: T -> int)
    requires SortedBy(xs, key)
    ensures SortBy(xs, key) == xs
    decreases |xs|
  {
    if xs != [] {
      assert SortedBy(xs[1..], key);
      SortBySorted(xs[1..], key);
      assert xs == [xs[0]] + xs[1..];
    }
  }
}
