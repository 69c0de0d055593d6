/**
 * A stable sort by a numeric key, the behaviour of `Array.prototype.sort` with a comparator
 * that subtracts keys (the standard requires that sort to be stable).
 */
module Sorting {
  import opened Seqs

  predicate SortedBy<T>(key: T -> real, s: seq<T>)
  {
    forall i, j :: 0 <= i < j < |s| ==> key(s[i]) <= key(s[j])
  }

  /** The test "the key is exactly `k`". */
  function KeyIs<T>(key: T -> real, k: real): T -> bool
  {
    x => key(x) == k
  }

  /** The elements of `s` whose key is `k`, in their order in `s`. */
  function Ties<T>(key: T -> real, s: seq<T>, k: real): seq<T>
  {
    Filter(KeyIs(key, k), s)
  }

  /** Puts `x` into the sorted `s` just before the first element with a larger key. */
  function InsertBy<T>(key: T -> real, x: T, s: seq<T>): (r: seq<T>)
    requires SortedBy(key, s)
    ensures SortedBy(key, r)
    ensures |r| == |s| + 1
    ensures r[0] == x || (s != [] && r[0] == s[0])
    ensures multiset(r) == multiset(s) + multiset{x}
  {
    if s == [] || key(x) <= key(s[0]) then
      SortedCons(key, x, s);
      [x] + s
    else
      var rest := InsertBy(key, x, s[1..]);
      assert s == [s[0]] + s[1..];
      SortedCons(key, s[0], rest);
      [s[0]] + rest
  }

  /** An element no larger than the head of a sorted sequence can go in front of it. */
  lemma SortedCons<T>(key: T -> real, x: T, s: seq<T>)
    requires SortedBy(key, s)
    requires s != [] ==> key(x) <= key(s[0])
    ensures SortedBy(key, [x] + s)
  {
    var r := [x] + s;
    forall i, j | 0 <= i < j < |r|
      ensures key(r[i]) <= key(r[j])
    {
      if i > 0 {
        assert r[i] == s[i - 1] && r[j] == s[j - 1];
      } else if j > 1 {
        assert r[j] == s[j - 1] && key(s[0]) <= key(s[j - 1]);
      }
    }
  }

  /** Insertion sort, taking the elements from the back so that equal keys keep their order. */
  function SortBy<T>(key: T -> real, s: seq<T>): (r: seq<T>)
    ensures SortedBy(key, r)
    ensures multiset(r) == multiset(s)
    ensures |r| == |s|
  {
    if s == [] then []
    else
      assert s == [s[0]] + s[1..];
      InsertBy(key, s[0], SortBy(key, s[1..]))
  }

  /** A single element is already sorted. */
  lemma SortSingleton<T>(key: T -> real, x: T)
    ensures SortBy(key, [x]) == [x]
  {
    assert [x][1..] == [];
  }

  /** Two neighbours with different keys can be swapped without changing any tie list. */
  lemma SwapDistinct<T>(key: T -> real, x: T, y: T, t: seq<T>, k: real)
    requires key(x) != key(y)
    ensures Ties(key, [y] + ([x] + t), k) == Ties(key, [x] + ([y] + t), k)
  {
    var p := KeyIs(key, k);
    var fx, fy, ft := Filter(p, [x]), Filter(p, [y]), Filter(p, t);
    FilterAppend(p, [y], [x] + t);
    FilterAppend(p, [x], t);
    FilterAppend(p, [x], [y] + t);
    FilterAppend(p, [y], t);
    FilterSingleton(p, x);
    FilterSingleton(p, y);
    SwapAroundEmpty(fx, fy, ft);
  }

  lemma SwapAroundEmpty<T>(a: seq<T>, b: seq<T>, c: seq<T>)
    requires a == [] || b == []
    ensures b + (a + c) == a + (b + c)
  {
  }

  /** Inserting keeps the relative order of equal keys, the inserted element first. */
  lemma {:induction false} InsertKeepsTies<T>(key: T -> real, x: T, s: seq<T>, k: real)
    requires SortedBy(key, s)
    ensures Ties(key, InsertBy(key, x, s), k) == Ties(key, [x] + s, k)
  {
    if s != [] && key(x) > key(s[0]) {
      var s0, tail := s[0], s[1..];
      var inserted := InsertBy(key, x, tail);
      assert InsertBy(key, x, s) == [s0] + inserted;
      assert s == [s0] + tail;
      InsertKeepsTies(key, x, tail, k);
      FilterAppend(KeyIs(key, k), [s0], inserted);
      FilterAppend(KeyIs(key, k), [s0], [x] + tail);
      SwapDistinct(key, x, s0, tail, k);
    }
  }

  /** The sort is stable: for every key, the elements with that key keep their input order. */
  lemma {:induction false} SortKeepsTies<T>(key: T -> real, s: seq<T>, k: real)
    ensures Ties(key, SortBy(key, s), k) == Ties(key, s, k)
  {
    if s != [] {
      var tail := s[1..];
      assert s == [s[0]] + tail;
      SortKeepsTies(key, tail, k);
      InsertKeepsTies(key, s[0], SortBy(key, tail), k);
      FilterAppend(KeyIs(key, k), [s[0]], SortBy(key, tail));
      FilterAppend(KeyIs(key, k), [s[0]], tail);
    }
  }

  /** Cutting a sorted sequence short leaves it sorted. */
  lemma SortedTake<T>(key: T -> real, s: seq<T>, n: nat)
    requires SortedBy(key, s)
    ensures SortedBy(key, Take(s, n))
  {
    var r := Take(s, n);
    assert forall i :: 0 <= i < |r| ==> r[i] == s[i];
  }

  /** The first `n` elements of a sorted sequence have keys no larger than any element left out. */
  lemma SortedHeadIsSmallest<T>(key: T -> real, s: seq<T>, n: nat)
    requires SortedBy(key, s)
    ensures forall x, c :: x in Take(s, n) && c in multiset(s) - multiset(Take(s, n)) ==> key(x) <= key(c)
  {
    var head := Take(s, n);
    var rest := s[|head|..];
    assert s == head + rest;
    assert multiset(s) == multiset(head) + multiset(rest);
    forall x, c | x in head && c in multiset(s) - multiset(head)
      ensures key(x) <= key(c)
    {
      assert c in multiset(rest);
      var j :| 0 <= j < |rest| && rest[j] == c;
      var i :| 0 <= i < |head| && head[i] == x;
      assert s[i] == x && s[|head| + j] == c;
    }
  }
}
