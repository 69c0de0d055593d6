/** Generic sequence operations that mirror the JavaScript array methods the program uses. */
module Seqs {

  /** `Array.prototype.filter`: the elements of `s` that satisfy `p`, in their original order. */
  function Filter<T>(p: T -> bool, s: seq<T>): (r: seq<T>)
    ensures |r| <= |s|
    ensures forall i :: 0 <= i < |r| ==> p(r[i])
    ensures multiset(r) <= multiset(s)
  {
    if s == [] then []
    else
      assert s == [s[0]] + s[1..];
      (if p(s[0]) then [s[0]] else []) + Filter(p, s[1..])
  }

  /** The kept elements are exactly the elements of `s` that satisfy `p`. */
  lemma {:induction false} FilterMembers<T>(p: T -> bool, s: seq<T>)
    ensures forall i :: 0 <= i < |Filter(p, s)| ==> Filter(p, s)[i] in s
    ensures forall i :: 0 <= i < |s| && p(s[i]) ==> s[i] in Filter(p, s)
  {
    SubMultisetMembers(Filter(p, s), s);
    if s != [] {
      FilterMembers(p, s[1..]);
      forall i | 0 <= i < |s| && p(s[i])
        ensures s[i] in Filter(p, s)
      {
        if i > 0 {
          assert s[i] == s[1..][i - 1];
        }
      }
    }
  }

  /** A property every element has, every kept element has. */
  lemma {:induction false} FilterPreserves<T>(p: T -> bool, q: T -> bool, s: seq<T>)
    requires forall i :: 0 <= i < |s| ==> q(s[i])
    ensures forall i :: 0 <= i < |Filter(p, s)| ==> q(Filter(p, s)[i])
  {
    if s != [] {
      FilterPreserves(p, q, s[1..]);
    }
  }

  /** Filtering distributes over concatenation: the kept elements keep their relative order. */
  lemma {:induction false} FilterAppend<T>(p: T -> bool, a: seq<T>, b: seq<T>)
    ensures Filter(p, a + b) == Filter(p, a) + Filter(p, b)
  {
    if a == [] {
      assert a + b == b;
    } else {
      assert (a + b)[1..] == a[1..] + b;
      FilterAppend(p, a[1..], b);
    }
  }

  /** A one-element sequence passes whole or not at all. */
  lemma FilterSingleton<T>(p: T -> bool, x: T)
    ensures Filter(p, [x]) == if p(x) then [x] else []
  {
    assert [x][1..] == [];
  }

  /** Two elements that both pass are both kept, in order. */
  lemma FilterBothPass<T>(p: T -> bool, x: T, y: T)
    requires p(x) && p(y)
    ensures Filter(p, [x] + [y]) == [x] + [y]
  {
    FilterAppend(p, [x], [y]);
    FilterSingleton(p, x);
    FilterSingleton(p, y);
  }

  /** Filtering a prefix one element longer adds that element exactly when it passes. */
  lemma FilterSnoc<T>(p: T -> bool, s: seq<T>, i: nat)
    requires i < |s|
    ensures Filter(p, s[..i + 1]) == Filter(p, s[..i]) + (if p(s[i]) then [s[i]] else [])
  {
    assert s[..i + 1] == s[..i] + [s[i]];
    FilterAppend(p, s[..i], [s[i]]);
    FilterSingleton(p, s[i]);
  }

  /** Filtering a sequence split in two is filtering each part. */
  lemma FilterSplit<T>(p: T -> bool, s: seq<T>, n: nat)
    requires n <= |s|
    ensures Filter(p, s) == Filter(p, s[..n]) + Filter(p, s[n..])
  {
    assert s == s[..n] + s[n..];
    FilterAppend(p, s[..n], s[n..]);
  }

  /** `s.slice(0, n)` for a count that is not negative. */
  function Take<T>(s: seq<T>, n: nat): (r: seq<T>)
    ensures |r| == if n < |s| then n else |s|
    ensures r <= s
    ensures multiset(r) <= multiset(s)
  {
    var r := if n < |s| then s[..n] else s;
    assert s == r + s[|r|..];
    r
  }

  /** Every element of a sub-multiset occurs in the larger sequence. */
  lemma SubMultisetMembers<T>(a: seq<T>, b: seq<T>)
    requires multiset(a) <= multiset(b)
    ensures forall i :: 0 <= i < |a| ==> a[i] in b
  {
    forall i | 0 <= i < |a| ensures a[i] in b {
      assert a[i] in multiset(a);
    }
  }

  /** Flattening of a sequence of sequences (`push(...xs)` repeated, or `flat()`). */
  function Concat<T>(ss: seq<seq<T>>): (r: seq<T>)
    ensures |ss| == 0 ==> r == []
  {
    if ss == [] then [] else ss[0] + Concat(ss[1..])
  }

  lemma {:induction false} ConcatAppend<T>(a: seq<seq<T>>, b: seq<seq<T>>)
    ensures Concat(a + b) == Concat(a) + Concat(b)
  {
    if a == [] {
      assert a + b == b;
    } else {
      assert (a + b)[1..] == a[1..] + b;
      ConcatAppend(a[1..], b);
    }
  }

  /** Pushing one more piece appends it. */
  lemma ConcatSnoc<T>(ss: seq<seq<T>>, x: seq<T>)
    ensures Concat(ss + [x]) == Concat(ss) + x
  {
    ConcatAppend(ss, [x]);
    assert [x][1..] == [];
  }
}
