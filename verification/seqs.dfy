/**
  Order-preserving sequence operations shared by the model: filtering (the
  list comprehensions of the source), subsequence, and the "remove the first
  equal element" of Python's `list.remove`.
 */
module Seqs {

  /** The elements of `s` that satisfy `p`, in their original order. */
  function Filter<T(==)>(p: T -> bool, s: seq<T>): (r: seq<T>)
    ensures |r| <= |s|
    ensures forall x :: x in r ==> x in s && p(x)
  {
    if s == [] then [] else (if p(s[0]) then [s[0]] else []) + Filter(p, s[1..])
  }

  /** The complement of a predicate. */
  function Not<T>(p: T -> bool): T -> bool {
    x => !p(x)
  }

  /**
    `s` occurs in `t` in order, possibly with gaps (greedy left-to-right
    matching, which finds an embedding whenever one exists).
   */
  predicate IsSubseq<T(==)>(s: seq<T>, t: seq<T>)
    decreases |t|
  {
    s == [] || (t != [] && if s[0] == t[0] then IsSubseq(s[1..], t[1..]) else IsSubseq(s, t[1..]))
  }

  /** Every element of `s` that satisfies `p` is kept. */
  lemma {:induction false} FilterKeeps<T>(p: T -> bool, s: seq<T>)
    ensures forall x :: x in s && p(x) ==> x in Filter(p, s)
  {
    if s != [] {
      FilterKeeps(p, s[1..]);
      assert s == [s[0]] + s[1..];
    }
  }

  lemma {:induction false} FilterConcat<T>(p: T -> bool, a: seq<T>, b: seq<T>)
    ensures Filter(p, a + b) == Filter(p, a) + Filter(p, b)
  {
    if a == [] {
      assert a + b == b;
    } else {
      assert (a + b)[1..] == a[1..] + b;
      FilterConcat(p, a[1..], b);
    }
  }

  /** Filtering by `p` and by its complement splits `s` into two parts that together are a permutation of it. */
  lemma {:induction false} FilterPartition<T>(p: T -> bool, s: seq<T>)
    ensures multiset(Filter(Not(p), s)) + multiset(Filter(p, s)) == multiset(s)
  {
    if s != [] {
      FilterPartition(p, s[1..]);
      assert s == [s[0]] + s[1..];
    }
  }

  /** Filtering keeps the relative order of what it keeps. */
  lemma {:induction false} FilterIsSubseq<T>(p: T -> bool, s: seq<T>)
    ensures IsSubseq(Filter(p, s), s)
  {
    if s != [] {
      FilterIsSubseq(p, s[1..]);
      var r := Filter(p, s[1..]);
      if p(s[0]) {
        assert Filter(p, s) == [s[0]] + r;
        assert Filter(p, s)[1..] == r;
      } else {
        assert Filter(p, s) == r;
        assert r != [] ==> r[0] in r && p(r[0]) && r[0] != s[0];
      }
    }
  }

  /** Python's `list.remove(x)`: drop the first element equal to `x` (the source never calls it on a missing element). */
  function RemoveFirst<T(==)>(s: seq<T>, x: T): (r: seq<T>)
    requires x in s
    ensures |r| == |s| - 1
  {
    if s[0] == x then s[1..] else [s[0]] + RemoveFirst(s[1..], x)
  }

  /** `list.remove` takes out exactly one occurrence of `x`. */
  lemma {:induction false} RemoveFirstMultiset<T>(s: seq<T>, x: T)
    requires x in s
    ensures multiset(RemoveFirst(s, x)) == multiset(s) - multiset{x}
  {
    assert s == [s[0]] + s[1..];
    if s[0] != x {
      RemoveFirstMultiset(s[1..], x);
    }
  }

  /**
    `s` with its first `n` elements that satisfy `p` taken out, everything
    else kept in order: the state of a list after `n` rounds of removing, in
    order, the elements `Filter(p, s)` names.
   */
  function Drop<T(==)>(p: T -> bool, s: seq<T>, n: nat): seq<T>
  {
    if s == [] then []
    else if p(s[0]) && n > 0 then Drop(p, s[1..], n - 1)
    else [s[0]] + Drop(p, s[1..], n)
  }

  lemma {:induction false} DropNone<T>(p: T -> bool, s: seq<T>)
    ensures Drop(p, s, 0) == s
  {
    if s != [] {
      DropNone(p, s[1..]);
    }
  }

  lemma AppendAssoc<T>(a: seq<T>, b: seq<T>, c: seq<T>)
    ensures a + (b + c) == (a + b) + c
  {
  }

  /** A prefix one longer is the shorter prefix and the next element. */
  lemma TakeSnoc<T>(s: seq<T>, i: nat)
    requires i < |s|
    ensures s[..i + 1] == s[..i] + [s[i]]
  {
  }

  /**
    Removing the next element of `Filter(p, s)` from the partly reduced list
    removes exactly that filtered occurrence: an element equal to it satisfies
    `p` too, so no earlier unfiltered element can be taken instead.
   */
  lemma {:induction false} RemoveNext<T>(p: T -> bool, s: seq<T>, i: nat)
    requires i < |Filter(p, s)|
    ensures p(Filter(p, s)[i])
    ensures Filter(p, s)[i] in Drop(p, s, i)
    ensures RemoveFirst(Drop(p, s, i), Filter(p, s)[i]) == Drop(p, s, i + 1)
  {
    var x, t := s[0], s[1..];
    var y := Filter(p, s)[i];
    if p(x) {
      assert Filter(p, s) == [x] + Filter(p, t);
      if i == 0 {
        DropNone(p, s);
        DropNone(p, t);
      } else {
        RemoveNext(p, t, i - 1);
      }
    } else {
      assert Filter(p, s) == Filter(p, t);
      assert y in Filter(p, s);
      assert p(y) && y != x;
      RemoveNext(p, t, i);
      assert Drop(p, s, i) == [x] + Drop(p, t, i);
    }
  }

  /** Once every filtered element is removed, what is left is the complement filter, in order. */
  lemma {:induction false} DropAll<T>(p: T -> bool, s: seq<T>)
    ensures Drop(p, s, |Filter(p, s)|) == Filter(Not(p), s)
  {
    if s != [] {
      var x, t := s[0], s[1..];
      DropAll(p, t);
      assert Not(p)(x) == !p(x);
      if p(x) {
        assert Filter(p, s) == [x] + Filter(p, t);
        assert Filter(Not(p), s) == Filter(Not(p), t);
      } else {
        assert Filter(p, s) == Filter(p, t);
        assert Filter(Not(p), s) == [x] + Filter(Not(p), t);
      }
    }
  }
}
