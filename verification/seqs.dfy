/** Order-preserving filtering and mapping over sequences.

    The portfolio queries are all "keep the entries that match, in the order
    they are stored" list comprehensions; this module defines that shape once
    and proves what callers rely on: which elements survive, that their order
    is the stored order, and that those two facts pin the result down. */
module Seqs {

  /** `a` is obtained from `b` by deleting zero or more elements; the
      elements that remain keep their relative order. */
  predicate IsSubseq<T(==)>(a: seq<T>, b: seq<T>)
    decreases |b|
  {
    if a == [] then true
    else if b == [] then false
    else (a[0] == b[0] && IsSubseq(a[1..], b[1..])) || IsSubseq(a, b[1..])
  }

  /** Number of positions of `s` whose element satisfies `keep`. */
  function Count<T>(s: seq<T>, keep: T -> bool): nat
  {
    if s == [] then 0
    else (if keep(s[0]) then 1 else 0) + Count(s[1..], keep)
  }

  /** The elements of `s` that satisfy `keep`, in their original order
      (a Python `[x for x in s if keep(x)]`). */
  function Filter<T(==)>(s: seq<T>, keep: T -> bool): (r: seq<T>)
    ensures forall x :: x in r ==> x in s && keep(x)
    ensures forall x :: x in s && keep(x) ==> x in r
    ensures IsSubseq(r, s)
    ensures |r| == Count(s, keep)
    ensures |r| <= |s|
  {
    if s == [] then []
    else if keep(s[0]) then
      var rest := Filter(s[1..], keep);
      assert ([s[0]] + rest)[1..] == rest;
      [s[0]] + rest
    else
      Filter(s[1..], keep)
  }

  /** `f` applied to every element of `s`, in order. */
  function Map<A, B>(f: A -> B, s: seq<A>): (r: seq<B>)
    ensures |r| == |s|
    ensures forall i :: 0 <= i < |s| ==> r[i] == f(s[i])
  {
    seq(|s|, i requires 0 <= i < |s| => f(s[i]))
  }

  /** Deleting elements twice is deleting elements once. */
  lemma {:induction false} SubseqTrans<T>(a: seq<T>, b: seq<T>, c: seq<T>)
    requires IsSubseq(a, b) && IsSubseq(b, c)
    ensures IsSubseq(a, c)
    decreases |c|
  {
    if a != [] {
      assert b != [] && c != [];
      if b[0] == c[0] && IsSubseq(b[1..], c[1..]) {
        if a[0] == b[0] && IsSubseq(a[1..], b[1..]) {
          SubseqTrans(a[1..], b[1..], c[1..]);
        } else {
          SubseqTrans(a, b[1..], c[1..]);
        }
      } else {
        SubseqTrans(a, b, c[1..]);
      }
    }
  }

  /** A subsequence made only of kept elements is no longer than the number
      of kept positions. */
  lemma {:induction false} SubseqKeptBound<T>(r: seq<T>, s: seq<T>, keep: T -> bool)
    requires IsSubseq(r, s)
    requires forall x :: x in r ==> keep(x)
    ensures |r| <= Count(s, keep)
    decreases |s|
  {
    if r != [] {
      assert s != [];
      if r[0] == s[0] && IsSubseq(r[1..], s[1..]) {
        assert forall x :: x in r[1..] ==> x in r;
        SubseqKeptBound(r[1..], s[1..], keep);
        assert keep(s[0]) by { assert r[0] in r; }
      } else {
        SubseqKeptBound(r, s[1..], keep);
      }
    }
  }

  /** The three facts `Filter` promises (a subsequence, made of kept
      elements, as long as the number of kept positions) determine the
      result: any sequence with them IS the filtered sequence. */
  lemma {:induction false} FilterUnique<T>(r: seq<T>, s: seq<T>, keep: T -> bool)
    requires IsSubseq(r, s)
    requires forall x :: x in r ==> keep(x)
    requires |r| == Count(s, keep)
    ensures r == Filter(s, keep)
    decreases |s|
  {
    if s != [] {
      if keep(s[0]) {
        if r[0] == s[0] && IsSubseq(r[1..], s[1..]) {
          assert forall x :: x in r[1..] ==> x in r;
          FilterUnique(r[1..], s[1..], keep);
          assert r == [r[0]] + r[1..];
        } else {
          SubseqKeptBound(r, s[1..], keep);
          assert false;
        }
      } else if r != [] {
        assert r[0] in r;
        assert r[0] != s[0];
        FilterUnique(r, s[1..], keep);
      }
    }
  }

  /** Counting the kept elements of a filtered sequence counts the
      positions of the original that pass both tests. */
  lemma {:induction false} CountOfFilter<T>(s: seq<T>, k1: T -> bool, k2: T -> bool, both: T -> bool)
    requires forall x :: both(x) == (k1(x) && k2(x))
    ensures Count(Filter(s, k1), k2) == Count(s, both)
    decreases |s|
  {
    if s != [] {
      CountOfFilter(s[1..], k1, k2, both);
      if k1(s[0]) {
        assert ([s[0]] + Filter(s[1..], k1))[1..] == Filter(s[1..], k1);
      }
    }
  }

  /** Filtering with a predicate every element satisfies changes nothing. */
  lemma {:induction false} FilterKeepsAll<T>(s: seq<T>, keep: T -> bool)
    requires forall x :: x in s ==> keep(x)
    ensures Filter(s, keep) == s
    decreases |s|
  {
    if s != [] {
      assert s[0] in s;
      assert forall x :: x in s[1..] ==> x in s;
      FilterKeepsAll(s[1..], keep);
      assert s == [s[0]] + s[1..];
    }
  }

  /** Filtering depends only on the verdicts `keep` gives on the elements
      of `s`. */
  lemma {:induction false} FilterCongruent<T>(s: seq<T>, k1: T -> bool, k2: T -> bool)
    requires forall x :: x in s ==> k1(x) == k2(x)
    ensures Filter(s, k1) == Filter(s, k2)
    ensures Count(s, k1) == Count(s, k2)
    decreases |s|
  {
    if s != [] {
      assert s[0] in s;
      assert forall x :: x in s[1..] ==> x in s;
      FilterCongruent(s[1..], k1, k2);
    }
  }
}
