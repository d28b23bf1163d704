/** The array `filter` the component uses twice: keep the elements that satisfy
    a predicate, in their original order. Both `deleteExpense` and the category
    view are instances of it. */
module SeqFilter {

  /** `r` can be obtained from `xs` by deleting elements, without reordering. */
  predicate IsSubsequence<T(==)>(r: seq<T>, xs: seq<T>)
  {
    if r == [] then true
    else if xs == [] then false
    else (r[0] == xs[0] && IsSubsequence(r[1..], xs[1..])) || IsSubsequence(r, xs[1..])
  }

  /** The elements of `xs` that satisfy `p`, left to right. */
  function Filter<T>(xs: seq<T>, p: T -> bool): (r: seq<T>)
    ensures |r| <= |xs|
    ensures forall x :: x in r ==> x in xs && p(x)
  {
    if xs == [] then []
    else if p(xs[0]) then [xs[0]] + Filter(xs[1..], p)
    else Filter(xs[1..], p)
  }

  /** Each value occurs in the result exactly as often as in the input if it
      passes the predicate, and not at all otherwise. */
  lemma {:induction false} FilterCount<T>(xs: seq<T>, p: T -> bool, x: T)
    ensures multiset(Filter(xs, p))[x] == if p(x) then multiset(xs)[x] else 0
  {
    if xs != [] {
      FilterCount(xs[1..], p, x);
      assert xs == [xs[0]] + xs[1..];
    }
  }

  /** The result keeps the input's order. */
  lemma {:induction false} FilterIsSubsequence<T>(xs: seq<T>, p: T -> bool)
    ensures IsSubsequence(Filter(xs, p), xs)
  {
    if xs != [] {
      FilterIsSubsequence(xs[1..], p);
      if p(xs[0]) {
        assert Filter(xs, p)[1..] == Filter(xs[1..], p);
      } else {
        var r := Filter(xs, p);
        assert r != [] ==> IsSubsequence(r, xs[1..]);
      }
    }
  }

  /** A subsequence never holds more copies of a value than the sequence does. */
  lemma {:induction false} SubsequenceMultiset<T>(r: seq<T>, xs: seq<T>)
    requires IsSubsequence(r, xs)
    ensures multiset(r) <= multiset(xs)
  {
    if r != [] {
      assert xs == [xs[0]] + xs[1..];
      if r[0] == xs[0] && IsSubsequence(r[1..], xs[1..]) {
        SubsequenceMultiset(r[1..], xs[1..]);
        assert r == [r[0]] + r[1..];
      } else {
        SubsequenceMultiset(r, xs[1..]);
      }
    }
  }

  /** Filter is the ONLY order-preserving selection with the multiplicities of
      FilterCount: together the two lemmas characterise it completely. */
  lemma {:induction false} FilterUnique<T>(xs: seq<T>, p: T -> bool, r: seq<T>)
    requires IsSubsequence(r, xs)
    requires forall x :: multiset(r)[x] == if p(x) then multiset(xs)[x] else 0
    ensures r == Filter(xs, p)
  {
    if xs == [] {
      assert r == [];
    } else {
      var x, tail := xs[0], xs[1..];
      assert xs == [x] + tail;
      if p(x) {
        assert multiset(r)[x] == multiset(xs)[x] >= 1;
        if !(r[0] == x && IsSubsequence(r[1..], tail)) {
          SubsequenceMultiset(r, tail);
          assert false;
        }
        assert r == [x] + r[1..];
        forall y ensures multiset(r[1..])[y] == if p(y) then multiset(tail)[y] else 0 {
          assert multiset(r)[y] == multiset(r[1..])[y] + (if y == x then 1 else 0);
        }
        FilterUnique(tail, p, r[1..]);
      } else {
        assert multiset(r)[x] == 0;
        assert r != [] ==> r[0] != x by {
          if r != [] { assert r[0] in multiset(r); }
        }
        forall y ensures multiset(r)[y] == if p(y) then multiset(tail)[y] else 0 {
          assert multiset(xs)[y] == multiset(tail)[y] + (if y == x then 1 else 0);
        }
        FilterUnique(tail, p, r);
      }
    }
  }

  /** Filtering distributes over concatenation. */
  lemma {:induction false} FilterAppend<T>(a: seq<T>, b: seq<T>, p: T -> bool)
    ensures Filter(a + b, p) == Filter(a, p) + Filter(b, p)
  {
    if a != [] {
      assert (a + b)[0] == a[0] && (a + b)[1..] == a[1..] + b;
      FilterAppend(a[1..], b, p);
      if p(a[0]) {
        calc {
          Filter(a + b, p);
          [a[0]] + Filter(a[1..] + b, p);
          [a[0]] + (Filter(a[1..], p) + Filter(b, p));
          ([a[0]] + Filter(a[1..], p)) + Filter(b, p);
        }
      }
    } else {
      assert a + b == b;
    }
  }

  /** When every element passes, nothing is removed. */
  lemma {:induction false} FilterKeepsAll<T>(xs: seq<T>, p: T -> bool)
    requires forall x :: x in xs ==> p(x)
    ensures Filter(xs, p) == xs
  {
    if xs != [] {
      assert xs[0] in xs;
      assert forall x :: x in xs[1..] ==> x in xs;
      FilterKeepsAll(xs[1..], p);
    }
  }

  /** Filtering twice by the same predicate is filtering once. */
  lemma {:induction false} FilterIdempotent<T>(xs: seq<T>, p: T -> bool)
    ensures Filter(Filter(xs, p), p) == Filter(xs, p)
  {
    FilterKeepsAll(Filter(xs, p), p);
  }

  /** The result is empty exactly when no element passes. */
  lemma {:induction false} FilterEmptyIff<T>(xs: seq<T>, p: T -> bool)
    ensures Filter(xs, p) == [] <==> forall x :: x in xs ==> !p(x)
  {
    if xs != [] {
      FilterEmptyIff(xs[1..], p);
      assert forall x :: x in xs <==> x == xs[0] || x in xs[1..];
    }
  }

  /** Filtering by two predicates in either order gives the same result. */
  lemma {:induction false} FilterCommute<T>(xs: seq<T>, p: T -> bool, q: T -> bool)
    ensures Filter(Filter(xs, p), q) == Filter(Filter(xs, q), p)
  {
    if xs != [] {
      FilterCommute(xs[1..], p, q);
      var x := xs[0];
      FilterAppend([x], xs[1..], p);
      FilterAppend([x], xs[1..], q);
      assert xs == [x] + xs[1..];
      FilterAppend(Filter([x], p), Filter(xs[1..], p), q);
      FilterAppend(Filter([x], q), Filter(xs[1..], q), p);
    }
  }

  /** Reference count: how many elements of `xs` pass `p`. */
  function CountWhere<T>(xs: seq<T>, p: T -> bool): nat
  {
    if xs == [] then 0 else (if p(xs[0]) then 1 else 0) + CountWhere(xs[1..], p)
  }

  /** The filter's length is the number of elements that pass. */
  lemma {:induction false} FilterLength<T>(xs: seq<T>, p: T -> bool)
    ensures |Filter(xs, p)| == CountWhere(xs, p)
  {
    if xs != [] {
      FilterLength(xs[1..], p);
    }
  }
}
