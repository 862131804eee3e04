/** `Array.prototype.filter` and `find`, and what they preserve. */
module Seqs {
  import opened Wrappers

  /** `xs.filter(p)` */
  function Filter<T>(xs: seq<T>, p: T -> bool): (r: seq<T>)
    ensures |r| <= |xs|
    ensures forall i :: 0 <= i < |r| ==> p(r[i])
  {
    if xs == [] then [] else (if p(xs[0]) then [xs[0]] else []) + Filter(xs[1..], p)
  }

  /** `r` is `xs` with some elements dropped, the rest kept in order. */
  predicate Subsequence<T(==)>(r: seq<T>, xs: seq<T>)
    decreases |xs|
  {
    if r == [] then true
    else if xs == [] then false
    else if r[0] == xs[0] then Subsequence(r[1..], xs[1..])
    else Subsequence(r, xs[1..])
  }

  /**
   * A filter keeps, in their original order, exactly the elements that satisfy
   * the predicate, each as often as it occurs in the input.
   */
  lemma {:induction false} FilterSpec<T>(xs: seq<T>, p: T -> bool)
    ensures Subsequence(Filter(xs, p), xs)
    ensures forall x :: x in Filter(xs, p) <==> x in xs && p(x)
    ensures multiset(Filter(xs, p)) <= multiset(xs)
    ensures forall x :: multiset(Filter(xs, p))[x] == if p(x) then multiset(xs)[x] else 0
  {
    if xs != [] {
      FilterSpec(xs[1..], p);
      assert xs == [xs[0]] + xs[1..];
      assert multiset(xs) == multiset([xs[0]]) + multiset(xs[1..]);
      var rest := Filter(xs[1..], p);
      if p(xs[0]) {
        assert Filter(xs, p) == [xs[0]] + rest;
        assert ([xs[0]] + rest)[1..] == rest;
        assert multiset(Filter(xs, p)) == multiset([xs[0]]) + multiset(rest);
      } else {
        assert Filter(xs, p) == rest;
      }
    }
  }

  /** Filtering with a predicate every element satisfies keeps everything. */
  lemma {:induction false} FilterAll<T>(xs: seq<T>, p: T -> bool)
    requires forall i :: 0 <= i < |xs| ==> p(xs[i])
    ensures Filter(xs, p) == xs
  {
    if xs != [] {
      FilterAll(xs[1..], p);
      assert xs == [xs[0]] + xs[1..];
    }
  }

  /** The filter of a non-empty list keeps its head exactly when the head satisfies the predicate. */
  lemma FilterCons<T>(xs: seq<T>, p: T -> bool)
    requires xs != []
    ensures |Filter(xs, p)| == (if p(xs[0]) then 1 else 0) + |Filter(xs[1..], p)|
  {
  }

  /** Filtering distributes over concatenation. */
  lemma {:induction false} FilterAppend<T>(xs: seq<T>, ys: seq<T>, p: T -> bool)
    ensures Filter(xs + ys, p) == Filter(xs, p) + Filter(ys, p)
  {
    if xs == [] {
      assert xs + ys == ys;
    } else {
      var head := if p(xs[0]) then [xs[0]] else [];
      assert Filter(xs + ys, p) == head + Filter(xs[1..] + ys, p) by {
        assert (xs + ys)[1..] == xs[1..] + ys;
      }
      FilterAppend(xs[1..], ys, p);
      ConcatAssoc(head, Filter(xs[1..], p), Filter(ys, p));
    }
  }

  lemma ConcatAssoc<T>(a: seq<T>, b: seq<T>, c: seq<T>)
    ensures a + (b + c) == (a + b) + c
  {
  }

  /** Filtering with the conjunction is filtering twice. */
  lemma {:induction false} FilterFilter<T>(xs: seq<T>, p: T -> bool, q: T -> bool, pq: T -> bool)
    requires forall x :: pq(x) == (p(x) && q(x))
    ensures Filter(Filter(xs, p), q) == Filter(xs, pq)
  {
    if xs != [] {
      FilterFilter(xs[1..], p, q, pq);
      assert pq(xs[0]) == (p(xs[0]) && q(xs[0]));
      if p(xs[0]) {
        var fp := [xs[0]] + Filter(xs[1..], p);
        assert Filter(xs, p) == fp;
        assert fp[1..] == Filter(xs[1..], p);
        assert Filter(fp, q) == (if q(xs[0]) then [xs[0]] else []) + Filter(fp[1..], q);
      } else {
        assert Filter(xs, p) == [] + Filter(xs[1..], p) == Filter(xs[1..], p);
        assert Filter(xs, pq) == [] + Filter(xs[1..], pq) == Filter(xs[1..], pq);
      }
    }
  }

  /** `xs.find(p)`: the first element that satisfies `p`. */
  function Find<T(==)>(xs: seq<T>, p: T -> bool): (r: Option<T>)
    ensures r.None? <==> forall i :: 0 <= i < |xs| ==> !p(xs[i])
    ensures r.Some? ==> exists i :: FoundAt(xs, p, i) && xs[i] == r.value
  {
    if xs == [] then None
    else if p(xs[0]) then (assert FoundAt(xs, p, 0); Some(xs[0]))
    else
      var r := Find(xs[1..], p);
      if r.Some? then
        var i :| FoundAt(xs[1..], p, i) && xs[1..][i] == r.value;
        assert FoundAt(xs, p, i + 1);
        r
      else r
  }

  /** `xs[i]` is the first element of `xs` that satisfies `p`. */
  predicate FoundAt<T>(xs: seq<T>, p: T -> bool, i: int) {
    0 <= i < |xs| && p(xs[i]) && forall j :: 0 <= j < i ==> !p(xs[j])
  }
}
