/** Element-wise mapping and filtering of a list, as Python's list comprehensions and append loops build them. */
module Seqs {

  /** `[f(x) for x in xs]`. */
  function MapSeq<A, B>(f: A -> B, xs: seq<A>): (r: seq<B>)
    ensures |r| == |xs|
    ensures forall k :: 0 <= k < |xs| ==> r[k] == f(xs[k])
  {
    seq(|xs|, k requires 0 <= k < |xs| => f(xs[k]))
  }

  /** Appending `f(xs[i])` to the image of a prefix gives the image of the next prefix. */
  lemma MapSeqSnoc<A, B>(f: A -> B, xs: seq<A>, i: nat)
    requires i < |xs|
    ensures MapSeq(f, xs[..i + 1]) == MapSeq(f, xs[..i]) + [f(xs[i])]
  {
    var a, b := MapSeq(f, xs[..i + 1]), MapSeq(f, xs[..i]) + [f(xs[i])];
    assert |a| == |b|;
    forall k | 0 <= k < |a| ensures a[k] == b[k] {
      assert xs[..i + 1][k] == xs[k];
      if k < i { assert xs[..i][k] == xs[k]; }
    }
  }

  /** Mapping distributes over concatenation. */
  lemma MapSeqAppend<A, B>(f: A -> B, a: seq<A>, b: seq<A>)
    ensures MapSeq(f, a + b) == MapSeq(f, a) + MapSeq(f, b)
  {
    var l, r := MapSeq(f, a + b), MapSeq(f, a) + MapSeq(f, b);
    assert |l| == |r|;
    forall k | 0 <= k < |l| ensures l[k] == r[k] {
      if k < |a| { assert (a + b)[k] == a[k]; } else { assert (a + b)[k] == b[k - |a|]; }
    }
  }

  /** `[x for x in xs if p(x)]`, built by looking at the last element, as an append loop does. */
  function Filter<A>(p: A -> bool, xs: seq<A>): (r: seq<A>)
    ensures |r| <= |xs|
    decreases |xs|
  {
    if xs == [] then []
    else Filter(p, xs[..|xs| - 1]) + (if p(xs[|xs| - 1]) then [xs[|xs| - 1]] else [])
  }

  /** Filtering distributes over concatenation. */
  lemma {:induction false} FilterAppend<A>(p: A -> bool, a: seq<A>, b: seq<A>)
    ensures Filter(p, a + b) == Filter(p, a) + Filter(p, b)
    decreases |b|
  {
    if b == [] {
      assert a + b == a;
    } else {
      var c := b[..|b| - 1];
      assert (a + b)[..|a + b| - 1] == a + c;
      FilterAppend(p, a, c);
    }
  }

  /** The filtered list holds exactly the elements of `xs` that satisfy `p`. */
  lemma {:induction false} FilterMembers<A>(p: A -> bool, xs: seq<A>)
    ensures forall x :: x in Filter(p, xs) <==> x in xs && p(x)
    decreases |xs|
  {
    if xs != [] {
      var init := xs[..|xs| - 1];
      FilterMembers(p, init);
      assert xs == init + [xs[|xs| - 1]];
    }
  }

  /** Filtering twice by the same test changes nothing. */
  lemma {:induction false} FilterIdempotent<A>(p: A -> bool, xs: seq<A>)
    ensures Filter(p, Filter(p, xs)) == Filter(p, xs)
    decreases |xs|
  {
    if xs != [] {
      var init := xs[..|xs| - 1];
      var x := xs[|xs| - 1];
      FilterIdempotent(p, init);
      var once := Filter(p, init);
      if p(x) {
        assert Filter(p, xs) == once + [x];
        assert (once + [x])[..|once + [x]| - 1] == once;
        assert Filter(p, once + [x]) == Filter(p, once) + [x];
      } else {
        assert Filter(p, xs) == once + [];
        assert once + [] == once;
      }
    }
  }

  /**
   * A test and its negation split a list: together the two filtered lists
   * hold every element exactly as often as the list does.
   */
  lemma {:induction false} FilterPartition<A>(p: A -> bool, q: A -> bool, xs: seq<A>)
    requires forall x :: q(x) == !p(x)
    ensures |Filter(p, xs)| + |Filter(q, xs)| == |xs|
    ensures multiset(Filter(p, xs)) + multiset(Filter(q, xs)) == multiset(xs)
    decreases |xs|
  {
    if xs != [] {
      var init, last := xs[..|xs| - 1], xs[|xs| - 1];
      FilterPartition(p, q, init);
      assert xs == init + [last];
      assert multiset(xs) == multiset(init) + multiset{last};
      if p(last) {
        assert Filter(p, xs) == Filter(p, init) + [last];
        assert multiset(Filter(p, xs)) == multiset(Filter(p, init)) + multiset{last};
        assert Filter(q, xs) == Filter(q, init);
      } else {
        assert Filter(p, xs) == Filter(p, init);
        assert Filter(q, xs) == Filter(q, init) + [last];
        assert multiset(Filter(q, xs)) == multiset(Filter(q, init)) + multiset{last};
      }
    }
  }
}
