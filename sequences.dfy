/** Generic facts about sequences: subsequences and order-preserving filters. */
module Sequences {

  /** `a` is `b` with some elements left out, in the order `b` gives them. */
  predicate Subseq<T(==)>(a: seq<T>, b: seq<T>)
    decreases |b|
  {
    if b == [] then a == []
    else
      Subseq(a, b[..|b| - 1])
      || (a != [] && a[|a| - 1] == b[|b| - 1] && Subseq(a[..|a| - 1], b[..|b| - 1]))
  }

  lemma SubseqEmpty<T>(b: seq<T>)
    ensures Subseq([], b)
    decreases |b|
  {
    if b != [] {
      SubseqEmpty(b[..|b| - 1]);
    }
  }

  lemma {:induction false} SubseqRefl<T>(a: seq<T>)
    ensures Subseq(a, a)
    decreases |a|
  {
    if a != [] {
      SubseqRefl(a[..|a| - 1]);
    }
  }

  /** Appending one element to `b`, and optionally the same element to `a`, keeps `a` a subsequence. */
  lemma SubseqExtend<T>(a: seq<T>, b: seq<T>, x: T)
    requires Subseq(a, b)
    ensures Subseq(a, b + [x]) && Subseq(a + [x], b + [x])
  {
    assert (b + [x])[..|b|] == b;
    assert (a + [x])[..|a|] == a;
  }

  /** Every element of a subsequence is an element of the whole. */
  lemma {:induction false} SubseqIncluded<T>(a: seq<T>, b: seq<T>)
    requires Subseq(a, b)
    ensures forall x :: x in a ==> x in b
    decreases |b|
  {
    if b != [] {
      var init := b[..|b| - 1];
      if Subseq(a, init) {
        SubseqIncluded(a, init);
      } else {
        SubseqIncluded(a[..|a| - 1], init);
        assert a == a[..|a| - 1] + [a[|a| - 1]];
      }
      assert b == init + [b[|b| - 1]];
    }
  }

  /** The elements of `xs` that belong to `keep`, in order: `[x for x in xs if x in keep]`. */
  function KeepIn<T(==, !new)>(xs: seq<T>, keep: seq<T>): (r: seq<T>)
    ensures forall x :: x in r <==> x in xs && x in keep
  {
    if xs == [] then []
    else
      var init := KeepIn(xs[..|xs| - 1], keep);
      var last := xs[|xs| - 1];
      assert xs == xs[..|xs| - 1] + [last];
      if last in keep then init + [last] else init
  }

  /** `[x for x in xs if p(x)]`. */
  function Filter<T>(xs: seq<T>, p: T -> bool): seq<T>
  {
    if xs == [] then [] else Filter(xs[..|xs| - 1], p) + (if p(xs[|xs| - 1]) then [xs[|xs| - 1]] else [])
  }

  /** The filter keeps exactly the elements that pass the test. */
  lemma {:induction false} FilterMembers<T>(xs: seq<T>, p: T -> bool, x: T)
    ensures x in Filter(xs, p) <==> x in xs && p(x)
    decreases |xs|
  {
    if xs != [] {
      var init := xs[..|xs| - 1];
      FilterMembers(init, p, x);
      assert xs == init + [xs[|xs| - 1]];
    }
  }

  /** The filter keeps the order of `xs` and takes no element twice. */
  lemma {:induction false} FilterSubseq<T>(xs: seq<T>, p: T -> bool)
    ensures Subseq(Filter(xs, p), xs)
    decreases |xs|
  {
    if xs == [] {
      SubseqEmpty<T>([]);
    } else {
      var init := xs[..|xs| - 1];
      var last := xs[|xs| - 1];
      FilterSubseq(init, p);
      SubseqExtend(Filter(init, p), init, last);
      assert init + [last] == xs;
      assert Filter(init, p) + [] == Filter(init, p);
    }
  }
}
