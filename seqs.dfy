/** List comprehensions as functions on sequences, and the facts about them
    that the listing code relies on. */
module Seqs {

  /** `[x for x in xs if p(x)]`: the elements satisfying p, in order. */
  function Filter<T>(xs: seq<T>, p: T -> bool): (r: seq<T>)
    ensures |r| <= |xs|
  {
    if xs == [] then []
    else Filter(xs[..|xs| - 1], p) + (if p(xs[|xs| - 1]) then [xs[|xs| - 1]] else [])
  }

  /** `[f(x) for x in xs]`. */
  function MapSeq<S, T>(xs: seq<S>, f: S -> T): (r: seq<T>)
    ensures |r| == |xs|
    ensures forall i :: 0 <= i < |xs| ==> r[i] == f(xs[i])
  {
    if xs == [] then [] else MapSeq(xs[..|xs| - 1], f) + [f(xs[|xs| - 1])]
  }

  /** a is obtained from b by deleting elements: order is preserved. */
  ghost predicate Subseq<T>(a: seq<T>, b: seq<T>)
    decreases |b|
  {
    || a == []
    || (&& b != []
        && (|| (a[|a| - 1] == b[|b| - 1] && Subseq(a[..|a| - 1], b[..|b| - 1]))
            || Subseq(a, b[..|b| - 1])))
  }

  /** Filtering a list that grew by one element, as an appending loop does. */
  lemma FilterSnoc<T>(xs: seq<T>, x: T, p: T -> bool)
    ensures Filter(xs + [x], p) == Filter(xs, p) + (if p(x) then [x] else [])
  {
    assert (xs + [x])[..|xs|] == xs;
  }

  /** Mapping over a list that grew by one element. */
  lemma MapSnoc<S, T>(xs: seq<S>, x: S, f: S -> T)
    ensures MapSeq(xs + [x], f) == MapSeq(xs, f) + [f(x)]
  {
    assert (xs + [x])[..|xs|] == xs;
  }

  lemma {:induction false} FilterMember<T>(xs: seq<T>, p: T -> bool, x: T)
    ensures x in Filter(xs, p) <==> x in xs && p(x)
  {
    if xs != [] {
      FilterMember(xs[..|xs| - 1], p, x);
      assert xs == xs[..|xs| - 1] + [xs[|xs| - 1]];
    }
  }

  /** Filtering keeps every copy of a kept element and no copy of another. */
  lemma {:induction false} FilterCount<T>(xs: seq<T>, p: T -> bool, x: T)
    ensures multiset(Filter(xs, p))[x] == if p(x) then multiset(xs)[x] else 0
  {
    if xs != [] {
      var init, last := xs[..|xs| - 1], xs[|xs| - 1];
      FilterCount(init, p, x);
      assert xs == init + [last];
      assert multiset(xs) == multiset(init) + multiset{last};
    }
  }

  lemma {:induction false} FilterSubseq<T>(xs: seq<T>, p: T -> bool)
    ensures Subseq(Filter(xs, p), xs)
  {
    if xs != [] {
      var init := xs[..|xs| - 1];
      FilterSubseq(init, p);
      var f := Filter(init, p);
      if p(xs[|xs| - 1]) {
        var r := f + [xs[|xs| - 1]];
        assert Filter(xs, p) == r;
        assert r[..|r| - 1] == f;
        assert Subseq(r, xs);
      } else {
        assert Filter(xs, p) == f;
      }
    }
  }

  lemma {:induction false} FilterAll<T>(xs: seq<T>, p: T -> bool)
    requires forall x :: x in xs ==> p(x)
    ensures Filter(xs, p) == xs
  {
    if xs != [] {
      var init := xs[..|xs| - 1];
      assert forall x :: x in init ==> x in xs;
      FilterAll(init, p);
      assert p(xs[|xs| - 1]);
    }
  }

  lemma FilterEmpty<T>(xs: seq<T>, p: T -> bool)
    ensures Filter(xs, p) == [] <==> forall x :: x in xs ==> !p(x)
  {
    forall x ensures x in Filter(xs, p) <==> x in xs && p(x) {
      FilterMember(xs, p, x);
    }
    if Filter(xs, p) != [] {
      assert Filter(xs, p)[0] in Filter(xs, p);
    }
  }

  /** Filtering with p and then with a stronger q is filtering with q. */
  lemma {:induction false} FilterNarrow<T>(xs: seq<T>, p: T -> bool, q: T -> bool)
    requires forall x :: q(x) ==> p(x)
    ensures Filter(Filter(xs, p), q) == Filter(xs, q)
  {
    if xs != [] {
      var init, last := xs[..|xs| - 1], xs[|xs| - 1];
      FilterNarrow(init, p, q);
      if p(last) {
        assert Filter(xs, p) == Filter(init, p) + [last];
        FilterSnoc(Filter(init, p), last, q);
      } else {
        assert Filter(xs, p) == Filter(init, p);
      }
    }
  }
}
