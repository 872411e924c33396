/**
 * The three array combinators the screens are built from: `filter`, `map`
 * and `reduce` with `+` from 0, over immutable sequences, with the facts
 * about them that the screen-level properties rest on.
 */
module Seqs {

  /**
   * `xs.filter(p)`: the elements satisfying `p`. FilterMultiset adds that each
   * is kept as many times as it occurs, FilterIsSubsequence that the order is kept.
   */
  function Filter<T>(p: T -> bool, xs: seq<T>): (r: seq<T>)
    ensures |r| <= |xs|
    ensures forall i :: 0 <= i < |r| ==> r[i] in xs && p(r[i])
    ensures forall i :: 0 <= i < |xs| && p(xs[i]) ==> xs[i] in r
  {
    if xs == [] then [] else (if p(xs[0]) then [xs[0]] else []) + Filter(p, xs[1..])
  }

  /** `xs.map(f)`. */
  function Map<T, U>(f: T -> U, xs: seq<T>): (r: seq<U>)
    ensures |r| == |xs|
    ensures forall i :: 0 <= i < |xs| ==> r[i] == f(xs[i])
  {
    if xs == [] then [] else [f(xs[0])] + Map(f, xs[1..])
  }

  /** `xs.reduce((sum, x) => sum + f(x), 0)`: a left fold, last element added last. */
  function Sum<T>(f: T -> real, xs: seq<T>): (r: real)
    ensures (forall i :: 0 <= i < |xs| ==> f(xs[i]) >= 0.0) ==> r >= 0.0
  {
    if xs == [] then 0.0 else Sum(f, xs[..|xs| - 1]) + f(xs[|xs| - 1])
  }

  /** `r` keeps some of the elements of `xs`, in the order they have in `xs`. */
  ghost predicate IsSubsequence<T>(r: seq<T>, xs: seq<T>)
    decreases |xs|
  {
    r == [] ||
    (xs != [] && ((r[0] == xs[0] && IsSubsequence(r[1..], xs[1..])) || IsSubsequence(r, xs[1..])))
  }

  /** Each element passing `p` is kept as often as it occurs in `xs`; the others are dropped. */
  lemma {:induction false} FilterMultiset<T>(p: T -> bool, xs: seq<T>)
    ensures forall x :: multiset(Filter(p, xs))[x] == if p(x) then multiset(xs)[x] else 0
  {
    if xs != [] {
      FilterMultiset(p, xs[1..]);
      assert xs == [xs[0]] + xs[1..];
      assert multiset(xs) == multiset([xs[0]]) + multiset(xs[1..]);
      var h := if p(xs[0]) then [xs[0]] else [];
      assert multiset(Filter(p, xs)) == multiset(h) + multiset(Filter(p, xs[1..]));
    }
  }

  lemma {:induction false} FilterIsSubsequence<T>(p: T -> bool, xs: seq<T>)
    ensures IsSubsequence(Filter(p, xs), xs)
  {
    if xs != [] {
      FilterIsSubsequence(p, xs[1..]);
      var r := Filter(p, xs);
      if p(xs[0]) {
        assert r[0] == xs[0] && r[1..] == Filter(p, xs[1..]);
      } else {
        assert r == Filter(p, xs[1..]);
      }
    }
  }

  /** A filter that every element passes is the identity. */
  lemma {:induction false} FilterKeepsAll<T>(p: T -> bool, xs: seq<T>)
    requires forall i :: 0 <= i < |xs| ==> p(xs[i])
    ensures Filter(p, xs) == xs
  {
    if xs != [] {
      FilterKeepsAll(p, xs[1..]);
      assert [xs[0]] + xs[1..] == xs;
    }
  }

  lemma {:induction false} FilterIdempotent<T>(p: T -> bool, xs: seq<T>)
    ensures Filter(p, Filter(p, xs)) == Filter(p, xs)
  {
    var r := Filter(p, xs);
    forall i | 0 <= i < |r| ensures p(r[i]) {
      assert r[i] in r;
    }
    FilterKeepsAll(p, r);
  }

  lemma {:induction false} FilterConcat<T>(p: T -> bool, a: seq<T>, b: seq<T>)
    ensures Filter(p, a + b) == Filter(p, a) + Filter(p, b)
  {
    if a != [] {
      var x, ab := a[0], a + b;
      assert ab[0] == x && ab[1..] == a[1..] + b;
      FilterConcat(p, a[1..], b);
      var h := if p(x) then [x] else [];
      calc {
        Filter(p, ab);
        h + Filter(p, a[1..] + b);
        h + (Filter(p, a[1..]) + Filter(p, b));
        (h + Filter(p, a[1..])) + Filter(p, b);
        Filter(p, a) + Filter(p, b);
      }
    } else {
      assert a + b == b;
    }
  }

  /** Filtering the images of `f` by `p` is mapping `f` over the elements whose image passes `p`. */
  lemma {:induction false} FilterMap<T, U>(p: U -> bool, f: T -> U, q: T -> bool, xs: seq<T>)
    requires forall x :: q(x) == p(f(x))
    ensures Filter(p, Map(f, xs)) == Map(f, Filter(q, xs))
  {
    if xs != [] {
      FilterMap(p, f, q, xs[1..]);
      var m := Map(f, xs);
      assert m[0] == f(xs[0]) && m[1..] == Map(f, xs[1..]);
      if q(xs[0]) {
        assert Map(f, [xs[0]] + Filter(q, xs[1..])) == [f(xs[0])] + Map(f, Filter(q, xs[1..]));
      }
    }
  }

  lemma {:induction false} SumConcat<T>(f: T -> real, a: seq<T>, b: seq<T>)
    ensures Sum(f, a + b) == Sum(f, a) + Sum(f, b)
    decreases |b|
  {
    if b == [] {
      assert a + b == a;
    } else {
      var ab := a + b;
      assert ab[..|ab| - 1] == a + b[..|b| - 1];
      assert ab[|ab| - 1] == b[|b| - 1];
      SumConcat(f, a, b[..|b| - 1]);
    }
  }

  /** The fold seen from the front: the first element plus the sum of the rest. */
  lemma SumCons<T>(f: T -> real, x: T, xs: seq<T>)
    ensures Sum(f, [x] + xs) == f(x) + Sum(f, xs)
  {
    SumConcat(f, [x], xs);
    assert [x][..0] == [];
  }

  /** Summing the images of `f` with `g` is summing with their composition `h`. */
  lemma {:induction false} SumMap<T, U>(g: U -> real, f: T -> U, h: T -> real, xs: seq<T>)
    requires forall x :: h(x) == g(f(x))
    ensures Sum(g, Map(f, xs)) == Sum(h, xs)
  {
    if xs != [] {
      SumMap(g, f, h, xs[1..]);
      var m := Map(f, xs);
      assert m == [f(xs[0])] + Map(f, xs[1..]);
      SumCons(g, f(xs[0]), Map(f, xs[1..]));
      SumCons(h, xs[0], xs[1..]);
      assert [xs[0]] + xs[1..] == xs;
    }
  }

  /** Every element lands on one side of a predicate and its negation, so the sums add up. */
  lemma {:induction false} SumSplit<T>(f: T -> real, p: T -> bool, q: T -> bool, xs: seq<T>)
    requires forall x :: q(x) == !p(x)
    ensures Sum(f, xs) == Sum(f, Filter(p, xs)) + Sum(f, Filter(q, xs))
  {
    if xs != [] {
      var x, rest := xs[0], xs[1..];
      SumSplit(f, p, q, rest);
      assert [x] + rest == xs;
      SumCons(f, x, rest);
      if p(x) {
        assert Filter(p, xs) == [x] + Filter(p, rest);
        assert Filter(q, xs) == Filter(q, rest);
        SumCons(f, x, Filter(p, rest));
      } else {
        assert Filter(p, xs) == Filter(p, rest);
        assert Filter(q, xs) == [x] + Filter(q, rest);
        SumCons(f, x, Filter(q, rest));
      }
    }
  }
}
