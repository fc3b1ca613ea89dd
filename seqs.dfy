/** An optional value: `None` stands for JavaScript's `null`/`undefined`/`NaN`. */
module Wrappers {
  datatype Option<+T> = None | Some(value: T)
}

/**
 Sequence helpers shared by the chart transformations: summing a projection
 (d3.sum, Array.reduce), filtering (Array.filter), projecting (Array.map) and
 the first-appearance order of keys. Everything is defined from the back of
 the sequence, the order in which the source's loops and reducers visit it.
 */
module Seqs {

  /** The sum of `f` over `xs`, accumulated left to right. */
  function SumOf<T>(xs: seq<T>, f: T -> int): int
  {
    if xs == [] then 0 else SumOf(xs[..|xs| - 1], f) + f(xs[|xs| - 1])
  }

  lemma {:induction false} SumOfConcat<T>(a: seq<T>, b: seq<T>, f: T -> int)
    ensures SumOf(a + b, f) == SumOf(a, f) + SumOf(b, f)
    decreases |b|
  {
    if b == [] {
      assert a + b == a;
    } else {
      SumOfConcat(a, b[..|b| - 1], f);
      assert (a + b)[..|a + b| - 1] == a + b[..|b| - 1];
    }
  }

  /** Splitting off the first element, the form insertion and front recursion use. */
  lemma SumOfCons<T>(x: T, s: seq<T>, f: T -> int)
    ensures SumOf([x] + s, f) == f(x) + SumOf(s, f)
  {
    SumOfConcat([x], s, f);
    assert [x][..0] == [];
  }

  /** Extending a slice by one element adds that element, the step of every summing loop. */
  lemma SumOfSliceStep<T>(s: seq<T>, lo: int, hi: int, f: T -> int)
    requires 0 <= lo <= hi < |s|
    ensures SumOf(s[lo..hi + 1], f) == SumOf(s[lo..hi], f) + f(s[hi])
  {
    assert s[lo..hi + 1][..hi - lo] == s[lo..hi];
  }

  /** Two sequences whose elements have pointwise equal values have equal sums. */
  lemma {:induction false} SumOfPointwise<T, U>(a: seq<T>, f: T -> int, b: seq<U>, g: U -> int)
    requires |a| == |b|
    requires forall i :: 0 <= i < |a| ==> f(a[i]) == g(b[i])
    ensures SumOf(a, f) == SumOf(b, g)
  {
    if a != [] {
      var n := |a| - 1;
      assert forall i :: 0 <= i < n ==> a[..n][i] == a[i] && b[..n][i] == b[i];
      SumOfPointwise(a[..n], f, b[..n], g);
    }
  }

  /** A sum of values that all lie in [lo, hi] lies in [n * lo, n * hi]. */
  lemma {:induction false} SumOfBounds<T>(xs: seq<T>, f: T -> int, lo: int, hi: int)
    requires forall i :: 0 <= i < |xs| ==> lo <= f(xs[i]) <= hi
    ensures |xs| * lo <= SumOf(xs, f) <= |xs| * hi
  {
    if xs != [] {
      var init := xs[..|xs| - 1];
      assert forall i :: 0 <= i < |init| ==> init[i] == xs[i];
      SumOfBounds(init, f, lo, hi);
      assert |xs| * lo == |init| * lo + lo;
      assert |xs| * hi == |init| * hi + hi;
    }
  }

  /** A sum of non-negative values is non-negative. */
  lemma {:induction false} SumOfNonNegative<T>(xs: seq<T>, f: T -> int)
    requires forall i :: 0 <= i < |xs| ==> f(xs[i]) >= 0
    ensures SumOf(xs, f) >= 0
  {
    if xs != [] {
      var init := xs[..|xs| - 1];
      assert forall i :: 0 <= i < |init| ==> init[i] == xs[i];
      SumOfNonNegative(init, f);
    }
  }

  /** When no value is negative, no single value exceeds the sum. */
  lemma SumOfAtLeastEach<T>(xs: seq<T>, f: T -> int)
    ensures (forall i :: 0 <= i < |xs| ==> f(xs[i]) >= 0) ==>
      forall i :: 0 <= i < |xs| ==> f(xs[i]) <= SumOf(xs, f)
  {
    if forall i :: 0 <= i < |xs| ==> f(xs[i]) >= 0 {
      forall i | 0 <= i < |xs|
        ensures f(xs[i]) <= SumOf(xs, f)
      {
        var before, after := xs[..i], xs[i + 1..];
        assert xs == before + ([xs[i]] + after);
        SumOfConcat(before, [xs[i]] + after, f);
        SumOfCons(xs[i], after, f);
        assert forall k :: 0 <= k < |before| ==> before[k] == xs[k];
        assert forall k :: 0 <= k < |after| ==> after[k] == xs[i + 1 + k];
        SumOfNonNegative(before, f);
        SumOfNonNegative(after, f);
      }
    }
  }

  /** A mean of n values whose sum lies in [n * lo, n * hi] lies in [lo, hi]. */
  lemma MeanBetween(sum: int, n: nat, lo: int, hi: int)
    requires n > 0
    requires n * lo <= sum <= n * hi
    ensures lo as real <= sum as real / n as real <= hi as real
  {
    var mean := sum as real / n as real;
    assert mean * n as real == sum as real;
    assert (mean - lo as real) * n as real == sum as real - (n * lo) as real;
    assert (hi as real - mean) * n as real == (n * hi) as real - sum as real;
  }

  /** The elements of `xs` that satisfy `p`, in their original order (Array.filter). */
  function Filter<T(!new)>(xs: seq<T>, p: T -> bool): (r: seq<T>)
    ensures |r| <= |xs|
    ensures forall x :: x in r <==> x in xs && p(x)
  {
    if xs == [] then []
    else
      var init, last := xs[..|xs| - 1], xs[|xs| - 1];
      assert xs == init + [last];
      Filter(init, p) + (if p(last) then [last] else [])
  }

  /** Filtering keeps every satisfying element as often as it occurs, and no other. */
  lemma {:induction false} FilterCounts<T(!new)>(xs: seq<T>, p: T -> bool)
    ensures forall x :: multiset(Filter(xs, p))[x] == if p(x) then multiset(xs)[x] else 0
  {
    if xs != [] {
      var init, last := xs[..|xs| - 1], xs[|xs| - 1];
      assert xs == init + [last];
      FilterCounts(init, p);
    }
  }

  /** Every element a filter keeps passes it. */
  lemma FilterPassesAll<T(!new)>(xs: seq<T>, p: T -> bool)
    ensures forall i :: 0 <= i < |Filter(xs, p)| ==> p(Filter(xs, p)[i])
  {
    var r := Filter(xs, p);
    forall i | 0 <= i < |r|
      ensures p(r[i])
    {
      assert r[i] in r;
    }
  }

  /** Filtering a sequence extended by one element. */
  lemma FilterSnoc<T(!new)>(init: seq<T>, v: T, p: T -> bool)
    ensures Filter(init + [v], p) == Filter(init, p) + (if p(v) then [v] else [])
  {
    assert (init + [v])[..|init|] == init;
  }

  /** A one-element sequence keeps its element exactly when it passes. */
  lemma FilterSingleton<T(!new)>(x: T, p: T -> bool)
    ensures Filter([x], p) == if p(x) then [x] else []
  {
    assert [x] == [] + [x];
    FilterSnoc([], x, p);
  }

  /** An element put in front of two sequences whose filters differ by a suffix keeps that difference. */
  lemma FilterConsSuffix<T(!new)>(x: T, rest: seq<T>, tail: seq<T>, extra: seq<T>, p: T -> bool)
    requires Filter(rest, p) == Filter(tail, p) + extra
    ensures Filter([x] + rest, p) == Filter([x] + tail, p) + extra
  {
    var head := Filter([x], p);
    calc {
      Filter([x] + rest, p);
    == { FilterConcat([x], rest, p); }
      head + (Filter(tail, p) + extra);
    ==
      (head + Filter(tail, p)) + extra;
    == { FilterConcat([x], tail, p); }
      Filter([x] + tail, p) + extra;
    }
  }

  /** One step of FilterKeepsAll: the last element is kept and the rest still all pass. */
  lemma FilterKeepsLast<T(!new)>(xs: seq<T>, init: seq<T>, last: T, p: T -> bool)
    requires xs == init + [last]
    requires forall i :: 0 <= i < |xs| ==> p(xs[i])
    ensures forall i :: 0 <= i < |init| ==> p(init[i])
    ensures Filter(init, p) == init ==> Filter(xs, p) == xs
  {
    assert p(xs[|init|]);
    FilterSnoc(init, last, p);
  }

  /** A filter that every element passes changes nothing. */
  lemma {:induction false} FilterKeepsAll<T(!new)>(xs: seq<T>, p: T -> bool)
    requires forall i :: 0 <= i < |xs| ==> p(xs[i])
    ensures Filter(xs, p) == xs
  {
    if xs != [] {
      var init, last := xs[..|xs| - 1], xs[|xs| - 1];
      assert xs == init + [last];
      FilterKeepsLast(xs, init, last, p);
      FilterKeepsAll(init, p);
    }
  }

  /** One step of FilterDropsAll: the last element is dropped and the rest still all fail. */
  lemma FilterDropsLast<T(!new)>(xs: seq<T>, init: seq<T>, last: T, p: T -> bool)
    requires xs == init + [last]
    requires forall i :: 0 <= i < |xs| ==> !p(xs[i])
    ensures forall i :: 0 <= i < |init| ==> !p(init[i])
    ensures Filter(xs, p) == Filter(init, p)
  {
    assert !p(xs[|init|]);
    FilterSnoc(init, last, p);
  }

  /** A filter that no element passes leaves nothing. */
  lemma {:induction false} FilterDropsAll<T(!new)>(xs: seq<T>, p: T -> bool)
    requires forall i :: 0 <= i < |xs| ==> !p(xs[i])
    ensures Filter(xs, p) == []
  {
    if xs != [] {
      var init, last := xs[..|xs| - 1], xs[|xs| - 1];
      assert xs == init + [last];
      FilterDropsLast(xs, init, last, p);
      FilterDropsAll(init, p);
    }
  }

  /** Filtering distributes over concatenation, so the kept elements stay in order. */
  lemma {:induction false} FilterConcat<T(!new)>(a: seq<T>, b: seq<T>, p: T -> bool)
    ensures Filter(a + b, p) == Filter(a, p) + Filter(b, p)
    decreases |b|
  {
    if b == [] {
      assert a + b == a;
    } else {
      var init, last := b[..|b| - 1], b[|b| - 1];
      var kept := if p(last) then [last] else [];
      assert (a + b)[..|a + b| - 1] == a + init;
      assert Filter(a + b, p) == Filter(a + init, p) + kept;
      assert Filter(b, p) == Filter(init, p) + kept;
      FilterConcat(a, init, p);
    }
  }

  /** `f` applied to every element (Array.map). */
  function Project<T, U>(xs: seq<T>, f: T -> U): (r: seq<U>)
    ensures |r| == |xs|
    ensures forall i :: 0 <= i < |xs| ==> r[i] == f(xs[i])
  {
    seq(|xs|, i requires 0 <= i < |xs| => f(xs[i]))
  }

  /** The image of a member is a member of the image. */
  lemma ProjectMember<T, U>(xs: seq<T>, f: T -> U, x: T)
    requires x in xs
    ensures f(x) in Project(xs, f)
  {
    var i :| 0 <= i < |xs| && xs[i] == x;
    assert Project(xs, f)[i] == f(x);
  }

  /** No value occurs twice. */
  ghost predicate Distinct<T>(s: seq<T>)
  {
    forall i, j :: 0 <= i < j < |s| ==> s[i] != s[j]
  }

  /** Each value of `s` once, at the place it first occurs (the key order of a JavaScript Map). */
  function FirstAppearances<T(==,!new)>(s: seq<T>): (r: seq<T>)
    ensures Distinct(r)
    ensures forall x :: x in r <==> x in s
    ensures |r| <= |s|
  {
    if s == [] then []
    else
      var rest := FirstAppearances(s[..|s| - 1]);
      assert s == s[..|s| - 1] + [s[|s| - 1]];
      if s[|s| - 1] in rest then rest else rest + [s[|s| - 1]]
  }
}
