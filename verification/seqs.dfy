/** The array operations the handlers chain together (`filter`, `reduce` to a
    sum, `slice(0, n)`), and the `forEach`/`push` loop that fills an array. */
module Seqs {

  /** `ys` is obtained from `xs` by deleting elements, keeping the order of the rest. */
  ghost predicate SubsequenceOf<T>(ys: seq<T>, xs: seq<T>)
    decreases |xs|
  {
    ys == [] ||
    (xs != [] &&
     ((ys[|ys| - 1] == xs[|xs| - 1] && SubsequenceOf(ys[..|ys| - 1], xs[..|xs| - 1])) ||
      SubsequenceOf(ys, xs[..|xs| - 1])))
  }

  /** Every sequence is a subsequence of itself. */
  lemma {:induction false} SubsequenceOfSelf<T>(xs: seq<T>)
    ensures SubsequenceOf(xs, xs)
    decreases |xs|
  {
    if xs != [] {
      SubsequenceOfSelf(xs[..|xs| - 1]);
    }
  }

  /** `Array.prototype.filter`: the elements that satisfy `keep`, in their order. */
  function Filter<T(==)>(xs: seq<T>, keep: T -> bool): (ys: seq<T>)
    ensures |ys| <= |xs|
    ensures forall j :: 0 <= j < |ys| ==> ys[j] in xs && keep(ys[j])
    ensures forall i :: 0 <= i < |xs| && keep(xs[i]) ==> xs[i] in ys
    ensures SubsequenceOf(ys, xs)
  {
    if xs == [] then []
    else
      var init := Filter(xs[..|xs| - 1], keep);
      assert xs == xs[..|xs| - 1] + [xs[|xs| - 1]];
      if keep(xs[|xs| - 1]) then
        assert (init + [xs[|xs| - 1]])[..|init|] == init;
        init + [xs[|xs| - 1]]
      else init
  }

  /** A filter that keeps every element returns its input. */
  lemma {:induction false} FilterKeepsAll<T>(xs: seq<T>, keep: T -> bool)
    requires forall i :: 0 <= i < |xs| ==> keep(xs[i])
    ensures Filter(xs, keep) == xs
  {
    if xs != [] {
      FilterKeepsAll(xs[..|xs| - 1], keep);
      assert xs == xs[..|xs| - 1] + [xs[|xs| - 1]];
    }
  }

  /** Filters whose tests agree on every element keep the same elements. */
  lemma {:induction false} FilterSameTest<T>(xs: seq<T>, p: T -> bool, q: T -> bool)
    requires forall i :: 0 <= i < |xs| ==> p(xs[i]) == q(xs[i])
    ensures Filter(xs, p) == Filter(xs, q)
  {
    if xs != [] {
      FilterSameTest(xs[..|xs| - 1], p, q);
    }
  }

  /** The test that both `p` and `q` pass. */
  function Both<T>(p: T -> bool, q: T -> bool): T -> bool
  {
    x => p(x) && q(x)
  }

  /** Two filters in a row keep what passes both tests. */
  lemma {:induction false} FilterFilter<T>(xs: seq<T>, p: T -> bool, q: T -> bool)
    ensures Filter(Filter(xs, p), q) == Filter(xs, Both(p, q))
  {
    if xs != [] {
      var init := xs[..|xs| - 1];
      var x := xs[|xs| - 1];
      FilterFilter(init, p, q);
      if p(x) {
        var f := Filter(init, p);
        assert (f + [x])[..|f|] == f;
      }
    }
  }

  /** A reordering of a filtered list holds exactly the elements that pass the test. */
  lemma PermutedFilterMembers<T>(xs: seq<T>, keep: T -> bool, ys: seq<T>)
    requires multiset(ys) == multiset(Filter(xs, keep))
    ensures forall i :: 0 <= i < |xs| ==> (xs[i] in ys <==> keep(xs[i]))
  {
    var f := Filter(xs, keep);
    forall i | 0 <= i < |xs|
      ensures xs[i] in ys <==> keep(xs[i])
    {
      assert xs[i] in ys <==> xs[i] in multiset(f);
    }
  }

  /** The number of elements `Filter` keeps. */
  function CountWhere<T>(xs: seq<T>, keep: T -> bool): nat
  {
    if xs == [] then 0
    else CountWhere(xs[..|xs| - 1], keep) + (if keep(xs[|xs| - 1]) then 1 else 0)
  }

  lemma {:induction false} FilterLength<T>(xs: seq<T>, keep: T -> bool)
    ensures |Filter(xs, keep)| == CountWhere(xs, keep)
  {
    if xs != [] {
      FilterLength(xs[..|xs| - 1], keep);
    }
  }

  /** A `forEach` over `xs` that pushes the elements satisfying `keep` onto a
      fresh array. */
  method Collect<T(==)>(xs: seq<T>, keep: T -> bool) returns (ys: seq<T>)
    ensures ys == Filter(xs, keep)
  {
    ys := [];
    for i := 0 to |xs|
      invariant ys == Filter(xs[..i], keep)
    {
      assert xs[..i + 1][..i] == xs[..i];
      if keep(xs[i]) {
        ys := ys + [xs[i]];
      }
    }
    assert xs[..|xs|] == xs;
  }

  /** `xs.reduce((sum, x) => sum + amountOf(x), 0)`. */
  function SumOf<T>(xs: seq<T>, amountOf: T -> int): int
  {
    if xs == [] then 0 else SumOf(xs[..|xs| - 1], amountOf) + amountOf(xs[|xs| - 1])
  }

  lemma {:induction false} SumOfAppend<T>(xs: seq<T>, ys: seq<T>, amountOf: T -> int)
    ensures SumOf(xs + ys, amountOf) == SumOf(xs, amountOf) + SumOf(ys, amountOf)
    decreases |ys|
  {
    if ys != [] {
      var ys' := ys[..|ys| - 1];
      assert (xs + ys)[..|xs + ys| - 1] == xs + ys';
      SumOfAppend(xs, ys', amountOf);
    } else {
      assert xs + ys == xs;
    }
  }

  lemma SumOfSingle<T>(x: T, amountOf: T -> int)
    ensures SumOf([x], amountOf) == amountOf(x)
  {
    assert [x][..0] == [];
  }

  /** Summing does not depend on the order of the elements. */
  lemma {:induction false} SumOfPermutation<T>(xs: seq<T>, ys: seq<T>, amountOf: T -> int)
    requires multiset(xs) == multiset(ys)
    ensures SumOf(xs, amountOf) == SumOf(ys, amountOf)
    decreases |xs|
  {
    if xs == [] {
      assert |ys| == |multiset(ys)| == 0;
    } else {
      var n := |xs| - 1;
      var x := xs[n];
      assert xs == xs[..n] + [x];
      assert x in multiset(ys);
      var k :| 0 <= k < |ys| && ys[k] == x;
      var rest := ys[..k] + ys[k + 1..];
      assert ys == ys[..k] + [x] + ys[k + 1..];
      assert multiset(rest) == multiset(ys) - multiset{x};
      assert multiset(xs[..n]) == multiset(xs) - multiset{x};
      SumOfPermutation(xs[..n], rest, amountOf);
      SumOfAppend(ys[..k] + [x], ys[k + 1..], amountOf);
      SumOfAppend(ys[..k], [x], amountOf);
      SumOfAppend(ys[..k], ys[k + 1..], amountOf);
      SumOfSingle(x, amountOf);
    }
  }

  /** Keeping only some of a list of non-negative amounts cannot raise their sum. */
  lemma {:induction false} SumOfFilterBound<T>(xs: seq<T>, keep: T -> bool, amountOf: T -> int)
    requires forall i :: 0 <= i < |xs| ==> amountOf(xs[i]) >= 0
    ensures SumOf(Filter(xs, keep), amountOf) <= SumOf(xs, amountOf)
  {
    if xs != [] {
      var init := xs[..|xs| - 1];
      SumOfFilterBound(init, keep, amountOf);
      if keep(xs[|xs| - 1]) {
        var f := Filter(init, keep);
        assert (f + [xs[|xs| - 1]])[..|f|] == f;
      }
    }
  }

  /** The length of `xs.slice(0, end)` for a list of length `len`: a
      negative `end` counts back from the end of the list. */
  function SliceLength(len: nat, end: int): (n: nat)
    ensures n <= len
    ensures end >= 0 ==> n == if end < len then end else len
    ensures end < 0 ==> n == if len + end > 0 then len + end else 0
  {
    if end >= 0 then (if end < len then end else len)
    else if len + end > 0 then len + end else 0
  }

  /** `xs.slice(0, end)`. */
  function Slice<T>(xs: seq<T>, end: int): (ys: seq<T>)
    ensures |ys| == SliceLength(|xs|, end)
    ensures ys == xs[..|ys|]
  {
    xs[..SliceLength(|xs|, end)]
  }

  /** `slice(0, end)` by cases: a non-negative `end` keeps the first `end`
      elements (all of them when `end` is past the length), a negative `end`
      drops the last `-end` elements (all of them when `-end` is past the
      length). */
  lemma SliceSemantics<T>(xs: seq<T>, end: int)
    ensures 0 <= end <= |xs| ==> Slice(xs, end) == xs[..end]
    ensures end >= |xs| ==> Slice(xs, end) == xs
    ensures -|xs| <= end < 0 ==> Slice(xs, end) + xs[|xs| + end..] == xs
    ensures end <= -|xs| ==> Slice(xs, end) == []
  {
    if -|xs| <= end < 0 {
      assert xs[..|xs| + end] + xs[|xs| + end..] == xs;
    }
  }

  /** No two elements share a key. */
  ghost predicate DistinctBy<T, K>(s: seq<T>, keyOf: T -> K)
  {
    forall i, j :: 0 <= i < j < |s| ==> keyOf(s[i]) != keyOf(s[j])
  }

  /** An element occurs at least twice exactly when the multiset counts it twice. */
  lemma {:induction false} TwiceInMultiset<T>(s: seq<T>, x: T)
    ensures multiset(s)[x] >= 2 <==> exists p, q :: 0 <= p < q < |s| && s[p] == x && s[q] == x
    decreases |s|
  {
    if s != [] {
      var n := |s| - 1;
      var init := s[..n];
      assert s == init + [s[n]];
      TwiceInMultiset(init, x);
      if s[n] == x && multiset(init)[x] >= 1 {
        var p :| 0 <= p < n && init[p] == x;
        assert s[p] == x && s[n] == x;
      }
      if exists p, q :: 0 <= p < q < |s| && s[p] == x && s[q] == x {
        var p, q :| 0 <= p < q < |s| && s[p] == x && s[q] == x;
        if q < n {
          assert init[p] == x && init[q] == x;
        } else {
          assert init[p] == x;
          assert x in multiset(init);
        }
      }
    }
  }

  /** With distinct keys no element occurs twice. */
  lemma DistinctByOnce<T, K>(a: seq<T>, keyOf: T -> K, x: T)
    requires DistinctBy(a, keyOf)
    ensures multiset(a)[x] <= 1
  {
    TwiceInMultiset(a, x);
  }

  /** Reordering keeps keys distinct. */
  lemma PermutationDistinctBy<T, K>(a: seq<T>, b: seq<T>, keyOf: T -> K)
    requires multiset(a) == multiset(b)
    requires DistinctBy(a, keyOf)
    ensures DistinctBy(b, keyOf)
  {
    forall i, j | 0 <= i < j < |b|
      ensures keyOf(b[i]) != keyOf(b[j])
    {
      DistinctByOnce(a, keyOf, b[i]);
      TwiceInMultiset(b, b[i]);
      assert b[i] != b[j];
      assert b[i] in multiset(a) && b[j] in multiset(a);
      var p :| 0 <= p < |a| && a[p] == b[i];
      var q :| 0 <= q < |a| && a[q] == b[j];
    }
  }
}
