/** `Array.prototype.sort` with a comparator. Since ES2019 the sort is stable;
    it is modelled as an insertion sort, which keeps elements that compare
    equal in the order in which they came. */
module Sorting {

  /** `le(a, b)`: `a` may stand before `b`. Every comparator the handlers pass
      to `sort` orders by a number, a date or a string, and so is a total preorder. */
  ghost predicate TotalPreorder<T(!new)>(le: (T, T) -> bool)
  {
    && (forall a, b :: le(a, b) || le(b, a))
    && (forall a, b, c :: le(a, b) && le(b, c) ==> le(a, c))
  }

  predicate SortedBy<T>(s: seq<T>, le: (T, T) -> bool)
  {
    forall i, j :: 0 <= i < j < |s| ==> le(s[i], s[j])
  }

  /** Inserts `x` before the first element it may precede. */
  function Insert<T(!new)>(x: T, s: seq<T>, le: (T, T) -> bool): (r: seq<T>)
    requires TotalPreorder(le)
    requires SortedBy(s, le)
    ensures multiset(r) == multiset(s) + multiset{x}
    ensures SortedBy(r, le)
  {
    if s == [] then [x]
    else if le(x, s[0]) then
      PrecedesSorted(x, s, le);
      ConsSorted(x, s, le);
      [x] + s
    else
      var rest := Insert(x, s[1..], le);
      assert s == [s[0]] + s[1..];
      HeadPrecedesAll(s[0], x, s[1..], rest, le);
      ConsSorted(s[0], rest, le);
      assert multiset([s[0]] + rest) == multiset{s[0]} + multiset(rest);
      [s[0]] + rest
  }

  /** An element that may precede the head of a sorted sequence may precede
      all of it. */
  lemma PrecedesSorted<T(!new)>(x: T, s: seq<T>, le: (T, T) -> bool)
    requires TotalPreorder(le)
    requires SortedBy(s, le) && s != [] && le(x, s[0])
    ensures forall j :: 0 <= j < |s| ==> le(x, s[j])
  {
    forall j | 0 <= j < |s|
      ensures le(x, s[j])
    {
      if j > 0 {
        assert le(s[0], s[j]);
      }
    }
  }

  /** Prefixing a sorted sequence with an element that may precede all of it
      keeps it sorted. */
  lemma ConsSorted<T>(h: T, s: seq<T>, le: (T, T) -> bool)
    requires SortedBy(s, le)
    requires forall j :: 0 <= j < |s| ==> le(h, s[j])
    ensures SortedBy([h] + s, le)
  {
    var r := [h] + s;
    forall i, j | 0 <= i < j < |r|
      ensures le(r[i], r[j])
    {
      if i == 0 {
        assert r[j] == s[j - 1];
      } else {
        assert r[i] == s[i - 1] && r[j] == s[j - 1];
      }
    }
  }

  /** An element that may precede `x` and every element of `s` may precede
      every element of a permutation of `s` with `x` added. */
  lemma HeadPrecedesAll<T(!new)>(h: T, x: T, s: seq<T>, r: seq<T>, le: (T, T) -> bool)
    requires le(h, x)
    requires forall j :: 0 <= j < |s| ==> le(h, s[j])
    requires multiset(r) == multiset(s) + multiset{x}
    ensures forall j :: 0 <= j < |r| ==> le(h, r[j])
  {
    forall j | 0 <= j < |r|
      ensures le(h, r[j])
    {
      assert r[j] in multiset(r);
      if r[j] != x {
        assert r[j] in multiset(s);
      }
    }
  }

  /** The sorted permutation of `s`; elements that compare equal keep their
      relative order. */
  function Sort<T(!new)>(s: seq<T>, le: (T, T) -> bool): (r: seq<T>)
    requires TotalPreorder(le)
    ensures multiset(r) == multiset(s)
    ensures |r| == |s|
    ensures SortedBy(r, le)
  {
    if s == [] then []
    else
      assert s == [s[0]] + s[1..];
      Insert(s[0], Sort(s[1..], le), le)
  }
}
