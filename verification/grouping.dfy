/** The totals dictionaries the handlers build (`categoryTotals`,
    `dailyTotals`, `monthlyTotals`, `goalBreakdown`): a plain object updated
    with `totals[k] = (totals[k] || 0) + amount` for every record. A JavaScript
    object lists its (non-numeric) keys in the order they were first added, so
    a dictionary is an association list in first-insertion order, and
    `Object.entries` is that list. */
module Grouping {
  import opened Seqs
  import opened Sorting

  /** One entry of a totals dictionary. */
  datatype Bucket<K> = Bucket(key: K, amount: int)

  function BucketAmount<K>(b: Bucket<K>): int
  {
    b.amount
  }

  ghost function BucketKeys<K>(bs: seq<Bucket<K>>): set<K>
  {
    if bs == [] then {} else {bs[0].key} + BucketKeys(bs[1..])
  }

  ghost predicate DistinctBucketKeys<K>(bs: seq<Bucket<K>>)
  {
    forall i, j :: 0 <= i < j < |bs| ==> bs[i].key != bs[j].key
  }

  /** `totals[k] || 0`. */
  function Lookup<K(==)>(bs: seq<Bucket<K>>, k: K): int
  {
    if bs == [] then 0
    else if bs[0].key == k then bs[0].amount
    else Lookup(bs[1..], k)
  }

  /** `totals[k] = (totals[k] || 0) + a`: an existing entry is updated where it
      stands, a new key is appended. */
  function Add<K(==)>(bs: seq<Bucket<K>>, k: K, a: int): (r: seq<Bucket<K>>)
    ensures BucketKeys(r) == BucketKeys(bs) + {k}
    ensures |r| == if k in BucketKeys(bs) then |bs| else |bs| + 1
    ensures DistinctBucketKeys(bs) ==> DistinctBucketKeys(r)
  {
    if bs == [] then [Bucket(k, a)]
    else if bs[0].key == k then
      var r := [Bucket(k, bs[0].amount + a)] + bs[1..];
      assert r[1..] == bs[1..];
      r
    else
      var rest := Add(bs[1..], k, a);
      var r := [bs[0]] + rest;
      assert r[1..] == rest;
      KeyAt(bs[1..], bs[0].key);
      KeyAt(rest, bs[0].key);
      r
  }

  /** Adding under `k` changes the entry for `k` and no other. */
  lemma {:induction false} AddLookup<K>(bs: seq<Bucket<K>>, k: K, a: int, k': K)
    ensures Lookup(Add(bs, k, a), k') == Lookup(bs, k') + (if k' == k then a else 0)
  {
    if bs != [] && bs[0].key != k {
      AddLookup(bs[1..], k, a, k');
    }
  }

  /** Adding `a` under any key raises the total of all entries by `a`. */
  lemma {:induction false} AddSum<K>(bs: seq<Bucket<K>>, k: K, a: int)
    ensures SumOf(Add(bs, k, a), BucketAmount) == SumOf(bs, BucketAmount) + a
  {
    if bs == [] {
      SumOfSingle(Bucket(k, a), BucketAmount);
    } else if bs[0].key == k {
      assert bs == [bs[0]] + bs[1..];
      SumOfAppend([bs[0]], bs[1..], BucketAmount);
      SumOfAppend([Bucket(k, bs[0].amount + a)], bs[1..], BucketAmount);
      SumOfSingle(bs[0], BucketAmount);
      SumOfSingle(Bucket(k, bs[0].amount + a), BucketAmount);
    } else {
      assert bs == [bs[0]] + bs[1..];
      AddSum(bs[1..], k, a);
      SumOfAppend([bs[0]], bs[1..], BucketAmount);
      SumOfAppend([bs[0]], Add(bs[1..], k, a), BucketAmount);
    }
  }

  /** The dictionary after a `forEach` over `xs`, each record adding
      `amountOf(x)` under `keyOf(x)`. */
  function Group<T, K(==)>(xs: seq<T>, keyOf: T -> K, amountOf: T -> int): (bs: seq<Bucket<K>>)
    ensures DistinctBucketKeys(bs)
    ensures |bs| <= |xs|
  {
    if xs == [] then []
    else Add(Group(xs[..|xs| - 1], keyOf, amountOf), keyOf(xs[|xs| - 1]), amountOf(xs[|xs| - 1]))
  }

  /** Reference definition: the sum of the amounts of the records filed under `k`. */
  function SumFor<T, K(==)>(xs: seq<T>, keyOf: T -> K, amountOf: T -> int, k: K): int
  {
    if xs == [] then 0
    else SumFor(xs[..|xs| - 1], keyOf, amountOf, k) + (if keyOf(xs[|xs| - 1]) == k then amountOf(xs[|xs| - 1]) else 0)
  }

  /** The keys that occur among the records. */
  ghost function KeysOf<T, K>(xs: seq<T>, keyOf: T -> K): set<K>
  {
    if xs == [] then {} else KeysOf(xs[..|xs| - 1], keyOf) + {keyOf(xs[|xs| - 1])}
  }

  /** The `forEach` loop that fills a totals dictionary. */
  method Accumulate<T, K(==)>(xs: seq<T>, keyOf: T -> K, amountOf: T -> int) returns (totals: seq<Bucket<K>>)
    ensures totals == Group(xs, keyOf, amountOf)
  {
    totals := [];
    for i := 0 to |xs|
      invariant totals == Group(xs[..i], keyOf, amountOf)
    {
      assert xs[..i + 1][..i] == xs[..i];
      totals := Add(totals, keyOf(xs[i]), amountOf(xs[i]));
    }
    assert xs[..|xs|] == xs;
  }

  /** Looking a key up in the dictionary gives the sum of that key's records,
      and 0 for a key no record carries. */
  lemma {:induction false} GroupLookup<T, K>(xs: seq<T>, keyOf: T -> K, amountOf: T -> int, k: K)
    ensures Lookup(Group(xs, keyOf, amountOf), k) == SumFor(xs, keyOf, amountOf, k)
  {
    if xs != [] {
      var init := xs[..|xs| - 1];
      GroupLookup(init, keyOf, amountOf, k);
      AddLookup(Group(init, keyOf, amountOf), keyOf(xs[|xs| - 1]), amountOf(xs[|xs| - 1]), k);
    }
  }

  /** The dictionary has an entry for exactly the keys the records carry. */
  lemma {:induction false} GroupKeys<T, K>(xs: seq<T>, keyOf: T -> K, amountOf: T -> int)
    ensures BucketKeys(Group(xs, keyOf, amountOf)) == KeysOf(xs, keyOf)
  {
    if xs != [] {
      var init := xs[..|xs| - 1];
      GroupKeys(init, keyOf, amountOf);
    }
  }

  /** The entries' amounts add up to the sum over all records. */
  lemma {:induction false} GroupSum<T, K>(xs: seq<T>, keyOf: T -> K, amountOf: T -> int)
    ensures SumOf(Group(xs, keyOf, amountOf), BucketAmount) == SumOf(xs, amountOf)
  {
    if xs != [] {
      var init := xs[..|xs| - 1];
      GroupSum(init, keyOf, amountOf);
      AddSum(Group(init, keyOf, amountOf), keyOf(xs[|xs| - 1]), amountOf(xs[|xs| - 1]));
    }
  }

  /** With distinct keys, `Lookup` finds the amount stored at the key's position. */
  lemma {:induction false} LookupAt<K>(bs: seq<Bucket<K>>, i: nat)
    requires DistinctBucketKeys(bs)
    requires i < |bs|
    ensures Lookup(bs, bs[i].key) == bs[i].amount
  {
    if i > 0 {
      LookupAt(bs[1..], i - 1);
    }
  }

  /** Every entry holds exactly the sum of the records filed under its key. */
  lemma GroupEntries<T, K>(xs: seq<T>, keyOf: T -> K, amountOf: T -> int)
    ensures forall b :: b in Group(xs, keyOf, amountOf) ==> b.amount == SumFor(xs, keyOf, amountOf, b.key)
  {
    var bs := Group(xs, keyOf, amountOf);
    forall b | b in bs
      ensures b.amount == SumFor(xs, keyOf, amountOf, b.key)
    {
      var i :| 0 <= i < |bs| && bs[i] == b;
      LookupAt(bs, i);
      GroupLookup(xs, keyOf, amountOf, b.key);
    }
  }

  lemma {:induction false} KeyAt<K>(bs: seq<Bucket<K>>, k: K)
    ensures k in BucketKeys(bs) <==> exists i :: 0 <= i < |bs| && bs[i].key == k
  {
    if bs != [] {
      KeyAt(bs[1..], k);
      if k in BucketKeys(bs[1..]) {
        var i :| 0 <= i < |bs[1..]| && bs[1..][i].key == k;
        assert bs[i + 1].key == k;
      }
    }
  }

  /** A list with distinct keys has as many entries as keys. */
  lemma {:induction false} DistinctKeysCount<K>(bs: seq<Bucket<K>>)
    requires DistinctBucketKeys(bs)
    ensures |BucketKeys(bs)| == |bs|
  {
    if bs != [] {
      DistinctKeysCount(bs[1..]);
      KeyAt(bs[1..], bs[0].key);
    }
  }

  /** One entry per distinct key: the dictionary is as long as the set of keys. */
  lemma GroupCount<T, K>(xs: seq<T>, keyOf: T -> K, amountOf: T -> int)
    ensures |Group(xs, keyOf, amountOf)| == |KeysOf(xs, keyOf)|
  {
    GroupKeys(xs, keyOf, amountOf);
    DistinctKeysCount(Group(xs, keyOf, amountOf));
  }

  /** The comparator `(a, b) => b.amount - a.amount`: larger amounts first. */
  predicate AmountDesc<K>(a: Bucket<K>, b: Bucket<K>)
  {
    a.amount >= b.amount
  }

  lemma AmountDescIsTotalPreorder<K(!new)>()
    ensures TotalPreorder(AmountDesc<K>)
  {
  }

  /** `Object.entries(totals).sort((a, b) => b.amount - a.amount)`. */
  function Ranked<K(!new)>(bs: seq<Bucket<K>>): (r: seq<Bucket<K>>)
    ensures multiset(r) == multiset(bs)
    ensures |r| == |bs|
    ensures forall i, j :: 0 <= i < j < |r| ==> r[i].amount >= r[j].amount
  {
    AmountDescIsTotalPreorder<K>();
    Sort(bs, AmountDesc<K>)
  }

  function BucketKey<K>(b: Bucket<K>): K
  {
    b.key
  }

  lemma DistinctBucketKeysBy<K>(bs: seq<Bucket<K>>)
    ensures DistinctBucketKeys(bs) <==> DistinctBy(bs, BucketKey)
  {
  }

  /** Reordering a dictionary's entries keeps its set of keys. */
  lemma PermutationKeys<K>(a: seq<Bucket<K>>, b: seq<Bucket<K>>)
    requires multiset(a) == multiset(b)
    ensures BucketKeys(a) == BucketKeys(b)
  {
    forall k | k in BucketKeys(a)
      ensures k in BucketKeys(b)
    {
      KeyAt(a, k);
      var i :| 0 <= i < |a| && a[i].key == k;
      assert a[i] in multiset(b);
      KeyAt(b, k);
    }
    forall k | k in BucketKeys(b)
      ensures k in BucketKeys(a)
    {
      KeyAt(b, k);
      var i :| 0 <= i < |b| && b[i].key == k;
      assert b[i] in multiset(a);
      KeyAt(a, k);
    }
  }

  /** `Object.entries(totals).sort((a, b) => b.amount - a.amount).slice(0, n)`
      over the dictionary of `xs`: the `n` keys with the largest sums. */
  function TopN<T, K(==,!new)>(xs: seq<T>, keyOf: T -> K, amountOf: T -> int, n: int): (r: seq<Bucket<K>>)
    ensures |r| <= |Group(xs, keyOf, amountOf)| && r == Ranked(Group(xs, keyOf, amountOf))[..|r|]
    ensures |r| == SliceLength(|KeysOf(xs, keyOf)|, n)
    ensures forall i, j :: 0 <= i < j < |r| ==> r[i].amount >= r[j].amount
    ensures DistinctBucketKeys(r)
    ensures forall i :: 0 <= i < |r| ==> r[i].amount == SumFor(xs, keyOf, amountOf, r[i].key)
    ensures forall k, i :: k in KeysOf(xs, keyOf) && k !in BucketKeys(r) && 0 <= i < |r| ==>
              SumFor(xs, keyOf, amountOf, k) <= r[i].amount
  {
    var g := Group(xs, keyOf, amountOf);
    var ranked := Ranked(g);
    PermutedGroupFacts(xs, keyOf, amountOf, ranked);
    var r := Slice(ranked, n);
    TopNPrefix(xs, keyOf, amountOf, ranked, r);
    r
  }

  /** Any reordering of the dictionary of `xs` has distinct keys, holds
      every key of `xs`, holds in each entry its key's sum, and adds up to
      the sum over all of `xs`. */
  lemma PermutedGroupFacts<T, K>(xs: seq<T>, keyOf: T -> K, amountOf: T -> int, r: seq<Bucket<K>>)
    requires multiset(r) == multiset(Group(xs, keyOf, amountOf))
    ensures DistinctBucketKeys(r)
    ensures BucketKeys(r) == KeysOf(xs, keyOf)
    ensures forall i :: 0 <= i < |r| ==> r[i].amount == SumFor(xs, keyOf, amountOf, r[i].key)
    ensures SumOf(r, BucketAmount) == SumOf(xs, amountOf)
    ensures |r| == |KeysOf(xs, keyOf)|
  {
    var g := Group(xs, keyOf, amountOf);
    DistinctBucketKeysBy(g);
    PermutationDistinctBy(g, r, BucketKey);
    DistinctBucketKeysBy(r);
    GroupKeys(xs, keyOf, amountOf);
    PermutationKeys(g, r);
    GroupEntries(xs, keyOf, amountOf);
    forall i | 0 <= i < |r|
      ensures r[i].amount == SumFor(xs, keyOf, amountOf, r[i].key)
    {
      assert r[i] in multiset(g);
    }
    GroupSum(xs, keyOf, amountOf);
    SumOfPermutation(r, g, BucketAmount);
    GroupCount(xs, keyOf, amountOf);
    assert |r| == |multiset(r)| == |multiset(g)| == |g|;
  }

  /** A key belongs to the records' keys exactly when some record carries it. */
  lemma {:induction false} KeysOfMembers<T, K>(xs: seq<T>, keyOf: T -> K, k: K)
    ensures k in KeysOf(xs, keyOf) <==> exists i :: 0 <= i < |xs| && keyOf(xs[i]) == k
  {
    if xs != [] {
      var init := xs[..|xs| - 1];
      KeysOfMembers(init, keyOf, k);
      if k in KeysOf(init, keyOf) {
        var i :| 0 <= i < |init| && keyOf(init[i]) == k;
        assert keyOf(xs[i]) == k;
      }
      if exists i :: 0 <= i < |xs| && keyOf(xs[i]) == k {
        var i :| 0 <= i < |xs| && keyOf(xs[i]) == k;
        if i < |init| {
          assert keyOf(init[i]) == k;
        }
      }
    }
  }

  /** A prefix of the ranked dictionary keeps its facts, and every key left
      out sums to no more than any key kept. */
  lemma TopNPrefix<T, K(!new)>(xs: seq<T>, keyOf: T -> K, amountOf: T -> int, ranked: seq<Bucket<K>>, r: seq<Bucket<K>>)
    requires forall i, j :: 0 <= i < j < |ranked| ==> ranked[i].amount >= ranked[j].amount
    requires DistinctBucketKeys(ranked)
    requires BucketKeys(ranked) == KeysOf(xs, keyOf)
    requires forall i :: 0 <= i < |ranked| ==> ranked[i].amount == SumFor(xs, keyOf, amountOf, ranked[i].key)
    requires |r| <= |ranked| && r == ranked[..|r|]
    ensures DistinctBucketKeys(r)
    ensures forall k, i :: k in KeysOf(xs, keyOf) && k !in BucketKeys(r) && 0 <= i < |r| ==>
              SumFor(xs, keyOf, amountOf, k) <= r[i].amount
  {
    forall k, i | k in KeysOf(xs, keyOf) && k !in BucketKeys(r) && 0 <= i < |r|
      ensures SumFor(xs, keyOf, amountOf, k) <= r[i].amount
    {
      KeyAt(ranked, k);
      var p :| 0 <= p < |ranked| && ranked[p].key == k;
      BeyondPrefix(ranked, r, k, p);
      assert r[i] == ranked[i];
    }
  }

  /** A key missing from a prefix sits beyond it. */
  lemma BeyondPrefix<K>(ranked: seq<Bucket<K>>, r: seq<Bucket<K>>, k: K, p: int)
    requires |r| <= |ranked| && r == ranked[..|r|]
    requires 0 <= p < |ranked| && ranked[p].key == k
    requires k !in BucketKeys(r)
    ensures p >= |r|
  {
    KeyAt(r, k);
    assert forall q :: 0 <= q < |r| ==> r[q].key != k;
  }
}

