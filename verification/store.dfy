/** The per-user Firebase node a router reads and writes
    (`expenses/<userId>`, `savings/<userId>`, `budgets/<userId>`), as the
    sequence of children its snapshot yields. */
module Store {
  import opened Common
  import opened Seqs

  /** `ref(node/key).once('value')`: the value stored under `key`, if any. */
  function Find<V>(cs: seq<Child<V>>, key: string): (r: Option<V>)
    ensures r.Some? <==> key in Keys(cs)
    ensures r.Some? ==> Child(key, r.value) in cs
  {
    if cs == [] then None
    else
      assert Keys(cs) == {cs[0].key} + Keys(cs[1..]) by {
        assert forall i :: 1 <= i < |cs| ==> cs[i] == cs[1..][i - 1];
      }
      if cs[0].key == key then Some(cs[0].val) else Find(cs[1..], key)
  }

  /** With distinct keys, `Find` returns the one value stored under `key`. */
  lemma {:induction false} FindAt<V>(cs: seq<Child<V>>, i: nat)
    requires DistinctKeys(cs)
    requires i < |cs|
    ensures Find(cs, cs[i].key) == Some(cs[i].val)
  {
    if i > 0 {
      FindAt(cs[1..], i - 1);
    }
  }

  /** `ref(node/key).update(...)`: the child under `key` gets the value `v`,
      every other child stays as it was. */
  function Replace<V>(cs: seq<Child<V>>, key: string, v: V): (r: seq<Child<V>>)
    ensures |r| == |cs|
    ensures forall i :: 0 <= i < |cs| ==> r[i] == (if cs[i].key == key then Child(key, v) else cs[i])
    ensures Keys(r) == Keys(cs)
    ensures DistinctKeys(cs) ==> DistinctKeys(r)
  {
    var r := seq(|cs|, i requires 0 <= i < |cs| => if cs[i].key == key then Child(key, v) else cs[i]);
    assert forall i :: 0 <= i < |cs| ==> r[i].key == cs[i].key;
    r
  }

  /** Reading after `update`: the key written now holds `v`, if it was stored
      at all, and every other key reads as before. */
  lemma {:induction false} FindAfterReplace<V>(cs: seq<Child<V>>, key: string, v: V, k: string)
    ensures Find(Replace(cs, key, v), k) == (if k == key && Find(cs, key).Some? then Some(v) else Find(cs, k))
  {
    if cs != [] {
      var r := Replace(cs, key, v);
      assert r[1..] == Replace(cs[1..], key, v);
      FindAfterReplace(cs[1..], key, v, k);
    }
  }

  /** The test that keeps every child but the one under `key`. */
  function KeyIsNot<V>(key: string): Child<V> -> bool
  {
    (c: Child<V>) => c.key != key
  }

  /** `ref(node/key).remove()`. */
  function Remove<V(==)>(cs: seq<Child<V>>, key: string): (r: seq<Child<V>>)
    ensures forall j :: 0 <= j < |r| ==> r[j] in cs && r[j].key != key
    ensures forall i :: 0 <= i < |cs| && cs[i].key != key ==> cs[i] in r
    ensures Keys(r) == Keys(cs) - {key}
    ensures SubsequenceOf(r, cs)
  {
    Filter(cs, KeyIsNot(key))
  }

  /** `snapshot.forEach(child => list.push({ id: child.key, ...child.val() }))`:
      the children in snapshot order. */
  method ReadAll<V>(cs: seq<Child<V>>) returns (list: seq<Child<V>>)
    ensures list == cs
  {
    list := [];
    for i := 0 to |cs|
      invariant list == cs[..i]
    {
      list := list + [cs[i]];
    }
  }

  /** A new child and the node after `ref(node).push(value)` stored it. */
  datatype Created<V> = Created(child: Child<V>, node: seq<Child<V>>)

  /** `ref(node).push(v)`: `v` is stored under the fresh key `newKey`, after
      every existing child. */
  function Push<V>(cs: seq<Child<V>>, newKey: string, v: V): (c: Created<V>)
    ensures c.child == Child(newKey, v)
    ensures |c.node| == |cs| + 1 && c.node[..|cs|] == cs && c.node[|cs|] == c.child
    ensures Keys(c.node) == Keys(cs) + {newKey}
    ensures DistinctKeys(cs) && newKey !in Keys(cs) ==> DistinctKeys(c.node)
  {
    var node := cs + [Child(newKey, v)];
    assert forall i :: 0 <= i < |cs| ==> node[i] == cs[i];
    Created(Child(newKey, v), node)
  }

  /** The guard-then-read shape of every `GET /:id` handler: 400 without a
      user id, 404 (with the router's own message) when nothing is stored
      under `id`, else the child `{ id, ...value }`. */
  function Get<V>(cs: seq<Child<V>>, userId: Option<string>, id: string, notFound: string): (r: Result<Child<V>>)
    ensures !Present(userId) ==> r == Err(BadRequest(UserIdRequired))
    ensures Present(userId) ==> (r.Ok? <==> id in Keys(cs))
    ensures Present(userId) && id !in Keys(cs) ==> r == Err(NotFound(notFound))
    ensures r.Ok? ==> r.value.key == id && r.value in cs
  {
    if !Present(userId) then Err(BadRequest(UserIdRequired))
    else match Find(cs, id)
      case None => Err(NotFound(notFound))
      case Some(v) => Ok(Child(id, v))
  }

  /** The shape of every `DELETE /:id` handler: the same two guards, then the
      node without the child stored under `id`. */
  function Delete<V(==)>(cs: seq<Child<V>>, userId: Option<string>, id: string, notFound: string): (r: Result<seq<Child<V>>>)
    ensures !Present(userId) ==> r == Err(BadRequest(UserIdRequired))
    ensures Present(userId) && id !in Keys(cs) ==> r == Err(NotFound(notFound))
    ensures r.Ok? <==> Present(userId) && id in Keys(cs)
    ensures r.Ok? ==> Keys(r.value) == Keys(cs) - {id} && SubsequenceOf(r.value, cs)
    ensures r.Ok? ==> forall i :: 0 <= i < |cs| && cs[i].key != id ==> cs[i] in r.value
  {
    if !Present(userId) then Err(BadRequest(UserIdRequired))
    else if Find(cs, id).None? then Err(NotFound(notFound))
    else Ok(Remove(cs, id))
  }
}
