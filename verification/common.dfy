/** Vocabulary shared by the four routers: optional request parameters, the
    400 and 404 answers, and the children of a Firebase snapshot. */
module Common {

  datatype Option<T> = None | Some(value: T)

  /** The two client errors the handlers answer with (HTTP 400 and 404). */
  datatype Error = BadRequest(message: string) | NotFound(message: string)

  datatype Result<T> = Ok(value: T) | Err(error: Error)

  const UserIdRequired := "userId is required"
  const AmountMustBePositive := "Amount must be greater than 0"

  /** JavaScript truthiness of an optional string parameter: an absent
      parameter and the empty string are both falsy. */
  predicate Present(s: Option<string>)
  {
    s.Some? && s.value != ""
  }

  /** JavaScript truthiness of an optional amount: absent and zero are falsy. */
  predicate Truthy(a: Option<int>)
  {
    a.Some? && a.value != 0
  }

  /** `description || ''`. */
  function OrEmpty(s: Option<string>): (r: string)
    ensures Present(s) ==> r == s.value
    ensures !Present(s) ==> r == ""
  {
    if s.Some? then s.value else ""
  }

  /** One child of a snapshot: the key under which it is stored and its value. */
  datatype Child<V> = Child(key: string, val: V)

  function Keys<V>(cs: seq<Child<V>>): set<string>
  {
    set i | 0 <= i < |cs| :: cs[i].key
  }

  /** Firebase keys are unique among the children of one node. */
  predicate DistinctKeys<V>(cs: seq<Child<V>>)
  {
    forall i, j :: 0 <= i < j < |cs| ==> cs[i].key != cs[j].key
  }
}
