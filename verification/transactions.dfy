/** Expenses and savings: the record both routers store, the list filters
    and the newest-first order they share, and the partial update their
    `PUT /:id` handlers apply. An expense's `tag` is its `category`, a
    saving's `tag` its `goal`. Amounts are whole cents. */
module Transactions {
  import opened Common
  import opened Dates
  import opened Seqs
  import opened Sorting
  import opened Store
  import opened Periods

  datatype Transaction = Transaction(
    amount: int,
    tag: string,
    description: string,
    date: Date,
    createdAt: string,
    updatedAt: Option<string>)

  function AmountOf(c: Child<Transaction>): int
  {
    c.val.amount
  }

  function TagOf(c: Child<Transaction>): string
  {
    c.val.tag
  }

  function DateOf(c: Child<Transaction>): Date
  {
    c.val.date
  }

  /** The optional `startDate`/`endDate` query bounds: a record is dropped
      when it lies before a given start or after a given end. */
  predicate WithinBounds(d: Date, startDate: Option<Date>, endDate: Option<Date>)
  {
    !(startDate.Some? && Lt(d, startDate.value)) && !(endDate.Some? && Lt(endDate.value, d))
  }

  function BoundsTest(startDate: Option<Date>, endDate: Option<Date>): Child<Transaction> -> bool
  {
    (c: Child<Transaction>) => WithinBounds(c.val.date, startDate, endDate)
  }

  /** Both bounds given: the kept records are exactly those inside the
      closed interval between them. */
  lemma BoundsAreClosedInterval(d: Date, s: Date, e: Date)
    ensures WithinBounds(d, Some(s), Some(e)) <==> Le(s, d) && Le(d, e)
  {
    LeIsTotalOrder();
  }

  /** `if (startDate || endDate) list = list.filter(...)`. */
  function FilterByBounds(xs: seq<Child<Transaction>>, startDate: Option<Date>, endDate: Option<Date>): (r: seq<Child<Transaction>>)
    ensures forall j :: 0 <= j < |r| ==> r[j] in xs && WithinBounds(r[j].val.date, startDate, endDate)
    ensures forall i :: 0 <= i < |xs| && WithinBounds(xs[i].val.date, startDate, endDate) ==> xs[i] in r
    ensures SubsequenceOf(r, xs)
    ensures startDate.None? && endDate.None? ==> r == xs
  {
    if startDate.Some? || endDate.Some? then Filter(xs, BoundsTest(startDate, endDate))
    else SubsequenceOfSelf(xs); xs
  }

  /** Whether or not a bound is given, the bounds filter is one `Filter`. */
  lemma FilterByBoundsIsFilter(xs: seq<Child<Transaction>>, startDate: Option<Date>, endDate: Option<Date>)
    ensures FilterByBounds(xs, startDate, endDate) == Filter(xs, BoundsTest(startDate, endDate))
  {
    if startDate.None? && endDate.None? {
      FilterKeepsAll(xs, BoundsTest(startDate, endDate));
    }
  }

  /** The window test of the report handlers and of the savings summary:
      `date >= startDate && date <= endDate`. */
  function InRangeTest(r: DateRange): Child<Transaction> -> bool
  {
    (c: Child<Transaction>) => InRange(c.val.date, r)
  }

  /** `record.category === category` (or the same on `goal`). */
  function TagIs(tag: string): Child<Transaction> -> bool
  {
    (c: Child<Transaction>) => c.val.tag == tag
  }

  /** The comparator `(a, b) => new Date(b.date) - new Date(a.date)`. */
  predicate NewerFirst(a: Child<Transaction>, b: Child<Transaction>)
  {
    Le(b.val.date, a.val.date)
  }

  lemma NewerFirstIsTotalPreorder()
    ensures TotalPreorder(NewerFirst)
  {
    LeIsTotalOrder();
  }

  /** `list.sort((a, b) => new Date(b.date) - new Date(a.date))`. */
  function NewestFirst(xs: seq<Child<Transaction>>): (r: seq<Child<Transaction>>)
    ensures multiset(r) == multiset(xs)
    ensures |r| == |xs|
    ensures forall i, j :: 0 <= i < j < |r| ==> Le(r[j].val.date, r[i].val.date)
  {
    NewerFirstIsTotalPreorder();
    Sort(xs, NewerFirst)
  }

  /** The fields of a `PUT /:id` body; `None` is a field left `undefined`. */
  datatype TransactionPatch = TransactionPatch(
    amount: Option<int>,
    tag: Option<string>,
    description: Option<string>,
    date: Option<Date>)

  /** The `updates` object handed to Firebase's `update`: only the fields it
      holds are written. */
  datatype TransactionUpdates = TransactionUpdates(
    amount: Option<int>,
    tag: Option<string>,
    description: Option<string>,
    date: Option<Date>,
    updatedAt: Option<string>)

  const NoUpdates := TransactionUpdates(None, None, None, None, None)

  /** `ref.update(u)`: every field `u` holds overwrites the stored one. */
  function Merge(t: Transaction, u: TransactionUpdates): Transaction
  {
    Transaction(
      if u.amount.Some? then u.amount.value else t.amount,
      if u.tag.Some? then u.tag.value else t.tag,
      if u.description.Some? then u.description.value else t.description,
      if u.date.Some? then u.date.value else t.date,
      t.createdAt,
      if u.updatedAt.Some? then u.updatedAt else t.updatedAt)
  }

  /** Writing the same updates twice stores what writing them once does. */
  lemma MergeIdempotent(t: Transaction, u: TransactionUpdates)
    ensures Merge(Merge(t, u), u) == Merge(t, u)
  {
  }

  /** What a partial update promises: a supplied field takes the supplied
      value, an omitted one keeps the stored value, `createdAt` is kept and
      `updatedAt` becomes the time of the update. */
  ghost predicate Patched(before: Transaction, p: TransactionPatch, timestamp: string, after: Transaction)
  {
    && after.amount == (if p.amount.Some? then p.amount.value else before.amount)
    && after.tag == (if p.tag.Some? then p.tag.value else before.tag)
    && after.description == (if p.description.Some? then p.description.value else before.description)
    && after.date == (if p.date.Some? then p.date.value else before.date)
    && after.createdAt == before.createdAt
    && after.updatedAt == Some(timestamp)
  }

  /** A patch determines the updated record. */
  lemma PatchedUnique(before: Transaction, p: TransactionPatch, timestamp: string, a: Transaction, b: Transaction)
    requires Patched(before, p, timestamp, a) && Patched(before, p, timestamp, b)
    ensures a == b
  {
  }

  /** A body without any field changes nothing but `updatedAt`. */
  lemma EmptyPatchTouchesOnlyUpdatedAt(before: Transaction, timestamp: string, after: Transaction)
    requires Patched(before, TransactionPatch(None, None, None, None), timestamp, after)
    ensures after == before.(updatedAt := Some(timestamp))
  {
  }

  /** Applying the same request again leaves the record as it is. */
  lemma PatchIdempotent(before: Transaction, p: TransactionPatch, timestamp: string, once: Transaction, twice: Transaction)
    requires Patched(before, p, timestamp, once) && Patched(once, p, timestamp, twice)
    ensures twice == once
  {
  }

  /** Builds `updates` field by field, as the handler does, and writes it. */
  method ApplyPatch(before: Transaction, p: TransactionPatch, timestamp: string) returns (after: Transaction)
    ensures Patched(before, p, timestamp, after)
  {
    var updates := NoUpdates;
    if p.amount.Some? {
      updates := updates.(amount := p.amount);
    }
    if p.tag.Some? {
      updates := updates.(tag := p.tag);
    }
    if p.description.Some? {
      updates := updates.(description := p.description);
    }
    if p.date.Some? {
      updates := updates.(date := p.date);
    }
    updates := updates.(updatedAt := Some(timestamp));
    after := Merge(before, updates);
  }

  /** The `POST /` handler both routers share, `missing` being the router's
      message for an absent field: `!userId || !amount || !tag || !date`
      answers 400, then `amount <= 0` does; otherwise the record is pushed
      under `newKey` with `description || ''`. */
  function CreateStored(node: seq<Child<Transaction>>, userId: Option<string>, amount: Option<int>, tag: Option<string>,
                        description: Option<string>, date: Option<Date>, timestamp: string, newKey: string,
                        missing: string): (r: Result<Created<Transaction>>)
    ensures !(Present(userId) && Truthy(amount) && Present(tag) && date.Some?) ==> r == Err(BadRequest(missing))
    ensures Present(userId) && Truthy(amount) && Present(tag) && date.Some? && amount.value < 0 ==>
              r == Err(BadRequest(AmountMustBePositive))
    ensures r.Ok? <==> Present(userId) && amount.Some? && amount.value > 0 && Present(tag) && date.Some?
    ensures r.Ok? ==> var t := r.value.child.val;
              && t.amount == amount.value && t.amount > 0 && t.tag == tag.value && t.date == date.value
              && t.description == OrEmpty(description) && t.createdAt == timestamp && t.updatedAt.None?
              && r.value.child.key == newKey && r.value.node == node + [r.value.child]
  {
    if !Present(userId) || !Truthy(amount) || !Present(tag) || date.None? then
      Err(BadRequest(missing))
    else if amount.value <= 0 then
      Err(BadRequest(AmountMustBePositive))
    else
      Ok(Push(node, newKey, Transaction(amount.value, tag.value, OrEmpty(description), date.value, timestamp, None)))
  }

  /** The `PUT /:id` handler both routers share, `notFound` being the
      router's 404 message. */
  method UpdateStored(node: seq<Child<Transaction>>, userId: Option<string>, id: string, p: TransactionPatch,
                      timestamp: string, notFound: string)
    returns (r: Result<Child<Transaction>>, node': seq<Child<Transaction>>)
    ensures !Present(userId) ==> r == Err(BadRequest(UserIdRequired))
    ensures Present(userId) && id !in Keys(node) ==> r == Err(NotFound(notFound))
    ensures r.Ok? <==> Present(userId) && id in Keys(node)
    ensures r.Err? ==> node' == node
    ensures r.Ok? ==> r.value.key == id && Find(node, id).Some? && Patched(Find(node, id).value, p, timestamp, r.value.val)
    ensures r.Ok? ==> node' == Replace(node, id, r.value.val)
    ensures r.Ok? ==> Find(node', id) == Some(r.value.val) && Keys(node') == Keys(node)
    ensures r.Ok? ==> forall k :: k != id ==> Find(node', k) == Find(node, k)
  {
    node' := node;
    if !Present(userId) {
      return Err(BadRequest(UserIdRequired)), node';
    }
    var before := Find(node, id);
    if before.None? {
      return Err(NotFound(notFound)), node';
    }
    var after := ApplyPatch(before.value, p, timestamp);
    node' := Replace(node, id, after);
    FindAfterReplace(node, id, after, id);
    forall k | k != id
      ensures Find(node', k) == Find(node, k)
    {
      FindAfterReplace(node, id, after, k);
    }
    r := Ok(Child(id, after));
  }
}

