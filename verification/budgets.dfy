/** The budgets router: listing, reading, creating, updating and deleting
    the budgets stored under `budgets/<userId>`. */
module Budgets {
  import opened Common
  import opened Seqs
  import opened Store

  /** A spending limit for one category over one period. */
  datatype Budget = Budget(
    category: string,
    amount: int,
    period: string,
    createdAt: string,
    updatedAt: Option<string>)

  const BudgetNotFound := "Budget not found"
  const MissingBudgetFields := "Missing required fields: userId, category, amount, period"
  const PeriodMustBeValid := "Period must be one of: week, month, year"

  /** `['week', 'month', 'year'].includes(period)`. */
  predicate ValidPeriod(period: string)
  {
    period in ["week", "month", "year"]
  }

  datatype BudgetList = BudgetList(data: seq<Child<Budget>>, count: nat)

  /** `GET /`: every stored budget, in snapshot order, and their number. */
  method List(node: seq<Child<Budget>>, userId: Option<string>) returns (r: Result<BudgetList>)
    ensures r.Err? <==> !Present(userId)
    ensures r.Err? ==> r.error == BadRequest(UserIdRequired)
    ensures r.Ok? ==> r.value.data == node && r.value.count == |node|
  {
    if !Present(userId) {
      return Err(BadRequest(UserIdRequired));
    }
    var budgets := ReadAll(node);
    return Ok(BudgetList(budgets, |budgets|));
  }

  /** `GET /:id`. */
  function Get(node: seq<Child<Budget>>, userId: Option<string>, id: string): (r: Result<Child<Budget>>)
    ensures !Present(userId) ==> r == Err(BadRequest(UserIdRequired))
    ensures Present(userId) && id !in Keys(node) ==> r == Err(NotFound(BudgetNotFound))
    ensures r.Ok? <==> Present(userId) && id in Keys(node)
    ensures r.Ok? ==> r.value.key == id && r.value in node
  {
    Store.Get(node, userId, id, BudgetNotFound)
  }

  /** `POST /`: three guards in turn (required fields, a positive amount, a
      known period), then the new budget is pushed under `newKey`. */
  function Create(node: seq<Child<Budget>>, userId: Option<string>, category: Option<string>, amount: Option<int>,
                  period: Option<string>, timestamp: string, newKey: string): (r: Result<Created<Budget>>)
    ensures !(Present(userId) && Present(category) && Truthy(amount) && Present(period)) ==>
              r == Err(BadRequest(MissingBudgetFields))
    ensures Present(userId) && Present(category) && Truthy(amount) && Present(period) && amount.value < 0 ==>
              r == Err(BadRequest(AmountMustBePositive))
    ensures Present(userId) && Present(category) && Truthy(amount) && Present(period) && amount.value > 0 &&
              !ValidPeriod(period.value)
            ==> r == Err(BadRequest(PeriodMustBeValid))
    ensures r.Ok? <==> Present(userId) && Present(category) && amount.Some? && amount.value > 0 &&
                       period.Some? && ValidPeriod(period.value)
    ensures r.Ok? ==> var b := r.value.child.val;
              && b.amount > 0 && ValidPeriod(b.period)
              && b.category == category.value && b.amount == amount.value && b.period == period.value
              && b.createdAt == timestamp && b.updatedAt.None?
              && r.value.child.key == newKey && r.value.node == node + [r.value.child]
  {
    if !Present(userId) || !Present(category) || !Truthy(amount) || !Present(period) then
      Err(BadRequest(MissingBudgetFields))
    else if amount.value <= 0 then
      Err(BadRequest(AmountMustBePositive))
    else if !ValidPeriod(period.value) then
      Err(BadRequest(PeriodMustBeValid))
    else
      Ok(Push(node, newKey, Budget(category.value, amount.value, period.value, timestamp, None)))
  }

  /** The fields of a `PUT /:id` body; `None` is a field left `undefined`. */
  datatype BudgetPatch = BudgetPatch(category: Option<string>, amount: Option<int>, period: Option<string>)

  /** The `updates` object handed to Firebase's `update`. */
  datatype BudgetUpdates = BudgetUpdates(
    category: Option<string>,
    amount: Option<int>,
    period: Option<string>,
    updatedAt: Option<string>)

  /** `ref.update(u)`: every field `u` holds overwrites the stored one. */
  function MergeBudget(b: Budget, u: BudgetUpdates): Budget
  {
    Budget(
      if u.category.Some? then u.category.value else b.category,
      if u.amount.Some? then u.amount.value else b.amount,
      if u.period.Some? then u.period.value else b.period,
      b.createdAt,
      if u.updatedAt.Some? then u.updatedAt else b.updatedAt)
  }

  /** What an accepted update promises: supplied fields take the supplied
      values, omitted ones keep theirs, `createdAt` is kept and `updatedAt`
      becomes the time of the update. */
  ghost predicate Patched(before: Budget, p: BudgetPatch, timestamp: string, after: Budget)
  {
    && after.category == (if p.category.Some? then p.category.value else before.category)
    && after.amount == (if p.amount.Some? then p.amount.value else before.amount)
    && after.period == (if p.period.Some? then p.period.value else before.period)
    && after.createdAt == before.createdAt
    && after.updatedAt == Some(timestamp)
  }

  /** An update keeps a valid period valid: a supplied period is checked, an
      omitted one is left as it was. */
  lemma PatchedKeepsValidPeriod(before: Budget, p: BudgetPatch, timestamp: string, after: Budget)
    requires ValidPeriod(before.period)
    requires p.period.Some? ==> ValidPeriod(p.period.value)
    requires Patched(before, p, timestamp, after)
    ensures ValidPeriod(after.period)
  {
  }

  /** `amount` is not re-checked on update: any supplied amount is stored,
      zero and negative ones included. */
  lemma PatchedStoresAnyAmount(before: Budget, a: int, timestamp: string, after: Budget)
    requires Patched(before, BudgetPatch(None, Some(a), None), timestamp, after)
    ensures after.amount == a && after.category == before.category && after.period == before.period
  {
  }

  /** `PUT /:id`: the two guards, then `updates` is built field by field; an
      invalid period answers 400 before anything is written. */
  method Update(node: seq<Child<Budget>>, userId: Option<string>, id: string, p: BudgetPatch, timestamp: string)
    returns (r: Result<Child<Budget>>, node': seq<Child<Budget>>)
    ensures !Present(userId) ==> r == Err(BadRequest(UserIdRequired))
    ensures Present(userId) && id !in Keys(node) ==> r == Err(NotFound(BudgetNotFound))
    ensures Present(userId) && id in Keys(node) && p.period.Some? && !ValidPeriod(p.period.value) ==>
              r == Err(BadRequest(PeriodMustBeValid))
    ensures r.Ok? <==> Present(userId) && id in Keys(node) && (p.period.Some? ==> ValidPeriod(p.period.value))
    ensures r.Err? ==> node' == node
    ensures r.Ok? ==> r.value.key == id && Find(node, id).Some? && Patched(Find(node, id).value, p, timestamp, r.value.val)
    ensures r.Ok? ==> node' == Replace(node, id, r.value.val)
    ensures r.Ok? ==> Find(node', id) == Some(r.value.val) && Keys(node') == Keys(node)
    ensures r.Ok? ==> forall k :: k != id ==> Find(node', k) == Find(node, k)
  {
    node' := node;
    if !Present(userId) {
      return Err(BadRequest(UserIdRequired)), node';
    }
    var before := Find(node, id);
    if before.None? {
      return Err(NotFound(BudgetNotFound)), node';
    }
    var updates := BudgetUpdates(None, None, None, None);
    if p.category.Some? {
      updates := updates.(category := p.category);
    }
    if p.amount.Some? {
      updates := updates.(amount := p.amount);
    }
    if p.period.Some? {
      if !ValidPeriod(p.period.value) {
        return Err(BadRequest(PeriodMustBeValid)), node';
      }
      updates := updates.(period := p.period);
    }
    updates := updates.(updatedAt := Some(timestamp));
    var after := MergeBudget(before.value, updates);
    node' := Replace(node, id, after);
    FindAfterReplace(node, id, after, id);
    forall k | k != id
      ensures Find(node', k) == Find(node, k)
    {
      FindAfterReplace(node, id, after, k);
    }
    r := Ok(Child(id, after));
  }

  /** `DELETE /:id`. */
  function Delete(node: seq<Child<Budget>>, userId: Option<string>, id: string): (r: Result<seq<Child<Budget>>>)
    ensures !Present(userId) ==> r == Err(BadRequest(UserIdRequired))
    ensures Present(userId) && id !in Keys(node) ==> r == Err(NotFound(BudgetNotFound))
    ensures r.Ok? <==> Present(userId) && id in Keys(node)
    ensures r.Ok? ==> Keys(r.value) == Keys(node) - {id} && SubsequenceOf(r.value, node)
    ensures r.Ok? ==> forall i :: 0 <= i < |node| && node[i].key != id ==> node[i] in r.value
  {
    Store.Delete(node, userId, id, BudgetNotFound)
  }
}
