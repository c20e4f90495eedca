/** The expenses router: listing with optional date bounds and category,
    reading, creating, updating and deleting the expenses stored under
    `expenses/<userId>`. An expense's `tag` is its category. */
module Expenses {
  import opened Common
  import opened Dates
  import opened Seqs
  import opened Store
  import opened Transactions

  const ExpenseNotFound := "Expense not found"
  const MissingExpenseFields := "Missing required fields: userId, amount, category, date"

  datatype ExpenseList = ExpenseList(data: seq<Child<Transaction>>, count: nat)

  /** Which stored expenses `GET /` returns: those within the given bounds
      and, when a category is given, filed under exactly that category. */
  predicate Listed(c: Child<Transaction>, startDate: Option<Date>, endDate: Option<Date>, category: Option<string>)
  {
    WithinBounds(c.val.date, startDate, endDate) && (Present(category) ==> c.val.tag == category.value)
  }

  function ListTest(startDate: Option<Date>, endDate: Option<Date>, category: Option<string>): Child<Transaction> -> bool
  {
    (c: Child<Transaction>) => Listed(c, startDate, endDate, category)
  }

  /** The two filters of `GET /`, applied as the handler applies them. */
  function Select(xs: seq<Child<Transaction>>, startDate: Option<Date>, endDate: Option<Date>, category: Option<string>)
    : (r: seq<Child<Transaction>>)
    ensures r == Filter(xs, ListTest(startDate, endDate, category))
  {
    var bounded := FilterByBounds(xs, startDate, endDate);
    FilterByBoundsIsFilter(xs, startDate, endDate);
    if Present(category) then
      FilterFilter(xs, BoundsTest(startDate, endDate), TagIs(category.value));
      FilterSameTest(xs, Both(BoundsTest(startDate, endDate), TagIs(category.value)), ListTest(startDate, endDate, category));
      Filter(bounded, TagIs(category.value))
    else
      FilterSameTest(xs, BoundsTest(startDate, endDate), ListTest(startDate, endDate, category));
      bounded
  }

  /** `GET /`: the listed expenses, newest first, and their number. */
  method List(node: seq<Child<Transaction>>, userId: Option<string>, startDate: Option<Date>, endDate: Option<Date>,
              category: Option<string>) returns (r: Result<ExpenseList>)
    ensures r.Err? <==> !Present(userId)
    ensures r.Err? ==> r.error == BadRequest(UserIdRequired)
    ensures r.Ok? ==> multiset(r.value.data) == multiset(Filter(node, ListTest(startDate, endDate, category)))
    ensures r.Ok? ==> forall i :: 0 <= i < |node| ==> (node[i] in r.value.data <==> Listed(node[i], startDate, endDate, category))
    ensures r.Ok? ==> forall i, j :: 0 <= i < j < |r.value.data| ==> Le(r.value.data[j].val.date, r.value.data[i].val.date)
    ensures r.Ok? ==> r.value.count == |r.value.data|
  {
    if !Present(userId) {
      return Err(BadRequest(UserIdRequired));
    }
    var expenses := ReadAll(node);
    if startDate.Some? || endDate.Some? {
      expenses := Filter(expenses, BoundsTest(startDate, endDate));
    }
    if Present(category) {
      expenses := Filter(expenses, TagIs(category.value));
    }
    assert expenses == Select(node, startDate, endDate, category);
    expenses := NewestFirst(expenses);
    PermutedFilterMembers(node, ListTest(startDate, endDate, category), expenses);
    return Ok(ExpenseList(expenses, |expenses|));
  }

  /** `GET /:id`. */
  function Get(node: seq<Child<Transaction>>, userId: Option<string>, id: string): (r: Result<Child<Transaction>>)
    ensures !Present(userId) ==> r == Err(BadRequest(UserIdRequired))
    ensures Present(userId) && id !in Keys(node) ==> r == Err(NotFound(ExpenseNotFound))
    ensures r.Ok? <==> Present(userId) && id in Keys(node)
    ensures r.Ok? ==> r.value.key == id && r.value in node
  {
    Store.Get(node, userId, id, ExpenseNotFound)
  }

  /** `POST /`. */
  function Create(node: seq<Child<Transaction>>, userId: Option<string>, amount: Option<int>, category: Option<string>,
                  description: Option<string>, date: Option<Date>, timestamp: string, newKey: string)
    : (r: Result<Created<Transaction>>)
    ensures !(Present(userId) && Truthy(amount) && Present(category) && date.Some?) ==>
              r == Err(BadRequest(MissingExpenseFields))
    ensures Present(userId) && Truthy(amount) && Present(category) && date.Some? && amount.value < 0 ==>
              r == Err(BadRequest(AmountMustBePositive))
    ensures r.Ok? <==> Present(userId) && amount.Some? && amount.value > 0 && Present(category) && date.Some?
    ensures r.Ok? ==> var e := r.value.child.val;
              && e.amount == amount.value && e.amount > 0 && e.tag == category.value
              && e.description == OrEmpty(description) && e.date == date.value
              && e.createdAt == timestamp && e.updatedAt.None?
              && r.value.child.key == newKey && r.value.node == node + [r.value.child]
  {
    CreateStored(node, userId, amount, category, description, date, timestamp, newKey, MissingExpenseFields)
  }

  /** `PUT /:id`. */
  method Update(node: seq<Child<Transaction>>, userId: Option<string>, id: string, p: TransactionPatch, timestamp: string)
    returns (r: Result<Child<Transaction>>, node': seq<Child<Transaction>>)
    ensures !Present(userId) ==> r == Err(BadRequest(UserIdRequired))
    ensures Present(userId) && id !in Keys(node) ==> r == Err(NotFound(ExpenseNotFound))
    ensures r.Ok? <==> Present(userId) && id in Keys(node)
    ensures r.Err? ==> node' == node
    ensures r.Ok? ==> r.value.key == id && Find(node, id).Some? && Patched(Find(node, id).value, p, timestamp, r.value.val)
    ensures r.Ok? ==> node' == Replace(node, id, r.value.val)
    ensures r.Ok? ==> Find(node', id) == Some(r.value.val) && Keys(node') == Keys(node)
    ensures r.Ok? ==> forall k :: k != id ==> Find(node', k) == Find(node, k)
  {
    r, node' := UpdateStored(node, userId, id, p, timestamp, ExpenseNotFound);
  }

  /** `DELETE /:id`. */
  function Delete(node: seq<Child<Transaction>>, userId: Option<string>, id: string): (r: Result<seq<Child<Transaction>>>)
    ensures !Present(userId) ==> r == Err(BadRequest(UserIdRequired))
    ensures Present(userId) && id !in Keys(node) ==> r == Err(NotFound(ExpenseNotFound))
    ensures r.Ok? <==> Present(userId) && id in Keys(node)
    ensures r.Ok? ==> Keys(r.value) == Keys(node) - {id} && SubsequenceOf(r.value, node)
    ensures r.Ok? ==> forall i :: 0 <= i < |node| && node[i].key != id ==> node[i] in r.value
  {
    Store.Delete(node, userId, id, ExpenseNotFound)
  }
}
