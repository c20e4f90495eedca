/** The savings router: listing with optional date bounds and goal search,
    reading, creating, updating and deleting the savings stored under
    `savings/<userId>`, and the period summary. A saving's `tag` is its goal. */
module Savings {
  import opened Common
  import opened Dates
  import opened Seqs
  import opened Store
  import opened Grouping
  import opened Periods
  import opened Text
  import opened Transactions

  const SavingNotFound := "Saving not found"
  const MissingSavingFields := "Missing required fields: userId, amount, goal, date"

  /** How many goals the summary ranks. */
  const TopGoalCount := 5

  datatype SavingsList = SavingsList(data: seq<Child<Transaction>>, count: nat, totalSaved: int)

  /** `saving.goal.toLowerCase().includes(goal.toLowerCase())`. */
  predicate GoalMatches(goal: string, query: string)
  {
    Includes(ToLower(goal), ToLower(query))
  }

  function GoalTest(query: string): Child<Transaction> -> bool
  {
    (c: Child<Transaction>) => GoalMatches(c.val.tag, query)
  }

  /** The search ignores the case of ASCII letters on both sides. */
  lemma GoalMatchIgnoresCase(goal: string, query: string)
    ensures GoalMatches(goal, query) == GoalMatches(ToLower(goal), ToLower(query))
  {
    ToLowerIdempotent(goal);
    ToLowerIdempotent(query);
  }

  /** Searching for a saving's own goal finds it. */
  lemma GoalMatchesSelf(goal: string)
    ensures GoalMatches(goal, goal)
  {
    var g := ToLower(goal);
    assert OccursAt(g, g, 0) by {
      assert g[0..|g|] == g;
    }
  }

  /** Which stored savings `GET /` returns: those within the given bounds
      and, when a goal query is given, whose goal contains it. */
  predicate Listed(c: Child<Transaction>, startDate: Option<Date>, endDate: Option<Date>, goal: Option<string>)
  {
    WithinBounds(c.val.date, startDate, endDate) && (Present(goal) ==> GoalMatches(c.val.tag, goal.value))
  }

  function ListTest(startDate: Option<Date>, endDate: Option<Date>, goal: Option<string>): Child<Transaction> -> bool
  {
    (c: Child<Transaction>) => Listed(c, startDate, endDate, goal)
  }

  /** The two filters of `GET /`, applied as the handler applies them. */
  function Select(xs: seq<Child<Transaction>>, startDate: Option<Date>, endDate: Option<Date>, goal: Option<string>)
    : (r: seq<Child<Transaction>>)
    ensures r == Filter(xs, ListTest(startDate, endDate, goal))
  {
    var bounded := FilterByBounds(xs, startDate, endDate);
    FilterByBoundsIsFilter(xs, startDate, endDate);
    if Present(goal) then
      FilterFilter(xs, BoundsTest(startDate, endDate), GoalTest(goal.value));
      FilterSameTest(xs, Both(BoundsTest(startDate, endDate), GoalTest(goal.value)), ListTest(startDate, endDate, goal));
      Filter(bounded, GoalTest(goal.value))
    else
      FilterSameTest(xs, BoundsTest(startDate, endDate), ListTest(startDate, endDate, goal));
      bounded
  }

  /** `GET /`: the listed savings, newest first, their number and the sum of
      their amounts. */
  method List(node: seq<Child<Transaction>>, userId: Option<string>, startDate: Option<Date>, endDate: Option<Date>,
              goal: Option<string>) returns (r: Result<SavingsList>)
    ensures r.Err? <==> !Present(userId)
    ensures r.Err? ==> r.error == BadRequest(UserIdRequired)
    ensures r.Ok? ==> multiset(r.value.data) == multiset(Filter(node, ListTest(startDate, endDate, goal)))
    ensures r.Ok? ==> forall i :: 0 <= i < |node| ==> (node[i] in r.value.data <==> Listed(node[i], startDate, endDate, goal))
    ensures r.Ok? ==> forall i, j :: 0 <= i < j < |r.value.data| ==> Le(r.value.data[j].val.date, r.value.data[i].val.date)
    ensures r.Ok? ==> r.value.count == |r.value.data|
    ensures r.Ok? ==> r.value.totalSaved == SumOf(Filter(node, ListTest(startDate, endDate, goal)), AmountOf)
  {
    if !Present(userId) {
      return Err(BadRequest(UserIdRequired));
    }
    var savings := ReadAll(node);
    if startDate.Some? || endDate.Some? {
      savings := Filter(savings, BoundsTest(startDate, endDate));
    }
    if Present(goal) {
      savings := Filter(savings, GoalTest(goal.value));
    }
    assert savings == Select(node, startDate, endDate, goal);
    ghost var selected := savings;
    savings := NewestFirst(savings);
    PermutedFilterMembers(node, ListTest(startDate, endDate, goal), savings);
    var totalSaved := SumOf(savings, AmountOf);
    SumOfPermutation(savings, selected, AmountOf);
    return Ok(SavingsList(savings, |savings|, totalSaved));
  }

  /** `GET /:id`. */
  function Get(node: seq<Child<Transaction>>, userId: Option<string>, id: string): (r: Result<Child<Transaction>>)
    ensures !Present(userId) ==> r == Err(BadRequest(UserIdRequired))
    ensures Present(userId) && id !in Keys(node) ==> r == Err(NotFound(SavingNotFound))
    ensures r.Ok? <==> Present(userId) && id in Keys(node)
    ensures r.Ok? ==> r.value.key == id && r.value in node
  {
    Store.Get(node, userId, id, SavingNotFound)
  }

  /** `POST /`. */
  function Create(node: seq<Child<Transaction>>, userId: Option<string>, amount: Option<int>, goal: Option<string>,
                  description: Option<string>, date: Option<Date>, timestamp: string, newKey: string)
    : (r: Result<Created<Transaction>>)
    ensures !(Present(userId) && Truthy(amount) && Present(goal) && date.Some?) ==>
              r == Err(BadRequest(MissingSavingFields))
    ensures Present(userId) && Truthy(amount) && Present(goal) && date.Some? && amount.value < 0 ==>
              r == Err(BadRequest(AmountMustBePositive))
    ensures r.Ok? <==> Present(userId) && amount.Some? && amount.value > 0 && Present(goal) && date.Some?
    ensures r.Ok? ==> var s := r.value.child.val;
              && s.amount == amount.value && s.amount > 0 && s.tag == goal.value
              && s.description == OrEmpty(description) && s.date == date.value
              && s.createdAt == timestamp && s.updatedAt.None?
              && r.value.child.key == newKey && r.value.node == node + [r.value.child]
  {
    CreateStored(node, userId, amount, goal, description, date, timestamp, newKey, MissingSavingFields)
  }

  /** `PUT /:id`. */
  method Update(node: seq<Child<Transaction>>, userId: Option<string>, id: string, p: TransactionPatch, timestamp: string)
    returns (r: Result<Child<Transaction>>, node': seq<Child<Transaction>>)
    ensures !Present(userId) ==> r == Err(BadRequest(UserIdRequired))
    ensures Present(userId) && id !in Keys(node) ==> r == Err(NotFound(SavingNotFound))
    ensures r.Ok? <==> Present(userId) && id in Keys(node)
    ensures r.Err? ==> node' == node
    ensures r.Ok? ==> r.value.key == id && Find(node, id).Some? && Patched(Find(node, id).value, p, timestamp, r.value.val)
    ensures r.Ok? ==> node' == Replace(node, id, r.value.val)
    ensures r.Ok? ==> Find(node', id) == Some(r.value.val) && Keys(node') == Keys(node)
    ensures r.Ok? ==> forall k :: k != id ==> Find(node', k) == Find(node, k)
  {
    r, node' := UpdateStored(node, userId, id, p, timestamp, SavingNotFound);
  }

  /** `DELETE /:id`. */
  function Delete(node: seq<Child<Transaction>>, userId: Option<string>, id: string): (r: Result<seq<Child<Transaction>>>)
    ensures !Present(userId) ==> r == Err(BadRequest(UserIdRequired))
    ensures Present(userId) && id !in Keys(node) ==> r == Err(NotFound(SavingNotFound))
    ensures r.Ok? <==> Present(userId) && id in Keys(node)
    ensures r.Ok? ==> Keys(r.value) == Keys(node) - {id} && SubsequenceOf(r.value, node)
    ensures r.Ok? ==> forall i :: 0 <= i < |node| && node[i].key != id ==> node[i] in r.value
  {
    Store.Delete(node, userId, id, SavingNotFound)
  }

  datatype SavingsStats = SavingsStats(
    totalSaved: int,
    periodTotal: int,
    savingsCount: nat,
    periodCount: nat,
    topGoals: seq<Bucket<string>>,
    period: string)

  /** `GET /summary/stats`: totals over all savings and over the period
      window, and the goals with the largest sums, ranked over all savings. */
  method Stats(node: seq<Child<Transaction>>, userId: Option<string>, period: Option<string>, now: Date)
    returns (r: Result<SavingsStats>)
    requires Valid(now)
    ensures r.Err? <==> !Present(userId)
    ensures r.Err? ==> r.error == BadRequest(UserIdRequired)
    ensures r.Ok? ==>
              var s := r.value;
              var inPeriod := Filter(node, InRangeTest(GetDateRange(PeriodOrDefault(period), now)));
              && s.period == PeriodOrDefault(period)
              && s.totalSaved == SumOf(node, AmountOf) && s.savingsCount == |node|
              && s.periodTotal == SumOf(inPeriod, AmountOf) && s.periodCount == |inPeriod|
              && s.topGoals == TopN(node, TagOf, AmountOf, TopGoalCount)
    ensures r.Ok? ==> r.value.periodCount <= r.value.savingsCount
    ensures r.Ok? && (forall i :: 0 <= i < |node| ==> node[i].val.amount >= 0) ==> r.value.periodTotal <= r.value.totalSaved
    ensures r.Ok? ==> |r.value.topGoals| <= TopGoalCount
    ensures r.Ok? && period.None? ==>
              && r.value.period == "month"
              && r.value.periodTotal == SumOf(Filter(node, InRangeTest(DateRange(Date(now.year, now.month, 1), now))), AmountOf)
  {
    if !Present(userId) {
      return Err(BadRequest(UserIdRequired));
    }
    var savings := ReadAll(node);
    var tok := PeriodOrDefault(period);
    var window := GetDateRange(tok, now);
    var periodSavings := Filter(savings, InRangeTest(window));
    var totalSaved := SumOf(savings, AmountOf);
    var periodTotal := SumOf(periodSavings, AmountOf);
    var goalBreakdown := Accumulate(savings, TagOf, AmountOf);
    var topGoals := Slice(Ranked(goalBreakdown), TopGoalCount);
    if forall i :: 0 <= i < |node| ==> node[i].val.amount >= 0 {
      SumOfFilterBound(node, InRangeTest(window), AmountOf);
    }
    return Ok(SavingsStats(totalSaved, periodTotal, |savings|, |periodSavings|, topGoals, tok));
  }
}
