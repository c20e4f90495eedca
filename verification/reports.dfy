/** The reports router: the spending summary with its budget status, the top
    categories, the daily trend and the month-by-month comparison of one
    category, all derived from the expenses (and budgets) stored for a user. */
module Reports {
  import opened Common
  import opened Dates
  import opened Seqs
  import opened Sorting
  import opened Grouping
  import opened Periods
  import opened Text
  import opened Store
  import opened Transactions
  import opened Budgets

  const CategoryRequired := "userId and category are required"

  /** How many categories `/top-categories` lists when no `limit` is given. */
  const DefaultLimit := 5

  /** `(part / whole) * 100`. Dividing by zero gives a non-finite number in
      JavaScript, which is `None` here. */
  function Percentage(part: int, whole: int): (p: Option<real>)
    ensures p.None? <==> whole == 0
    ensures p.Some? ==> p.value * (whole as real) == (part as real) * 100.0
  {
    if whole == 0 then None else Some((part as real) / (whole as real) * 100.0)
  }

  datatype Status = Good | Warning | Over

  /** `percentage > 100 ? 'over' : percentage > 80 ? 'warning' : 'good'` with
      `percentage = spent / budget * 100`. For a zero budget the percentage is
      `Infinity` (over) when something was spent, and `NaN` or `-Infinity`
      (neither comparison holds: good) otherwise. */
  function Classify(spent: int, budget: int): (s: Status)
    ensures budget > 0 ==> (s == Over <==> spent > budget)
    ensures budget > 0 ==> (s == Warning <==> 4 * budget < 5 * spent && spent <= budget)
    ensures budget > 0 ==> (s == Good <==> 5 * spent <= 4 * budget)
    ensures budget == 0 ==> (s == Over <==> spent > 0) && s != Warning
  {
    match Percentage(spent, budget)
    case None => if spent > 0 then Over else Good
    case Some(p) =>
      ScaledComparison(spent, budget, p);
      if p > 100.0 then Over else if p > 80.0 then Warning else Good
  }

  /** For a positive budget the percentage thresholds are thresholds on
      `spent` itself. */
  lemma ScaledComparison(spent: int, budget: int, p: real)
    requires p * (budget as real) == (spent as real) * 100.0
    ensures budget > 0 ==> (p > 100.0 <==> spent > budget)
    ensures budget > 0 ==> (p > 80.0 <==> 5 * spent > 4 * budget)
  {
    if budget <= 0 {
      return;
    }
    var b, x := budget as real, spent as real;
    AboveThreshold(p, b, x, 100.0);
    AboveThreshold(p, b, x, 80.0);
  }

  /** With `p * b == x * 100`, `p` exceeds a threshold `t` exactly when
      `x * 100` exceeds `t * b`. */
  lemma AboveThreshold(p: real, b: real, x: real, t: real)
    requires b > 0.0 && p * b == x * 100.0
    ensures p > t <==> x * 100.0 > t * b
  {
    if p > t {
      ScaleGt(p, t, b);
    } else {
      ScaleLe(p, t, b);
    }
  }

  lemma ScaleGt(x: real, y: real, b: real)
    requires b > 0.0 && x > y
    ensures x * b > y * b
  {
  }

  lemma ScaleLe(x: real, y: real, b: real)
    requires b > 0.0 && x <= y
    ensures x * b <= y * b
  {
  }

  /** The three statuses split the positive budgets by how much of them was
      spent: at most 80%, above 80% up to 100%, above 100%. */
  lemma ClassifyPartition(spent: int, budget: int)
    requires budget > 0
    ensures Classify(spent, budget) == (if spent > budget then Over else if 5 * spent > 4 * budget then Warning else Good)
  {
  }

  /** One element of `categoryBreakdown`. */
  datatype CategoryShare = CategoryShare(category: string, amount: int, percentage: Option<real>)

  function ShareCategory(s: CategoryShare): string
  {
    s.category
  }

  function ShareAmount(s: CategoryShare): int
  {
    s.amount
  }

  /** `Object.entries(categoryTotals).map(([category, amount]) => ({ category,
      amount, percentage }))`. */
  function Shares(bs: seq<Bucket<string>>, total: int): (r: seq<CategoryShare>)
    ensures |r| == |bs|
    ensures forall i :: 0 <= i < |bs| ==> r[i] == CategoryShare(bs[i].key, bs[i].amount, Percentage(bs[i].amount, total))
  {
    seq(|bs|, i requires 0 <= i < |bs| => CategoryShare(bs[i].key, bs[i].amount, Percentage(bs[i].amount, total)))
  }

  /** Mapping entries to shares keeps the sum of the amounts. */
  lemma {:induction false} SharesSum(bs: seq<Bucket<string>>, total: int)
    ensures SumOf(Shares(bs, total), ShareAmount) == SumOf(bs, BucketAmount)
  {
    if bs != [] {
      var init := bs[..|bs| - 1];
      SharesSum(init, total);
      assert Shares(bs, total)[..|bs| - 1] == Shares(init, total);
    }
  }

  /** The comparator `(a, b) => b.amount - a.amount` on shares. */
  predicate ShareDesc(a: CategoryShare, b: CategoryShare)
  {
    a.amount >= b.amount
  }

  lemma ShareDescIsTotalPreorder()
    ensures TotalPreorder(ShareDesc)
  {
  }

  /** `categoryBreakdown` over the in-window expenses `w`: one share per
      category, largest amount first. */
  function Breakdown(w: seq<Child<Transaction>>): (r: seq<CategoryShare>)
    ensures multiset(r) == multiset(Shares(Group(w, TagOf, AmountOf), SumOf(w, AmountOf)))
    ensures forall i, j :: 0 <= i < j < |r| ==> r[i].amount >= r[j].amount
    ensures |r| == |KeysOf(w, TagOf)|
    ensures DistinctBy(r, ShareCategory)
    ensures forall i :: 0 <= i < |r| ==>
              && r[i].amount == SumFor(w, TagOf, AmountOf, r[i].category)
              && r[i].percentage == Percentage(r[i].amount, SumOf(w, AmountOf))
    ensures SumOf(r, ShareAmount) == SumOf(w, AmountOf)
  {
    var g := Group(w, TagOf, AmountOf);
    var shares := Shares(g, SumOf(w, AmountOf));
    ShareDescIsTotalPreorder();
    var r := Sort(shares, ShareDesc);
    BreakdownFacts(w, g, shares, r);
    r
  }

  lemma BreakdownFacts(w: seq<Child<Transaction>>, g: seq<Bucket<string>>, shares: seq<CategoryShare>, r: seq<CategoryShare>)
    requires g == Group(w, TagOf, AmountOf)
    requires shares == Shares(g, SumOf(w, AmountOf))
    requires multiset(r) == multiset(shares)
    ensures |r| == |KeysOf(w, TagOf)|
    ensures DistinctBy(r, ShareCategory)
    ensures forall i :: 0 <= i < |r| ==>
              && r[i].amount == SumFor(w, TagOf, AmountOf, r[i].category)
              && r[i].percentage == Percentage(r[i].amount, SumOf(w, AmountOf))
    ensures SumOf(r, ShareAmount) == SumOf(w, AmountOf)
  {
    PermutedGroupFacts(w, TagOf, AmountOf, g);
    assert DistinctBy(shares, ShareCategory);
    PermutationDistinctBy(shares, r, ShareCategory);
    forall i | 0 <= i < |r|
      ensures r[i].amount == SumFor(w, TagOf, AmountOf, r[i].category)
      ensures r[i].percentage == Percentage(r[i].amount, SumOf(w, AmountOf))
    {
      assert r[i] in multiset(shares);
      var k :| 0 <= k < |shares| && shares[k] == r[i];
    }
    SharesSum(g, SumOf(w, AmountOf));
    SumOfPermutation(r, shares, ShareAmount);
    assert |r| == |multiset(r)| == |multiset(shares)| == |shares|;
  }

  /** Every category of an in-window expense has its share in the breakdown. */
  lemma BreakdownCoversCategories(w: seq<Child<Transaction>>, i: nat)
    requires i < |w|
    ensures exists j :: 0 <= j < |Breakdown(w)| && Breakdown(w)[j].category == w[i].val.tag
  {
    var g := Group(w, TagOf, AmountOf);
    var shares := Shares(g, SumOf(w, AmountOf));
    var k := w[i].val.tag;
    KeysOfMembers(w, TagOf, k);
    assert TagOf(w[i]) == k;
    GroupKeys(w, TagOf, AmountOf);
    KeyAt(g, k);
    var p :| 0 <= p < |g| && g[p].key == k;
    assert shares[p].category == k;
    assert shares[p] in multiset(Breakdown(w));
  }

  /** One element of `budgetStatus`. */
  datatype BudgetLine = BudgetLine(
    category: string,
    budget: int,
    spent: int,
    remaining: int,
    percentage: Option<real>,
    status: Status)

  /** The line of one budget, `categoryTotals` being the in-window totals. */
  function LineFor(b: Budget, categoryTotals: seq<Bucket<string>>): BudgetLine
  {
    var spent := Lookup(categoryTotals, b.category);
    BudgetLine(b.category, b.amount, spent, b.amount - spent, Percentage(spent, b.amount), Classify(spent, b.amount))
  }

  /** `budget.period === period`. */
  function PeriodIs(period: string): Child<Budget> -> bool
  {
    (c: Child<Budget>) => c.val.period == period
  }

  /** The `budgetStatus` array: the line of every stored budget whose period
      is the requested one, in snapshot order. */
  function StatusLines(budgets: seq<Child<Budget>>, period: string, categoryTotals: seq<Bucket<string>>): seq<BudgetLine>
  {
    var f := Filter(budgets, PeriodIs(period));
    seq(|f|, i requires 0 <= i < |f| => LineFor(f[i].val, categoryTotals))
  }

  /** The `forEach` over the budgets snapshot that pushes one line per budget
      of the period. */
  method BudgetStatus(budgets: seq<Child<Budget>>, period: string, categoryTotals: seq<Bucket<string>>)
    returns (lines: seq<BudgetLine>)
    ensures lines == StatusLines(budgets, period, categoryTotals)
  {
    lines := [];
    for i := 0 to |budgets|
      invariant lines == StatusLines(budgets[..i], period, categoryTotals)
    {
      assert budgets[..i + 1][..i] == budgets[..i];
      if budgets[i].val.period == period {
        lines := lines + [LineFor(budgets[i].val, categoryTotals)];
      }
    }
    assert budgets[..|budgets|] == budgets;
  }

  datatype Summary = Summary(
    period: string,
    totalSpent: int,
    expenseCount: nat,
    categoryBreakdown: seq<CategoryShare>,
    budgetStatus: seq<BudgetLine>,
    dateRange: DateRange)

  /** What `/summary` answers for the period token `period`. */
  function SummaryOf(expenses: seq<Child<Transaction>>, budgets: seq<Child<Budget>>, period: string, now: Date): Summary
    requires Valid(now)
  {
    var range := GetDateRange(period, now);
    var w := Filter(expenses, InRangeTest(range));
    Summary(period, SumOf(w, AmountOf), |w|, Breakdown(w),
            StatusLines(budgets, period, Group(w, TagOf, AmountOf)), range)
  }

  /** The totals of a summary: `totalSpent` and `expenseCount` are the sum and
      number of the expenses inside the window, and the breakdown's amounts
      add up to `totalSpent`. */
  lemma SummaryTotals(expenses: seq<Child<Transaction>>, budgets: seq<Child<Budget>>, period: string, now: Date)
    requires Valid(now)
    ensures var s := SummaryOf(expenses, budgets, period, now);
            var w := Filter(expenses, InRangeTest(s.dateRange));
            && s.totalSpent == SumOf(w, AmountOf)
            && s.expenseCount == CountWhere(expenses, InRangeTest(s.dateRange))
            && SumOf(s.categoryBreakdown, ShareAmount) == s.totalSpent
            && (forall i :: 0 <= i < |expenses| ==> (expenses[i] in w <==> InRange(expenses[i].val.date, s.dateRange)))
  {
    var s := SummaryOf(expenses, budgets, period, now);
    FilterLength(expenses, InRangeTest(s.dateRange));
  }

  /** The budget status of a summary has one line per stored budget of the
      requested period (duplicates kept, other periods left out), and each
      line's `spent` is the in-window total of its category (0 when none). */
  lemma SummaryBudgetStatus(expenses: seq<Child<Transaction>>, budgets: seq<Child<Budget>>, period: string, now: Date)
    requires Valid(now)
    ensures var s := SummaryOf(expenses, budgets, period, now);
            var w := Filter(expenses, InRangeTest(s.dateRange));
            var f := Filter(budgets, PeriodIs(period));
            && |s.budgetStatus| == CountWhere(budgets, PeriodIs(period))
            && forall i :: 0 <= i < |s.budgetStatus| ==>
                 var line := s.budgetStatus[i];
                 && f[i] in budgets && f[i].val.period == period
                 && line.category == f[i].val.category && line.budget == f[i].val.amount
                 && line.spent == SumFor(w, TagOf, AmountOf, line.category)
                 && line.remaining == line.budget - line.spent
                 && line.percentage == Percentage(line.spent, line.budget)
                 && line.status == Classify(line.spent, line.budget)
  {
    var s := SummaryOf(expenses, budgets, period, now);
    var w := Filter(expenses, InRangeTest(s.dateRange));
    FilterLength(budgets, PeriodIs(period));
    forall k | true
      ensures Lookup(Group(w, TagOf, AmountOf), k) == SumFor(w, TagOf, AmountOf, k)
    {
      GroupLookup(w, TagOf, AmountOf, k);
    }
  }

  /** `GET /summary`. */
  method GetSummary(expenses: seq<Child<Transaction>>, budgets: seq<Child<Budget>>, userId: Option<string>,
                    period: Option<string>, now: Date) returns (r: Result<Summary>)
    requires Valid(now)
    ensures r.Err? <==> !Present(userId)
    ensures r.Err? ==> r.error == BadRequest(UserIdRequired)
    ensures r.Ok? ==> r.value == SummaryOf(expenses, budgets, PeriodOrDefault(period), now)
    ensures r.Ok? && period.None? ==>
              r.value.period == "month" && r.value.dateRange == DateRange(Date(now.year, now.month, 1), now)
  {
    if !Present(userId) {
      return Err(BadRequest(UserIdRequired));
    }
    var tok := PeriodOrDefault(period);
    var range := GetDateRange(tok, now);
    var inWindow := Collect(expenses, InRangeTest(range));
    var totalSpent := SumOf(inWindow, AmountOf);
    var categoryTotals := Accumulate(inWindow, TagOf, AmountOf);
    ShareDescIsTotalPreorder();
    var breakdown := Sort(Shares(categoryTotals, totalSpent), ShareDesc);
    var status := BudgetStatus(budgets, tok, categoryTotals);
    return Ok(Summary(tok, totalSpent, |inWindow|, breakdown, status, range));
  }

  /** `parseInt(limit)` with `limit = 5` when the parameter is absent. */
  function LimitOrDefault(limit: Option<int>): (n: int)
    ensures limit.None? ==> n == DefaultLimit
    ensures limit.Some? ==> n == limit.value
  {
    if limit.Some? then limit.value else DefaultLimit
  }

  /** `GET /top-categories`: the categories with the largest in-window sums;
      `TopN` states what that list is. */
  method TopCategories(expenses: seq<Child<Transaction>>, userId: Option<string>, period: Option<string>,
                       limit: Option<int>, now: Date) returns (r: Result<seq<Bucket<string>>>)
    requires Valid(now)
    ensures r.Err? <==> !Present(userId)
    ensures r.Err? ==> r.error == BadRequest(UserIdRequired)
    ensures r.Ok? ==> r.value == TopN(Filter(expenses, InRangeTest(GetDateRange(PeriodOrDefault(period), now))),
                                      TagOf, AmountOf, LimitOrDefault(limit))
    ensures r.Ok? && LimitOrDefault(limit) >= 0 ==> |r.value| <= LimitOrDefault(limit)
    ensures r.Ok? && limit.None? ==>
              var w := Filter(expenses, InRangeTest(GetDateRange(PeriodOrDefault(period), now)));
              var m := |KeysOf(w, TagOf)|;
              |r.value| == (if m < 5 then m else 5)
  {
    if !Present(userId) {
      return Err(BadRequest(UserIdRequired));
    }
    var range := GetDateRange(PeriodOrDefault(period), now);
    var inWindow := Collect(expenses, InRangeTest(range));
    var categoryTotals := Accumulate(inWindow, TagOf, AmountOf);
    var top := Slice(Ranked(categoryTotals), LimitOrDefault(limit));
    assert top == TopN(inWindow, TagOf, AmountOf, LimitOrDefault(limit));
    if limit.None? {
      DefaultTopLength(inWindow, top);
    }
    return Ok(top);
  }

  /** With the default limit the list holds five categories, or every
      category when there are fewer. */
  lemma DefaultTopLength(w: seq<Child<Transaction>>, top: seq<Bucket<string>>)
    requires top == TopN(w, TagOf, AmountOf, DefaultLimit)
    ensures |top| == (if |KeysOf(w, TagOf)| < 5 then |KeysOf(w, TagOf)| else 5)
  {
  }

  /** The comparator `(a, b) => new Date(a.date) - new Date(b.date)`. */
  predicate DayAsc(a: Bucket<Date>, b: Bucket<Date>)
  {
    Le(a.key, b.key)
  }

  lemma DayAscIsTotalPreorder()
    ensures TotalPreorder(DayAsc)
  {
    LeIsTotalOrder();
  }

  /** The trend of the in-window expenses `w`: one entry per day that has an
      expense, holding that day's sum, days strictly increasing. */
  function Trend(w: seq<Child<Transaction>>): (r: seq<Bucket<Date>>)
    ensures multiset(r) == multiset(Group(w, DateOf, AmountOf))
    ensures forall i, j :: 0 <= i < j < |r| ==> Lt(r[i].key, r[j].key)
    ensures forall i :: 0 <= i < |r| ==> r[i].amount == SumFor(w, DateOf, AmountOf, r[i].key)
    ensures BucketKeys(r) == KeysOf(w, DateOf)
    ensures SumOf(r, BucketAmount) == SumOf(w, AmountOf)
  {
    DayAscIsTotalPreorder();
    var r := Sort(Group(w, DateOf, AmountOf), DayAsc);
    PermutedGroupFacts(w, DateOf, AmountOf, r);
    r
  }

  /** `GET /trends`. */
  method Trends(expenses: seq<Child<Transaction>>, userId: Option<string>, period: Option<string>, now: Date)
    returns (r: Result<seq<Bucket<Date>>>)
    requires Valid(now)
    ensures r.Err? <==> !Present(userId)
    ensures r.Err? ==> r.error == BadRequest(UserIdRequired)
    ensures r.Ok? ==> r.value == Trend(Filter(expenses, InRangeTest(GetDateRange(PeriodOrDefault(period), now))))
  {
    if !Present(userId) {
      return Err(BadRequest(UserIdRequired));
    }
    var range := GetDateRange(PeriodOrDefault(period), now);
    var inWindow := Collect(expenses, InRangeTest(range));
    var dailyTotals := Accumulate(inWindow, DateOf, AmountOf);
    DayAscIsTotalPreorder();
    return Ok(Sort(dailyTotals, DayAsc));
  }

  function MonthKeyOf(c: Child<Transaction>): string
  {
    MonthKey(c.val.date)
  }

  /** The comparator `(a, b) => a.month.localeCompare(b.month)`. */
  predicate MonthAsc(a: Bucket<string>, b: Bucket<string>)
  {
    LexLe(a.key, b.key)
  }

  lemma MonthAscIsTotalPreorder()
    ensures TotalPreorder(MonthAsc)
  {
    forall a: Bucket<string>, b: Bucket<string>
      ensures MonthAsc(a, b) || MonthAsc(b, a)
    {
      LexLeTotal(a.key, b.key);
    }
    forall a: Bucket<string>, b: Bucket<string>, c: Bucket<string> | MonthAsc(a, b) && MonthAsc(b, c)
      ensures MonthAsc(a, c)
    {
      LexLeTransitive(a.key, b.key, c.key);
    }
  }

  datatype Comparison = Comparison(
    category: string,
    comparison: seq<Bucket<string>>,
    totalExpenses: nat,
    totalAmount: int)

  /** What `/category-comparison` answers for `category`: the expenses filed
      under exactly that category, totalled per `YYYY-MM` month. */
  function ComparisonOf(expenses: seq<Child<Transaction>>, category: string): (c: Comparison)
    ensures c.category == category
    ensures var m := Filter(expenses, TagIs(category));
            && c.totalExpenses == |m| && c.totalAmount == SumOf(m, AmountOf)
            && BucketKeys(c.comparison) == KeysOf(m, MonthKeyOf)
            && forall i :: 0 <= i < |c.comparison| ==> c.comparison[i].amount == SumFor(m, MonthKeyOf, AmountOf, c.comparison[i].key)
    ensures c.totalAmount == SumOf(c.comparison, BucketAmount)
    ensures forall i, j :: 0 <= i < j < |c.comparison| ==>
              LexLe(c.comparison[i].key, c.comparison[j].key) && c.comparison[i].key != c.comparison[j].key
  {
    var m := Filter(expenses, TagIs(category));
    MonthAscIsTotalPreorder();
    var months := Sort(Group(m, MonthKeyOf, AmountOf), MonthAsc);
    PermutedGroupFacts(m, MonthKeyOf, AmountOf, months);
    Comparison(category, months, |m|, SumOf(m, AmountOf))
  }

  /** Every month of a comparison is the `YYYY-MM` key of an expense filed
      under the category. */
  lemma ComparisonMonths(expenses: seq<Child<Transaction>>, category: string, i: nat)
    requires i < |ComparisonOf(expenses, category).comparison|
    ensures exists j :: 0 <= j < |expenses| && expenses[j].val.tag == category &&
                        ComparisonOf(expenses, category).comparison[i].key == MonthKey(expenses[j].val.date)
  {
    var c := ComparisonOf(expenses, category);
    var m := Filter(expenses, TagIs(category));
    var k := c.comparison[i].key;
    KeyAt(c.comparison, k);
    assert k in KeysOf(m, MonthKeyOf);
    KeysOfMembers(m, MonthKeyOf, k);
    var j :| 0 <= j < |m| && MonthKeyOf(m[j]) == k;
    assert TagIs(category)(m[j]);
    var e :| 0 <= e < |expenses| && expenses[e] == m[j];
  }

  /** `GET /category-comparison`: both `userId` and `category` are required
      before anything is read. */
  method CategoryComparison(expenses: seq<Child<Transaction>>, userId: Option<string>, category: Option<string>)
    returns (r: Result<Comparison>)
    ensures r.Err? <==> !Present(userId) || !Present(category)
    ensures r.Err? ==> r.error == BadRequest(CategoryRequired)
    ensures r.Ok? ==> r.value == ComparisonOf(expenses, category.value)
  {
    if !Present(userId) || !Present(category) {
      return Err(BadRequest(CategoryRequired));
    }
    var matched := Collect(expenses, TagIs(category.value));
    var monthlyTotals := Accumulate(matched, MonthKeyOf, AmountOf);
    MonthAscIsTotalPreorder();
    var comparison := Sort(monthlyTotals, MonthAsc);
    return Ok(Comparison(category.value, comparison, |matched|, SumOf(matched, AmountOf)));
  }
}
