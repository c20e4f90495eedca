# FinTrack server logic in Dafny

FinTrack is a personal-finance tracker. Users record expenses and savings,
set per-category budgets, and ask for reports over a period (`week`, `month`
or `year`). Its Express routers read a user's records from a Firebase
Realtime Database node, then filter, group, sum, rank and validate them and
answer in JSON.

This project models those routers with the storage and HTTP layers stripped
away:

- **Storage.** A snapshot of the node `expenses/<userId>`, `savings/<userId>`
  or `budgets/<userId>` is a sequence of `Child(key, val)` in snapshot order.
  A write returns the new sequence.
- **Answers.** A handler answers `Ok(...)` or `Err(BadRequest(msg))` /
  `Err(NotFound(msg))` (HTTP 400 / 404), with the router's own messages.
- **Parameters.** The current date, the current timestamp string and the
  key that `push` generates are parameters.

Modules:

- `Common`: options, results, the 400/404 errors, truthiness of request
  parameters, snapshot children.
- `Seqs`: `filter`, `reduce` to a sum, `slice(0, n)` and the
  `forEach`/`push` loop. Also the lemmas relating them: subsequence, filter
  composition, sums over permutations.
- `Sorting`: `Array.prototype.sort` with a comparator, as a stable insertion
  sort proved to return a sorted permutation.
- `Grouping`: the `totals[k] = (totals[k] || 0) + amount` dictionaries as
  association lists in first-insertion order (the key order of a JavaScript
  object). The accumulation loop, the ranking `sort((a, b) => b.amount -
  a.amount)` and the top-N slice.
- `Dates`, `Periods`: civil dates, day arithmetic and the period resolver
  `getDateRange`.
- `Text`: `toLowerCase`, `includes`, `localeCompare` and the `YYYY-MM` month
  key.
- `Store`: Firebase reads and writes (`once`, `update`, `remove`, `push`) on
  a snapshot.
- `Transactions`: the expense/saving record. An expense's category and a
  saving's goal are both its `tag`. This module holds the date-bound filter,
  the newest-first order, and the create and partial-update logic both
  routers share.
- `Expenses`, `Savings`, `Budgets`, `Reports`: the four routers.

Two edge cases the code handles without a guard:

- **Zero budget amount.** `spent / budget.amount` divides by zero, so a
  zero budget with something spent is `over` and one with nothing spent is
  `good`.
- **Non-numeric `limit`.** `slice(0, NaN)` is empty; see Left out.

## Model

| member | source | states |
|---|---|---|
| Store.Find | routes/expenses.js:81-90 | a value is found exactly when something is stored under the key, and it is the child stored there |
| Store.FindAt | routes/expenses.js:82-83 | with unique keys, reading a key gives the value stored at that key's position |
| Store.ReadAll | routes/expenses.js:26-33 | the `forEach`/`push` loop copies the snapshot's children in order |
| Store.Replace | routes/expenses.js:190 | `update` on a child keeps the set of keys and their uniqueness |
| Store.FindAfterReplace | routes/expenses.js:190 | after `update` under `key`, reading `key` gives the new value if `key` was stored (and nothing otherwise), and every other key reads as before |
| Store.Remove | routes/expenses.js:236 | `remove` drops exactly the child under the key: its key is gone, every other child stays, order kept |
| Store.Push | routes/expenses.js:137-139 | `push` appends the new child after the existing ones; a fresh key keeps keys unique |
| Seqs.Filter | routes/savings.js:37-42 | `filter` keeps exactly the elements that pass the test, as a subsequence of its input |
| Seqs.Collect | routes/reports.js:53-65 | the `forEach` loop pushing the passing records builds the same list as `filter` |
| Seqs.FilterLength | routes/reports.js:69 | the number of records kept is the number of records passing the test |
| Seqs.FilterKeepsAll | routes/savings.js:36-43 | a filter every record passes returns its input |
| Seqs.FilterFilter | routes/savings.js:36-50 | the date filter followed by the goal filter keeps what passes both |
| Seqs.SumOfPermutation | routes/savings.js:53-56 | the `reduce` total does not depend on the order sorting put the records in |
| Seqs.SumOfFilterBound | routes/savings.js:309-310 | with non-negative amounts a filtered total is at most the total of all records |
| Seqs.SliceSemantics | routes/reports.js:167 | `slice(0, n)` keeps the first `n` elements for `0 <= n <= len` and all of them for larger `n`; a negative `n` drops the last `-n` elements, so the slice followed by those elements is the list, and keeps nothing when `-n >= len` |
| Seqs.PermutationDistinctBy | routes/reports.js:77-81 | sorting entries with distinct keys leaves the keys distinct |
| Sorting.Sort | routes/expenses.js:51 | `sort` with a comparator that is a total preorder returns a permutation of its input, sorted by that comparator |
| Grouping.Add | routes/reports.js:74 | adding under a key adds the key to the dictionary's keys and appends an entry only for a new key; keys stay distinct |
| Grouping.AddLookup | routes/reports.js:74 | adding under `k` raises the entry for `k` by the amount and leaves every other entry's value unchanged |
| Grouping.AddSum | routes/reports.js:74 | adding an amount raises the sum of all entries by that amount |
| Grouping.Group | routes/reports.js:72-75 | the totals dictionary has distinct keys and no more entries than records |
| Grouping.Accumulate | routes/reports.js:72-75 | the accumulation loop builds exactly the dictionary `Group` describes |
| Grouping.GroupLookup | routes/reports.js:89 | `totals[k] \|\| 0` is the sum of the amounts of the records filed under `k`, and 0 for a key no record carries |
| Grouping.GroupKeys | routes/reports.js:72-77 | the dictionary has an entry for exactly the keys the records carry |
| Grouping.GroupSum | routes/reports.js:68-81 | the entries' amounts add up to the total over all records |
| Grouping.GroupEntries | routes/reports.js:72-77 | every entry holds the sum of the records filed under its key |
| Grouping.GroupCount | routes/reports.js:77 | there are as many entries as distinct keys |
| Grouping.KeysOfMembers | routes/reports.js:72-75 | a key is among the records' keys exactly when some record carries it |
| Grouping.Ranked | routes/reports.js:164-166 | the ranking is a permutation of the entries, in non-increasing order of amount |
| Grouping.PermutedGroupFacts | routes/reports.js:77-81 | any reordering of the dictionary keeps distinct keys, one entry per key of the records, each entry equal to its key's sum, and the overall total |
| Grouping.TopN | routes/reports.js:164-167 | the top-N list is a prefix of the ranking, of length `slice(0, n)` of the number of distinct keys, non-increasing, distinct, each entry its key's sum; no key left out sums to more than a key listed |
| Dates.PrevDay | routes/reports.js:15 | the day before a valid date is a valid earlier date |
| Dates.NextDay | routes/reports.js:15 | the day after a valid date is a valid later date |
| Dates.PrevNextInverse | routes/reports.js:15 | stepping a day back and a day forward, in either order, returns to the start |
| Dates.PrevDayIsPredecessor | routes/reports.js:15 | no valid date lies strictly between a date and the day before it |
| Dates.MinusDays | routes/reports.js:15 | going `n` days back gives a valid date, strictly earlier when `n > 0` |
| Dates.PlusMinusDays | routes/reports.js:15 | going `n` days back and then `n` days forward returns to the start |
| Dates.LeIsTotalOrder | routes/expenses.js:51 | the date order the comparators use is total, antisymmetric and transitive |
| Periods.GetDateRange | routes/reports.js:9-28 | the window ends at `now` and starts at a valid date on or before it |
| Periods.WeekRange | routes/reports.js:14-16 | a `week` window starts exactly seven days before `now` |
| Periods.MonthRange | routes/reports.js:17-24 | a `month` window, and that of any unrecognised token, holds exactly the dates of the current month up to `now` |
| Periods.YearRange | routes/reports.js:20-22 | a `year` window holds exactly the dates of the current year up to `now` |
| Text.ToLower | routes/savings.js:48 | lower-casing keeps the length and lower-cases each character |
| Text.ToLowerIdempotent | routes/savings.js:48 | lower-casing twice is lower-casing once |
| Text.LexLeTotal | routes/reports.js:277 | any two month keys are ordered one way or the other |
| Text.LexLeAntisymmetric | routes/reports.js:277 | keys ordered both ways are equal |
| Text.LexLeTransitive | routes/reports.js:277 | the key order is transitive |
| Text.MonthKeyFormat | routes/reports.js:271 | for a four-digit year the key is the year's four digits, a dash and the month as two zero-padded digits |
| Text.MonthKeyInjective | routes/reports.js:271 | two such dates share a key only when they are in the same month of the same year |
| Transactions.BoundsAreClosedInterval | routes/expenses.js:39-40 | with both bounds given, a record is kept exactly when `start <= date <= end` |
| Transactions.FilterByBounds | routes/expenses.js:36-43 | the bound filter keeps exactly the records within the given bounds, as a subsequence, and is the identity when neither bound is given |
| Transactions.FilterByBoundsIsFilter | routes/expenses.js:36-43 | skipping the filter when no bound is given gives the same list as filtering |
| Transactions.NewerFirstIsTotalPreorder | routes/expenses.js:51 | the newest-first comparator is a total preorder |
| Transactions.NewestFirst | routes/expenses.js:51 | the sorted list is a permutation of its input with dates non-increasing |
| Transactions.MergeIdempotent | routes/expenses.js:190 | writing the same `updates` twice stores what writing them once does |
| Transactions.PatchedUnique | routes/expenses.js:183-190 | a request body and timestamp determine the updated record |
| Transactions.EmptyPatchTouchesOnlyUpdatedAt | routes/expenses.js:183-188 | a body without fields changes nothing but `updatedAt` |
| Transactions.PatchIdempotent | routes/expenses.js:183-190 | applying the same update again leaves the record as it is |
| Transactions.ApplyPatch | routes/expenses.js:183-190 | building `updates` field by field and writing it sets each supplied field, keeps each omitted one and `createdAt`, and sets `updatedAt` |
| Transactions.CreateStored | routes/expenses.js:115-139 | missing `userId`/`amount`/tag/`date` (a zero amount counts as missing) answers 400 with the router's message, a negative amount answers 400 "Amount must be greater than 0"; otherwise a record with a positive amount and `description \|\| ''` is appended under the new key |
| Transactions.UpdateStored | routes/expenses.js:165-190 | 400 without `userId`, 404 for an absent id (store untouched); otherwise the stored record is patched and replaced in place: reading `id` afterwards gives the patched record, every other key reads as before, and the keys are unchanged |
| Expenses.Select | routes/expenses.js:36-48 | the two optional filters applied in turn equal one filter by the combined test |
| Expenses.List | routes/expenses.js:9-57 | 400 without `userId`; otherwise the data is a permutation of the stored expenses within the bounds and of the exact category, a stored expense is listed exactly when it passes, dates are non-increasing, and `count` is the length |
| Expenses.Get | routes/expenses.js:69-98 | 400 without `userId`, 404 "Expense not found" for an absent id, else the stored child |
| Expenses.Create | routes/expenses.js:110-148 | the create guards in order, and a stored expense holding the supplied positive amount, category and date, `description \|\| ''`, `createdAt` set to the timestamp and no `updatedAt`, appended under the new key |
| Expenses.Update | routes/expenses.js:160-201 | the two guards, then only supplied fields change and `updatedAt` is set; reading `id` afterwards gives that record and every other key reads as before |
| Expenses.Delete | routes/expenses.js:213-241 | the two guards, then exactly the child under the id is removed |
| Savings.GoalMatchIgnoresCase | routes/savings.js:48 | the goal search gives the same answer on lower-cased goal and query |
| Savings.GoalMatchesSelf | routes/savings.js:48 | searching for a saving's own goal finds it |
| Savings.Select | routes/savings.js:36-50 | the date filter and the goal filter applied in turn equal one filter by the combined test |
| Savings.List | routes/savings.js:9-63 | 400 without `userId`; otherwise the data is a permutation of the stored savings within the bounds whose goal contains the query (ignoring case), a stored saving is listed exactly when it passes, dates are non-increasing, `count` is the length and `totalSaved` the sum of the listed amounts |
| Savings.Get | routes/savings.js:75-104 | 400 without `userId`, 404 "Saving not found" for an absent id, else the stored child |
| Savings.Create | routes/savings.js:116-154 | the create guards in order, and a stored saving holding the supplied positive amount, goal and date, `description \|\| ''`, `createdAt` set to the timestamp and no `updatedAt`, appended under the new key |
| Savings.Update | routes/savings.js:166-207 | the two guards, then only supplied fields change and `updatedAt` is set; reading `id` afterwards gives that record and every other key reads as before |
| Savings.Delete | routes/savings.js:219-247 | the two guards, then exactly the child under the id is removed |
| Savings.Stats | routes/savings.js:259-333 | `totalSaved`/`savingsCount` cover all savings and `periodTotal`/`periodCount` those in the period window; `periodCount <= savingsCount`; `periodTotal <= totalSaved` when no amount is negative; `topGoals` is the top 5 of the per-goal totals over all savings; without a `period` the answer's period is `month` and `periodTotal` is the sum of the savings from the first of the current month to `now` |
| Budgets.List | routes/budgets.js:9-39 | 400 without `userId`; otherwise every stored budget in order, and `count` is their number |
| Budgets.Get | routes/budgets.js:51-80 | 400 without `userId`, 404 "Budget not found" for an absent id, else the stored child |
| Budgets.Create | routes/budgets.js:92-137 | missing fields, then `amount <= 0`, then a period outside `week`/`month`/`year` answer 400 in that order; an accepted budget has a positive amount and a valid period |
| Budgets.PatchedKeepsValidPeriod | routes/budgets.js:175-184 | an accepted update keeps a valid stored period valid |
| Budgets.PatchedStoresAnyAmount | routes/budgets.js:174 | an update stores any supplied amount, zero and negative included |
| Budgets.Update | routes/budgets.js:149-198 | 400 without `userId`, 404 for an absent id, 400 for an invalid supplied period with nothing written; otherwise only supplied fields change and `updatedAt` is set; reading `id` afterwards gives that budget and every other key reads as before |
| Budgets.Delete | routes/budgets.js:210-247 | the two guards, then exactly the child under the id is removed: its key is gone and every other child stays, in order |
| Reports.Percentage | routes/reports.js:90 | the percentage times the whole is the part times 100; none when the whole is 0 |
| Reports.Classify | routes/reports.js:98 | for a positive budget: `over` iff spent > budget, `warning` iff 80% < spent <= 100%, `good` iff spent <= 80%; a zero budget is `over` iff something was spent |
| Reports.ScaledComparison | routes/reports.js:98 | for a positive budget the percentage thresholds 100 and 80 are the thresholds `spent > budget` and `5 * spent > 4 * budget` |
| Reports.ClassifyPartition | routes/reports.js:98 | the three statuses split the positive budgets by the share spent |
| Reports.SharesSum | routes/reports.js:77-80 | mapping entries to `{category, amount, percentage}` keeps the sum of the amounts |
| Reports.ShareDescIsTotalPreorder | routes/reports.js:81 | the breakdown comparator is a total preorder |
| Reports.Breakdown | routes/reports.js:72-81 | the breakdown is a permutation of the per-category shares: one per distinct in-window category, non-increasing by amount, each amount that category's sum, each percentage `amount / totalSpent * 100`, amounts adding up to `totalSpent` |
| Reports.BreakdownFacts | routes/reports.js:77-81 | any reordering of the shares keeps one share per category, the per-category sums, the percentages and the total |
| Reports.BreakdownCoversCategories | routes/reports.js:72-81 | the category of every in-window expense has its share |
| Reports.BudgetStatus | routes/reports.js:84-102 | the loop pushes one line per budget of the requested period, in snapshot order |
| Reports.SummaryTotals | routes/reports.js:53-69 | `totalSpent` and `expenseCount` are the sum and number of the expenses inside the window, a stored expense counts exactly when its date is in the window, and the breakdown adds up to `totalSpent` |
| Reports.SummaryBudgetStatus | routes/reports.js:85-101 | one line per stored budget of the requested period, duplicates kept; `spent` is the in-window sum of its category (0 if none); `remaining = amount - spent`; `percentage` is `spent / amount * 100` (none for a zero amount); the status is `Classify` of the two |
| Reports.GetSummary | routes/reports.js:31-117 | 400 without `userId`; otherwise the summary for `period` and `now`; without a `period` the answer's period is `month` and its window runs from the first of the current month to `now` |
| Reports.DefaultTopLength | routes/reports.js:131-167 | with the default limit of 5 the list has five categories, or all of them when fewer were spent on |
| Reports.TopCategories | routes/reports.js:129-172 | 400 without `userId`; otherwise the top-`limit` categories of the in-window expenses; at most `limit` of them for `limit >= 0`; without a `limit`, five categories or all of them when fewer |
| Reports.DayAscIsTotalPreorder | routes/reports.js:222 | the trend comparator is a total preorder |
| Reports.Trend | routes/reports.js:212-222 | one entry per day that has an in-window expense, holding that day's sum, days strictly increasing, amounts adding up to the in-window total |
| Reports.Trends | routes/reports.js:184-227 | 400 without `userId`; otherwise the trend of the in-window expenses |
| Reports.MonthAscIsTotalPreorder | routes/reports.js:277 | the month comparator is a total preorder |
| Reports.ComparisonOf | routes/reports.js:254-285 | `totalExpenses`/`totalAmount` are the number and sum of the expenses of exactly that category; one entry per month key, each that month's sum, keys strictly increasing; `totalAmount` is the sum of the entries |
| Reports.ComparisonMonths | routes/reports.js:269-272 | every month listed is the `YYYY-MM` key of an expense of that category |
| Reports.CategoryComparison | routes/reports.js:239-287 | a missing `userId` or `category` answers 400 "userId and category are required" before anything is read; otherwise the comparison for that category |

Helpers without a row of their own are stated through the rows that use
them: `Grouping.Lookup` (`GroupLookup`), `Seqs.SumOf` (`SumOfPermutation`,
`GroupSum`), `Seqs.Slice` and `Seqs.SliceLength` (`SliceSemantics`, `TopN`),
`Transactions.Merge` (`MergeIdempotent`, `ApplyPatch`), `Budgets.MergeBudget`
(`Budgets.Update`), `Periods.PeriodOrDefault` and `Reports.LimitOrDefault`
(the default clauses of the handlers), `Store.Get` and `Store.Delete`
(the `Get` and `Delete` rows of the routers), `Reports.Shares` (`SharesSum`,
`Breakdown`), and `Reports.LineFor`,
`Reports.StatusLines` and `Reports.SummaryOf` (`SummaryBudgetStatus`,
`SummaryTotals`, `GetSummary`).

## Left out

- Firebase and Express are not modelled. That covers `admin.database()`,
  `once`/`push`/`update`/`remove` as asynchronous calls, `Promise.all`, and
  the response objects. The 500 answers for thrown errors are not modelled.
  A snapshot is a parameter and a write returns the new node.
- `server.js` and the browser code under `public/js` (authentication
  forwarding, rendering, client-side filters and thresholds) are not part
  of this model.
- The clock and key generation are parameters: `now`, the
  `toISOString()` timestamp and the key `push` generates.
- Dates have day granularity. JavaScript compares instants. A `week` window
  starts at `now - 7 * 24h`, so a record dated exactly seven days back (at
  midnight) usually falls outside it; the model includes that day. The end
  of every window is `now`, which the model takes as the whole current day.
- Time zones are not modelled: local-time month starts, date-only strings
  parsed as UTC, and `getMonth()` in local time for the month key.
- Malformed date strings are not modelled. A trend's day key, the text of
  the stored date before `T`, is the record's calendar date.
- Amounts are whole integers (cents). `parseFloat`, floating-point rounding
  of sums and `toFixed(1)` strings are not modelled; percentages are exact
  reals.
- Truthiness of request fields is modelled for absent values, empty strings
  and a zero amount. `null`, `NaN` and numeric strings compared with
  `<= 0` are not modelled.
- Reports.TopCategories: `limit` is taken as an already parsed integer. The
  `NaN` that `parseInt` gives for non-numeric input, which makes
  `slice(0, NaN)` empty, is not modelled.
- `toLowerCase` is modelled on ASCII letters only. `localeCompare` is
  modelled as code-point order; on `YYYY-MM` keys of four-digit years the
  two agree.
- A JavaScript object lists integer-like keys (a category named `"42"`)
  before other keys. The model keeps every key in first-insertion order,
  which can only change the order of equal amounts after sorting.
- Category and goal names that are properties of `Object.prototype` are
  not modelled. The totals dictionaries are plain `{}` objects. For keys
  such as `toString` or `constructor`, `totals[k] || 0` reads an inherited
  function, so the total becomes a string and `remaining` becomes `NaN`.
  An assignment to `__proto__` is ignored. The model treats every name as
  an ordinary key that starts at 0.
- Sorting.Sort: stability (equal elements keep their input order) holds of
  the insertion sort but is not stated as a contract.
- Reports.Classify: for a negative budget amount the status follows the
  JavaScript formula but no contract states it.
- The response's `id` is the child's key, and `...val` spreads the stored
  fields. Extra fields a client might send are not modelled.
