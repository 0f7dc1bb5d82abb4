# Budget journal: expense aggregation

This project models the expense aggregation of a small budgeting application.
The expense aggregation is computed twice:

- The single-page frontend (`frontend/src/App.tsx`) folds the expense list it
  fetched into a totals record with one entry per category. It turns that
  record into a pie-chart series and computes the grand total. The chart is
  shown only when the list is non-empty.
- The backend summary endpoint (`BudgetController.getSummary`) computes the
  same per-category sums into an enum map, plus a grand total, over every
  stored expense.

Amounts are exact `real` numbers. The eight categories form the datatype
`Categories.Category`. Backend entity fields are `Option`s, because every Java
field may be null.

Files:

- `sums.dfy` (module `Sums`): the left-to-right sum shared by both sides. It comes with lemmas for concatenation, reordering, pointwise agreement, zero weights and non-positive weights.
- `categories.dfy` (module `Categories`): the category datatype, the record's key order and sums of a per-category map.
- `frontend.dfy` (module `Frontend`): `categoryTotals`, `pieChartData`, `totalExpenses` and the chart-visibility condition.
- `backend.dfy` (module `Backend`): `getSummary`, its two stream sums and the null-amount failure.
- `agreement.dfy` (module `Agreement`): the frontend and the backend agree.

The chart series follows the record's key order, not the order in which
expenses arrive. FOOD 50, FOOD 25, HOUSING 100 give HOUSING (100) then
FOOD (75) (`Frontend.Scenario`).

## Model

| member | source | states |
|---|---|---|
| `Categories.Rank` | frontend/src/App.tsx:124-133 | every category has a position in the record's key order HOUSING, FOOD, TRANSPORT, HEALTH, PERSONAL, LOAN, ENTERTAINMENT, OTHER |
| `Categories.KeyOrderRanks` | frontend/src/App.tsx:124-133 | the key order lists each of the eight categories exactly once |
| `Frontend.TotalsOf` | frontend/src/App.tsx:124-133 | the totals record has an entry for every category |
| `Frontend.CategoryTotals` | frontend/src/App.tsx:123-140 | the loop starts from eight zero entries and adds each amount to its own category; the result has every key, and entry `c` is the sum of the amounts of the expenses of category `c` |
| `Frontend.TotalExpenses` | frontend/src/App.tsx:175-177 | the grand total, reduced left to right from 0, equals the sum of the eight entries of the totals record |
| `Frontend.EmptyList` | frontend/src/App.tsx:124-177 | for an empty list every entry is 0, the grand total is 0 and the chart is not shown |
| `Frontend.AppendExpense` | frontend/src/App.tsx:135-137 | appending expense (C, A) raises entry C by A, leaves the other seven entries unchanged, and raises the grand total by A |
| `Frontend.AppendExpenseRecord` | frontend/src/App.tsx:135-137 | the same step written as one update of the record |
| `Frontend.CategorySumAppend` | frontend/src/App.tsx:135-137 | appending an expense raises a category's sum by its amount when the category is its own, and by nothing otherwise |
| `Frontend.TotalsAddUpToTotal` | frontend/src/App.tsx:135-176 | the eight entries add up to the amounts reduced from left to right (`totalExpenses`), for every list |
| `Frontend.TotalsAddUpStep` | frontend/src/App.tsx:135-137 | one appended expense raises the sum of the eight entries by its amount |
| `Frontend.ReorderInvariant` | frontend/src/App.tsx:135-176 | reordering the expense list leaves every entry and the grand total unchanged |
| `Frontend.NoExpenseNoSlice` | frontend/src/App.tsx:135-161 | a category with no expense keeps entry 0 in the record and gets no slice in the chart |
| `Frontend.PositiveKeys` | frontend/src/App.tsx:156-161 | the filter keeps at most as many keys as it visits |
| `Frontend.PositiveKeysMembers` | frontend/src/App.tsx:156-161 | a key is kept iff it was visited and its total is strictly positive |
| `Frontend.PositiveKeysOrdered` | frontend/src/App.tsx:156-161 | kept keys stay in the order they were visited |
| `Frontend.PositiveKeysPositive` | frontend/src/App.tsx:157-159 | every kept key has a strictly positive total |
| `Frontend.PositiveKeysAll` | frontend/src/App.tsx:156-161 | when every total is positive, every visited key is kept |
| `Frontend.PositiveKeysNone` | frontend/src/App.tsx:156-161 | when no total is positive, no key is kept |
| `Frontend.ChartOf` | frontend/src/App.tsx:156-168 | the series has one dataset, as many values and colours as labels, no more labels than palette colours, and every slice value strictly positive |
| `Frontend.PieChartData` | frontend/src/App.tsx:142-173 | the loop over the record's entries builds exactly the series `ChartOf` describes: positive-total labels, their totals, the first `labels.length` palette colours and border width 1 |
| `Frontend.ChartLabelsArePositive` | frontend/src/App.tsx:156-161 | a category is a label iff its total is strictly positive (zero and negative totals are excluded), and the labels are in key order |
| `Frontend.ChartSeriesShape` | frontend/src/App.tsx:156-168 | at most eight labels, one dataset, data as long as labels, `data[i]` is the total of `labels[i]`, colours are the palette prefix of that length |
| `Frontend.SharedColour` | frontend/src/App.tsx:145-168 | when every total is positive all eight categories are labels, and slots 0 and 6 (HOUSING and ENTERTAINMENT) get the same colour |
| `Frontend.ChartShown` | frontend/src/App.tsx:326-332 | the chart is hidden only for the empty list, and a hidden chart would have had no slices |
| `Frontend.ShownWithEmptySeries` | frontend/src/App.tsx:326-332 | a non-empty list shows the chart; if none of its category totals is positive (FOOD 5 and FOOD -5, say), the series has no labels |
| `Frontend.NonPositiveAmountsEmptySeries` | frontend/src/App.tsx:326-332 | a non-empty list whose amounts are all at most 0 shows a chart with no labels |
| `Frontend.ScenarioTotals` | frontend/src/App.tsx:123-177 | FOOD 50 + FOOD 25 + HOUSING 100: FOOD totals 75, HOUSING 100, the rest 0, the grand total 175 |
| `Frontend.ScenarioChart` | frontend/src/App.tsx:156-161 | totals HOUSING 100, FOOD 75, the rest 0 give labels [HOUSING, FOOD] and data [100, 75] |
| `Frontend.Scenario` | frontend/src/App.tsx:123-173 | the scenario's record and series together |
| `Backend.SumOfAmounts` | backend/src/main/java/com/example/budget/controller/BudgetController.java:64-66 | the streamed sum is defined iff no amount is null |
| `Backend.SumOfAmountsIsTotal` | backend/src/main/java/com/example/budget/controller/BudgetController.java:64-66 | with no null amount, the streamed sum is the sum of every amount |
| `Backend.WithCategory` | backend/src/main/java/com/example/budget/controller/BudgetController.java:71-72 | the filter keeps exactly the expenses whose category equals `c`; a null category never matches |
| `Backend.WithCategoryTotal` | backend/src/main/java/com/example/budget/controller/BudgetController.java:71-74 | summing the filtered stream gives the sum of amounts of exactly the expenses of category `c` |
| `Backend.ByCategoryOf` | backend/src/main/java/com/example/budget/controller/BudgetController.java:68-76 | the expected `byCategory` map has an entry for every category |
| `Backend.GetSummary` | backend/src/main/java/com/example/budget/controller/BudgetController.java:60-79 | fails iff some amount is null; otherwise the total is the sum of every amount, and `byCategory` has every category, with `byCategory[c]` the sum over category `c`, whatever the enum's order |
| `Backend.NoMatchIsZero` | backend/src/main/java/com/example/budget/controller/BudgetController.java:70-76 | a category no expense carries maps to 0 |
| `Backend.AppendExpense` | backend/src/main/java/com/example/budget/controller/BudgetController.java:64-76 | an extra expense raises only its own category's entry, or none when its category is null, and always raises the total |
| `Backend.ByCategoryMissesUncategorised` | backend/src/main/java/com/example/budget/controller/BudgetController.java:64-76 | the entries add up to the total minus the amounts of expenses with a null category |
| `Backend.ByCategoryAddsUpToTotal` | backend/src/main/java/com/example/budget/controller/BudgetController.java:64-76 | when no category is null, the entries add up to the total |
| `Backend.UncategorisedExample` | backend/src/main/java/com/example/budget/controller/BudgetController.java:64-76 | one expense of 5 with a null category: total 5, every entry 0 |
| `Backend.AmountsPresentByMember` | backend/src/main/java/com/example/budget/controller/BudgetController.java:65 | no null amount at any position iff no null amount among the members |
| `Backend.ReorderInvariant` | backend/src/main/java/com/example/budget/controller/BudgetController.java:64-76 | reordering the stored expenses changes neither whether the summary fails, nor the total, nor any entry |
| `Agreement.FrontendAgreesWithBackend` | backend/src/main/java/com/example/budget/controller/BudgetController.java:70-76 | for the same expenses with non-null categories and amounts, backend `byCategory` equals the frontend totals record, and the two grand totals are equal |

## Left out

- Network I/O is not modelled. This covers the fetch, add and delete handlers of the frontend (`App.tsx:49-121`), including resetting the draft after a successful POST. It also covers the CRUD endpoints of the controller (`BudgetController.java:28-58`). They only pass requests through to a REST API and to JPA repositories.
- Floating point is not modelled; amounts are exact reals. The frontend adds JS numbers with `+=`, and Java's `DoubleStream.sum` uses compensated summation, so the two sides can differ in the last bits.
- Input coercion is not modelled: `parseFloat(...) || 0` turns a non-numeric or empty amount into 0.
- Formatting is not modelled: `toFixed(2)` formatting of amounts.
- Rendering is not modelled: React state and hooks, JSX, Chart.js drawing and options, and the reflection text area. The chart is modelled only as its data object and its visibility condition.
- Debts are not modelled; no logic reads them beyond storing and listing.
- Chart labels are modelled as `Category` values. The source pushes the key's name, which is the same word as the constructor.
- The frontend `Expense` type does not allow a null or unknown category, so the model does not say what the record would do with one.
- `ExpenseCategory` is not part of this model, so its declaration order is unknown. `Backend.GetSummary` takes the enum's values as any list of the eight categories, each once. The resulting map does not depend on that order.
- `Backend.GetSummary` does not model the second null-amount site (the filtered stream at `BudgetController.java:73`) as a separate failure. It cannot fail once the grand total at line 65 has succeeded.
- The reference sums (`Backend.TotalOf`, `Backend.CategoryTotal`) read a null amount as 0. They are only compared with results when no amount is null.
- Amounts are not required to be non-negative: neither side checks this. Negative and zero totals stay in the record and are left out of the chart.
