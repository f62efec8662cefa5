# Expense tracker: a verified model of its core

The expense tracker keeps two kinds of records in a document store.

- **Transactions** are money in (a positive amount) or out (a negative amount). Each has a description, a date and a category.
- **Budgets** are spending limits for one category in one (month, year) period.

An HTTP API lists, creates, updates and deletes both kinds of record. It also answers a *budget-vs-actual* report: one row per budget of the period, followed by one row per category that had spending but no budget. The API comes in two entry points, `api/index.js` and `server/index.js`, plus a stand-alone report handler, `server/api/budget-vs-actual.js`.

A React client derives several views from the transaction list:

- a filtered and sorted table;
- spending insights;
- a monthly income/expense chart;
- a category pie chart and a category breakdown;
- a financial summary.

The client also manages budgets through a budget list and a budget form.

This project models those computations and store operations in Dafny and proves what they promise.

| module | models |
|---|---|
| `Calendar` | dates as (year, month, day); days in a month by the Gregorian rules; the month normalisation of `new Date(y, m, d)`; the previous month |
| `Text` | the code-unit string order standing for `localeCompare` and the store's string sort; ASCII `toLowerCase`; `includes` |
| `Sequences` | `filter`, a stable insertion sort standing for `Array.prototype.sort`, `slice(0, n)` and `slice(-n)`, sums |
| `Models` | the Budget and Transaction schemas of `server/models/` |
| `Http` | response bodies, query parameters, route ids and request bodies |
| `Ledger` | the per-category `forEach` tally shared by four files, expense and income totals, newest-first order |
| `Store` | the two collections as maps keyed by id with a fresh-id counter. Pure state transitions come first; then a class `Database` whose methods perform them in place and keep the schema and unique-index invariant |
| `BudgetVsActual` | `server/api/budget-vs-actual.js`: the method gate, the period filter, the accumulation loop, the budget rows, the pushed unbudgeted rows, and the error rule |
| `Api` | the handlers of `api/index.js` over a `Store.Database` |
| `Server` | the handlers of `server/index.js` where they differ from `api/index.js` |
| `TransactionList`, `SpendingInsights`, `MonthlyExpensesChart`, `CategoryPieChart`, `CategoryBreakdown`, `FinancialSummary`, `BudgetManager`, `BudgetForm` | the client components of the same names |

Modelling conventions:

- **Amounts** are exact decimals (`real`).
- **Missing values.** A missing or empty category is the empty string. Every place that reads a category treats it as `Other`, as `transaction.category || 'Other'` does.
- **Storage failure.** Whether the store answers at all is a boolean parameter `up` of each handler.
- **Amounts in request bodies** carry the sent value's JavaScript truthiness, which the `!amount` test sees, apart from what `parseFloat` reads, which is stored. The number input of the client sends text, so "0" is truthy although it reads as 0 (`Http.AmountInput`).
- **Month and year of a budget save** carry two readings: the store's `Number` cast, which the lookup uses, and `parseInt`, which a new budget uses. They differ for values such as 4.5 or "1e1", and `Api.SaveBudgetOutcome` follows each reading where the code uses it.
- **The current date** is a parameter `now`.
- **Other services.** What the client's fetch helpers return is a parameter.

Two behaviours of the update handlers are easy to misread, and the model follows the code in both:

- **Zero amounts on update.** Both update handlers replace the amount whenever it is defined, so an amount of 0 is applied (`api/index.js:236`, `server/index.js:224`). Only description, date and category are kept when the new value is falsy. `Api.Patch` states exactly this.
- **The broken update.** The update of `server/index.js` never stores anything. It is modelled as written in `Server` and reported under Findings. The corrected behaviour, the `api/index.js` update, is in `Api`.

## Model

| member | source | states |
|---|---|---|
| Calendar.DaysInMonth | server/api/budget-vs-actual.js:50 | the last day of a month, which `new Date(y, m, 0)` names, is between 28 and 31 |
| Calendar.YearLength | server/api/budget-vs-actual.js:50 | the month lengths of a year add up to 366 in a Gregorian leap year and 365 otherwise |
| Calendar.DateLeTotal | client/src/components/TransactionList.jsx:40-43 | any two dates are comparable, so subtracting dates orders every pair |
| Calendar.DateLeTransitive | client/src/components/TransactionList.jsx:40-43 | the date order is transitive |
| Calendar.Normalize | server/api/budget-vs-actual.js:49-50 | a month index outside 0..11 rolls into the neighbouring years: the result month is in 1..12 and denotes the same absolute month |
| Calendar.MonthNumberInjective | server/api/budget-vs-actual.js:49-50 | distinct (year, month) pairs denote distinct absolute months |
| Calendar.MonthStart | server/api/budget-vs-actual.js:49 | the window start is a valid date, the first of the requested month (two-digit years read as 19xx) |
| Calendar.MonthEndIsLastDay | server/api/budget-vs-actual.js:50 | the window end, day 0 of the next month, is the last day of the requested month |
| Calendar.InMonthWindow | server/api/budget-vs-actual.js:49-53 | a valid date lies within the window inclusive exactly when its year and month are the requested ones |
| Calendar.PreviousMonth | client/src/components/SpendingInsights.jsx:26-27 | the previous month is in 1..12 and is exactly one absolute month earlier, so January goes back to December of the year before |
| Calendar.PreviousMonthNormalizes | client/src/components/SpendingInsights.jsx:26-27 | the wrap-around agrees with the month normalisation of `new Date` |
| Text.StrLeTotal | client/src/components/TransactionList.jsx:46-49 | the string order compares every pair |
| Text.StrLeTransitive | client/src/components/TransactionList.jsx:46-49 | the string order is transitive |
| Text.StrLeAntisymmetric | client/src/components/TransactionList.jsx:46-49 | strings that order both ways are equal |
| Text.ToLower | client/src/components/TransactionList.jsx:33 | lower-casing keeps the length, turns each ASCII capital into its small letter and leaves every other character as it is |
| Text.ToLowerIdempotent | client/src/components/TransactionList.jsx:33 | lower-casing twice is lower-casing once |
| Text.ToLowerIgnoresUpper | client/src/components/TransactionList.jsx:33 | a term typed in capitals lower-cases to the same text as the original |
| Text.ContainsEmpty | client/src/components/TransactionList.jsx:33 | every text includes the empty term |
| Text.ContainsToLower | client/src/components/TransactionList.jsx:33 | a substring stays a substring after both sides are lower-cased |
| Sequences.Filter | client/src/components/TransactionList.jsx:24-36 | `filter` keeps at most the input and only elements passing the test |
| Sequences.FilterMembership | client/src/components/TransactionList.jsx:24-36 | an element survives `filter` exactly when it was in the input and passes the test |
| Sequences.SortBy | client/src/components/TransactionList.jsx:39 | sorting returns a permutation of its input |
| Sequences.SortBySorted | client/src/components/TransactionList.jsx:39-52 | with a comparator that is a total preorder the result is ordered by it |
| Sequences.SortByConstant | client/src/components/TransactionList.jsx:51 | a comparator that answers 0 for every pair leaves the order unchanged, since the sort is stable |
| Sequences.Take | client/src/components/FinancialSummary.jsx:26 | `slice(0, n)` is a prefix of length min(n, length) |
| Sequences.TakeSorted | client/src/components/FinancialSummary.jsx:24-26 | the first n of a sorted list are sorted and come before every element left out |
| Sequences.TakeLast | client/src/components/MonthlyExpensesChart.jsx:49 | `slice(-n)` is a suffix of length min(n, length) |
| Sequences.SumOfPermutation | client/src/components/CategoryBreakdown.jsx:58 | reordering does not change a sum |
| Models.CategoryEnums | server/models/Budget.js:5-13 | the Transaction enum has 14 names ending in `Income`, `Other`; the Budget enum is the same names without `Income` (13 of them) |
| Models.ValidBudgetNotIncome | server/models/Budget.js:5-13 | a budget the schema accepts never has category `Income`, nor a missing one |
| Ledger.Abs | client/src/components/CategoryPieChart.jsx:37 | `Math.abs` is non-negative and is the value or its negation |
| Ledger.EffectiveCategory | server/api/budget-vs-actual.js:60 | `category \|\| 'Other'` is never empty and is the given category when there is one |
| Ledger.TotalSpent | client/src/components/FinancialSummary.jsx:17-19 | the sum of magnitudes is non-negative |
| Ledger.SpentIn | server/api/budget-vs-actual.js:58-65 | a category's spending is between 0 and the total |
| Ledger.CategoryOrderDistinct | server/api/budget-vs-actual.js:85 | the keys of the tally object are distinct |
| Ledger.CategoryOrderMembers | server/api/budget-vs-actual.js:58-65 | a name is a key exactly when some transaction has that (effective) category |
| Ledger.SpentInAbsent | server/api/budget-vs-actual.js:71 | a category no transaction has sums to 0, the `\|\| 0` default |
| Ledger.SpentInPositive | client/src/components/CategoryPieChart.jsx:33-44 | among expenses, every category present has positive spending |
| Ledger.Tally | server/api/budget-vs-actual.js:58-65 | the `forEach` loop leaves keys in first-appearance order and, per key, the sum of magnitudes of that category, and its running total is the sum of all magnitudes |
| Ledger.CategoryTotalsAddUp | client/src/components/CategoryBreakdown.jsx:44-45 | the per-category sums add up to the running total |
| Ledger.NetIsSumOfAmounts | client/src/components/FinancialSummary.jsx:21 | income minus expenses is the sum of all amounts |
| Ledger.NewestFirstTotalPreorder | api/index.js:189 | newest-first date order is a total preorder |
| Store.InIdOrder | api/index.js:125 | the natural order of a collection lists at most as many records as ids handed out |
| Store.InIdOrderMembers | api/index.js:125 | a record is listed exactly when it is stored under some id |
| Store.InIdOrderDistinct | server/models/Budget.js:42 | distinct stored records are listed once each |
| Store.AllBudgetsMembers | api/index.js:125 | `Budget.find()` lists exactly the stored budgets, each under its own id |
| Store.AllTransactionsMembers | api/index.js:189 | `Transaction.find()` lists exactly the stored transactions, each under its own id |
| Store.FirstWithTriple | api/index.js:143 | `findOne` returns the first stored budget with the (category, month, year) triple, or nothing when none has it |
| Store.FirstWithTripleIs | api/index.js:143 | when an id holds the triple and no earlier id does, `findOne` returns that id |
| Store.FindBudget | api/index.js:143 | `findOne` with month and year as the `Number` cast gives them returns a stored budget with exactly those values; in a valid store, no answer means no stored budget has them (a fractional month matches nothing) |
| Store.FindBudgetOfIntegers | api/index.js:143 | for integer month and year the cast lookup is the triple lookup |
| Store.SaveNewBudget | server/models/Budget.js:4-42 | a new budget is saved exactly when the schema accepts it and no stored budget has its triple (the unique index), under the next fresh id, with nothing else changed |
| Store.SaveBudgetAmount | api/index.js:145-148 | re-saving a valid budget with a new amount succeeds exactly when the amount is non-negative and changes only that budget's amount |
| Store.DeleteBudget | api/index.js:178 | `findByIdAndDelete` removes exactly that budget |
| Store.SaveNewTransaction | server/models/Transaction.js:4-26 | a new transaction is saved exactly when the schema accepts it, under the next fresh id |
| Store.SaveTransaction | api/index.js:241 | saving a changed transaction succeeds exactly when the schema accepts it and replaces only that record |
| Store.DeleteTransaction | api/index.js:263 | `findByIdAndDelete` removes exactly that transaction |
| Store.SaveNewBudgetKeepsValid | server/models/Budget.js:42 | inserting keeps every record valid and the triple unique (the index refuses a duplicate) |
| Store.SaveBudgetAmountKeepsValid | server/models/Budget.js:42 | an amount change keeps the store valid |
| Store.SaveNewTransactionKeepsValid | server/models/Transaction.js:4-26 | inserting a transaction keeps the store valid |
| Store.SaveTransactionKeepsValid | server/models/Transaction.js:4-26 | saving a transaction keeps the store valid |
| Store.DeleteKeepsValid | server/models/Budget.js:42 | deletes keep the store valid |
| Store.StoredBudgetsDistinct | server/models/Budget.js:42 | the budgets of one period are valid and name distinct categories |
| Store.Database.constructor | server/models/Budget.js:4-42 | a fresh store is empty and valid |
| Store.Database.InsertBudget | api/index.js:149-157 | `new Budget(...).save()` in place: the state becomes the transition's result on success and is unchanged on failure |
| Store.Database.UpdateBudgetAmount | api/index.js:145-148 | `budget.amount = ...; save()` in place, the same way |
| Store.Database.RemoveBudget | api/index.js:178 | delete in place; the store stays valid |
| Store.Database.InsertTransaction | api/index.js:206-213 | `new Transaction(...).save()` in place |
| Store.Database.UpdateTransaction | api/index.js:236-241 | the field assignments and `save()` in place |
| Store.Database.RemoveTransaction | api/index.js:263 | delete in place; the store stays valid |
| BudgetVsActual.PeriodBudgetsMembers | server/api/budget-vs-actual.js:43-46 | the period's budgets are exactly those whose month and year match |
| BudgetVsActual.PeriodExpenses | server/api/budget-vs-actual.js:52-55 | everything the transaction query returns is an expense |
| BudgetVsActual.PeriodExpensesMembers | server/api/budget-vs-actual.js:49-55 | a transaction is counted exactly when it is in the store and is an expense dated in the window |
| BudgetVsActual.CountedMeansInMonth | server/api/budget-vs-actual.js:49-55 | a valid transaction is counted exactly when its amount is negative and its month is the requested month, even after normalising months outside 1..12 |
| BudgetVsActual.CountedMeansSameMonth | server/api/budget-vs-actual.js:49-55 | for a month in 1..12 and a full year, counted means negative and dated in that very year and month |
| BudgetVsActual.Report | server/api/budget-vs-actual.js:58-96 | the tally loop, the `map` and the `push` loop compute the expected report of the period's budgets and expenses |
| BudgetVsActual.ReportLength | server/api/budget-vs-actual.js:68-96 | the report has one row per budget plus one per unbudgeted category |
| BudgetVsActual.ReportAt | server/api/budget-vs-actual.js:68-96 | row k is the budget row of budget k for k below the budget count, else the synthetic row of the matching unbudgeted category |
| BudgetVsActual.BudgetRowFacts | server/api/budget-vs-actual.js:69-73 | a budget row carries the budget's category and amount and the actual spending; difference = budget − actual; percentUsed · budget = actual · 100 when the budget is positive, else 0 |
| BudgetVsActual.ReportBudgetRows | server/api/budget-vs-actual.js:68-82 | the first rows match the budgets one-to-one and in order, with actual = the category's spending (0 when none) |
| BudgetVsActual.ReportUnbudgetedRows | server/api/budget-vs-actual.js:85-96 | a later row for category c exists exactly when c had spending, has no budget and is not `Income`; it reads budget 0, actual = spending, difference = −spending, percentUsed 100 |
| BudgetVsActual.UnbudgetedRowAt | server/api/budget-vs-actual.js:85-96 | every row after the budget rows is such a synthetic row for a spent, unbudgeted, non-`Income` category |
| BudgetVsActual.UnbudgetedRowExists | server/api/budget-vs-actual.js:85-96 | every spent, unbudgeted, non-`Income` category gets a row, so no spending is silently dropped |
| BudgetVsActual.UnbudgetedRowsSpend | server/api/budget-vs-actual.js:85-96 | synthetic rows have positive actual spending and a negative difference |
| BudgetVsActual.UnbudgetedDistinct | server/api/budget-vs-actual.js:85-96 | each unbudgeted category is appended once |
| BudgetVsActual.ReportCategoriesDistinct | server/api/budget-vs-actual.js:68-96 | when the budgets name distinct categories, no category appears in two rows |
| BudgetVsActual.ReportSumSplit | server/api/budget-vs-actual.js:68-96 | the actual amounts of the report sum to the spending among the budgeted and the unbudgeted categories, two disjoint sets |
| BudgetVsActual.ReportCoverage | server/api/budget-vs-actual.js:85-96 | every category with spending is budgeted, unbudgeted-listed or an unbudgeted `Income` |
| BudgetVsActual.ReportAccountsForSpending | server/api/budget-vs-actual.js:58-96 | the actual column adds up to all counted spending, less `Income` spending when `Income` has no budget |
| BudgetVsActual.Handle | server/api/budget-vs-actual.js:25-103 | OPTIONS answers 200 with no body; another non-GET 405; a missing month or year, an unparsable one or a storage failure 200 with `[]`; otherwise 200 with the report |
| Api.CategoriesResponse | api/index.js:33-40 | `GET /api/categories` answers the fixed 14 names, ending with `Income`, `Other`, which are the budget categories plus `Income` |
| Api.ByCategoryTotalPreorder | api/index.js:125 | the category-ascending order is a total preorder |
| Api.ListedBudgetsSpec | api/index.js:118-126 | the listed budgets are sorted by category and are exactly the stored ones, filtered by (month, year) only when both are given |
| Api.GetBudgets | api/index.js:116-131 | a storage or cast failure answers 200 with `[]`; otherwise 200 with the listing |
| Api.ListedTransactionsSpec | api/index.js:189 | the listed transactions are newest first and are exactly the stored ones |
| Api.GetTransactions | api/index.js:187-195 | a storage failure answers 200 with `[]`; otherwise 200 with the listing |
| Api.StoreReportAccountsForSpending | api/index.js:43-113 | the report over the stored data names each category once and its actual column adds up to the period's spending less `Income` (no budget can be an `Income` one) |
| Api.GetBudgetVsActual | api/index.js:43-113 | a missing month or year, an unparsable one or a storage failure answers 200 with `[]`; otherwise 200 with the report of the stored data |
| Api.PostBudget | api/index.js:134-165 | the handler in place computes the save outcome and keeps the store valid |
| Api.SaveBudgetNeedsFields | api/index.js:138-140 | a body without category, month or year, or with an undefined amount, answers 400 and changes nothing |
| Api.SaveBudgetFailsCleanly | api/index.js:134-165 | a save answers 201 or 400, and anything but 201 leaves the store as it was |
| Api.SaveBudgetKeepsValid | server/models/Budget.js:42 | every outcome keeps the schema and the uniqueness of triples |
| Api.SaveBudgetSucceeds | api/index.js:134-164 | a save answers 201 exactly when the fields are present, the store is up, the `Number` cast of month and year succeeds and `parseFloat` reads the amount, and then either a stored budget has the cast values and the amount is not negative, or none has them, `parseInt` reads both, the parsed budget fits the schema and no stored budget has its triple (an amount of 0 is accepted) |
| Api.SaveBudgetSucceedsPlain | api/index.js:134-164 | for month and year sent as integers, a save answers 201 exactly when the fields are present, the store is up, the amount reads as a number and the resulting budget fits the schema |
| Api.SaveBudgetUpserts | api/index.js:143-160 | after a 201 the answered budget is stored with the submitted category and amount, and with the cast month and year, or the parsed ones when no stored budget had the cast ones; it is the only one with its triple; other budgets are untouched; at most the fresh id is new; transactions are untouched |
| Api.SaveBudgetLastWins | api/index.js:143-158 | two successful saves of one integer triple leave the same store as the second alone, so exactly one record holds the second amount |
| Api.SaveBudgetFractionalMonthRepeat | api/index.js:143-160 | month 4.5 is stored as month 4 on the first save, and the same save again answers 400 with the store unchanged: the lookup misses and the insert collides with the unique index |
| Api.SaveBudgetExponentMonth | api/index.js:143-148 | the month "1e1" casts to 10, so the save updates the stored month-10 budget |
| Api.SaveBudgetUncastableMonth | api/index.js:143-164 | a month the cast cannot read answers 400 and changes nothing |
| Api.DeleteBudgetById | api/index.js:168-184 | the handler in place computes the delete outcome and keeps the store valid |
| Api.DeleteBudgetSpec | api/index.js:172-179 | a stored id is removed and answered with its record; an unknown id answers 404 with the store unchanged; a second delete answers 404 |
| Api.DefaultCategory | api/index.js:210 | the given category when there is one, else `Income` for a positive amount and `Other` otherwise |
| Api.PostTransaction | api/index.js:198-219 | the handler in place computes the create outcome and keeps the store valid |
| Api.CreateTransactionNeedsFields | api/index.js:202-204 | a falsy amount (the number 0, `""` or `null`), a missing description or date answers 400 and inserts nothing |
| Api.CreateTransactionSpec | api/index.js:198-219 | 201 exactly when the fields are present, the store is up, `parseFloat` reads the amount, the date is valid and the defaulted category is in the enum; then the answered record is stored under the fresh id with the read amount and the defaulted category and nothing else changes; otherwise nothing changes |
| Api.CreateZeroText | api/index.js:202-211 | the text "0" from a number input passes the `!amount` test, so a transaction of amount 0 is stored under `Other` with 201 |
| Api.Patch | api/index.js:236-239 | the id stays; the amount is replaced by its `parseFloat` reading when defined; description, date and category are replaced when truthy; each field otherwise stays as it was |
| Api.PutTransaction | api/index.js:222-248 | the handler in place computes the update outcome and keeps the store valid |
| Api.UpdateTransactionSpec | api/index.js:229-243 | an unknown id answers 404; a failure changes nothing; a 200 needs a readable amount and date, and stores and answers the patched record in place of the old one, budgets and ids untouched |
| Api.DeleteTransactionById | api/index.js:251-270 | the handler in place computes the delete outcome and keeps the store valid |
| Api.DeleteTransactionSpec | api/index.js:256-265 | a stored id is removed and answered with its record; an unknown id answers 404 with the store unchanged; a second delete answers 404 |
| Server.GetBudgets | server/index.js:32-47 | a storage or cast failure answers 500 "Failed to fetch budgets"; otherwise 200 with the same listing as `api/index.js` |
| Server.GetBudgetVsActual | server/index.js:103-172 | a missing month or year answers 400; a failure 500; otherwise 200 with the same report |
| Server.GetTransactions | server/index.js:175-183 | a storage failure answers 500; otherwise 200 with the same listing |
| Server.PutTransaction | server/index.js:210-236 | the handler as written computes its outcome and changes nothing |
| Server.UpdateNeverSaves | server/index.js:213-235 | the update never changes the store; it answers 404 exactly for an unknown well-formed id and 400 otherwise |
| Server.UpdateDiffersFromApi | server/index.js:224-235 | wherever the `api/index.js` update succeeds, this one answers 400 with the store unchanged |
| Server.RenameIsLost | server/index.js:225-227 | a concrete rename of "Lunch" to "Dinner" is stored by `api/index.js` and lost here |
| TransactionList.OrderTotalPreorder | client/src/components/TransactionList.jsx:39-52 | each sort configuration's comparator is a total preorder |
| TransactionList.VisibleSpec | client/src/components/TransactionList.jsx:24-52 | the table is a permutation of the transactions passing both filters, ordered by the selected key and direction; a transaction is shown exactly when it is an input that matches type and search |
| TransactionList.UnknownKeyKeepsOrder | client/src/components/TransactionList.jsx:51 | with an unknown sort key the filtered order is kept |
| TransactionList.TypeFilterSplits | client/src/components/TransactionList.jsx:26-29 | `income` keeps exactly positive amounts and `expense` exactly negative ones; a zero amount shows only under `all` |
| TransactionList.SearchSpec | client/src/components/TransactionList.jsx:32-33 | the empty term matches everything, and the search ignores the case of the term |
| TransactionList.RequestSort | client/src/components/TransactionList.jsx:58-64 | the new key is the requested one; the direction is `desc` exactly when the key was current and ascending, else `asc` |
| TransactionList.RequestSortToggles | client/src/components/TransactionList.jsx:58-64 | requesting the same key twice flips the direction |
| TransactionList.SortIndicator | client/src/components/TransactionList.jsx:67-70 | no indicator unless the key is current; `↑` exactly for ascending, `↓` otherwise |
| TransactionList.CountSuffix | client/src/components/TransactionList.jsx:99 | the plural `s` is left off exactly for a count of 1 |
| SpendingInsights.Entries | client/src/components/SpendingInsights.jsx:78 | `Object.entries` has one pair per tallied category |
| SpendingInsights.PercentBounds | client/src/components/SpendingInsights.jsx:46 | comparing a percentage with a threshold is comparing 100·x with threshold·d |
| SpendingInsights.GenerateInsights | client/src/components/SpendingInsights.jsx:8-133 | the effect computes the insights of the transactions for the month of `now` |
| SpendingInsights.TopCategoryOf | client/src/components/SpendingInsights.jsx:64-90 | the `forEach` tally and the sort give the top-category rule's insight |
| SpendingInsights.NoTransactionsNoInsights | client/src/components/SpendingInsights.jsx:9 | no transactions, no insights |
| SpendingInsights.ComparisonSpec | client/src/components/SpendingInsights.jsx:45-61 | at most one insight, and only when last month's spending is positive: "Reduced" exactly at a change of −10% or less, "Increased" exactly at +10% or more, nothing in between |
| SpendingInsights.EntriesMembers | client/src/components/SpendingInsights.jsx:64-78 | an entry is a category present with its sum |
| SpendingInsights.ByValueDescTotal | client/src/components/SpendingInsights.jsx:79 | the value-descending comparator is a total preorder |
| SpendingInsights.FirstAfterSortIsMax | client/src/components/SpendingInsights.jsx:78-79 | the first entry after sorting is an entry of largest value |
| SpendingInsights.TopCategorySpec | client/src/components/SpendingInsights.jsx:77-90 | at most one insight; when given, it names a present category of largest spending with at least 30% of the month's expenses; when absent, every category is below 30% |
| SpendingInsights.TopShareSpec | client/src/components/SpendingInsights.jsx:81-89 | the insight fires exactly at a share of 30% or more and carries the category and its percentage |
| SpendingInsights.ByMagnitudeDescTotal | client/src/components/SpendingInsights.jsx:95 | the magnitude-descending comparator is a total preorder |
| SpendingInsights.LargestExpensesSpec | client/src/components/SpendingInsights.jsx:93-96 | the large transactions are at most 3, a prefix of the sorted expenses over 100, sorted by magnitude, none smaller than one left out |
| SpendingInsights.LargeRuleFires | client/src/components/SpendingInsights.jsx:98-105 | the insight appears exactly when some expense of the month is over 100, and lists the largest ones |
| SpendingInsights.SavingsSpec | client/src/components/SpendingInsights.jsx:112-128 | at most one insight, only with income and expenses both positive: "Great" exactly at a savings rate of 20% or more, "Spending More" exactly when expenses exceed income |
| SpendingInsights.InsightsInOrder | client/src/components/SpendingInsights.jsx:45-130 | at most 4 insights, in the order comparison, top category, large, savings |
| SpendingInsights.ComparisonRanked | client/src/components/SpendingInsights.jsx:45-61 | the comparison rule yields at most one insight of the first kind |
| SpendingInsights.TopCategoryRanked | client/src/components/SpendingInsights.jsx:77-90 | the top-category rule yields at most one insight of the second kind |
| SpendingInsights.LargeRanked | client/src/components/SpendingInsights.jsx:98-105 | the large rule yields at most one insight of the third kind |
| SpendingInsights.SavingsRanked | client/src/components/SpendingInsights.jsx:112-128 | the savings rule yields at most one insight of the fourth kind |
| SpendingInsights.RuleRanks | client/src/components/SpendingInsights.jsx:45-130 | four rules of increasing rank concatenate into at most four insights in rank order |
| MonthlyExpensesChart.Buckets | client/src/components/MonthlyExpensesChart.jsx:37 | one bucket per month key, in first-appearance order |
| MonthlyExpensesChart.GetMonthlyData | client/src/components/MonthlyExpensesChart.jsx:9-56 | the function computes the monthly chart data |
| MonthlyExpensesChart.FillMonths | client/src/components/MonthlyExpensesChart.jsx:12-34 | the `forEach` loop leaves keys in first-appearance order and, per key, the bucket of that month's transactions |
| MonthlyExpensesChart.MonthlyStep | client/src/components/MonthlyExpensesChart.jsx:18-33 | one iteration opens a bucket for a new month and adds the transaction to its own month only |
| MonthlyExpensesChart.MonthOrderMembers | client/src/components/MonthlyExpensesChart.jsx:12-16 | a month key exists exactly when some transaction falls in that month |
| MonthlyExpensesChart.MonthOrderDistinct | client/src/components/MonthlyExpensesChart.jsx:18 | each month key is opened once |
| MonthlyExpensesChart.MonthAbsent | client/src/components/MonthlyExpensesChart.jsx:18-25 | a month without transactions has zero income, expenses and balance |
| MonthlyExpensesChart.BalanceIsNet | client/src/components/MonthlyExpensesChart.jsx:27-33 | every bucket's balance is its income minus its expenses |
| MonthlyExpensesChart.ChronologicalTotal | client/src/components/MonthlyExpensesChart.jsx:38-48 | the year-then-month comparator is a total preorder |
| MonthlyExpensesChart.BucketsMembers | client/src/components/MonthlyExpensesChart.jsx:12-37 | a bucket is listed exactly when its month has transactions and it holds that month's sums |
| MonthlyExpensesChart.EachTransactionOneBucket | client/src/components/MonthlyExpensesChart.jsx:12-25 | every transaction has a bucket for its month, and no two buckets share a month |
| MonthlyExpensesChart.SortedMonthsDistinct | client/src/components/MonthlyExpensesChart.jsx:37-48 | after sorting, months are still distinct |
| MonthlyExpensesChart.MonthlyDataOrder | client/src/components/MonthlyExpensesChart.jsx:37-49 | at most 6 buckets, strictly chronological, each later than every bucket dropped |
| MonthlyExpensesChart.SortedStrict | client/src/components/MonthlyExpensesChart.jsx:37-48 | the sorted buckets are strictly chronological |
| MonthlyExpensesChart.StrictWhenDistinct | client/src/components/MonthlyExpensesChart.jsx:38-48 | a chronological list of distinct months is strictly increasing |
| MonthlyExpensesChart.LatestSix | client/src/components/MonthlyExpensesChart.jsx:49 | the last 6 of a strictly chronological list stay ordered and are the latest |
| MonthlyExpensesChart.SuffixLater | client/src/components/MonthlyExpensesChart.jsx:49 | a suffix of a strictly chronological list is later than everything before it |
| MonthlyExpensesChart.MonthlyDataMembers | client/src/components/MonthlyExpensesChart.jsx:12-49 | a shown bucket belongs to a month with transactions and holds its sums |
| MonthlyExpensesChart.MonthlyBalances | client/src/components/MonthlyExpensesChart.jsx:27-33 | a shown bucket's balance is its income minus its expenses, which are both non-negative, and equals the month's net amount |
| MonthlyExpensesChart.SumsNonNegative | client/src/components/MonthlyExpensesChart.jsx:27-33 | monthly income and expenses are non-negative |
| MonthlyExpensesChart.SummaryDataSpec | client/src/components/MonthlyExpensesChart.jsx:59-71 | exactly two entries, Income (sum of positive amounts) then Expenses (sum of magnitudes of negative ones), whose difference is the net amount |
| CategoryPieChart.ColourSpec | client/src/components/CategoryPieChart.jsx:4-19 | the table covers exactly the 14 category names; a known name gets its colour; the grey default goes to `Other` and to unknown names |
| CategoryPieChart.Slices | client/src/components/CategoryPieChart.jsx:47-52 | one slice per tallied category |
| CategoryPieChart.ProcessTransactions | client/src/components/CategoryPieChart.jsx:26-54 | the hook body computes the chart data |
| CategoryPieChart.ByValueDescTotal | client/src/components/CategoryPieChart.jsx:53 | the value-descending comparator is a total preorder |
| CategoryPieChart.EmptyPie | client/src/components/CategoryPieChart.jsx:28 | no transactions, no slices |
| CategoryPieChart.ExpenseCategory | client/src/components/CategoryPieChart.jsx:33-36 | a category is tallied exactly when some expense has it |
| CategoryPieChart.SlicesMembers | client/src/components/CategoryPieChart.jsx:47-52 | a slice is a tallied category with its total and colour |
| CategoryPieChart.SlicesDistinct | client/src/components/CategoryPieChart.jsx:47-52 | slices name distinct categories |
| CategoryPieChart.SortedSlicesDistinct | client/src/components/CategoryPieChart.jsx:53 | the sorted slices still name distinct categories |
| CategoryPieChart.PieDataSpec | client/src/components/CategoryPieChart.jsx:28-53 | each category once, by value non-increasing, every value positive |
| CategoryPieChart.SlicePositive | client/src/components/CategoryPieChart.jsx:33-44 | every slice has spent something |
| CategoryPieChart.PieDataMembers | client/src/components/CategoryPieChart.jsx:33-53 | a slice is exactly an expense category of the input with its total and table colour |
| CategoryBreakdown.Shares | client/src/components/CategoryBreakdown.jsx:51-57 | one entry per tallied category |
| CategoryBreakdown.ProcessTransactions | client/src/components/CategoryBreakdown.jsx:26-59 | the hook body with its running `total` computes the list and the shown total, which an empty input leaves as it was |
| CategoryBreakdown.ByValueDescTotal | client/src/components/CategoryBreakdown.jsx:58 | the value-descending comparator is a total preorder |
| CategoryBreakdown.SharesMembers | client/src/components/CategoryBreakdown.jsx:51-57 | an entry is a tallied category with its total, percentage and colour |
| CategoryBreakdown.SortedSharesDistinct | client/src/components/CategoryBreakdown.jsx:58 | the sorted entries name distinct categories |
| CategoryBreakdown.SharesPrefixSum | client/src/components/CategoryBreakdown.jsx:44-45 | the entries' values add up to the per-category sums |
| CategoryBreakdown.BreakdownSpec | client/src/components/CategoryBreakdown.jsx:28-58 | each category once, by value non-increasing, values adding up to the expense total |
| CategoryBreakdown.SharePercentage | client/src/components/CategoryBreakdown.jsx:55 | an entry's percentage times the total is its value times 100, and lies in (0, 100] |
| CategoryBreakdown.PercentageBounds | client/src/components/CategoryBreakdown.jsx:55 | a positive part of a total is a percentage in (0, 100] |
| CategoryBreakdown.BreakdownMembers | client/src/components/CategoryBreakdown.jsx:33-58 | an entry is exactly an expense category with its total, its share of the expense total and its colour |
| CategoryBreakdown.BreakdownPercentages | client/src/components/CategoryBreakdown.jsx:55 | every listed percentage is value/total·100 and lies in (0, 100] |
| CategoryBreakdown.ListedShare | client/src/components/CategoryBreakdown.jsx:58 | a listed entry is an entry of the expenses |
| CategoryBreakdown.StaleTotalHidden | client/src/components/CategoryBreakdown.jsx:28-48 | a non-empty list is shown with the current expense total, the sum of its values; an empty input keeps the previous total beside an empty list, which hides it |
| FinancialSummary.TotalsSpec | client/src/components/FinancialSummary.jsx:13-21 | income is the sum of positive amounts and expenses the sum of negative magnitudes, both non-negative; balance is their difference and the sum of all amounts |
| FinancialSummary.IncomeTotalNonNegative | client/src/components/FinancialSummary.jsx:13-15 | income is non-negative |
| FinancialSummary.PositiveSum | client/src/components/FinancialSummary.jsx:13-15 | a sum of positive amounts is non-negative |
| FinancialSummary.RecentSpec | client/src/components/FinancialSummary.jsx:24-26 | at most 3 recent transactions, newest first, drawn from the input, each at least as recent as every one left out |
| FinancialSummary.RecentRest | client/src/components/FinancialSummary.jsx:24-26 | a prefix of a newest-first permutation is drawn from the input and is no older than the rest |
| FinancialSummary.EmptySummary | client/src/components/FinancialSummary.jsx:4-9 | an empty list gives the initial summary |
| FinancialSummary.BalanceColour | client/src/components/FinancialSummary.jsx:60 | green exactly when the balance is non-negative, red exactly when negative |
| FinancialSummary.BalanceColourSpec | client/src/components/FinancialSummary.jsx:21-60 | the balance shows green exactly when the amounts sum to 0 or more |
| BudgetManager.FindIndex | client/src/components/BudgetManager.jsx:61 | `findIndex` gives −1 exactly when no entry has the id, else the first position with it |
| BudgetManager.SaveReplaces | client/src/components/BudgetManager.jsx:63-69 | a listed id is replaced at its position; length and other entries stay |
| BudgetManager.SaveAppends | client/src/components/BudgetManager.jsx:70-73 | a new id is appended at the end, growing the list by one |
| BudgetManager.SavedSpec | client/src/components/BudgetManager.jsx:59-74 | after a save the budget is listed, and the list grows exactly when the id was new |
| BudgetManager.SavedUniqueIds | client/src/components/BudgetManager.jsx:59-74 | a save keeps the ids unique |
| BudgetManager.DeletedMembers | client/src/components/BudgetManager.jsx:77-79 | an entry survives a delete exactly when it was listed under another id |
| BudgetManager.DeleteAbsent | client/src/components/BudgetManager.jsx:77-79 | deleting an unlisted id changes nothing |
| BudgetManager.DeletedConcat | client/src/components/BudgetManager.jsx:78 | the survivors keep their order |
| BudgetManager.DeleteUndoesAdd | client/src/components/BudgetManager.jsx:59-79 | deleting a budget just appended restores the list |
| BudgetManager.DeletedUniqueIds | client/src/components/BudgetManager.jsx:77-79 | a delete keeps the ids unique |
| BudgetManager.AfterLoadSpec | client/src/components/BudgetManager.jsx:36-56 | loading always ends; a fetched array is shown as it came, anything else as an empty list; only a failure sets the error; without the API the list stays |
| BudgetManager.MonthOptionsSpec | client/src/components/BudgetManager.jsx:82-95 | months 1..12 in order with distinct names |
| BudgetManager.YearOptions | client/src/components/BudgetManager.jsx:98-105 | five years from current − 2 |
| BudgetManager.YearOptionsSpec | client/src/components/BudgetManager.jsx:98-105 | ascending, the current year in the middle, exactly the years within two of it |
| BudgetForm.OfferedMembers | client/src/components/BudgetForm.jsx:25 | a name is offered exactly when it was fetched and is not `Income` |
| BudgetForm.OfferedFromServer | client/src/components/BudgetForm.jsx:25 | from the categories endpoint's list the form offers exactly the Budget schema's categories, in order |
| BudgetForm.ValidateSpec | client/src/components/BudgetForm.jsx:69-88 | no category or no amount: "Please fill in all fields"; else a non-number or a negative amount: "Please enter a valid amount"; else the payload of category, numeric amount, month and year |
| BudgetForm.PayloadFitsSchema | client/src/components/BudgetForm.jsx:83-88 | an accepted payload with an offered category and a selectable period is a budget the schema accepts |
| BudgetForm.WithCategory | client/src/components/BudgetForm.jsx:56-62 | changing the category changes nothing else |
| BudgetForm.WithAmount | client/src/components/BudgetForm.jsx:56-62 | changing the amount changes nothing else |
| BudgetForm.WithPeriod | client/src/components/BudgetForm.jsx:37-43 | a new period sets month and year and keeps the rest |
| BudgetForm.Cleared | client/src/components/BudgetForm.jsx:94-98 | after a save category and amount are cleared and month and year kept |
| BudgetForm.ClearedRefused | client/src/components/BudgetForm.jsx:69-98 | a cleared form is refused until it is filled in again |
| BudgetForm.RefillKeepsPeriod | client/src/components/BudgetForm.jsx:56-98 | a refilled form sends the kept period with the new category and amount |
| BudgetForm.Form.constructor | client/src/components/BudgetForm.jsx:6-16 | the initial state for the selected period |
| BudgetForm.Form.LoadCategories | client/src/components/BudgetForm.jsx:20-30 | a fetched list is offered without `Income`; a failure keeps the list; loading ends; nothing else changes |
| BudgetForm.Form.PeriodChanged | client/src/components/BudgetForm.jsx:37-43 | only the form's period changes |
| BudgetForm.Form.Submit | client/src/components/BudgetForm.jsx:65-108 | a refused form shows its message and sends nothing; a sent form clears the message; a saved result sets success, clears the form and is handed on; an error shows the retry message and keeps the form; loading ends |

## Left out

- Database connection, startup, CORS headers and Express middleware: these are I/O. The store is an in-memory model `Store.Database`, and a storage failure is the parameter `up`.
- `GET /api/test`: a liveness probe with a clock timestamp.
- `client/src/api.js`, `server/seed.js`, `server/data.js`, `server/db.js`, `client/src/App.jsx` and the render-only components (`TransactionForm`, `BudgetList`, `BudgetVsActual`, `BudgetVsActualFallback`): these are network wrappers, fixed data and rendering. What the fetch helpers give back is a parameter of the client models.
- Rounding by `toFixed` and `parseFloat(x.toFixed(n))` (chart values, percentages, insight messages) and currency formatting: amounts are exact decimals, so the models keep the unrounded values. This also changes the order of the pie chart and the breakdown (`CategoryPieChart.PieData`, `CategoryBreakdown.BreakdownData`): the source sorts on the rounded values, so two categories whose totals round to the same cent keep their first-appearance order, while the model orders them by the exact totals.
- Insight and message texts: insights are datatype values that carry their figures, not formatted strings.
- BudgetVsActual.Handle, Api.GetBudgetVsActual, Server.GetBudgetVsActual: the range of JavaScript numbers and dates is not modelled. For a year past about 275760, `new Date` gives an invalid date, the store's cast of it throws, and the source answers 200 with `[]` (500 in `server/index.js`); the model computes the report. `parseInt` results above 2^53 are not rounded either.
- Time of day and time zones. Dates are calendar days, so the window end at midnight of the last day, which would drop a transaction stamped later that day, is not modelled. The same holds for `getMonth()` in a local zone.
- A date string `new Date` reads partially: a date input is missing, a day, or unreadable.
- The month key `toLocaleString('default', { month: 'short' })`: it is modelled as the (year, month) pair. This assumes a locale whose short month names are the English ones the sort looks up.
- Locale-aware `localeCompare` and Unicode case mapping: these are the code-unit order and ASCII lower-casing.
- The JS rule that object keys which look like integers come first: the category and month keys never look like integers.
- Ties in the store's sorts (`sort({ category: 1 })`, `sort({ date: -1 })`): they are resolved stably over the id order standing for the natural order.
- Hexadecimal ObjectIds: ids are naturals handed out in order, never chosen by a caller.
- Concurrency: last-writer-wins races between concurrent saves, and the stale `budgets` that `handleBudgetSaved` reads while updating through `prev`. The model applies one update at a time to the current list.
- React timing: effect ordering, the 3-second success banner timer and the API availability probe. Availability is a parameter.
- Request values of other JSON types: a category or description sent as a number or an object, and a date sent as anything but text. Bodies carry strings for these; an amount keeps both its truthiness and its `parseFloat` reading, so text such as "0" or "abc" and a `null` amount are covered.
- BudgetForm.ValidateSpec: the amount input's text is Blank, Number or NotNumber, so whitespace-only text (which `isNaN` lets through as 0 while `parseFloat` gives NaN) is not covered.
- CategoryBreakdown.Percentage: the guard for a zero total stands for a branch the code never reaches (a listed category always has positive spending), where JS would give NaN.
- Sequences.SortBy: an insertion sort standing for the engine's stable sort. Only its result, a stably ordered permutation, is claimed, not its running time.

## Findings

| source | as written | input that shows it | evidently intended | confidence | as-written member | corrected member |
|---|---|---|---|---|---|---|
| server/index.js:213-235 | the update destructures only `amount`, `description` and `date`, then reads `category` at line 227; the ReferenceError is caught and answered with 400 before `save`, so no update of an existing transaction is ever stored | a stored transaction 0 "Lunch" and the body `{ description: "Dinner" }` answers 400 and keeps "Lunch" | the partial update of `api/index.js:225-243`, which also destructures `category` | not executed | Server.RenameIsLost | Api.UpdateTransactionSpec |
