# ExpenseApp client summaries, in Dafny

This project models the financial derivations of the ExpenseApp mobile
"Clients" screen (`source_code/mobile/Screens/Clients.js`). It covers:

- **Grouping and ranking.** `fetchJobs` buckets the fetched jobs by client. The key is `job.client`, or
  `'Unknown Client'` when the client is missing or empty. Each bucket's all-time `totalIncome` and
  `totalExpenses` are filled in, and the buckets are stably sorted by ascending revenue (income minus
  expenses). This is module `ClientGrouping`.
- **Period totals.** The year filter and `calculateJobTotals` sum the income and the expenses of a list of
  jobs for 'All Time' or for one calendar year. `clientTotals` gives the modal's income, expenses and
  revenue. The same `PeriodTotals` (equally `ClientTotals` of the client and the period) gives each row of the
  client list its income, expenses and revenue for the selected period. The list itself stays ranked by
  all-time revenue whatever period is selected, since `ClientList` does not depend on the period. This is
  module `JobTotals`.
- **Transaction columns.** A job card's `incomeTx` and `expenseTx` columns hold the period's transactions of
  type exactly `"income"` or exactly `"expense"`, newest first. This is module `TransactionColumns`.
- **Year catalog.** The year picker lists 'All Time', then the current year and the year of every
  transaction, newest first and each once. With no clients it is `['All Time', currentYear]`. This is
  module `YearCatalog`.
- **Object-literal keys.** The grouping loop as written keys its buckets in an object literal, which also
  answers for the members inherited from `Object.prototype` (see Findings). This is module `InheritedKeys`.

Shared records (`Tx`, `Job`, `Client`, `Period`, `Calendar`) are in `Records`. Generic sequence facts are in
`Seqs`:

- `Filter` models `Array.prototype.filter`.
- `SortBy` is a stable insertion sort standing for `Array.prototype.sort` with a `key(a) - key(b)`
  comparator.
- `SumBy` models `reduce` with `+` from 0.
- `Distinct` models first-seen deduplication.

Amounts are integer cents. A transaction's `type` is kept as the raw string, so only the exact strings
count. Dates are integer timestamps. A `Calendar` value supplies the first and last instant of each year,
and the year of an instant. It stands for `new Date(year, 0, 1)`, `new Date(year, 11, 31, 23, 59, 59)` and
`getFullYear()` in the device's time zone. The current year and the fetched jobs are parameters.

Four behaviours of the code are easy to misread. The model follows the code in each:

- A transaction whose type is neither `"income"` nor `"expense"` counts in neither total. In particular,
  other types are not counted as expenses.
- Totals sum the signed amount, and `Math.abs` appears only in display code. Totals can therefore be
  negative. Year totals stay within all-time totals only when no amount is negative, and they are proved
  under that hypothesis.
- Years are computed from every transaction date, and no invalid year is filtered out. Dates here are
  always valid; see Left out.
- The catalog is built from the grouped client list, not from the raw jobs. `ListedYearsAreJobYears`
  shows this gives the same years as the raw job list.

## Model

| member | source | states |
|---|---|---|
| Records.ClientKey | source_code/mobile/Screens/Clients.js:63 | the bucket key is the client name when it is present and non-empty, `"Unknown Client"` otherwise, and never empty |
| Records.TxsOf | source_code/mobile/Screens/Clients.js:112 | definition: the job's transactions, or none when `job.transactions` is missing (the `[]` fallback) |
| Records.AmountOf | source_code/mobile/Screens/Clients.js:125 | definition: the numeric amount of a transaction, for an integer amount; a missing amount counts as 0 (the `0` fallback) |
| Records.IsIncome | source_code/mobile/Screens/Clients.js:124 | definition: the type test `tx.type === 'income'`, on the exact string |
| Records.IsExpense | source_code/mobile/Screens/Clients.js:128 | definition: the type test `tx.type === 'expense'`, on the exact string |
| Records.Revenue | source_code/mobile/Screens/Clients.js:98-99 | definition: a client's revenue is `totalIncome - totalExpenses`, the ranking key |
| Seqs.Filter | source_code/mobile/Screens/Clients.js:153-156 | the kept elements are exactly those of the input that satisfy the predicate, as an order-preserving subsequence |
| Seqs.FilterMultiset | source_code/mobile/Screens/Clients.js:153-156 | a filter keeps every satisfying element as often as the input has it, and no other element |
| Seqs.SortBy | source_code/mobile/Screens/Clients.js:97-101 | the sort returns a permutation of its input, ascending in the key |
| Seqs.SortByStable | source_code/mobile/Screens/Clients.js:97-101 | elements with equal keys keep their input order (the sort is stable) |
| Seqs.SumBySortBy | source_code/mobile/Screens/Clients.js:97-101 | sorting does not change a sum over the elements |
| Seqs.Distinct | source_code/mobile/Screens/Clients.js:62-72 | first-seen deduplication keeps each element exactly once and loses none |
| Seqs.DistinctFirstSeen | source_code/mobile/Screens/Clients.js:62-72 | deduplicated elements appear in the order of their first occurrence |
| JobTotals.InYear | source_code/mobile/Screens/Clients.js:115-119 | definition: the transaction lies between the first and the last instant of the year, both bounds included |
| JobTotals.IncomeSum | source_code/mobile/Screens/Clients.js:123-125 | definition: the sum of the amounts of the exactly-`"income"` transactions (filter, then reduce from 0) |
| JobTotals.ExpenseSum | source_code/mobile/Screens/Clients.js:127-129 | definition: the sum of the amounts of the exactly-`"expense"` transactions (filter, then reduce from 0) |
| JobTotals.JobIncome | source_code/mobile/Screens/Clients.js:80-82 | definition: one job's term of the income reduce, the income sum of all its transactions |
| JobTotals.JobExpenses | source_code/mobile/Screens/Clients.js:89-91 | definition: one job's term of the expense reduce, the expense sum of all its transactions |
| JobTotals.ClientIncome | source_code/mobile/Screens/Clients.js:77-84 | definition: `client.jobs.reduce` of the job incomes from 0, the value stored as `totalIncome` |
| JobTotals.ClientExpenses | source_code/mobile/Screens/Clients.js:86-93 | definition: `client.jobs.reduce` of the job expenses from 0, the value stored as `totalExpenses` |
| JobTotals.PeriodIncomeOf | source_code/mobile/Screens/Clients.js:123-125 | definition: what the reduce callback adds to `totals.income` for one job, its income in the period |
| JobTotals.PeriodExpensesOf | source_code/mobile/Screens/Clients.js:127-129 | definition: what the reduce callback adds to `totals.expenses` for one job, its expenses in the period |
| JobTotals.JobsOrEmpty | source_code/mobile/Screens/Clients.js:110 | definition: the fetched job list, or no jobs when it is missing (the `[]` fallback) |
| JobTotals.PeriodTotals | source_code/mobile/Screens/Clients.js:109-134 | definition: the value of `calculateJobTotals`, the period income and expenses summed over the jobs |
| JobTotals.YearTransactions | source_code/mobile/Screens/Clients.js:147-157 | 'All Time' returns the job's transactions unchanged (none when absent); a year keeps exactly the transactions dated from its first to its last instant, in original order |
| JobTotals.YearTransactionsCount | source_code/mobile/Screens/Clients.js:112-121 | the year filter keeps each in-year transaction with its full multiplicity and drops every other |
| JobTotals.CalculateJobTotals | source_code/mobile/Screens/Clients.js:109-135 | the in-place reduce returns the period income and expenses summed over the jobs; a missing or empty job list gives {0, 0} |
| JobTotals.PeriodTotalsConcat | source_code/mobile/Screens/Clients.js:110-133 | totals over a concatenation of job lists are the sum of the totals of the parts |
| JobTotals.AllTimeAgreesWithClientTotals | source_code/mobile/Screens/Clients.js:109-135 | for 'All Time' the reduce agrees with the per-client income and expense sums of the grouping pass (lines 77-93) |
| JobTotals.IncomeSumOfYearBounded | source_code/mobile/Screens/Clients.js:114-125 | with no negative amount, a year's income from a transaction list is at most its all-time income |
| JobTotals.YearTotalsWithinAllTime | source_code/mobile/Screens/Clients.js:109-135 | with no negative amount, a year's income and expenses over jobs are each at most the all-time ones |
| JobTotals.NegativeAmountBreaksYearBound | source_code/mobile/Screens/Clients.js:109-135 | a job with an income of 10 inside the year and -20 after it has a year income of 10 but an all-time income of -10, so the year bound needs non-negative amounts |
| JobTotals.ClientTotals | source_code/mobile/Screens/Clients.js:286-290 | no selected client gives all zeros; for a selected client, income and expenses are `calculateJobTotals` of its jobs for the selected period (any year or 'All Time'); revenue is always income minus expenses; for 'All Time' the totals are the client's all-time income and expense sums |
| ClientGrouping.Find | source_code/mobile/Screens/Clients.js:64 | the lookup finds the first bucket of that name, or reports that there is none |
| ClientGrouping.AddJob | source_code/mobile/Screens/Clients.js:63-72 | definition: one step of the grouping fold; on first sight of the key an empty bucket is appended, then the job is pushed onto its key's bucket |
| ClientGrouping.Grouped | source_code/mobile/Screens/Clients.js:62-73 | definition: the grouping fold over the jobs in input order, which every grouping lemma is about |
| ClientGrouping.WithTotals | source_code/mobile/Screens/Clients.js:77-93 | definition: a bucket with `totalIncome` and `totalExpenses` set to the sums over its jobs |
| ClientGrouping.Totalled | source_code/mobile/Screens/Clients.js:75-96 | definition: the `.map` step applied to every bucket |
| ClientGrouping.RankByRevenue | source_code/mobile/Screens/Clients.js:97-101 | definition: the `.sort` by revenue ascending, as the stable `SortBy` |
| ClientGrouping.ClientList | source_code/mobile/Screens/Clients.js:60-101 | definition: the list `fetchJobs` stores, grouped, totalled and ranked |
| ClientGrouping.GroupByClient | source_code/mobile/Screens/Clients.js:60-73 | the `clientMap` loop builds exactly the buckets of the specification fold `Grouped` |
| ClientGrouping.AddToBucket | source_code/mobile/Screens/Clients.js:63-72 | one pass of the loop is one step `AddJob` of the fold; `clientMap` keeps naming each bucket's position and gains exactly the job's key |
| ClientGrouping.GroupedNames | source_code/mobile/Screens/Clients.js:62-75 | there is one bucket per distinct client key, in first-seen order |
| ClientGrouping.GroupedBuckets | source_code/mobile/Screens/Clients.js:62-72 | each bucket holds exactly the jobs with its key, in input order, with zero totals |
| ClientGrouping.EachJobInExactlyOneGroup | source_code/mobile/Screens/Clients.js:62-72 | every job is in the bucket named by its key and in no other; bucket names are unique |
| ClientGrouping.GroupsInFirstSeenOrder | source_code/mobile/Screens/Clients.js:62-75 | buckets are listed in the order their keys first occur among the jobs |
| ClientGrouping.AssignTotals | source_code/mobile/Screens/Clients.js:76-96 | the `.map` step sets each bucket's totals to its jobs' income and expense sums and leaves names and jobs alone |
| ClientGrouping.ProcessJobs | source_code/mobile/Screens/Clients.js:60-101 | the whole pass returns the ranked totalled buckets; missing jobs count as none |
| ClientGrouping.ClientListRanked | source_code/mobile/Screens/Clients.js:97-101 | the list is a permutation of the totalled buckets, non-decreasing in revenue, with equal-revenue clients in first-seen order |
| ClientGrouping.ClientListMembers | source_code/mobile/Screens/Clients.js:75-101 | sorting neither adds nor drops a client |
| ClientGrouping.ClientListNamesUnique | source_code/mobile/Screens/Clients.js:60-101 | client names in the list are pairwise distinct |
| ClientGrouping.TotalledBuckets | source_code/mobile/Screens/Clients.js:76-93 | after the `.map` step every bucket holds exactly its key's jobs in input order (at least one), with totals equal to their income and expense sums |
| ClientGrouping.ClientListBuckets | source_code/mobile/Screens/Clients.js:77-93 | every client holds exactly its key's jobs in input order (at least one), with totals equal to their income and expense sums |
| ClientGrouping.ClientListCoversJobs | source_code/mobile/Screens/Clients.js:62-72 | every job's key names a listed client |
| ClientGrouping.ClientListAllTime | source_code/mobile/Screens/Clients.js:109-135 | for every listed client, 'All Time' totals and the modal's summary equal the stored totals and revenue |
| ClientGrouping.RevenueConserved | source_code/mobile/Screens/Clients.js:75-101 | the listed clients' revenues add up to the income minus the expenses of all the jobs |
| ClientGrouping.TotalledRevenue | source_code/mobile/Screens/Clients.js:76-96 | totalling the buckets conserves the overall net revenue |
| ClientGrouping.AddJobRevenue | source_code/mobile/Screens/Clients.js:62-72 | adding one job to the buckets adds that job's net to the sum of the bucket revenues |
| TransactionColumns.NewestFirst | source_code/mobile/Screens/Clients.js:162 | definition: the sort key of the comparator `new Date(b.date) - new Date(a.date)`, the negated date |
| TransactionColumns.NewestFirstOrder | source_code/mobile/Screens/Clients.js:162 | the date sort is a permutation with dates non-increasing |
| TransactionColumns.IncomeColumn | source_code/mobile/Screens/Clients.js:159-163 | `incomeTx` holds exactly the period's transactions of type `"income"`, each as often as filtered, newest first |
| TransactionColumns.ExpenseColumn | source_code/mobile/Screens/Clients.js:165-169 | `expenseTx` holds exactly the period's transactions of type `"expense"`, each as often as filtered, newest first |
| TransactionColumns.ColumnsDisjoint | source_code/mobile/Screens/Clients.js:159-169 | no transaction is in both columns, and one of any other type is in neither |
| TransactionColumns.ColumnsKeepTies | source_code/mobile/Screens/Clients.js:159-169 | within a column, transactions of the same date keep their filtered order |
| TransactionColumns.NewestFirstKeepsTies | source_code/mobile/Screens/Clients.js:162 | the date sort is stable |
| YearCatalog.TxYears | source_code/mobile/Screens/Clients.js:42-45 | definition: the set of years of a transaction list |
| YearCatalog.JobYears | source_code/mobile/Screens/Clients.js:41-46 | definition: the set of years of the transactions of every job; a missing list adds none |
| YearCatalog.ClientYears | source_code/mobile/Screens/Clients.js:40-47 | definition: the set of years of every transaction of every job of every client |
| YearCatalog.TxYearsMembers | source_code/mobile/Screens/Clients.js:42-45 | the years of a transaction list are exactly the years of its dates |
| YearCatalog.JobYearsMembers | source_code/mobile/Screens/Clients.js:41-46 | the years of a job list are exactly the years of its transactions' dates (none for a missing list) |
| YearCatalog.ClientYearsMembers | source_code/mobile/Screens/Clients.js:40-47 | the years of a client list are exactly the years of every transaction of every job of every client |
| YearCatalog.AddTxYears | source_code/mobile/Screens/Clients.js:42-45 | the innermost loop adds each transaction's year once, appending new years after the old ones |
| YearCatalog.AddJobYears | source_code/mobile/Screens/Clients.js:41-46 | the job loop adds the years of all the job's transactions, keeping the set duplicate-free |
| YearCatalog.AddClientYears | source_code/mobile/Screens/Clients.js:40-47 | the client loop adds the years of all transactions of all clients, keeping the set duplicate-free |
| YearCatalog.NewestYearFirst | source_code/mobile/Screens/Clients.js:49 | definition: the sort key of the comparator `(a, b) => b - a`, the negated year |
| YearCatalog.Listing | source_code/mobile/Screens/Clients.js:49 | the listing is 'All Time' followed by exactly the set's years in strictly descending order |
| YearCatalog.AvailableYears | source_code/mobile/Screens/Clients.js:33-53 | the catalog starts with 'All Time' and then lists strictly descending years: exactly the current year and every transaction year; with no clients it is `['All Time', currentYear]` |
| YearCatalog.ListedYearsAreJobYears | source_code/mobile/Screens/Clients.js:40-47 | the years gathered from the grouped client list are exactly the years of the fetched jobs |
| InheritedKeys.Lookup | source_code/mobile/Screens/Clients.js:64 | definition: `clientMap[name]` is a stored bucket for stored keys, an inherited member for the `inherited` names (`Object.prototype`'s, `INHERITED`), `undefined` otherwise |
| InheritedKeys.GroupedAsWritten | source_code/mobile/Screens/Clients.js:60-73 | definition: the grouping fold as written; it stops with no result at the first job whose key is an inherited name |
| InheritedKeys.GroupByClientAsWritten | source_code/mobile/Screens/Clients.js:60-73 | the loop as written, with object-literal lookup, reaches the fold `GroupedAsWritten` |
| InheritedKeys.AsWrittenThrowsOnInheritedKey | source_code/mobile/Screens/Clients.js:62-72 | the loop as written throws exactly when some job's key is an inherited member name, and otherwise builds the intended buckets |
| InheritedKeys.ConstructorClientIsLost | source_code/mobile/Screens/Clients.js:62-72 | a single job for client `"constructor"` makes the loop as written throw, while the intended grouping gives it its own bucket |

## Left out

- React machinery is not modelled: `useState`, `useEffect`, `useMemo`, `useCallback`, `useFocusEffect`,
  the modals, the list rendering and the styles. The effect and memo bodies are modelled as functions and
  methods; the selected client and the selected year are parameters.
- The network is not modelled: `fetch`, `res.json()` and the `.catch` logging are I/O. The model starts
  from the fetched jobs as an `Option<seq<Job>>`.
- `Number(tx.amount || 0)` is modelled for integer amounts only. A missing amount counts as 0. Non-numeric
  strings that become `NaN`, and floating-point rounding, are not modelled.
- `toFixed(2)`, `Math.abs` and the other display formatting are not modelled; they do not affect any total.
- Date parsing and the time zone are abstracted by `Calendar`. So is the last second of a year:
  `new Date(year, 11, 31, 23, 59, 59)` leaves out the final 999 ms, and in the model that is whatever
  `yearEnd` says. Invalid dates, whose `NaN` year the code would put in the catalog, are not represented.
- `Object.values` lists integer-like keys (a client named "2024") first, in numeric order. The model lists
  buckets in first-seen order for every key.
- The members an object literal inherits are modelled only in `InheritedKeys`. `ClientGrouping` uses the
  intended map that holds only stored keys (see Findings).
- A JavaScript `Set` is modelled as a duplicate-free sequence in insertion order.
- `formatDate` and React key strings are display-only and not modelled.
- JobTotals.YearTotalsWithinAllTime: proved only for jobs whose amounts are all non-negative. With negative
  amounts, which the code allows, the bound does not hold (`NegativeAmountBreaksYearBound`).

## Findings

| source | as written | input that shows it | evidently intended | confidence | as-written member | corrected member |
|---|---|---|---|---|---|---|
| source_code/mobile/Screens/Clients.js:60-72 | `clientMap` is an object literal, so `!clientMap[clientName]` is false for inherited member names such as `constructor` or `toString`. No bucket is created, and `clientMap[clientName].jobs.push(job)` throws a TypeError, so the client list is never set. | one job `{client: "constructor", transactions: []}` | every job lands in the bucket of its own key, whatever the client's name | high (not executed) | InheritedKeys.AsWrittenThrowsOnInheritedKey | ClientGrouping.EachJobInExactlyOneGroup |
