# Centsible client logic, modelled in Dafny

This project models the client-side logic of the Centsible personal-finance app's
React Native screens. The screens are mostly rendering and HTTP calls. Three pieces
have real rules:

- **The transaction ledger** (`screens/transaction.js`). Each fetched record gets a
  category label and a list key. The list is kept newest first by a stable date sort,
  both after a load and after an add. Delete looks the key up and, only once the
  server confirms, filters that key out. The balance is Income minus Expense.
- **The monthly spending report** (`Centsible/screens/reports.js`). The spendings
  (negative amounts) of the selected month are grouped by category. This gives
  per-category totals, one pie-chart entry per category with a cyclic palette
  colour, and per-category detail rows.
- **The notification settings** (`screens/profile.js`). A master switch drives two
  child switches, and there is a logout action.

Modules and files:

- `wrappers.dfy` (`Wrappers`): `Option`.
- `decimal.dfy` (`Decimal`): the decimal text of `index.toString()` and `id.toString()`.
- `transactions.dfy` (`Transactions`): records, labels, keys, the sort, find and filter
  by key, the balance, the add request and the add label, plus their lemmas.
- `transaction_screen.dfy` (`TransactionScreen`): the class `Screen`. It holds the list
  and the expanded key. Its load, add, delete and expand methods take the server's
  answers as parameters.
- `reports.dfy` (`Reports`): the report. The specification functions group by
  category. Two methods mirror the source's two `forEach` passes.
- `profile.dfy` (`Profile`): the class `ProfileScreen` with its switches.

Modelling choices:

- Amounts are integer cents.
- Dates are integer timestamps. A report transaction carries its month already computed.
- JavaScript keys are compared with `===`, so a key is a number, a string or absent
  (`Key`). A number key never equals a string key.
- "Falsy id" means `null`, `undefined` or 0.
- Every outcome of the HTTP service is a method parameter: list fetch, category-name
  lookup, create and delete. The bank statement of the report is also a parameter.
- The category-name lookups of a load are positional, one outcome per fetched record.
  This stands for `Promise.all` over `data.map`.
- The sort is a stable insertion sort, newest first. JavaScript's `Array.prototype.sort`
  is stable.

The code behaves as follows where a reader might expect otherwise:

- Add does no validation. A negative amount or an Expense without a category is sent
  as is. A non-numeric amount is sent as the string "NaN" (`parseFloat`, then
  `toFixed(2)`).
- Add does not label the way load does. Add uses the form's own type and category id.
  An Expense with no selected category gets "Unknown Category" without any lookup.
  `AddLabelMatchesReload` states when the two rules agree.
- Delete sends the id of the first entry with the key. On success it removes every
  entry with that key, not just one record.
- An added record's key can collide with a loaded one. A loaded record with a falsy id
  whose label fell back to "Unknown Category" is keyed `index.toString()`, and an added
  record is keyed `id.toString()`, so the two share a key when the id equals the index
  (`AddedKeyMatchesFallback`). Deleting either row then finds the first of the two, and
  a successful delete removes both.
- Add puts the new record at its sorted place by prepending and re-sorting.
  `PrependThenSort` proves that this is insertion at the sorted position.

## Model

| member | source | states |
|---|---|---|
| `Transactions.ReconcileAll` | screens/transaction.js:35-79 | the map keeps the fetched list: same length, and entry i carries record i unchanged, whatever the lookup outcomes |
| `Transactions.ReconcileRules` | screens/transaction.js:38-77 | Income gets label "Income" and key = id. An Expense whose lookup succeeds gets the looked-up name and key = id. An Expense whose lookup failed or threw, and any other type, gets "Unknown Category" and key = id if truthy, else the index as a string |
| `Transactions.FallbackKeysDistinct` | screens/transaction.js:60 | two records that both fall back to `index.toString()` as key, at different positions, get different keys |
| `Decimal.NatToDecimal` | screens/transaction.js:60 | the text of an index is a non-empty string of decimal digits, one digit exactly for 0 to 9 |
| `Decimal.NatToDecimalInjective` | screens/transaction.js:60 | different indices have different decimal texts |
| `Decimal.IntToDecimal` | screens/transaction.js:147 | the text of an id is non-empty and starts with '-' exactly for negative ids |
| `Decimal.IntToDecimalInjective` | screens/transaction.js:147 | different ids give different `id.toString()` keys |
| `Transactions.Insert` | screens/transaction.js:151-154 | inserting adds exactly the new entry: length + 1, multiset = old multiset plus the entry |
| `Transactions.InsertSorted` | screens/transaction.js:151-154 | inserting into a newest-first list gives a newest-first list |
| `Transactions.InsertPosition` | screens/transaction.js:152-153 | the new entry lands right after the entries strictly newer than it, so before every entry with the same date |
| `Transactions.SortByDate` | screens/transaction.js:82 | the sort yields a permutation of its input, ordered by date, newest first |
| `Transactions.SortStable` | screens/transaction.js:82 | the sort is stable: for every date, the entries of that date keep their input order |
| `Transactions.SortSorted` | screens/transaction.js:153 | re-sorting a list that is already newest first leaves it unchanged |
| `Transactions.PrependThenSort` | screens/transaction.js:151-154 | prepending to a newest-first list and sorting is insertion at the sorted position |
| `Transactions.LoadKeepsEveryRecord` | screens/transaction.js:35-83 | the loaded list has one entry per fetched record, and every fetched record appears in it, including those whose lookup failed |
| `Transactions.FindByKey` | screens/transaction.js:298-302 | it gives the index of the first entry with the key, or nothing exactly when no entry has the key |
| `Transactions.WithoutKey` | screens/transaction.js:318 | the filter keeps exactly the entries whose key differs |
| `Transactions.WithKey` | screens/transaction.js:318 | the entries the filter drops are exactly those carrying the key |
| `Transactions.WithoutKeyAppend` | screens/transaction.js:318 | the filter distributes over concatenation, so survivors keep their order |
| `Transactions.WithoutKeySplit` | screens/transaction.js:318 | survivors and removed entries together make up the whole list, as length and as multiset |
| `Transactions.WithoutAbsentKey` | screens/transaction.js:318 | filtering a key that no entry has changes nothing |
| `Transactions.WithoutKeySorted` | screens/transaction.js:318-319 | a filtered newest-first list is still newest first |
| `Transactions.BalanceAppend` | screens/transaction.js:227-234 | one more record changes the balance by its contribution: + amount for Income, - amount for Expense, 0 for any other type |
| `Transactions.BalanceConcat` | screens/transaction.js:224-237 | the balance of a concatenation is the sum of the balances |
| `Transactions.BalanceInsert` | screens/transaction.js:224-237 | inserting an entry adds exactly its contribution to the balance |
| `Transactions.BalanceSort` | screens/transaction.js:224-237 | sorting never changes the balance |
| `Transactions.BalanceAfterAdd` | screens/transaction.js:151-154 | after an add, the balance is the old balance plus the new record's contribution |
| `Transactions.BalanceAfterRemove` | screens/transaction.js:318 | after a delete, the balance loses exactly the contributions of the removed entries |
| `Transactions.CalculateBalance` | screens/transaction.js:224-237 | the loop returns the sum of Income amounts minus the sum of Expense amounts (0 for the empty list) |
| `Transactions.NewTransactionRequest` | screens/transaction.js:103-112 | the create request carries the form's amount, type, description and date for user 1, and a null category id for an Income, and the form's own category id (possibly null, when none was picked) for an Expense |
| `Transactions.AddedLabel` | screens/transaction.js:126-141 | an added Income is labelled "Income". A lookup is made only for a non-Income with a truthy category id, and its success gives the name. Every other case gets "Unknown Category" |
| `Transactions.AddedEntry` | screens/transaction.js:143-148 | the added entry is the server's record with the add label and key `id.toString()`. There is no entry exactly when the record has no id |
| `Transactions.AddLabelMatchesReload` | screens/transaction.js:126-141 | an added Income, or an added Expense with a selected category, gets the label a reload would give it with the same lookup outcome |
| `Transactions.AddedKeyNeverNumber` | screens/transaction.js:147 | an added record's string key never equals a loaded record's id key |
| `Transactions.AddedKeyMatchesFallback` | screens/transaction.js:38-77 | an added record's key equals a loaded record's key exactly when the loaded record is keyed by its index (falsy id, no successful Expense lookup, not an Income) and the created id equals that index |
| `TransactionScreen.RejectionAlert` | screens/transaction.js:322 | the delete-failure alert is the server's message when that is a non-empty string, else the default text |
| `TransactionScreen.Screen.constructor` | screens/transaction.js:21-22 | the screen starts with an empty list and no expanded row |
| `TransactionScreen.Screen.FetchTransactions` | screens/transaction.js:26-91 | on an ok response the list becomes the reconciled records, stable-sorted newest first. On a non-ok response or an exception the list is unchanged and the matching alert is reported |
| `TransactionScreen.Screen.HandleAddTransaction` | screens/transaction.js:97-167 | the request is always sent. Success with an id inserts the labelled entry at its sorted place (the list stays newest first). A rejection, an exception or a record without id leaves the list unchanged; only a rejection's failure carries the server's text |
| `TransactionScreen.Screen.DeleteTransaction` | screens/transaction.js:294-328 | an unknown key sends nothing and changes nothing. Otherwise the first match's id is sent. Only a successful reply removes every entry with the key, and the order is kept. Failure leaves the list unchanged with the right alert |
| `TransactionScreen.Screen.HandleExpandTransaction` | screens/transaction.js:211-214 | pressing the expanded key collapses it to none, and pressing any other key expands that key |
| `Reports.GetColor` | Centsible/screens/reports.js:14-15 | the colour of an index is always one of the eight palette entries |
| `Reports.GetColorCycles` | Centsible/screens/reports.js:15 | colours repeat with period 8, and the first eight indices get the palette in order |
| `Reports.Abs` | Centsible/screens/reports.js:28 | `Math.abs` gives the value or its negation, never negative |
| `Reports.Categories` | Centsible/screens/reports.js:19-34 | the chart's categories are distinct, and a category is among them exactly when some negative transaction of the selected month has it |
| `Reports.TotalPositive` | Centsible/screens/reports.js:24-28 | a category's total is strictly positive exactly when it has a contributing transaction, and 0 otherwise |
| `Reports.SpendingIsSumOfTotals` | Centsible/screens/reports.js:32 | the sum of all category totals is the sum of abs(amount) over all contributing transactions |
| `Reports.SumOfTotalsStep` | Centsible/screens/reports.js:25-28 | one more transaction adds its abs(amount) to the sum over distinct categories exactly when it contributes to one of them |
| `Reports.SumValuesOfTotals` | Centsible/screens/reports.js:32 | reducing the stored totals gives the sum of the category totals |
| `Reports.ProcessData` | Centsible/screens/reports.js:17-44 | one chart entry per distinct contributing category, in first-occurrence order. Its name is the category, its population that category's total (positive) and its colour `GetColor(i)`. The total spending is the sum of abs(amount) over contributing transactions |
| `Reports.CategoryDetails` | Centsible/screens/reports.js:50-64 | the detail map has a key exactly for each contributing category. Its rows are that category's contributing transactions in statement order, with absolute amounts |
| `Reports.DetailsMatchTotal` | Centsible/screens/reports.js:50-62 | the amounts of a category's detail rows add up to its chart total |
| `Reports.DetailsNonEmpty` | Centsible/screens/reports.js:56-60 | a category has detail rows exactly when it has a contributing transaction |
| `Reports.ReportConsistent` | Centsible/screens/reports.js:46-64 | the two passes of the effect agree: same categories, and each category's rows sum to its total |
| `Profile.ProfileScreen.constructor` | screens/profile.js:6-10 | all three notification flags start false |
| `Profile.ProfileScreen.HandleLogout` | screens/profile.js:12-14 | the logged-in flag becomes false and nothing else changes |
| `Profile.ProfileScreen.ToggleNotifications` | screens/profile.js:16-30 | the master flag is negated, and both child flags take its new value |
| `Profile.ProfileScreen.ToggleReminderNotification` | screens/profile.js:32-34 | the switch is rendered only while the master flag is on (line 86); only the reminder flag is negated, and the children still follow the master |
| `Profile.ProfileScreen.ToggleBudgetWarningNotification` | screens/profile.js:36-38 | the switch is rendered only while the master flag is on (line 86); only the budget-warning flag is negated, and the children still follow the master |

## Left out

- HTTP and the network. Every `fetch`, response JSON parsing and URL are absent. The
  answers are parameters (`ListReply`, `Lookup`, `CreateReply`, `DeleteReply`).
- `updateCurrentBalanceInDB` and the effect meant to push the balance
  (screens/transaction.js:169-190, 216-221). As written, its dependency list reads
  `calculateBalance` before that `const` is declared at line 224. With native `const`
  semantics this throws a ReferenceError during render, so the screen never renders.
  The model assumes the other case: `const` compiled to `var` with no dead-zone check,
  where the list is `[undefined]` and the effect runs once, on mount. Then these are
  best-effort network writes with no effect on local state.
- Concurrency. `Promise.all` is modelled as a positional, sequential map. Overlapping
  loads and the stale `transactions` captured by `deleteTransaction` are not modelled.
- Floating point. Amounts are exact integer cents. `parseFloat`, `toFixed(2)` and NaN
  amounts are not modelled, and neither is the chart's `percentage` field
  (Centsible/screens/reports.js:40).
- Dates. `new Date(...)`, `toISOString`, `toLocaleDateString` and `getMonth()` are
  absent. An invalid date, which makes the sort comparator NaN, is not modelled.
- Fetched list elements that are not records. A `null` or `undefined` element throws at
  `transaction.transactiontype` and again at `transaction.id` in the catch, so the whole
  load throws, which is the `ListThrew` reply. A number or string element takes the
  last branch and is kept as "Unknown Category" with key `index.toString()`; `Record`
  cannot express it.
- A lookup response without `categoryname` (an `undefined` label). `Lookup.Found`
  always carries a string.
- `null` and `undefined` ids become one absent id. Their keys `null` and `undefined`
  become one `NoKey`. So when nothing is expanded (`null`), pressing a row whose key is
  `null` expands it in the model, while the source (`null === null`) keeps nothing expanded.
  The merge also changes delete. An Income, or an Expense whose lookup succeeded, keeps
  its id as key: `undefined` when the JSON has no `id`, `null` when it has `id: null`. The source's `!==` and `===`
  (screens/transaction.js:298, 318) tell them apart, but in the model `FindByKey` with
  `NoKey` can pick either, and a successful delete filters out both kinds.
- RejectionAlert: takes the rejection body's `message` as an optional string. In the
  source (screens/transaction.js:322) it can be any JSON value, and a truthy non-string
  is shown as is. A `null` body throws at `.message` and lands in the catch at 324-326,
  which the model's `DeleteThrew` covers only as a separate reply.
- Decimal.IntToDecimal: writes every integer in plain digits. JavaScript ids are doubles,
  exact only up to 2^53, and `toString` switches to exponent form from 1e21. The model's
  ids are unbounded integers, so keys of ids beyond those bounds are not modelled.
- HandleAddTransaction: the failure carries the server's response text only for a
  rejection. For an exception (network error, or `toString` of a missing id) the
  platform's error message is not modelled.
- Report dictionaries: JavaScript enumerates integer-like keys (a category named "12")
  before the others. Category names that clash with `Object.prototype` members
  ("constructor", "__proto__") are also not modelled. The model assumes plain string
  keys in insertion order.
- The selected month of the report is never changed by the screen. It is a parameter.
- UI. Alerts are kept as outcome strings only. Rendering, styles, navigation,
  `resetForm`, `handleIndexChange` (only its two types are kept, as `FormType`),
  `closeRow`, the swipe animation, the pie chart and `handleChangePasswordPress` (it
  only logs) are not modelled.
