# Budget client: a verified model of its list logic and UI state machines

This project models in Dafny the logic of a React budgeting client.
- Budget data: income and expense categories (budgeted and spent amounts), a monthly cash-flow history, and assets and liabilities.
- The tabs showing derived totals: Budget, Cash Flow, Net Worth, Profile.
- A transaction log per category, with an add/delete dialog and a tab that lists every transaction grouped by day.
- A same-list drag-to-reorder of categories.
- An item edit form with a delete confirmation.
- Pull-to-refresh.
- Previous/next month navigation.
- A CSV export of the month's budget.

Amounts are whole cents (`int`), so every total and difference is exact. `toFixed(2)` becomes `Decimal.ToFixed2`, which is proved to parse back to the same number of cents.

Dates are `yyyy-MM-dd` strings compared by code-point order (`Text.Lt`). `Dates.IsoDateOrder` proves that this order is calendar order.

The JavaScript built-ins the code relies on are written out on values:
- `indexOf`, `trim`, `join`, and a split that undoes `join`;
- a stable descending sort by a string key;
- `reduce` as a left fold (`Money.Sum`);
- `Object.fromEntries`, where the last key wins.

Components whose state changes event by event are classes with `modifies` clauses:
- `BudgetContext.BudgetStore`
- `PullToRefresh.PullToRefresh`
- `SortableCategoryList.DragState`
- `TransactionsDialog.Dialog`
- `EditItemDialog.Form`

A handler that calls a callback (`onSave`, `onClose`, `onDelete`, `onUpdate`, `onReorder`, `onRefresh`) returns that call as a value, or counts it in a field. The loops that build the transaction list, the day groups and the CSV rows are methods with loop invariants. Each is proved equal to a specification function, and the listed properties are proved about that function.

Modules follow the program's files:

| file | module |
|---|---|
| budgetData.ts | `BudgetData` |
| BudgetContext.tsx | `BudgetContext` |
| BudgetTab.tsx | `BudgetTab` |
| CashFlowTab.tsx | `CashFlowTab` |
| NetWorthTab.tsx | `NetWorthTab` |
| ProfileTab.tsx | `ProfileTab` |
| MonthSelector.tsx | `MonthSelector` |
| PullToRefresh.tsx | `PullToRefresh` |
| SortableCategoryList.tsx | `SortableCategoryList` |
| TransactionsDialog.tsx | `TransactionsDialog` |
| TransactionsTab.tsx | `TransactionsTab` |
| EditItemDialog.tsx | `EditItemDialog` |
| csvExport.ts | `CsvExport` |

The shared modules are:
- `Wrappers` (Option, Result)
- `Text`
- `Decimal`
- `Money`
- `Dates`
- `DateSort`
- `Grouping`

`BudgetCategory` in budgetData.ts has no transaction list, and `Transaction` and `CustomSection` are used but not declared there. The model defines them from how they are used:
- a transaction is `{id, date, amount, merchant}`;
- a custom section is `{name, items}`;
- a category's transaction list is optional.

## Model

| member | source | states |
|---|---|---|
| BudgetData.SignTone | src/components/CashFlowTab.tsx:24 | the income style exactly when the amount is ≥ 0, the expense style exactly when it is negative |
| BudgetData.OverBudgetNames | src/components/BudgetTab.tsx:59 | a name is listed iff some category with that name has spent > budgeted |
| BudgetData.OverBudgetNamesAppend | src/components/BudgetTab.tsx:24-36 | the over-budget names of two lists in sequence are those of the first followed by those of the second |
| BudgetData.SeedIncomeTotals | src/data/budgetData.ts:24-28 | the seed income has 3 categories, Σspent = 6645 and Σbudgeted = 7000 dollars |
| BudgetData.SeedExpenseTotals | src/data/budgetData.ts:30-39 | the seed expenses have 8 categories, Σspent = 4635 and Σbudgeted = 4700 dollars |
| BudgetData.SeedLatestMonthMatchesCategories | src/data/budgetData.ts:47 | the last cash-flow month is "Feb", and its income and expenses equal the seed income and expense spent totals |
| BudgetData.SeedNetWorth | src/data/budgetData.ts:50-64 | seed assets total 291500, liabilities 228200, net worth 63300 dollars |
| BudgetData.SeedNamesDistinct | src/data/budgetData.ts:24-64 | names are pairwise distinct within each of the four seed lists, so they can serve as render keys |
| BudgetData.SeedOverBudget | src/data/budgetData.ts:24-39 | exactly Investments, Entertainment and Shopping are over budget, in that order |
| BudgetContext.BudgetStore.constructor | src/context/BudgetContext.tsx:26-30 | the five collections start as the five seed constants |
| BudgetContext.BudgetStore.SetIncome | src/context/BudgetContext.tsx:26 | replaces income and leaves the other four collections unchanged |
| BudgetContext.BudgetStore.SetExpenses | src/context/BudgetContext.tsx:27 | replaces expenses and leaves the other four collections unchanged |
| BudgetContext.BudgetStore.SetCashFlow | src/context/BudgetContext.tsx:28 | replaces the cash flow and leaves the other four collections unchanged |
| BudgetContext.BudgetStore.SetAssets | src/context/BudgetContext.tsx:29 | replaces assets and leaves the other four collections unchanged |
| BudgetContext.BudgetStore.SetLiabilities | src/context/BudgetContext.tsx:30 | replaces liabilities and leaves the other four collections unchanged |
| BudgetContext.UseBudget | src/context/BudgetContext.tsx:19-23 | succeeds iff a provider is present, returns its store, and otherwise fails with the provider error message |
| BudgetTab.CardTone | src/components/BudgetTab.tsx:47 | a summary card uses the income tone exactly when its variant is income |
| BudgetTab.SummaryCards | src/components/BudgetTab.tsx:5-52 | three cards (Income, Expenses, Remaining) with the spent totals and budgeted totals; Remaining = income − expenses, with the income style iff ≥ 0; the Remaining card has no "of $X budgeted" line while the other two show their budgeted totals |
| BudgetTab.Pct | src/components/BudgetTab.tsx:58 | for budgeted > 0, the percentage is ≤ 100, equals 100 iff spent ≥ budgeted, is spent/budgeted·100 otherwise, and is ≥ 0 for non-negative spending |
| BudgetTab.Row | src/components/BudgetTab.tsx:57-78 | a row carries the category's fields; `over` iff spent > budgeted, with pct the clamped ratio `Pct(spent, budgeted)` (100 once over); the amount and bar tones follow `over` and the variant |
| BudgetTab.Rows | src/components/BudgetTab.tsx:24-26 | one row per category, in list order |
| BudgetTab.OverRowsAreOverBudget | src/components/BudgetTab.tsx:59 | the rows flagged `over` are exactly the over-budget categories, in order |
| BudgetTab.Render | src/components/BudgetTab.tsx:5-36 | the tab shows the summary cards, then one income row and one expense row per category, in order |
| BudgetTab.SeedSummary | src/components/BudgetTab.tsx:5-17 | on the seed data: income 6645 of 7000, expenses 4635 of 4700, remaining 2010 in the income style |
| BudgetTab.SeedOverRows | src/components/BudgetTab.tsx:59 | on the seed data, exactly Investments, Entertainment and Shopping rows are flagged over |
| CashFlowTab.LatestMonth | src/components/CashFlowTab.tsx:5 | present iff the history is non-empty, and then its last element |
| CashFlowTab.TotalIncome | src/components/CashFlowTab.tsx:6 | the period's income total is not negative when no month's income is |
| CashFlowTab.TotalExpenses | src/components/CashFlowTab.tsx:7 | the period's expense total is not negative when no month's expenses are |
| CashFlowTab.NetCashFlow | src/components/CashFlowTab.tsx:8 | the net cash flow is Σ of each month's income − expenses |
| CashFlowTab.TotalsDifference | src/components/CashFlowTab.tsx:6-8 | total income − total expenses = Σ of each month's income − expenses |
| CashFlowTab.Reverse | src/components/CashFlowTab.tsx:55 | a copy of the same length with element i taken from position n−1−i |
| CashFlowTab.ReverseReverse | src/components/CashFlowTab.tsx:55 | reversing twice gives back the list |
| CashFlowTab.ReverseMultiset | src/components/CashFlowTab.tsx:55 | a reversed copy has the same elements |
| CashFlowTab.SumReverse | src/components/CashFlowTab.tsx:55 | a total does not change under reversal |
| CashFlowTab.BreakdownLine | src/components/CashFlowTab.tsx:57-62 | a month row shows that month's income and expenses, net = income − expenses, in the income tone iff net ≥ 0 |
| CashFlowTab.Breakdown | src/components/CashFlowTab.tsx:55-62 | one row per month, newest first: row i is the line of month n−1−i |
| CashFlowTab.BreakdownNetsSumToNetCashFlow | src/components/CashFlowTab.tsx:8-62 | the nets shown in the breakdown sum to the net cash flow |
| CashFlowTab.BreakdownSum | src/components/CashFlowTab.tsx:57-62 | month rows in source order have nets summing to Σ month nets |
| CashFlowTab.Render | src/components/CashFlowTab.tsx:5-62 | latest month, the two totals, net = their difference with the income tone iff ≥ 0, and the reversed breakdown |
| CashFlowTab.SeedCashFlow | src/components/CashFlowTab.tsx:5-8 | on the seed data: income 41645, expenses 32335, net 9310 in the income tone, latest month Feb, breakdown from Feb back to Sep |
| NetWorthTab.NetWorth | src/components/NetWorthTab.tsx:5-7 | the net worth is what the Assets list's item rows add up to less what the Liabilities list's add up to |
| NetWorthTab.PieData | src/components/NetWorthTab.tsx:9-12 | exactly two slices, Assets then Liabilities, carrying the totals, whose difference is the net worth |
| NetWorthTab.ItemRows | src/components/NetWorthTab.tsx:51-60 | one row per item, in order, with the item's name and value |
| NetWorthTab.ItemRowsSum | src/components/NetWorthTab.tsx:51-60 | the item rows' amounts sum to the list's total |
| NetWorthTab.Listing | src/components/NetWorthTab.tsx:51-76 | the item rows followed by one Total row carrying the list's total |
| NetWorthTab.ListingTotal | src/components/NetWorthTab.tsx:51-76 | the Total row equals the sum of the rows above it and is the only row marked as a total |
| NetWorthTab.Render | src/components/NetWorthTab.tsx:5-76 | totals, net worth = assets − liabilities with the income tone iff ≥ 0, the pie data, and both listings whose Total rows equal the totals |
| NetWorthTab.SeedNetWorthTab | src/components/NetWorthTab.tsx:5-7 | on the seed data: 291500 assets, 228200 liabilities, net worth 63300 in the income tone |
| ProfileTab.MonthlySavings | src/components/ProfileTab.tsx:8-9 | savings = the Budget tab's Income card budgeted figure − its Expenses card amount, which exceeds the Remaining card by the budgeted income not yet received |
| ProfileTab.NetWorth | src/components/ProfileTab.tsx:10-11 | the profile's net worth figure agrees with the Net Worth tab's |
| ProfileTab.StatTone | src/components/ProfileTab.tsx:37 | the expense style exactly when the figure is negative, the foreground style otherwise |
| ProfileTab.Stats | src/components/ProfileTab.tsx:8-44 | savings = Σ income budgeted − Σ expense spent and net worth = Σ assets − Σ liabilities, each in the expense style iff negative |
| ProfileTab.SavingsIgnoresReceivedIncome | src/components/ProfileTab.tsx:8 | savings depend on the income categories only through their budgeted amounts |
| ProfileTab.SumSameValues | src/components/ProfileTab.tsx:8-11 | two lists with the same values position by position have the same total |
| ProfileTab.SeedStats | src/components/ProfileTab.tsx:8-44 | on the seed data: savings 2365 and net worth 63300, both in the foreground style |
| ProfileTab.MenuShape | src/components/ProfileTab.tsx:13-19 | five menu items with distinct titles, Appearance first and Sign Out last; only Sign Out is destructive |
| ProfileTab.IconTone | src/components/ProfileTab.tsx:56 | a menu icon is in the destructive colour exactly when its entry is destructive, in the primary colour otherwise |
| ProfileTab.LabelTone | src/components/ProfileTab.tsx:57 | a menu label is in the destructive colour exactly when its entry is destructive, in the foreground colour otherwise |
| ProfileTab.MenuTones | src/components/ProfileTab.tsx:13-57 | on the menu, Sign Out is the only entry whose icon and label are in the destructive colour |
| MonthSelector.FromIndex | src/components/MonthSelector.tsx:8-9 | every month count is the index of exactly one valid (year, month) |
| MonthSelector.FromIndexOfMonthIndex | src/components/MonthSelector.tsx:8-9 | converting a month to its index and back gives the month |
| MonthSelector.MonthIndexInjective | src/components/MonthSelector.tsx:8-9 | different valid months have different indices |
| MonthSelector.Prev | src/components/MonthSelector.tsx:8 | exactly one calendar month earlier; January rolls back to December of the year before |
| MonthSelector.Next | src/components/MonthSelector.tsx:9 | exactly one calendar month later; December rolls over to January of the next year |
| MonthSelector.PrevNextRoundTrip | src/components/MonthSelector.tsx:8-9 | next of prev, and prev of next, give back the month |
| MonthSelector.PrevNextByIndex | src/components/MonthSelector.tsx:8-9 | prev and next are the months at index −1 and +1 |
| MonthSelector.OnClick | src/components/MonthSelector.tsx:15-28 | the left button selects prev and the right button selects next |
| MonthSelector.ClicksCancel | src/components/MonthSelector.tsx:15-28 | a left click then a right click, or the reverse, returns to the selected month |
| PullToRefresh.Min | src/components/PullToRefresh.tsx:31 | `Math.min`: no more than either argument and equal to one of them |
| PullToRefresh.Rotation | src/components/PullToRefresh.tsx:63 | the rotation lies in [0, 360], is 360 iff the pull reached the threshold, and is 6° per pixel below it |
| PullToRefresh.IndicatorHeight | src/components/PullToRefresh.tsx:59 | the indicator height is the pull distance when that is positive and 0 otherwise |
| PullToRefresh.PullToRefresh.constructor | src/components/PullToRefresh.tsx:11-17 | idle: not pulling, distance 0, not refreshing, no refresh issued |
| PullToRefresh.PullToRefresh.HandleTouchStart | src/components/PullToRefresh.tsx:20-25 | pulling starts, from the touch's y, only when the container exists and is scrolled to the top; nothing else changes |
| PullToRefresh.PullToRefresh.HandleTouchMove | src/components/PullToRefresh.tsx:27-33 | only while pulling and not refreshing, a positive drag d sets the distance to min(d/2, 100); otherwise nothing changes; 0 ≤ distance ≤ 100 is kept |
| PullToRefresh.PullToRefresh.HandleTouchEnd | src/components/PullToRefresh.tsx:35-45 | a no-op while refreshing; at or past the threshold it starts refreshing with the distance pinned at 60 and issues onRefresh once; below it, pulling stops and the distance returns to 0 |
| PullToRefresh.PullToRefresh.CompleteRefresh | src/components/PullToRefresh.tsx:39-44 | when onRefresh resolves, refreshing ends, the distance returns to 0 and pulling stops |
| PullToRefresh.PullToRefresh.RejectRefresh | src/components/PullToRefresh.tsx:40-44 | when onRefresh rejects, nothing is reset: the component is still refreshing |
| PullToRefresh.StuckAfterRejection | src/components/PullToRefresh.tsx:27-44 | after a rejection, touch moves and releases change nothing: the indicator stays open at the threshold and onRefresh is not called again |
| PullToRefresh.Gesture | src/components/PullToRefresh.tsx:20-45 | a whole pull from the top refreshes iff the finger moved at least twice the threshold, issuing onRefresh exactly once then, and, when that call resolves, ends idle |
| SortableCategoryList.Ids | src/components/SortableCategoryList.tsx:82 | one position key `containerId-i` per item, in order |
| SortableCategoryList.KeyInjective | src/components/SortableCategoryList.tsx:82 | equal position keys come from the same container and the same index |
| SortableCategoryList.IdsDistinct | src/components/SortableCategoryList.tsx:82 | the keys of one list are pairwise distinct |
| SortableCategoryList.IndexOfKey | src/components/SortableCategoryList.tsx:93-94 | `indexOf` of item i's key is i |
| SortableCategoryList.ForeignKeyNotInIds | src/components/SortableCategoryList.tsx:93-95 | no key of another container is among this list's keys |
| SortableCategoryList.ArrayMove | src/components/SortableCategoryList.tsx:97 | same length and elements; the moved item lands at the new index; items strictly between shift one place toward the old index; all others stay put |
| SortableCategoryList.RemoveAt | src/components/SortableCategoryList.tsx:97 | one element fewer: the one at the index is gone, the earlier ones stay and the later ones move down one place |
| SortableCategoryList.InsertAt | src/components/SortableCategoryList.tsx:97 | one element more: the new one at the index, the earlier ones stay and the later ones move up one place |
| SortableCategoryList.ArrayMoveInverse | src/components/SortableCategoryList.tsx:97 | moving back from the new index to the old one restores the list |
| SortableCategoryList.ArrayMoveSame | src/components/SortableCategoryList.tsx:97 | a move onto the same index changes nothing |
| SortableCategoryList.DragEndOutcome | src/components/SortableCategoryList.tsx:88-98 | no reorder without a target, onto the item itself, or with an unknown key; otherwise a permutation of the items of the same length |
| SortableCategoryList.DropOnItem | src/components/SortableCategoryList.tsx:91-97 | dropping item i on item j ≠ i reorders to exactly `arrayMove(items, i, j)` |
| SortableCategoryList.DropOnForeignItem | src/components/SortableCategoryList.tsx:93-95 | dropping onto another container's item never reorders |
| SortableCategoryList.DragState.constructor | src/components/SortableCategoryList.tsx:70 | no drag is active initially |
| SortableCategoryList.DragState.HandleDragStart | src/components/SortableCategoryList.tsx:84-86 | records the dragged key |
| SortableCategoryList.DragState.HandleDragEnd | src/components/SortableCategoryList.tsx:88-98 | clears the active key on every path and reports exactly the drag-end outcome |
| SortableCategoryList.DragState.ActiveIndex | src/components/SortableCategoryList.tsx:100 | −1 unless a drag is active and its key is in the list, and then the key's index |
| SortableCategoryList.DragState.Overlay | src/components/SortableCategoryList.tsx:119-125 | the overlay shows the item under drag, at its index, exactly when a drag is active and its key resolves |
| TransactionsDialog.AddAllowedIsTrimTest | src/components/TransactionsDialog.tsx:39 | adding is allowed iff a date is chosen, the amount text is non-empty and the trimmed merchant is non-empty |
| TransactionsDialog.NewTransaction | src/components/TransactionsDialog.tsx:40-45 | the id is the decimal timestamp, the date is `yyyy-MM-dd` of the chosen day, the amount is the parsed amount and the merchant is trimmed |
| TransactionsDialog.AddOutcome | src/components/TransactionsDialog.tsx:38-46 | an update happens iff adding is allowed, and is the old list with the one new transaction appended |
| TransactionsDialog.DeleteById | src/components/TransactionsDialog.tsx:53-56 | the result holds exactly the transactions whose id differs |
| TransactionsDialog.DeleteAbsent | src/components/TransactionsDialog.tsx:54 | deleting an id that is not present returns the list unchanged |
| TransactionsDialog.DeleteAppend | src/components/TransactionsDialog.tsx:54 | delete distributes over concatenation, so the kept transactions stay in order |
| TransactionsDialog.DeleteMultiset | src/components/TransactionsDialog.tsx:54 | every copy of a transaction with the id is removed, and every other transaction keeps its count |
| TransactionsDialog.AddThenDelete | src/components/TransactionsDialog.tsx:46-54 | deleting a freshly added transaction with a new id restores the list |
| TransactionsDialog.Sorted | src/components/TransactionsDialog.tsx:58 | the displayed copy is a permutation of the log, non-increasing by date string |
| TransactionsDialog.Dialog.constructor | src/components/TransactionsDialog.tsx:32-36 | the add form is closed, the date is today, amount and merchant are empty, no delete is pending |
| TransactionsDialog.Dialog.OpenAdd | src/components/TransactionsDialog.tsx:153 | opens the add form and changes nothing else |
| TransactionsDialog.Dialog.CancelAdd | src/components/TransactionsDialog.tsx:141 | closes the add form and changes nothing else |
| TransactionsDialog.Dialog.SetMerchant | src/components/TransactionsDialog.tsx:96 | replaces the merchant text only |
| TransactionsDialog.Dialog.SetAmount | src/components/TransactionsDialog.tsx:107 | replaces the amount text only |
| TransactionsDialog.Dialog.SetDate | src/components/TransactionsDialog.tsx:128 | replaces the chosen date only |
| TransactionsDialog.Dialog.HandleAdd | src/components/TransactionsDialog.tsx:38-51 | reports exactly the add outcome; after an add the form closes and resets amount, merchant and date to today, and after a refused add nothing changes |
| TransactionsDialog.Dialog.RequestDelete | src/components/TransactionsDialog.tsx:82 | marks the transaction as pending deletion and changes nothing else; the confirmation, open while `!!deletingId`, opens iff the id is non-empty |
| TransactionsDialog.Dialog.ConfirmDelete | src/components/TransactionsDialog.tsx:53-56 | with a pending non-empty id it reports the log without that id, otherwise no update, so an update happens iff the confirmation was open; the pending id is cleared and the confirmation closes |
| TransactionsDialog.Dialog.CancelDelete | src/components/TransactionsDialog.tsx:160 | clears the pending id, closing the confirmation, and changes nothing else |
| TransactionsDialog.Dialog.ShowsEmptyNotice | src/components/TransactionsDialog.tsx:69 | "No transactions yet." shows iff the sorted list is empty and the add form is hidden |
| TransactionsTab.TagCategory | src/components/TransactionsTab.tsx:24-28 | one tagged entry per transaction of a category, in order, tagged with its category and kind; a category without a log contributes none |
| TransactionsTab.Collected | src/components/TransactionsTab.tsx:22-42 | one collected entry per logged transaction across income, expenses and every custom section's items |
| TransactionsTab.TagListCount | src/components/TransactionsTab.tsx:24-34 | a list of categories contributes Σ of its logs' lengths, every entry of the given kind |
| TransactionsTab.TagSectionsCount | src/components/TransactionsTab.tsx:36-42 | custom sections contribute Σ over sections and items of the logs' lengths, every entry tagged custom |
| TransactionsTab.CollectedShape | src/components/TransactionsTab.tsx:22-42 | the collected count is the total over income, expenses and every section's items; income entries come first, then expenses, then custom, each tagged accordingly |
| TransactionsTab.PushCategory | src/components/TransactionsTab.tsx:25-27 | the loop appends exactly the category's tagged entries |
| TransactionsTab.PushCategories | src/components/TransactionsTab.tsx:24-34 | the loop appends exactly the tagged entries of every category, in order |
| TransactionsTab.CollectTransactions | src/components/TransactionsTab.tsx:22-42 | the `forEach`/`push` loops build exactly the collected list |
| TransactionsTab.PushSections | src/components/TransactionsTab.tsx:36-42 | the nested loops append exactly every custom section's tagged entries, section by section |
| TransactionsTab.GroupStep | src/components/TransactionsTab.tsx:48-53 | one loop step keeps the grouping invariant for a list one entry longer |
| TransactionsTab.AddToGroup | src/components/TransactionsTab.tsx:50-52 | creating the day's list when it is missing and pushing the entry keeps the grouping invariant for the list one entry longer |
| TransactionsTab.GroupByDate | src/components/TransactionsTab.tsx:48-53 | the dictionary has one key per distinct date, in first-seen order, and each key maps to exactly the entries of that date, in sorted order |
| TransactionsTab.Days | src/components/TransactionsTab.tsx:79-81 | one day section per date key, in order, holding that key's entries and their total |
| TransactionsTab.DaysSums | src/components/TransactionsTab.tsx:79-81 | the day sections together are the entries grouped by key, and their totals sum to those entries' amounts |
| TransactionsTab.Render | src/components/TransactionsTab.tsx:13-81 | a setup prompt when setup is needed; otherwise "no transactions" when nothing was collected; otherwise a listing of the collected entries: their count, a total equal to their amounts' sum and to Σ day totals, one day per distinct date with strictly decreasing dates, each day holding exactly its date's entries in collection order |
| TransactionsTab.ListingFacts | src/components/TransactionsTab.tsx:45-81 | the listing's count is the number of entries and its total their sum, which equals Σ day totals; the days together are a permutation of the entries; date keys strictly decrease; each day holds exactly its date's entries in collection order; the days' dates are exactly the entries' dates |
| TransactionsTab.DaysPartition | src/components/TransactionsTab.tsx:48-81 | the day groups are a partition of all entries, and the day totals sum to the grand total |
| TransactionsTab.DaysOrder | src/components/TransactionsTab.tsx:55 | the days come in strictly decreasing date order |
| TransactionsTab.DaysContents | src/components/TransactionsTab.tsx:45-53 | each day holds exactly its date's entries, in collection order, and its total is their sum |
| TransactionsTab.DaysDates | src/components/TransactionsTab.tsx:55 | there is one day per distinct transaction date and no other |
| TransactionsTab.AmountSign | src/components/TransactionsTab.tsx:107-108 | "+" exactly for income entries and "-" for all others |
| EditItemDialog.InitialValue | src/components/EditItemDialog.tsx:19 | a number field holding 0 starts as "", every other field with its value |
| EditItemDialog.InitialValues | src/components/EditItemDialog.tsx:18-20 | the starting map has at most one entry per field |
| EditItemDialog.InitialValuesKeys | src/components/EditItemDialog.tsx:18-20 | the map has an entry exactly for the fields' keys |
| EditItemDialog.InitialValuesLastWins | src/components/EditItemDialog.tsx:19 | a key holds the starting value of the last field with that key |
| EditItemDialog.InitialValuesDistinct | src/components/EditItemDialog.tsx:18-20 | with distinct keys, every field's key holds that field's starting value |
| EditItemDialog.EditedValue | src/components/EditItemDialog.tsx:44 | a number field stores "" for empty text and the parsed number otherwise; a text field stores the text |
| EditItemDialog.Edit | src/components/EditItemDialog.tsx:44 | the edited key gets the edited value, and every other key is unchanged |
| EditItemDialog.EditLastWins | src/components/EditItemDialog.tsx:43-45 | of two edits of the same field, the later decides |
| EditItemDialog.EditCommutes | src/components/EditItemDialog.tsx:43-45 | edits of different fields can be applied in either order |
| EditItemDialog.Form.constructor | src/components/EditItemDialog.tsx:14-21 | the map starts from the fields, with the confirmation closed; the form records whether `onDelete` was passed |
| EditItemDialog.Form.OnChange | src/components/EditItemDialog.tsx:43-45 | one keystroke applies exactly one edit to the map |
| EditItemDialog.Form.HandleSave | src/components/EditItemDialog.tsx:23-26 | `onSave` with the current map, then `onClose` |
| EditItemDialog.Form.OnOpenChange | src/components/EditItemDialog.tsx:30 | closing the dialog calls `onClose`, and opening calls nothing |
| EditItemDialog.Form.RequestDelete | src/components/EditItemDialog.tsx:51-55 | the Delete button exists only when `onDelete` is given (its precondition); pressing it opens the confirmation and keeps the map |
| EditItemDialog.Form.ConfirmDelete | src/components/EditItemDialog.tsx:64-72 | `onDelete` (when given) then `onClose`, and always `onDelete` when the confirmation was open; the confirmation closes |
| EditItemDialog.Form.CancelDelete | src/components/EditItemDialog.tsx:64-71 | calls nothing and closes the confirmation |
| EditItemDialog.DeleteSession | src/components/EditItemDialog.tsx:51-72 | mounting with `onDelete`, pressing Delete and confirming calls `onDelete` then `onClose`, with the starting map untouched |
| EditItemDialog.EditAndSave | src/components/EditItemDialog.tsx:18-45 | mounting, one keystroke and save hand `onSave` the starting map with exactly that edit, then close |
| CsvExport.ItemRow | src/lib/csvExport.ts:12-21 | five cells: the section label, then the item name |
| CsvExport.ItemRowAmounts | src/lib/csvExport.ts:12-21 | the last three cells read back as budgeted, spent (Actual) and spent − budgeted |
| CsvExport.ItemRowCells | src/lib/csvExport.ts:12-21 | the last three cells are `toFixed(2)` of budgeted, spent and spent − budgeted |
| CsvExport.SectionRows | src/lib/csvExport.ts:11-13 | one row per item of a section, in order |
| CsvExport.CustomRowsAt | src/lib/csvExport.ts:19-23 | item j of custom section k is the row at offset Σ of the earlier sections' sizes plus j |
| CsvExport.CustomRowsCount | src/lib/csvExport.ts:19-23 | the custom rows number Σ over sections of their item counts |
| CsvExport.Rows | src/lib/csvExport.ts:9-23 | the header first, and 1 + income + expenses + Σ custom items rows in all |
| CsvExport.RowsShape | src/lib/csvExport.ts:9-23 | 1 + income + expenses + Σ custom items rows: the header, then the income rows, then the expense rows, then the custom sections' rows |
| CsvExport.RowsWidth | src/lib/csvExport.ts:9-23 | every row, the header included, has five cells |
| CsvExport.PushRows | src/lib/csvExport.ts:11-13 | the loop appends exactly a section's rows |
| CsvExport.BuildRows | src/lib/csvExport.ts:9-23 | the `push` loops build exactly the specified rows |
| CsvExport.QuoteCell | src/lib/csvExport.ts:25 | the cell wrapped in one double quote on each side |
| CsvExport.QuotedCells | src/lib/csvExport.ts:25 | each cell of a row quoted, in order |
| CsvExport.CsvLine | src/lib/csvExport.ts:25 | a line of at least one cell starts and ends with a double quote |
| CsvExport.CsvLines | src/lib/csvExport.ts:25 | one line per row, in order |
| CsvExport.CsvContent | src/lib/csvExport.ts:25 | for at least one row and no empty row, the content starts and ends with a double quote, so no newline ends it |
| CsvExport.FileName | src/lib/csvExport.ts:30 | `budget-` + month key + `.csv` |
| CsvExport.ExportBudgetToCsv | src/lib/csvExport.ts:8-30 | the content is the rows as CSV and the file name is that of the month |
| CsvExport.CellsFree | src/lib/csvExport.ts:9-23 | a character that no label or name contains, and that is not in a formatted amount, is in no cell |
| CsvExport.RowOrigin | src/lib/csvExport.ts:11-23 | every data row is the row of some item under a label free of the given character |
| CsvExport.ContentLines | src/lib/csvExport.ts:25 | no label or name holds a newline → splitting the content at newlines gives back one line per row, with 1 + income + expenses + Σ custom items lines |
| CsvExport.LineCells | src/lib/csvExport.ts:25 | cells without commas are recovered, still quoted, by splitting a line at commas |
| CsvExport.ContentEndsWithQuote | src/lib/csvExport.ts:25 | the content starts and ends with a double quote; no newline follows the last row |
| CsvExport.QuoteCellFree | src/lib/csvExport.ts:25 | quoting adds no character other than the double quote |
| CsvExport.QuoteCollision | src/lib/csvExport.ts:25 | for any a and b, the one cell `a","b` writes the same line as the two cells a and b |
| CsvExport.UnescapedQuoteCollision | src/lib/csvExport.ts:25 | embedded quotes are not doubled, so the one cell `a","b` and the two cells `a`, `b` give the same line |
| Text.IndexOf | src/components/SortableCategoryList.tsx:93-100 | −1 iff absent, and otherwise the first position holding the value |
| Text.Trim | src/components/TransactionsDialog.tsx:39-44 | the result is the slice of the text left between a blank prefix and a blank suffix; it is empty iff the text is all white space, and otherwise neither starts nor ends with white space |
| Text.TrimIdempotent | src/components/TransactionsDialog.tsx:44 | trimming a trimmed merchant changes nothing |
| Text.Join | src/lib/csvExport.ts:25 | the joined string starts with the first part |
| Text.JoinSeparators | src/lib/csvExport.ts:25 | when no part holds the separator, the joined string holds exactly one separator fewer than there are parts |
| Text.SplitJoin | src/lib/csvExport.ts:25 | splitting a join at its separator gives back the parts when no part contains it |
| Decimal.Digits | src/components/TransactionsDialog.tsx:41 | `String(n)` of a timestamp is a non-empty string of digits that starts with "0" only for 0 (no leading zeros) |
| Decimal.ParseDigitsOfDigits | src/components/TransactionsDialog.tsx:41 | the decimal text of a timestamp reads back as that timestamp |
| Decimal.DigitsInjective | src/components/TransactionsDialog.tsx:41 | different timestamps give different ids |
| Decimal.FixedWidthOrder | src/components/TransactionsDialog.tsx:42 | fixed-width decimal fields compare as strings exactly as their values compare |
| Decimal.ZeroPadIsFixedWidth | src/components/TransactionsDialog.tsx:42 | zero padding of a number that fits is its fixed-width decimal text |
| Decimal.ToFixed2 | src/lib/csvExport.ts:12 | `toFixed(2)` writes a minus sign exactly for a negative amount, then at least one digit, the point and two decimal digits |
| Decimal.ToFixed2RoundTrip | src/lib/csvExport.ts:12 | `toFixed(2)` of a number of cents reads back as the same cents |
| Decimal.ToFixed2Alphabet | src/lib/csvExport.ts:12 | `toFixed(2)` writes only digits, "." and "-" |
| Dates.DaysInMonth | src/components/TransactionsDialog.tsx:42 | a month has 28 to 31 days |
| Dates.IsoDate | src/components/TransactionsDialog.tsx:42 | for a valid date before the year 10000, `yyyy-MM-dd` is the year in exactly 4 digits, the month and the day in exactly 2, joined by "-" |
| Dates.IsoDateOrder | src/components/TransactionsDialog.tsx:58 | two `yyyy-MM-dd` strings compare as strings exactly as their dates compare, and are equal iff the dates are |
| Text.Lt | src/components/TransactionsDialog.tsx:58 | code-point order: a proper prefix comes first, and no string comes before a prefix of itself, itself included |
| Text.LtTotal | src/components/TransactionsTab.tsx:55 | the string order is total on distinct strings |
| Text.NotLtTransitive | src/components/TransactionsTab.tsx:45 | "not before" is transitive, as a descending comparator needs |
| DateSort.SortDesc | src/components/TransactionsTab.tsx:45 | the sorted list is a permutation of the input with the same length |
| DateSort.SortDescSorted | src/components/TransactionsTab.tsx:45 | its keys are non-increasing |
| DateSort.SortDescStable | src/components/TransactionsTab.tsx:45 | entries with equal keys keep their input order |
| DateSort.SortDescOfSorted | src/components/TransactionsTab.tsx:45 | a list already in order is left unchanged |
| DateSort.InsertSorted | src/components/TransactionsTab.tsx:45 | inserting into a sorted list keeps it sorted |
| DateSort.FilterKeyAppend | src/components/TransactionsTab.tsx:48-53 | selecting one key distributes over concatenation |
| Grouping.FirstKeys | src/components/TransactionsTab.tsx:48-55 | distinct keys, exactly the keys that occur |
| Grouping.DistinctPermutation | src/components/TransactionsTab.tsx:55 | sorting distinct keys keeps them distinct |
| Grouping.StrictlyDescending | src/components/TransactionsTab.tsx:55 | distinct keys sorted descending strictly decrease |
| Grouping.GroupsPartition | src/components/TransactionsTab.tsx:48-53 | groups taken key by key over all occurring keys are a permutation of the entries |
| Money.SumAppend | src/components/BudgetTab.tsx:5 | the total of a concatenation is the sum of the totals |
| Money.SumPermutation | src/components/TransactionsTab.tsx:75 | a total does not depend on the order of the list |
| Money.Sum | src/components/BudgetTab.tsx:5 | `reduce` summing from 0: a total of amounts none of which is negative is not negative |

## Left out

- Authentication, Supabase calls and deep-link listeners (AuthContext.tsx, Auth.tsx, ResetPassword.tsx): asynchronous network I/O against libraries that are not part of this model.
- The per-month store and its persistence (`needsSetup`, `customSections`, `selectedMonth`, importing from a previous month). The five-array budget context does not implement them. The Transactions tab and the CSV export take the custom sections and `needsSetup` as inputs, and month navigation works on a (year, month) value.
- Day-of-month clamping by `addMonths`/`subMonths`: months are modelled at (year, month) granularity.
- Cross-container drag moves and the dnd-kit sensors, collision detection and transforms: none of them appears in the same-list reorder. The resolved `active` and `over` keys are inputs.
- Rendering and formatting: `toLocaleString` currency text, date-fns display formats, recharts charts, the page layout and the month set-up prompt.
- The Blob, `createObjectURL` and anchor-click download at the end of the CSV export (csvExport.ts:26-32). `CsvExport.ExportBudgetToCsv` returns the content and the file name.
- Floating point: amounts are whole cents. `BudgetTab.Pct` and `BudgetTab.Row` require budgeted > 0 instead of modelling the division by zero. Edit-form numbers and pull distances are `real`.
- `Number(text)` parsing, `Date.now()` and `new Date()` are parameters. A non-numeric amount (NaN) is not modelled.
- The `await onRefresh()` suspension is split into `HandleTouchEnd` and then `CompleteRefresh` (the promise resolves) or `RejectRefresh` (it rejects). The component does not catch a rejection, so it stays refreshing, which `PullToRefresh.StuckAfterRejection` states. React's stale closures and re-renders between the steps are not modelled.
- `DateSort.SortDesc` and `TransactionsDialog.Sorted`: `localeCompare` is modelled as code-point order (`Text.Lt`). That agrees with locale collation on `yyyy-MM-dd` dates, but differs from it on general text (letter case, accents, strings that collate as equal).
- `DateSort.SortDesc`: JavaScript sorts `allTransactions` in place. The model sorts a sequence value, the stable insertion sort standing for the engine's stable sort, so in-place update and aliasing of the array are not captured.
- CsvExport: cells are quoted without doubling embedded quotes, unlike section 2, rule 7 of RFC 4180. The model follows the code, and `CsvExport.UnescapedQuoteCollision` shows the consequence.
