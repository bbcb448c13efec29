# Cashira core, modelled in Dafny

Cashira is a small personal-finance web app. Users record income and expense
transactions; the dashboard shows totals and three charts; the transactions
page lists them under day headings and deletes them optimistically. This
project models the sequential logic of that app and proves what it promises.
The modelled parts are:

- the dashboard totals (`DashboardStats`);
- the 7-day and the 4-week (Monday to Sunday) charts (`DailyChart`, `WeeklyChart`, on top of
  the shared buckets and sums in `Ledger`);
- the current-month expense pie (`MonthlyChart`);
- the grouped transaction list and its delete (`TransactionList`, on top of the insertion-ordered
  object model in `Common` and the `reduce` grouping in `Grouping`);
- currency detection, persistence and formatting (`CurrencyContext`, with its tables in
  `Constants` and JS number text in `NumberText`);
- the add-transaction form (`TransactionForm`);
- the transactions API route (`TransactionsRoute`, over the JSON values of `JsonData`);
- the migration script that moves root transactions into per-user collections (`Migration`);
- the request middleware (`Middleware`);
- the light/dark theme provider (`ThemeContext`).

Conventions of the model:

- Amounts are exact `real`s.
- An instant is an `int` of local milliseconds. Its calendar day is `Day(t) = t / 86400000`,
  and the weekday is computed from 1970-01-01, a Thursday.
- A JS object that the code fills and deletes from is a `Dict`: a key order plus a map.
  This makes `Object.keys`, `Object.values` and `Object.entries` follow insertion order.
- Components whose state the source updates in place are classes, and their handlers are
  methods. The handlers include `StatsView.FetchTransactions`, `TransactionListView.HandleDelete`,
  `FormState.HandleSubmit`, `CurrencyProvider.DetectLocation` and the `ThemeProvider` effects.
- The chart loops are methods over arrays or sequences. Each is proved equal to a fold
  function, and the chart properties are proved about that fold.
- Outside effects are parameters:
  - the signed-in user;
  - the fetched list, or its failure;
  - `confirm`;
  - the location lookup;
  - `localStorage` slots;
  - `JSON.parse` and `JSON.stringify`;
  - the system colour preference;
  - the store's answers;
  - the clock;
  - the month/year calendar.

## Model

| member | source | states |
|---|---|---|
| DashboardStats.StatsView.constructor | src/components/dashboard/DashboardStats.tsx:20-22 | starts with all-zero stats, loading, and no error |
| DashboardStats.StatsView.FetchTransactions | src/components/dashboard/DashboardStats.tsx:28-54 | on success the stats are the income total, the expense total and their difference over the fetched list, and the error is cleared; on failure the stats are kept and the error is 'Failed to load transaction data'; loading ends false on both paths |
| DashboardStats.StatsOfEmpty | src/components/dashboard/DashboardStats.tsx:20-41 | an empty list gives the same all-zero stats the component starts with |
| DashboardStats.StatsAppend | src/components/dashboard/DashboardStats.tsx:35-47 | income, expenses and balance are additive over concatenated lists |
| DashboardStats.StatsSnoc | src/components/dashboard/DashboardStats.tsx:35-47 | one more transaction adds its amount to income when its type is 'income', to expenses when it is 'expense', and to neither otherwise; the balance moves accordingly |
| DashboardStats.StatsOrderIndependent | src/components/dashboard/DashboardStats.tsx:35-41 | the stats do not depend on the order of the list |
| DashboardStats.ComputeStats | src/components/dashboard/DashboardStats.tsx:35-47 | definition: income sums the 'income' amounts, expenses the 'expense' amounts, and the balance is their difference; its properties are StatsOfEmpty, StatsSnoc, StatsAppend and StatsOrderIndependent |
| Ledger.DayBounds | src/components/dashboard/DailyChart.tsx:62-65 | an instant lies between a day's start and end, both inclusive, exactly when it falls on that day |
| Ledger.DayMonotone | src/components/transactions/TransactionList.tsx:41-46 | a later instant never falls on an earlier day |
| Ledger.Weekday | src/components/dashboard/WeeklyChart.tsx:48 | the weekday is one of seven values |
| Ledger.MondayOf | src/components/dashboard/WeeklyChart.tsx:48-49 | the week start is a Monday on or before the day, less than a week before it |
| Ledger.MondayShift | src/components/dashboard/WeeklyChart.tsx:47-48 | going back k weeks moves the week's Monday back k weeks |
| Ledger.TotalAppend | src/components/dashboard/DashboardStats.tsx:37 | the reduce-sum is additive over concatenation |
| Ledger.TotalPermutation | src/components/dashboard/DashboardStats.tsx:37 | the reduce-sum depends only on the multiset of transactions |
| Ledger.FilteredTotalPermutation | src/components/dashboard/DashboardStats.tsx:35-41 | filter-then-sum gives the same result for any reordering of the list |
| Ledger.FilteredTotalSnoc | src/components/dashboard/DashboardStats.tsx:35-41 | filter-then-sum grows by a new last amount exactly when that transaction passes the filter |
| Ledger.TallySnoc | src/components/dashboard/DailyChart.tsx:65-70 | one more transaction adds to a bucket's income when it is 'income' and inside the window, and to its expense when it has any other type and is inside the window; otherwise it adds nothing |
| Ledger.VisitAll | src/components/dashboard/DailyChart.tsx:61-72 | the inner forEach updates every bucket in place by the window test and the income/expense split, and nothing else |
| Ledger.VisitTally | src/components/dashboard/DailyChart.tsx:58-73 | visiting one more transaction turns a bucket's tally of a list into its tally of the extended list |
| Ledger.SpanSplit | src/components/dashboard/DailyChart.tsx:66-70 | a window's income plus its expense is the total of all transactions dated in it |
| Ledger.SpanJoin | src/components/dashboard/WeeklyChart.tsx:61-73 | two adjacent windows together sum what their union sums |
| Ledger.ChainedDisjoint | src/components/dashboard/WeeklyChart.tsx:46-58 | consecutive windows are pairwise disjoint and ordered oldest first |
| Ledger.TallyHoldsWindow | src/components/dashboard/DailyChart.tsx:58-73 | a bucket's income plus expense is its window's total |
| Ledger.ChainConservation | src/components/dashboard/WeeklyChart.tsx:61-73 | over consecutive windows, the sum of all buckets is the total of the transactions in the whole span |
| Ledger.JoinWindow | src/components/dashboard/WeeklyChart.tsx:61-73 | a bucket together with buckets holding the rest of the span holds the whole span |
| Ledger.Visit | src/components/dashboard/DailyChart.tsx:65-70 | definition of one bucket visit: inside the window, the amount goes to income for 'income' and to expense for any other type; stated by TallySnoc and VisitAll |
| Ledger.Tally | src/components/dashboard/DailyChart.tsx:58-73 | definition: a bucket after every transaction has visited it in order; stated by TallySnoc, VisitTally and TallyHoldsWindow |
| DailyChart.BuildDays | src/components/dashboard/DailyChart.tsx:46-73 | the seven buckets built and filled by the nested loops are the fold of every transaction into each day's bucket |
| DailyChart.DayCellStep | src/components/dashboard/DailyChart.tsx:58-73 | one step of the outer loop visits the next transaction in every bucket |
| DailyChart.DailyShape | src/components/dashboard/DailyChart.tsx:47-55 | there are exactly 7 buckets; bucket i spans the whole day today - (6 - i); the last one contains now; the windows are consecutive |
| DailyChart.DailyOfEmpty | src/components/dashboard/DailyChart.tsx:47-55 | with no transactions every bucket has income 0 and expense 0 |
| DailyChart.DailySnoc | src/components/dashboard/DailyChart.tsx:62-70 | a transaction is added to bucket i exactly when it is dated inside that day: to income when its type is 'income', otherwise to expense |
| DailyChart.DailyIgnoresOutside | src/components/dashboard/DailyChart.tsx:58-73 | a transaction dated before the 7-day window or after today changes no bucket |
| DailyChart.DailyConservation | src/components/dashboard/DailyChart.tsx:58-73 | the sum of income and expense over the 7 buckets is the total of the transactions dated in the window |
| DailyChart.DailySeries | src/components/dashboard/DailyChart.tsx:47-73 | definition: the seven day buckets, each tallied over the list; stated by BuildDays, DailyShape, DailySnoc and DailyConservation |
| WeeklyChart.WeekCellStep | src/components/dashboard/WeeklyChart.tsx:61-73 | one step of the outer loop visits the next transaction in every week bucket |
| WeeklyChart.BuildWeeks | src/components/dashboard/WeeklyChart.tsx:46-73 | the four buckets built and filled by the nested loops are the fold of every transaction into each week's bucket |
| WeeklyChart.WeekMondays | src/components/dashboard/WeeklyChart.tsx:47-48 | bucket i's Monday is the current week's Monday moved back 3 - i weeks |
| WeeklyChart.WeeklyShape | src/components/dashboard/WeeklyChart.tsx:46-58 | there are exactly 4 buckets labelled 'Week 1' to 'Week 4'; bucket i runs from Monday 00:00 to the end of Sunday; the last one contains now; the windows are consecutive and oldest first |
| WeeklyChart.WeeklySnoc | src/components/dashboard/WeeklyChart.tsx:65-70 | a transaction counts in bucket i exactly when startDate <= date <= endDate: as income when its type is 'income', otherwise as expense |
| WeeklyChart.WeeklyCountsRestOfWeek | src/components/dashboard/WeeklyChart.tsx:49-65 | a transaction dated later this week than today still falls in the last bucket |
| WeeklyChart.WeeklyIgnoresOutside | src/components/dashboard/WeeklyChart.tsx:61-73 | a transaction dated outside the four weeks changes no bucket |
| WeeklyChart.WeeklyConservation | src/components/dashboard/WeeklyChart.tsx:61-73 | the sum over the four buckets is the total of the transactions dated in the four-week span |
| WeeklyChart.WeekMonday | src/components/dashboard/WeeklyChart.tsx:47-48 | definition: the Monday of the week 3 - i weeks before now; stated by WeekMondays and WeeklyShape |
| WeeklyChart.WeeklySeries | src/components/dashboard/WeeklyChart.tsx:46-73 | definition: the four week buckets, each tallied over the list; stated by BuildWeeks, WeeklyShape, WeeklySnoc and WeeklyConservation |
| MonthlyChart.Categories | src/components/dashboard/MonthlyChart.tsx:48 | lists each transaction's category, in list order |
| MonthlyChart.CategorySumIsTotal | src/components/dashboard/MonthlyChart.tsx:50-54 | a category's running sum is the total of its transactions |
| MonthlyChart.CategoriesSnoc | src/components/dashboard/MonthlyChart.tsx:47-55 | the category list grows by the new transaction's category |
| MonthlyChart.CategorySumUnused | src/components/dashboard/MonthlyChart.tsx:50-54 | a category no transaction uses sums to 0 |
| MonthlyChart.CategoryKeysSnoc | src/components/dashboard/MonthlyChart.tsx:50-52 | a new category goes to the end of the key order, and a known one leaves the order unchanged |
| MonthlyChart.CategorySumSnoc | src/components/dashboard/MonthlyChart.tsx:54 | an amount is added to its own category's sum and to no other |
| MonthlyChart.AccumulatedKeys | src/components/dashboard/MonthlyChart.tsx:47-55 | after the forEach the object's keys are the categories, once each, in order of first occurrence |
| MonthlyChart.AccumulatedWellFormed | src/components/dashboard/MonthlyChart.tsx:47-55 | the object lists each key once, and has a key for exactly the categories met |
| MonthlyChart.AddExpenseKeys | src/components/dashboard/MonthlyChart.tsx:50-52 | one step appends the category to the key order exactly when it is new |
| MonthlyChart.AddExpenseWellFormed | src/components/dashboard/MonthlyChart.tsx:50-54 | one step keeps the object well formed, adds the amount under its category, and leaves every other key alone |
| MonthlyChart.SumsStep | src/components/dashboard/MonthlyChart.tsx:47-55 | one step keeps every key's value equal to its category's sum |
| MonthlyChart.AccumulatedSums | src/components/dashboard/MonthlyChart.tsx:47-55 | after the forEach each key holds the sum of its category's amounts |
| MonthlyChart.ExpensesByCategory | src/components/dashboard/MonthlyChart.tsx:44-55 | the loop builds a well-formed object whose keys are the categories in first-occurrence order and whose values are the category sums |
| MonthlyChart.Capitalize | src/components/dashboard/MonthlyChart.tsx:75-77 | the first character is upper-cased when it is an ASCII letter and the rest is unchanged; the empty string stays empty |
| MonthlyChart.BuildMonthly | src/components/dashboard/MonthlyChart.tsx:35-86 | the effect's month filter, expense filter, loop and chart construction produce the chart data of the list |
| MonthlyChart.CategoryExpenses | src/components/dashboard/MonthlyChart.tsx:35-45 | a category's expenses this month are picked by one combined test over the whole list |
| MonthlyChart.MonthExpensesMember | src/components/dashboard/MonthlyChart.tsx:35-45 | the considered transactions are exactly the list's expenses dated in the current month and year |
| MonthlyChart.CategoryKeysMember | src/components/dashboard/MonthlyChart.tsx:47-55 | a category is a key exactly when some transaction has it |
| MonthlyChart.PieShape | src/components/dashboard/MonthlyChart.tsx:58-86 | labels are the capitalised keys; data values line up with the keys and are the category sums; there are min(#categories, 12) colours |
| MonthlyChart.MonthlyShape | src/components/dashboard/MonthlyChart.tsx:74-86 | over the current-month expenses: labels, data and colours line up with the categories, as in PieShape |
| MonthlyChart.MonthlyCategories | src/components/dashboard/MonthlyChart.tsx:35-55 | a category has a slice exactly when some expense of the current month uses it, and its value is the total of those expenses |
| MonthlyChart.MonthlyOrder | src/components/dashboard/MonthlyChart.tsx:75-81 | slices follow the order in which categories first occur among the month's expenses |
| MonthlyChart.MonthExpensesIgnore | src/components/dashboard/MonthlyChart.tsx:35-45 | income, other types and other months never enter the expense list |
| MonthlyChart.MonthlyIgnores | src/components/dashboard/MonthlyChart.tsx:45 | income, other types and other months never create or change a slice |
| MonthlyChart.MonthlyEmptyMessage | src/components/dashboard/MonthlyChart.tsx:98-104 | 'No expense data for the current month' is shown exactly when the month has no expense |
| MonthlyChart.TotalPositive | src/components/dashboard/MonthlyChart.tsx:54 | a non-empty sum of positive amounts is positive |
| MonthlyChart.MonthlyPositive | src/components/dashboard/MonthlyChart.tsx:47-55 | when every amount is positive, every slice is positive |
| MonthlyChart.MonthlyValuesOrderIndependent | src/components/dashboard/MonthlyChart.tsx:47-55 | a category's slice value does not depend on the order of the list |
| MonthlyChart.MonthExpenses | src/components/dashboard/MonthlyChart.tsx:35-45 | definition: the month filter followed by the expense filter; stated by MonthExpensesMember and MonthExpensesIgnore |
| MonthlyChart.AddExpense | src/components/dashboard/MonthlyChart.tsx:48-54 | definition of one forEach step: a new category starts at 0, then the amount is added; stated by AddExpenseKeys and AddExpenseWellFormed |
| MonthlyChart.Accumulated | src/components/dashboard/MonthlyChart.tsx:47-55 | definition: the object after the forEach; stated by AccumulatedKeys, AccumulatedWellFormed and AccumulatedSums |
| MonthlyChart.MonthlyData | src/components/dashboard/MonthlyChart.tsx:35-86 | definition: the chart data of the current month's expenses; stated by BuildMonthly, MonthlyShape, MonthlyCategories, MonthlyOrder, MonthlyIgnores and MonthlyPositive |
| MonthlyChart.Render | src/components/dashboard/MonthlyChart.tsx:89-104 | definition: the spinner before the chart data exists, the no-data message when it has no label, the pie otherwise; stated by MonthlyEmptyMessage |
| MonthlyChart.UpperAscii | src/components/dashboard/MonthlyChart.tsx:76 | definition: `toUpperCase` on one character, for the ASCII letters only; used by Capitalize |
| Common.Filter | src/components/transactions/TransactionList.tsx:81 | `Array.prototype.filter`: the result is no longer than the list and holds only list elements that pass the test |
| Common.Dedup | src/components/transactions/TransactionList.tsx:49-53 | the keys in first-insertion order: each once, exactly those of the list |
| Grouping.GroupByWellFormed | src/components/transactions/TransactionList.tsx:33-55 | the reduce builds an object with each key once, and a key for exactly the keys that occur |
| Grouping.GroupByKeys | src/components/transactions/TransactionList.tsx:49-53 | keys are listed once each, in order of their first element |
| Grouping.GroupByValues | src/components/transactions/TransactionList.tsx:49-53 | each array holds exactly the elements with its key, in list order |
| Grouping.GroupByDomain | src/components/transactions/TransactionList.tsx:33-55 | a key is present exactly when some element has it, and then holds those elements |
| Grouping.GroupByPartition | src/components/transactions/TransactionList.tsx:33-55 | listing the arrays key after key gives back every keyed element exactly as often as it occurs |
| Grouping.GroupByOrder | src/components/transactions/TransactionList.tsx:49-53 | keys appear in the order in which they first occur |
| Grouping.KeptKeyOrder | src/components/transactions/TransactionList.tsx:84-97 | when equal keys stand together, the keys left after filtering the elements are the old key order restricted to the surviving keys |
| Grouping.GroupBy | src/components/transactions/TransactionList.tsx:33-55 | definition: the reduce into a plain object, visiting the elements in order; stated by GroupByWellFormed, GroupByKeys, GroupByValues, GroupByDomain, GroupByPartition and GroupByOrder |
| TransactionList.GroupKeyDay | src/components/transactions/TransactionList.tsx:34-47 | the heading is 'Today' exactly for today's calendar day, 'Yesterday' exactly for the day before, and otherwise names the transaction's own day |
| TransactionList.SameGroupSameDay | src/components/transactions/TransactionList.tsx:34-47 | two transactions share a heading exactly when they fall on the same calendar day |
| TransactionList.DayKeys | src/components/transactions/TransactionList.tsx:34-47 | every transaction has a heading |
| TransactionList.ExactlyOneGroup | src/components/transactions/TransactionList.tsx:33-55 | every fetched transaction appears in its day's group as often as in the list, and in no other group |
| TransactionList.GroupOrder | src/components/transactions/TransactionList.tsx:49-53 | headings appear in the order in which their days first occur, and each group keeps the list order |
| TransactionList.GroupedPartition | src/components/transactions/TransactionList.tsx:33-57 | the groups together list every fetched transaction exactly as often as the list holds it |
| TransactionList.PruneKeyFacts | src/components/transactions/TransactionList.tsx:86-95 | one forEach step filters a group by id and deletes its heading when the group is left empty |
| TransactionList.PrunedShape | src/components/transactions/TransactionList.tsx:84-97 | after visiting some headings, a visited group is filtered, an emptied group is gone, and an unvisited one is untouched |
| TransactionList.PrunedKeys | src/components/transactions/TransactionList.tsx:84-97 | the surviving headings keep their relative order |
| TransactionList.PrunedHas | src/components/transactions/TransactionList.tsx:84-97 | a heading not yet visited keeps its original group |
| TransactionList.RemoveFromGroups | src/components/transactions/TransactionList.tsx:84-97 | the loop removes the id from every group and drops exactly the groups left empty; the kept groups are filtered and keep their order |
| TransactionList.PrunedAll | src/components/transactions/TransactionList.tsx:84-97 | visiting every heading leaves the groups filtered by id, the empty ones gone, and the order kept |
| TransactionList.PruneSpares | src/components/transactions/TransactionList.tsx:84-97 | after a delete no group holds the id, and a group that never held it is unchanged |
| TransactionList.DayThenId | src/components/transactions/TransactionList.tsx:81-88 | filtering by day and by id commute |
| TransactionList.RegroupAt | src/components/transactions/TransactionList.tsx:81-97 | for one heading, the optimistic delete agrees with regrouping the filtered flat list |
| TransactionList.DeleteMatchesRegroup | src/components/transactions/TransactionList.tsx:81-97 | the grouped state after a delete has the same headings, each with the same transactions, as the grouping of the filtered flat list (the heading order is stated by DeleteKeepsOrder) |
| TransactionList.NewestFirstContiguous | src/components/transactions/TransactionList.tsx:33-55 | in a list dated newest first, each day's transactions stand together |
| TransactionList.KeptIsRegrouped | src/components/transactions/TransactionList.tsx:84-97 | a heading survives the delete exactly when the filtered flat list still has a transaction of its day |
| TransactionList.DeleteKeepsOrder | src/components/transactions/TransactionList.tsx:81-97 | for a list dated newest first, as GET returns it, the headings after a delete are also in the order of a fresh regrouping |
| TransactionList.DeleteReordersScattered | src/components/transactions/TransactionList.tsx:81-97 | for a list dated day x, day y, day x, deleting the first transaction keeps x's heading first, while regrouping puts y's first |
| TransactionList.GroupOf | src/components/transactions/TransactionList.tsx:34-47 | definition: 'Today', 'Yesterday' or the day's own heading; stated by GroupKeyDay and SameGroupSameDay |
| TransactionList.Grouped | src/components/transactions/TransactionList.tsx:33-55 | definition: the reduce keyed by heading; stated by ExactlyOneGroup, GroupOrder and GroupedPartition |
| TransactionList.Pruned | src/components/transactions/TransactionList.tsx:84-97 | definition: the object after the forEach has visited some headings; stated by PrunedShape, PrunedKeys and PrunedAll |
| TransactionList.GroupTransactions | src/components/transactions/TransactionList.tsx:33-55 | the reduce loop produces the grouping: headings in first-occurrence order, each group the list's transactions of that day in order |
| TransactionList.TransactionListView.constructor | src/components/transactions/TransactionList.tsx:19-22 | starts with no transactions, an empty grouping, loading, and no error |
| TransactionList.TransactionListView.FetchTransactions | src/components/transactions/TransactionList.tsx:24-64 | without a user nothing changes; on success the list and its grouping are replaced; on failure they are kept and the error is 'Failed to load transactions'; loading ends false |
| TransactionList.TransactionListView.Render | src/components/transactions/TransactionList.tsx:104-146 | the spinner exactly while loading; the error text exactly when not loading and an error is set; the empty message exactly when neither and there are no transactions; otherwise one section per grouping key, in key order, each holding that key's transactions |
| TransactionList.RenderListsAll | src/components/transactions/TransactionList.tsx:120-146 | after a successful fetch of a non-empty list, the sections show every fetched transaction exactly as often as the list holds it |
| TransactionList.TransactionListView.HandleDelete | src/components/transactions/TransactionList.tsx:75-102 | without a user, a declined confirm or a failed API call nothing changes; otherwise the id leaves the flat list, leaving the rest in order, and leaves every group, and emptied groups are dropped |
| Constants.TransactionById | src/lib/constants.ts:70-73 | the path is the collection path, a slash, and the id |
| Constants.TransactionByIdInjective | src/lib/constants.ts:72 | distinct ids give distinct paths |
| Constants.TablesConsistent | src/lib/constants.ts:4-39 | every currency's code is its key; every country maps to a listed currency; the default is the USD entry |
| Constants.TableEntries | src/lib/constants.ts:8-33 | DE, FR, IT and ES map to EUR and NZ maps to AUD; JPY and CNY share the '¥' symbol |
| Constants.DaysInSeconds | src/lib/constants.ts:60 | any number of days, written as the product of a day's seconds, is a whole number of days that divides back to the day count |
| Constants.SessionExpiry | src/lib/constants.ts:57-61 | the two session constants agree: the lifetime in seconds is exactly SESSION_EXPIRY_DAYS whole days |
| JsonData.Get | src/lib/CurrencyContext.tsx:43-60 | a property read finds a value exactly for an object that has the field |
| JsonData.FalsyValues | src/app/api/transactions/route.ts:50 | the falsy values are exactly undefined, null, false, 0 and the empty string |
| JsonData.NonEmptyString | scripts/migrate-transactions.js:44-46 | a string field counts exactly when it is present and non-empty |
| NumberText.DigitChar | src/lib/CurrencyContext.tsx:86 | a digit's character denotes that digit |
| NumberText.NatText | src/lib/CurrencyContext.tsx:86 | the decimal text of a natural number is non-empty digits without a leading zero |
| NumberText.NatTextValue | src/lib/CurrencyContext.tsx:86 | reading the digits of n back gives n |
| NumberText.TrimStart | src/components/transactions/TransactionForm.tsx:57 | removes exactly the leading white space |
| NumberText.TrimEnd | src/app/api/transactions/route.ts:60 | removes exactly the trailing white space |
| NumberText.LeadingDigits | src/components/transactions/TransactionForm.tsx:57 | the longest run of digits at the front |
| NumberText.LeadingDigitsOf | src/components/transactions/TransactionForm.tsx:57 | a digit string followed by a non-digit has exactly that run as its leading digits |
| NumberText.ScanPlain | src/components/transactions/TransactionForm.tsx:57 | an unsigned literal scans as itself |
| NumberText.ScanMinus | src/components/transactions/TransactionForm.tsx:57 | a minus sign negates the literal after it |
| NumberText.ParseFloat | src/components/transactions/TransactionForm.tsx:57 | parseFloat is a number exactly when a decimal literal follows the leading white space |
| NumberText.StringToNumber | src/app/api/transactions/route.ts:60 | Number of blank text is 0 |
| NumberText.Cents | src/lib/CurrencyContext.tsx:86 | a non-negative number's cents are the nearest whole count of hundredths, rounding half up |
| NumberText.RoundedClose | src/lib/CurrencyContext.tsx:86 | two-decimal rounding moves a number by at most half a cent and keeps its sign |
| NumberText.RoundedExact | src/lib/CurrencyContext.tsx:86 | a whole number of cents is left unchanged by rounding |
| NumberText.FixedShape | src/lib/CurrencyContext.tsx:86 | toFixed(2) text is an optional minus sign, the whole units, a point and exactly two digits |
| NumberText.TwoDigits | src/lib/CurrencyContext.tsx:86 | the two digits after the point read back as the cents below a unit |
| NumberText.ScanFixed | src/lib/CurrencyContext.tsx:86 | the unsigned part of toFixed(2) scans, to its end, as the rounded magnitude |
| NumberText.TrimNothing | src/app/api/transactions/route.ts:60 | trimming leaves text alone when its ends are not white space |
| NumberText.ScanCents | src/lib/CurrencyContext.tsx:86 | signed cents text scans, to its end, as that many hundredths |
| NumberText.CentsEnds | src/lib/CurrencyContext.tsx:86 | signed cents text starts with a minus sign or a digit and ends with a digit |
| NumberText.ParseCents | src/lib/CurrencyContext.tsx:86 | parseFloat reads signed cents text back as its value |
| NumberText.NumberCents | src/lib/CurrencyContext.tsx:86 | Number reads signed cents text back as its value |
| NumberText.ParseFixed | src/lib/CurrencyContext.tsx:86 | parseFloat of toFixed(2) text gives back the number rounded to cents |
| NumberText.NumberFixed | src/lib/CurrencyContext.tsx:86 | Number of toFixed(2) text gives back the number rounded to cents |
| NumberText.ParseNat | src/components/transactions/TransactionForm.tsx:57 | parseFloat reads a natural number's digits back as that number |
| NumberText.ParseFloatStops | src/components/transactions/TransactionForm.tsx:57 | parseFloat stops at trailing text: "12abc" is 12 |
| NumberText.NumberWhole | src/app/api/transactions/route.ts:60 | Number needs the whole text to be a literal: "12abc" is NaN |
| NumberText.ParseFloatNaN | src/components/transactions/TransactionForm.tsx:57-59 | text not starting with a number is NaN to parseFloat |
| NumberText.ToFixed2 | src/lib/CurrencyContext.tsx:86 | definition of `toFixed(2)` text; stated by FixedShape, TwoDigits, ParseFixed and NumberFixed |
| NumberText.IsSpace | src/app/api/transactions/route.ts:60 | definition: the JS white-space and line-terminator characters; used by TrimStart and TrimEnd |
| CurrencyContext.SavedChoice | src/lib/CurrencyContext.tsx:39-51 | a saved preference is used only when it is non-empty, parses, and names a listed currency by its code, which gives that currency |
| CurrencyContext.LocatedChoice | src/lib/CurrencyContext.tsx:54-65 | a lookup chooses a currency exactly when it succeeded and its country_code is a mapped country, which gives that country's listed currency |
| CurrencyContext.SavedWins | src/lib/CurrencyContext.tsx:39-47 | a usable saved preference wins, whatever the lookup would say |
| CurrencyContext.UnusableSavedFallsThrough | src/lib/CurrencyContext.tsx:40-54 | an empty, unparsable or unknown-code saved value behaves as if nothing were saved |
| CurrencyContext.CountryDecides | src/lib/CurrencyContext.tsx:39-65 | without a usable saved preference (none, empty, unparsable or unknown), a mapped country gives its currency |
| CurrencyContext.NoCountryKeepsCurrent | src/lib/CurrencyContext.tsx:55-68 | a failed lookup, a null body or an unmapped country keeps the current (default) currency and raises nothing |
| CurrencyContext.ResolveListed | src/lib/CurrencyContext.tsx:36-75 | detection keeps the current currency or picks a listed one |
| CurrencyContext.Resolve | src/lib/CurrencyContext.tsx:36-75 | definition: the saved choice, else the located one, else the current currency; stated by SavedWins, UnusableSavedFallsThrough, CountryDecides, NoCountryKeepsCurrent and ResolveListed |
| CurrencyContext.PersistThenReload | src/lib/CurrencyContext.tsx:78-82 | a persisted listed currency, when JSON round-trips it, is the one chosen on the next visit |
| CurrencyContext.CurrencyProvider.constructor | src/lib/CurrencyContext.tsx:31-32 | starts on the default currency, loading |
| CurrencyContext.CurrencyProvider.DetectLocation | src/lib/CurrencyContext.tsx:36-75 | the currency becomes the saved choice, else the located one, else stays; loading ends false; the lookup is made exactly when no usable preference is saved |
| CurrencyContext.CurrencyProvider.SetCurrency | src/lib/CurrencyContext.tsx:90 | sets the currency and nothing else |
| CurrencyContext.CurrencyProvider.Persist | src/lib/CurrencyContext.tsx:78-82 | the currency is saved as JSON only once loading is over |
| CurrencyContext.CurrencyProvider.FormatAmount | src/lib/CurrencyContext.tsx:85-87 | the text is the currency symbol followed by exactly the `toFixed(2)` text of the amount, which reads back as the amount rounded to the cent, within half a cent of it |
| TransactionForm.CheckInput | src/components/transactions/TransactionForm.tsx:47-62 | the first failing check gives its message, in order: login, then required fields, then a parsed amount that is a number above zero; acceptance happens exactly when all pass, and carries the parsed amount |
| TransactionForm.TrailingTextAccepted | src/components/transactions/TransactionForm.tsx:57-62 | "12abc" is accepted as 12 |
| TransactionForm.NonNumberRefused | src/components/transactions/TransactionForm.tsx:57-62 | "abc" is refused as not a positive number |
| TransactionForm.ZeroRefused | src/components/transactions/TransactionForm.tsx:59-62 | "0" is refused as not a positive number |
| TransactionForm.FixedAmountAccepted | src/components/transactions/TransactionForm.tsx:57-62 | a two-decimal amount of at least half a cent is accepted as its rounded value |
| TransactionForm.FormState.constructor | src/components/transactions/TransactionForm.tsx:36-42 | a fresh form: empty fields, an expense, dated today, not submitting, no error |
| TransactionForm.FormState.HandleSubmit | src/components/transactions/TransactionForm.tsx:44-94 | a failing check sets its message and changes nothing else; otherwise the create request carries the parsed amount, type, category, date, and the note only when it is non-empty; success resets the form to an empty expense dated today, which a signed-in resubmission refuses for missing fields; failure keeps the fields and sets 'Failed to add transaction. Please try again.'; submitting ends false |
| TransactionForm.FormState.Submit | src/components/transactions/TransactionForm.tsx:64-93 | given the outcome of the checks: a rejection sets its message and changes nothing else; an accepted amount sends the create request built from the current fields, then resets the form on success or keeps the fields with the failure message, and submitting ends false |
| TransactionsRoute.ListItem | src/app/api/transactions/route.ts:22-29 | a listed item is the document data with the document id, the caller's uid and both timestamps as ISO text; every other data field is kept (corrected: the document id wins) |
| TransactionsRoute.ListItemAgrees | src/app/api/transactions/route.ts:22-29 | without an `id` data field the item as written equals the corrected item |
| TransactionsRoute.ListItemIdOverridden | src/app/api/transactions/route.ts:23-24 | a document whose data has `id: "other"` is listed under "other" |
| TransactionsRoute.ListItemAsWritten | src/app/api/transactions/route.ts:22-29 | as written: the item exists exactly when both timestamps do; shown wrong by ListItemIdOverridden |
| TransactionsRoute.ListItems | src/app/api/transactions/route.ts:22-29 | the items follow store order, one per document, and exist exactly when every document's timestamps do |
| TransactionsRoute.HandleGet | src/app/api/transactions/route.ts:7-36 | without a user the answer is 401; a store failure gives 500; otherwise 200 with one item per stored document, in store order, each with its id and the caller's uid (corrected id rule, see ## Findings) |
| TransactionsRoute.NumberOfFixedText | src/app/api/transactions/route.ts:60 | a two-decimal string amount is stored as the number rounded to the cent |
| TransactionsRoute.NumberExamples | src/app/api/transactions/route.ts:60 | Number("12abc") is NaN; Number(true) is 1 and Number([true]) is NaN |
| TransactionsRoute.ToNumber | src/app/api/transactions/route.ts:60 | definition of `Number(v)` on JSON values; stated by NumberOfFixedText and NumberExamples |
| TransactionsRoute.HasRequired | src/app/api/transactions/route.ts:50 | definition: amount, category and type are all truthy; stated by HandlePost and FalsyRequiredRefused |
| TransactionsRoute.CopiedFields | src/app/api/transactions/route.ts:54-61 | definition: the body's fields other than those the record sets itself; stated by StoredOf |
| TransactionsRoute.StoredOf | src/app/api/transactions/route.ts:54-67 | the stored document holds the copied fields, the amount, and both timestamps |
| TransactionsRoute.CreatedBody | src/app/api/transactions/route.ts:69-76 | the 201 body has the new id, the caller's uid, the amount, the ISO timestamps, and every other copied field with its stored value (corrected: the new id wins) |
| TransactionsRoute.CreatedBodyAsWritten | src/app/api/transactions/route.ts:69-76 | the body as written has the same keys as the corrected body |
| TransactionsRoute.CreatedIdOverridden | src/app/api/transactions/route.ts:70-71 | a body carrying `id: "mine"` is answered with id "mine" instead of the new id |
| TransactionsRoute.HandlePost | src/app/api/transactions/route.ts:39-81 | without a user the answer is 401 and nothing is stored; a falsy amount, category or type gives 400; a 201 happens exactly when a record is stored, with the copied fields, Number(amount), createdAt now, and the body date when truthy, else now; a signed-in request whose body is an object with truthy amount, category and type and a readable date (or none) is stored and answered 201 whenever the add succeeds; every other outcome is 401, 400 or 500 (corrected id rule, see ## Findings) |
| TransactionsRoute.FalsyRequiredRefused | src/app/api/transactions/route.ts:50-52 | amount 0 and an empty category are refused as missing |
| TransactionsRoute.NegativeUnknownStored | src/app/api/transactions/route.ts:50-61 | any non-zero amount, negative ones included, with any non-empty category and any non-empty type, unknown ones included, is answered 201 and stored as given, dated now |
| TransactionsRoute.PostThenGet | src/app/api/transactions/route.ts:54-76 | a stored record is listed by GET exactly as POST answered it |
| Migration.Stripped | scripts/migrate-transactions.js:71-74 | the written data is the original fields without `id` and `userId` |
| Migration.Owner | scripts/migrate-transactions.js:44-49 | definition: a non-empty string `userId`, else skipped; stated by SkippedNeverWritten |
| Migration.WriteOf | scripts/migrate-transactions.js:71-74 | definition of one write (corrected id rule): the owner, the document's own id and the stripped data; stated by Stripped and PlanTargetsDistinct |
| Migration.PlanOf | scripts/migrate-transactions.js:66-85 | definition: each owner's writes, owner after owner; stated by PlanOfSnoc, PlanOfOwnedBy and PlanOfLength |
| Migration.Plan | scripts/migrate-transactions.js:40-85 | definition: the grouping, then every owner's writes; stated by PlanPerUser, PlanWritesOwned, PlanLength and PlanTargetsDistinct |
| Migration.Chunks | scripts/migrate-transactions.js:78-91 | definition: consecutive batches of 500, the last possibly shorter; stated by ChunksOf, ChunksConcat, ChunkSizes and ChunkCount |
| Migration.UserWrites | scripts/migrate-transactions.js:69-74 | one write per document of the owner, in order, to its own id (corrected id rule, see ## Findings) |
| Migration.GroupByOwner | scripts/migrate-transactions.js:40-59 | the grouping loop gives each owner exactly their documents in snapshot order |
| Migration.AddWrite | scripts/migrate-transactions.js:74-83 | a set adds the write to the batch; reaching 500 commits the batch and starts an empty one; no batch reaches 500 uncommitted |
| Migration.PlanOfSnoc | scripts/migrate-transactions.js:66-85 | one more owner adds that owner's writes at the end |
| Migration.WriteOwner | scripts/migrate-transactions.js:69-84 | the inner loop adds the owner's writes in order and keeps every commit full (corrected id rule, see ## Findings) |
| Migration.WriteBatches | scripts/migrate-transactions.js:62-91 | the loops and the final commit cut the writes, owner after owner, into batches of 500 with a shorter last one (corrected id rule, see ## Findings) |
| Migration.UserWritesSnoc | scripts/migrate-transactions.js:69-74 | one more document adds its write at the end |
| Migration.Migrate | scripts/migrate-transactions.js:30-91 | the commits are the plan cut into batches of 500, each with between 1 and 500 writes; an empty collection gives none (corrected id rule, see ## Findings) |
| Migration.MigrateOrExit | scripts/migrate-transactions.js:28-100 | a failing read commits nothing and exits with code 1; a commit that throws leaves exactly the earlier batches written, a strict prefix of the plan, and exits with code 1; exit code 0 happens exactly when the whole plan is written (corrected id rule, see ## Findings) |
| Migration.ConcatPrefix | scripts/migrate-transactions.js:78-91 | the batches before the k-th and those from it on lay down all the writes, in order |
| Migration.ConcatShort | scripts/migrate-transactions.js:78-100 | stopping before a non-empty batch leaves some writes undone |
| Migration.ConcatSnoc | scripts/migrate-transactions.js:78-83 | committing a batch appends its writes |
| Migration.ChunksOf | scripts/migrate-transactions.js:78-91 | full batches followed by a shorter residue are the batching of their writes |
| Migration.ChunksConcat | scripts/migrate-transactions.js:62-91 | the batches laid end to end give back every write in order |
| Migration.ChunkSizes | scripts/migrate-transactions.js:78-91 | every batch has between 1 and 500 writes, and all but the last exactly 500 |
| Migration.ChunkCount | scripts/migrate-transactions.js:78-91 | N writes make ceil(N / 500) batches |
| Migration.SegmentOwnedBy | scripts/migrate-transactions.js:72 | an owner's writes all target that owner |
| Migration.LastSplit | scripts/migrate-transactions.js:66 | a list without repeats splits into its last element and a rest without it |
| Migration.PlanOfOwnedBy | scripts/migrate-transactions.js:66-85 | over distinct owners, owner u's writes are u's own segment |
| Migration.PlanPerUser | scripts/migrate-transactions.js:42-58 | each user's writes are their documents' writes in snapshot order |
| Migration.PlanOfMember | scripts/migrate-transactions.js:66-75 | every write comes from a document of its owner |
| Migration.PlanWritesOwned | scripts/migrate-transactions.js:46-75 | every write is the write of an owned document of the snapshot |
| Migration.SkippedNeverWritten | scripts/migrate-transactions.js:46-49 | a document without userId is never written |
| Migration.PlanOfLength | scripts/migrate-transactions.js:66-85 | the owners' array sizes add up to the number of writes |
| Migration.PlanLength | scripts/migrate-transactions.js:42-85 | there are as many writes as owned documents |
| Migration.CommitCount | scripts/migrate-transactions.js:32-91 | commits = ceil(N / 500) for N owned documents; with none, nothing is committed |
| Migration.FilterUniqueIds | scripts/migrate-transactions.js:42-58 | grouping keeps ids unique |
| Migration.PlanOfTargets | scripts/migrate-transactions.js:66-75 | over distinct owners with unique ids, every write has its own target |
| Migration.PlanTargetsDistinct | scripts/migrate-transactions.js:66-75 | with unique document ids, every document is written exactly once, to users/{userId}/transactions/{id} (corrected target) |
| Migration.TargetCollision | scripts/migrate-transactions.js:55-72 | as written, two documents whose data hold the same `id` field are written to the same target |
| Migration.TargetAsWritten | scripts/migrate-transactions.js:55-72 | as written: the target id is the data's `id` field when present; shown wrong by TargetCollision |
| Middleware.AnyPublic | src/middleware.ts:15-17 | definition of the some() test; stated by AnyPublicMeaning |
| Middleware.IsPublic | src/middleware.ts:9-17 | definition: the test over the public list; stated by IsPublicMeaning and PublicIsExact |
| Middleware.AnyPublicMeaning | src/middleware.ts:15-17 | the some() test holds exactly for listed paths, and for '/api/' paths when the list is not empty |
| Middleware.IsPublicMeaning | src/middleware.ts:9-17 | a path is public exactly when it is '/' or '/login', or starts with '/api/' |
| Middleware.PublicIsExact | src/middleware.ts:15-16 | '/login/', '/api' and '/dashboard' are not public; '/api/transactions' and '/login' are |
| Middleware.PublicPathsAgree | src/middleware.ts:9-12 | the middleware's public list is the application's public route table |
| Middleware.Handle | src/middleware.ts:20-26 | every request passes through, public or not |
| Middleware.SkippedPrefixClosed | src/middleware.ts:39 | skipping is decided by how a path begins: a skipped path stays skipped whatever follows it |
| Middleware.Matches | src/middleware.ts:39 | definition of the anchored matcher; stated by SkippedPrefixClosed, MatcherRunsOnPages, MatcherSkipsAssets and MatcherIsPrefixTest |
| Middleware.OtherFirstCharacter | src/middleware.ts:39 | no excluded pattern begins with another first character |
| Middleware.MatcherRunsOnPages | src/middleware.ts:39 | pages and API routes run through the middleware |
| Middleware.MatcherSkipsAssets | src/middleware.ts:39 | static files, the favicon and icons do not |
| Middleware.MatcherIsPrefixTest | src/middleware.ts:39 | the exclusion is a prefix test with unescaped dots: '/publicity' and '/favicon-ico' are skipped too |
| ThemeContext.ParseMode | src/lib/ThemeContext.tsx:28-30 | a stored value is read as a mode only when it names it |
| ThemeContext.ParseModeName | src/lib/ThemeContext.tsx:28-32 | a saved mode name reads back as that mode |
| ThemeContext.Toggled | src/lib/ThemeContext.tsx:94-97 | toggling gives the other mode |
| ThemeContext.ToggleTwice | src/lib/ThemeContext.tsx:94-97 | toggling twice restores the mode |
| ThemeContext.UseTheme | src/lib/ThemeContext.tsx:120-133 | outside a provider the theme is light and not dark; inside, the provider's value |
| ThemeContext.ThemeProvider.constructor | src/lib/ThemeContext.tsx:22-23 | before mount the mode is light |
| ThemeContext.ThemeProvider.Mount | src/lib/ThemeContext.tsx:26-39 | the mode becomes the saved 'light' or 'dark', else the system preference, and the provider is mounted |
| ThemeContext.ThemeProvider.SetMode | src/lib/ThemeContext.tsx:89-92 | sets the mode and saves its name |
| ThemeContext.ThemeProvider.ToggleTheme | src/lib/ThemeContext.tsx:94-97 | sets and saves the other mode |
| ThemeContext.ThemeProvider.SystemChange | src/lib/ThemeContext.tsx:45-50 | follows the system setting only while no preference is saved |
| ThemeContext.ThemeProvider.ApplyTheme | src/lib/ThemeContext.tsx:58-67 | once mounted, the root loses 'light' and 'dark' and gains the mode's class; before mount nothing changes |
| ThemeContext.ThemeProvider.Context | src/lib/ThemeContext.tsx:99-117 | a value is provided exactly once mounted, and isDark holds exactly when the mode is dark |
| ThemeContext.AppliedClasses | src/lib/ThemeContext.tsx:64-67 | after applying, the root has exactly one of 'light' and 'dark', the mode's, and keeps its other classes |
| ThemeContext.ReloadKeepsMode | src/lib/ThemeContext.tsx:28-92 | a mode chosen with setMode comes back on the next mount, whatever the system says |
| ThemeContext.ChosenModeIgnoresSystem | src/lib/ThemeContext.tsx:47-50 | once a mode is saved, system changes are ignored |
| ThemeContext.MountFollowsSystem | src/lib/ThemeContext.tsx:32-36 | without a usable saved value the mount follows the system preference |
| ThemeContext.InitialMode | src/lib/ThemeContext.tsx:28-36 | definition: a saved 'light' or 'dark', else the system preference; stated by ThemeProvider.Mount, ReloadKeepsMode and MountFollowsSystem |
| ThemeContext.FollowsSystem | src/lib/ThemeContext.tsx:47-48 | definition: no saved preference, or an empty one; stated by ThemeProvider.SystemChange and ChosenModeIgnoresSystem |

## Left out

- Firebase, fetch, `localStorage`, `window.matchMedia`, `confirm` and the auth context are not modelled as code. Their answers are inputs (`Option` results, sequences, slots), and writes to them are fields or results.
- date-fns and `Date` are not modelled: `subDays`, `startOfDay`, `endOfDay`, `subWeeks`, `startOfWeek`, `endOfWeek`, `getMonth` and `getFullYear`.
  - Days are whole 86400000 ms periods of local time, so DST transitions and time zones are not modelled.
  - The month and year of a day are a parameter `cal`, so the month filter holds for any calendar.
  - Label texts ('EEE', 'MMMM d, yyyy') are abstract: a heading is `Today`, `Yesterday` or the day number it names, which is one-to-one with the date label.
- JS numbers are exact reals, so binary summation drift and float rounding inside `toFixed` are not modelled. `toFixed(2)` rounds the exact value half away from zero.
- `parseFloat` and `Number` do not model exponents, `Infinity`, or hexadecimal and binary literals.
- Dates in the route are instants given to an ISO-text function `iso`; `new Date(body.date)` is a parameter `parseDate`. Firestore `Timestamp` objects and their serialisation are not modelled.
- Store ordering (`orderBy('date', 'desc')`) is the store's: GET keeps whatever order the store returns.
- JS object keys follow insertion order. Integer-like keys, which JS lists first in ascending order, and keys inherited from `Object.prototype` (such as a category named "constructor") are not modelled.
- Migration.Owner: a document owner is a `userId` that is a non-empty string; a truthy non-string `userId` (a number, say) is treated as missing, while the script would group it under its string form.
- Migration.WriteBatches: `operationCount` is the size of the pending batch, which the script keeps equal to it. The loops are split into `WriteOwner` and `AddWrite`, and the script's console messages are left out.
- MonthlyChart: the background colour values, the chart options and the Chart.js rendering are left out; only the count of colours sliced is modelled.
- DashboardStats: `formatCurrency` (Intl currency formatting) and the rendering are left out.
- ThemeContext: `getThemeColors`, the CSS custom properties and the colour tables are left out. The system-change listener's registration and removal are not modelled.
- TransactionForm: navigation after success (`onSuccess` or `router.push`) and the category grid are left out; today's date string is an input.
- TransactionList.DeleteMatchesRegroup: the headings after a delete are in the regrouping's order only when each day's transactions stand together in the list. DeleteKeepsOrder proves this for a newest-first list, the order GET returns. For a list that mixes days, a surviving heading keeps its old place, as DeleteReordersScattered shows.
- MonthlyChart.Capitalize: only the ASCII letters are upper-cased. JS `toUpperCase` is Unicode-aware: it maps 'é' to 'É', and 'ß' to "SS", which lengthens the label. Non-ASCII first letters are left as they are.
- NumberText.ToFixed2: always writes plain digits. For |x| >= 10^21, JS `toFixed` switches to exponent notation, which is not modelled.
- TransactionsRoute.HandleGet: each item carries its document id (the corrected rule under "## Findings"). As written, an `id` field in the data wins; ListItemAsWritten and ListItemIdOverridden model that.
- TransactionsRoute.HandlePost: the 201 body carries the new document id (the corrected rule under "## Findings"). As written, an `id` field in the body wins; CreatedBodyAsWritten and CreatedIdOverridden model that.
- Migration.UserWrites: each document is written under its own id (the corrected rule under "## Findings"). As written, the data's `id` field names the target when present; TargetAsWritten and TargetCollision model that.
- Migration.WriteOwner: built on WriteOf, so it uses the corrected id rule, as UserWrites does.
- Migration.WriteBatches: built on WriteOf, so it uses the corrected id rule, as UserWrites does.
- Migration.Migrate: built on WriteOf, so it uses the corrected id rule, as UserWrites does. It covers the run where every store call succeeds; MigrateOrExit adds the failure path.
- Migration.MigrateOrExit: built on WriteOf, so it uses the corrected id rule. Which call throws is an input: a failed read, or the index of the first commit that throws. The error log is left out, and `process.exit(1)` is the exit code 1.
- Concurrency and interleaving of asynchronous effects (two fetches racing, a delete during a fetch) are not modelled: each handler runs to completion.
- The older components `src/components/TransactionList.tsx` and `src/components/TransactionForm.tsx`, and the auth, Firebase and UI files, are not part of this model.

## Findings

| source | as written | input that shows it | evidently intended | confidence | as-written member | corrected member |
|---|---|---|---|---|---|---|
| src/app/api/transactions/route.ts:22-25,69-72 | the response object puts `id` first and spreads the document data (GET) or the stored record (POST) after it, so a field named `id` in the data replaces the real document id | a POST body `{amount: 5, category: "food", type: "expense", id: "mine"}` is stored with its `id` field and answered, and later listed, under id "mine" rather than the new document's id | the document id always identifies the item | not executed; low to medium (the client never sends `id`, but any API caller can) | TransactionsRoute.ListItemAsWritten, TransactionsRoute.CreatedBodyAsWritten (shown by ListItemIdOverridden, CreatedIdOverridden) | TransactionsRoute.ListItem, TransactionsRoute.CreatedBody (with PostThenGet) |
| scripts/migrate-transactions.js:55-58,71-72 | each grouped entry is `{ id: doc.id, ...transaction }`, so a data field `id` replaces the document id, and the destructured `id` names the target document | two root documents "a" and "b" of owner "u" whose data both hold `id: "x"` are both written to users/u/transactions/x; the second overwrites the first | every document is written exactly once, under its own id | not executed; low (older documents may never carry an `id` field) | Migration.TargetAsWritten (shown by TargetCollision) | Migration.WriteOf (with PlanTargetsDistinct) |
