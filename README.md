# Expense tracker: budget periods, reports and charts

A Dafny model of the budget-period and reporting engine of a Django expense
tracker (`myapp/views.py`) and of the records it works on (`myapp/models.py`).

A user keeps expenses, incomes and one budget. The engine is built from these parts:

- **Period windows.** A budget period (`daily`, `weekly`, `monthly` or `yearly`)
  fixes a start date relative to today. The spend in that period is the sum of
  the user's expenses dated on or after the start.
- **Budget views.** The dashboard compares that spend with the budget amount:
  either an "exceeded" alert or the remaining amount. The budget chart shows
  spent against `max(amount - spent, 0)`. The budget form edits the user's
  budget, or creates one when there is none.
- **Reports.** The daily, monthly and yearly reports select the user's expenses
  by one chosen date and total them. The PDF download builds that date from
  URL numbers.
- **Charts.**
  - This month's spend per day, and the spend per day since the start of a chosen period. Both are grouped by date and labelled `YYYY-MM-DD` in ascending order.
  - The spend per category.
  - Spent against remaining for the budget.

## Modules

- `Calendar`:
  - Python's proleptic Gregorian `date`, restricted to years 1..9999;
  - `toordinal()` and `weekday()` (Monday = 0);
  - stepping back by days, as `today - timedelta(days=n)`;
  - date order;
  - `str(date)` and its inverse.
- `Models`:
  - the `User`, `Expense`, `Budget` and `Income` records;
  - the choice enumerations with their stored codes;
  - the store with its `ON DELETE CASCADE` references.
- `Ledger`: the expense queries the views run (`filter(UserId_id=..., <date condition>)`), and the cost sum over their results.
- `Periods`: the window start of each period, and the period spend (`calculate_expense_total`).
- `Budgets`:
  - the dashboard's budget branch and its income/expense totals;
  - the budget upsert, both as a value function and as the method `BudgetTable.Save` that updates the stored table in place.
- `Reports`: `filter_expenses`, the report total and the PDF total.
- `Grouping`: the group-by sums behind the charts:
  - per date in ascending date order;
  - per category in first-seen order.
- `Charts`: the four JSON chart endpoints as `{labels, data}` values.

Conventions:

- Money is an integer count of minor units.
- "Today" and "now" are parameters.
- Period and report kinds stay strings wherever the code compares strings. These strings come from URLs or form data, so any string can reach those branches.
- The stored `Budget.Period` is the enumeration, because the budget form only accepts its four choices.

## Model

| member | source | states |
|---|---|---|
| Calendar.DaysInMonth | myapp/models.py:20 | A month has 28 to 31 days. It has 29 exactly for February in a leap year. |
| Calendar.Ordinal | myapp/views.py:208 | A valid date has ordinal at least 1. The ordinal is 1 exactly for 1 January of year 1. |
| Calendar.Weekday | myapp/views.py:208 | `weekday()` lies in 0..6. It is smaller than the ordinal, so subtracting it never leaves year 1. |
| Calendar.BeforeIsStrictTotalOrder | myapp/views.py:360 | The date order used by `order_by('ExpenseDate')` is irreflexive, transitive and total. `<=` is `<` or equality. |
| Calendar.NextYear | myapp/views.py:208 | The ordinal formula advances by exactly the length of the year, 365 or 366 by the leap rule. |
| Calendar.PrevDay | myapp/views.py:208 | The day before a valid date (other than 1 January of year 1) is valid, strictly earlier, and exactly one ordinal less. |
| Calendar.SubDays | myapp/views.py:208 | `d - timedelta(days=n)` is a valid date, not after `d`, exactly `n` ordinals earlier. |
| Calendar.MondayOnOrBefore | myapp/views.py:208 | `today - timedelta(days=today.weekday())` is a Monday, not after today, 0 to 6 days earlier. |
| Calendar.OrdinalOrder | myapp/views.py:208 | On valid dates the ordinal is strictly increasing in date order, and two valid dates with the same ordinal are equal. So the ordinal facts of `SubDays` and `MondayOnOrBefore` fix the date they return. |
| Calendar.IsoFormat | myapp/views.py:363 | `str(date)` has 10 characters with dashes at positions 4 and 7. |
| Calendar.DecimalOfDigits | myapp/views.py:363 | Reading back the zero-padded decimal digits of a number gives the number. |
| Calendar.ParseIso | myapp/views.py:363 | Whatever parses as `YYYY-MM-DD` is a valid date. |
| Calendar.IsoRoundTrip | myapp/views.py:363 | Parsing the label `str(d)` gives back `d`. |
| Calendar.IsoFormatInjective | myapp/views.py:421 | Distinct dates have distinct labels. |
| Models.ParseExpenseCategory | myapp/models.py:10-18 | A stored code that parses names the category whose code it is. |
| Models.ExpenseCategoryCodeRoundTrip | myapp/models.py:10-23 | Each of the seven categories parses back from its code. The code fits the 50-character column. |
| Models.ParsePeriod | myapp/models.py:27-32 | A stored period code that parses names the period whose code it is. |
| Models.PeriodCodeRoundTrip | myapp/models.py:27-35 | Each of the four periods parses back from its code. The code fits the 20-character column. |
| Models.ParseIncomeCategory | myapp/models.py:44-51 | A stored income code that parses names the category whose code it is. |
| Models.IncomeCategoryCodeRoundTrip | myapp/models.py:44-55 | Each of the six income categories parses back from its code. The code fits the 50-character column. |
| Models.Filter | myapp/models.py:19 | A filtered table keeps exactly the rows that pass, each as often as before. |
| Models.DeleteUser | myapp/views.py:78-84 | Deleting a user removes that user. It also removes exactly that user's expenses, budgets and incomes (`on_delete=CASCADE`), and keeps everything else with multiplicity. |
| Models.DeleteUserKeepsReferences | myapp/models.py:19-53 | If every row references an existing user before the deletion, it still does afterwards. The deleted user and their expenses are gone. |
| Ledger.Query | myapp/views.py:217-220 | A query returns no more rows than stored, and each returned row is the user's and meets the date condition. |
| Ledger.QueryExactly | myapp/views.py:217-220 | A query returns exactly the user's rows meeting the condition, each as often as stored. A row with no date meets only the unconditioned query. |
| Ledger.SumCosts | myapp/views.py:222 | The cost sum of rows with no negative cost is never negative. |
| Ledger.SumCostsAppend | myapp/views.py:222 | The cost sum of two row lists is the sum of their sums. |
| Ledger.SumCostsPermutation | myapp/views.py:222 | The cost sum does not depend on the order of the rows. |
| Ledger.QueryAppend | myapp/views.py:217-220 | Querying a concatenation gives the concatenation of the query results, so stored order is kept. |
| Ledger.QueryAgrees | myapp/views.py:217-220 | Two conditions that agree on every stored row select the same rows. |
| Ledger.QueryNarrows | myapp/views.py:228-246 | Querying with a narrower condition is the same as narrowing the wider query's result. |
| Ledger.QuerySumAtMost | myapp/views.py:217-222 | With non-negative costs, a narrower query never totals more than a wider one. |
| Periods.WindowStart | myapp/views.py:202-214 | Start dates by period: `daily` is today; `weekly` is a Monday 0 to 6 days back; `monthly` is the earliest valid date of today's month; `yearly` is the earliest valid date of today's year. Each start is valid and not after today. There is no window exactly when the period is not one of the four. |
| Periods.ChartWindowStart | myapp/views.py:402-409 | The filtered chart's window start is the budget window's start for every period string, except that `daily` has none. |
| Periods.PeriodTotal | myapp/views.py:213-214 | An unknown period totals 0. |
| Periods.PeriodTotalIsSumOfWindow | myapp/views.py:202-223 | The period spend is the cost sum of any list holding exactly the user's dated expenses on or after the start, with multiplicity. |
| Periods.PeriodTotalAddExpense | myapp/views.py:217-222 | A new expense changes the spend by its cost exactly when it is the user's, dated, and on or after the start. A dateless expense or another user's changes nothing. An expense dated after today still counts. |
| Periods.PeriodTotalReorder | myapp/views.py:217-222 | The spend does not depend on the stored order. |
| Budgets.FirstBudgetIndex | myapp/views.py:188 | `.first()` finds the earliest row of the user, or reports that the user has none. |
| Budgets.FirstBudget | myapp/views.py:94 | There is no budget exactly when no stored budget is the user's. Otherwise the one found is a stored budget of the user's. |
| Budgets.BudgetsOf | myapp/views.py:188 | The user's budgets are exactly the stored budgets they own. |
| Budgets.SpentAgainst | myapp/views.py:105 | A stored budget period always has a window, and the spend compared with the budget is the cost sum of the user's expenses on or after its start. With no negative costs it lies between 0 and the user's all-time expense total. |
| Budgets.DashboardStatus | myapp/views.py:104-110 | There is no budget alert or remainder exactly when the user has no budget. The alert is raised, naming the period, exactly when the spend exceeds the amount. Otherwise the remainder is non-negative and adds up with the spend to the amount. |
| Budgets.DashboardAtLimit | myapp/views.py:107-110 | A spend equal to the amount is within budget with remainder 0. |
| Budgets.ExpenseTotal | myapp/views.py:97 | A user without expenses has expense total 0. With no negative costs the total is never negative. |
| Budgets.ExpenseTotalAppend | myapp/views.py:97 | A new expense raises the user's expense total by its cost when it is the user's, and leaves it unchanged otherwise. |
| Budgets.IncomeTotal | myapp/views.py:96 | A user without incomes has income total 0, as `... or 0` gives. |
| Budgets.IncomeTotalAppend | myapp/views.py:96 | A new income raises the user's income total by its amount when it is the user's, and leaves it unchanged otherwise. |
| Budgets.IncomeTotalSplit | myapp/views.py:96 | Removing one income from anywhere in the rows lowers the total by its share. |
| Budgets.IncomeTotalReorder | myapp/views.py:96 | The income total does not depend on the order of the rows. |
| Budgets.Balance | myapp/views.py:99 | With no negative costs the balance never exceeds the income total. A user without expenses has a balance equal to the income total. |
| Budgets.BalanceAfterExpense | myapp/views.py:96-99 | A new expense of the user lowers the balance by its cost. Anyone else's leaves it unchanged. |
| Budgets.BalanceAfterIncome | myapp/views.py:96-99 | A new income of the user raises the balance by its amount. Anyone else's leaves it unchanged. |
| Budgets.PeriodTotalAtMostExpenseTotal | myapp/views.py:217-222 | With non-negative costs, the period spend lies between 0 and the user's total expense. |
| Budgets.Upserted | myapp/views.py:188-195 | A save adds a row exactly when the user had no budget, and otherwise keeps the table length. |
| Budgets.UpsertedReadsBack | myapp/views.py:188-195 | After a save, the budget the views read for the user is theirs, with the saved period and amount. An edited budget keeps its creation time. |
| Budgets.FirstIndexUnique | myapp/views.py:188 | The earliest row of the user is the one `.first()` finds. |
| Budgets.UpsertedStep | myapp/views.py:188-195 | A save on a table edits the head when it is the user's, and otherwise saves into the tail. |
| Budgets.UpsertedKeepsOthers | myapp/views.py:188-195 | A save leaves every other user's budgets unchanged, in order. |
| Budgets.UpsertedBudgetCount | myapp/views.py:188-195 | A user with no budget has exactly one after a save. A user with budgets keeps their number. |
| Budgets.BudgetTable.Save | myapp/views.py:188-195 | The stored table becomes the upserted table. The user then reads back the saved amount, other users' budgets are untouched, and a user who had at most one budget has exactly one. |
| Reports.FilterExpenses | myapp/views.py:228-248 | An unknown report type selects nothing. Every selected row is the user's, dated, and on the day, in the month or in the year of the chosen date. |
| Reports.FilterExpensesExactly | myapp/views.py:228-248 | A report selects exactly the user's rows matching the type and date, each as often as stored. |
| Reports.ReportsNest | myapp/views.py:228-246 | For one date, the daily report is the monthly report narrowed to the day, and the monthly report is the yearly report narrowed to the month. So daily ⊆ monthly ⊆ yearly. |
| Reports.ReportTotal | myapp/views.py:270 | An unknown report type totals 0. |
| Reports.ReportTotalsNest | myapp/views.py:228-270 | With non-negative costs, daily total ≤ monthly total ≤ yearly total for one date. |
| Reports.ReportTotalReorder | myapp/views.py:270 | The report total does not depend on the stored order. |
| Reports.PdfTotal | myapp/views.py:310-315 | The PDF total is undefined exactly when the URL numbers do not form a valid date (`date(year, month, day)` raises). Otherwise it is the report total for that date. |
| Reports.ReportMatchesBudgetWindow | myapp/views.py:202-246 | With no expense dated after this year (or month), the yearly (or monthly) budget spend equals that report's total. |
| Grouping.KeySet | myapp/views.py:358 | A key is grouped exactly when some result row carries it. |
| Grouping.AmountOfDistinct | myapp/views.py:359 | With distinct keys, a row's total is everything grouped under its key. |
| Grouping.AscendingIsDistinct | myapp/views.py:358-360 | A series in ascending date order has no date twice. |
| Grouping.InsertDayKeepsOrder | myapp/views.py:360 | Adding a cost to the per-date series keeps it in ascending date order. |
| Grouping.DatesIn | myapp/views.py:358 | A date is present exactly when some row carries it. |
| Grouping.DailySeries | myapp/views.py:352-361 | The per-date series is strictly ascending and has one row for each date present among the rows. |
| Grouping.DailySeriesAmount | myapp/views.py:358-359 | The amount grouped under a date is that date's cost sum. |
| Grouping.DailySeriesValues | myapp/views.py:358-359 | Each row of the per-date series holds its date's cost sum. |
| Grouping.DailySeriesTotal | myapp/views.py:352-361 | For dated rows, the series values add up to the rows' cost sum. |
| Grouping.AddToGroupKeys | myapp/views.py:435-436 | Adding to the category groups keeps existing keys in place and appends a new key last. |
| Grouping.CategoriesIn | myapp/views.py:435 | A category is present exactly when some row carries it. |
| Grouping.CategoryTotals | myapp/views.py:433-437 | The category groups have distinct keys, one for each category present. |
| Grouping.CategoryTotalsFirstSeen | myapp/views.py:433-437 | A further expense leaves the category order as it was, appending its category only if new. |
| Grouping.CategoryTotalsAmount | myapp/views.py:436 | The amount grouped under a category is that category's cost sum. |
| Grouping.CategoryTotalsValues | myapp/views.py:436 | Each category row holds its category's cost sum. |
| Grouping.CategoryTotalsTotal | myapp/views.py:433-437 | The category totals add up to the rows' cost sum. |
| Charts.DailyChart | myapp/views.py:358-364 | The date chart has one label and one point per date group. When every row is dated, the points add up to the rows' cost sum. |
| Charts.DailyChartLabels | myapp/views.py:363 | Each date label reads back as the date of its series entry. |
| Charts.DailyChartData | myapp/views.py:363-364 | Labels and data have equal length. Each point is its date's cost sum. |
| Charts.DailyChartCovers | myapp/views.py:358-363 | Every date among the rows has a label. |
| Charts.CostOnDayOfQuery | myapp/views.py:411-417 | Within a date condition, a day's group total is the user's whole spend on that day. |
| Charts.QueryChart | myapp/views.py:411-422 | Labels and points have equal length. For a condition that needs a date, the points add up to the query's cost sum. |
| Charts.QueryChartPoints | myapp/views.py:411-422 | Every label of a query's date chart is a date meeting the condition. Its point is the user's whole spend that day. |
| Charts.QueryChartAscending | myapp/views.py:411-422 | The date labels are strictly ascending, so none repeats. |
| Charts.QueryChartCovers | myapp/views.py:411-421 | Every dated expense of the user that meets the condition has its date among the labels. |
| Charts.ExpenseChart | myapp/views.py:344-369 | This month's chart labels only days of today's month and year. Its points add up to the month's spend. |
| Charts.FilteredExpenseChart | myapp/views.py:402-409 | `daily` and any unknown period give empty labels and data. |
| Charts.SinceChartLabels | myapp/views.py:411-421 | Every label of a chart from a start date is on or after the start. |
| Charts.FilteredExpenseChartLabels | myapp/views.py:402-421 | For weekly, monthly and yearly, every label is on or after the budget window's start. |
| Charts.FilteredExpenseChartTotal | myapp/views.py:402-424 | For weekly, monthly and yearly, the points add up to the budget spend of the same period. |
| Charts.CategoryLabels | myapp/views.py:439 | One label per category group: its stored code. |
| Charts.CategoryChart | myapp/views.py:427-442 | No category label repeats. Each label is a category code, and its point is the user's whole spend in that category, dated or not. Every category the user has spent in has a label. |
| Charts.CategoryPoints | myapp/views.py:435-440 | Over any rows, each per-category label parses to its group's category, whose point is that category's cost sum, and no label repeats. |
| Charts.CategoryLabelsCover | myapp/views.py:435-439 | Over any rows, every category among them has a label. |
| Charts.CategoryChartTotal | myapp/views.py:433-442 | The category points add up to the dashboard's total expense. |
| Charts.BudgetChart | myapp/views.py:380-391 | No budget gives empty labels and data. Otherwise the labels are `Spent`, `Remaining` and the data is the period spend and `max(amount - spent, 0)`: never negative, at least `amount - spent`, and either 0 or exactly `amount - spent`. |
| Charts.BudgetChartAgreesWithDashboard | myapp/views.py:380-391 | The chart is empty exactly when the dashboard has no budget. Within budget, the chart's remainder is the dashboard's and spent + remaining = amount. When exceeded, the remainder is 0. |

## Left out

- Authentication, sessions and the `'user_id' in request.session` gates: the user id is a parameter.
- Create, edit and delete views for expenses, incomes and users; `render`, `redirect` and `messages`.
- The PDF and Excel bytes (reportlab, openpyxl), including the drawing loop. Only the totals they print are modelled.
- URL routing and form validation:
  - `myapp/urls.py` and `myapp/forms.py` are not part of this model;
  - a budget form that fails validation (nothing saved) is not modelled.
- Clock reads (`timezone.now()`, `datetime.today()`, `date.today()`) and creation timestamps: "today" is a `Date` parameter, and timestamps are opaque integers. Time zone differences between these reads are not modelled.
- Float parsing and float arithmetic:
  - the cost column is text that the views turn into a float, and budget and income amounts are floats; costs and amounts are integers in minor units here;
  - a cost text that does not parse (a `ValueError` in the views) is not modelled;
  - the three date and category charts do not parse costs in Python. They let the database `Sum` the text column (`myapp/views.py:359`, `:417`, `:436`), so a cost text that is not a number gets whatever the database makes of it. The model assumes every cost is a number there too;
  - `str(float)` formatting of chart data is not modelled;
  - rounding in float sums is not modelled.
- The text of the dashboard alert. `Budgets.DashboardStatus` keeps only the period it names.
- `Charts.CategoryChart`: the SQL `GROUP BY` without `ORDER BY` at `myapp/views.py:433-437` leaves the row order to the database. The model fixes first-seen order, so only the set of labels and their values describe every database.
- `Charts.ExpenseChart` and `Charts.FilteredExpenseChart` assume every stored date is a real calendar date, as a date column guarantees.
- `Calendar`: Python's `date` arithmetic beyond what the views use (adding days, dates outside years 1..9999) is not modelled.
- A stored budget period outside the four choices (the budget form admits only those) is not modelled; the dashboard and the budget chart pass the stored code of the enumeration to the period total.
- Field defaults (`default='other'` for both category columns, `myapp/models.py:23` and `:55`): every record in the model carries its category.
- Column length limits on text fields: no operation here depends on them.
