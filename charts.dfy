/**
 * The chart endpoints and their `{labels, data}` payloads: this month's spend
 * per day, the spend per day since the start of a chosen period, the spend
 * per category, and spent against remaining for the budget.
 */
module Charts {
  import opened Wrappers
  import opened Calendar
  import opened Models
  import opened Ledger
  import opened Periods
  import opened Budgets
  import opened Grouping

  /** The JSON body `{"labels": ..., "data": ...}`. */
  datatype Chart = Chart(labels: seq<string>, data: seq<int>)

  const EMPTY_CHART := Chart([], [])

  /** Every stored date is a real date, as a date column guarantees. */
  predicate DatesValid(es: seq<Expense>) {
    forall e :: e in es && e.date.Some? ==> Valid(e.date.value)
  }

  lemma QueryKeepsDatesValid(es: seq<Expense>, user: UserId, c: Criterion)
    requires DatesValid(es)
    ensures DatesValid(Query(es, user, c))
  {
    QueryExactly(es, user, c);
  }

  function DateLabels(s: seq<Group<Date>>): (r: seq<string>)
    requires forall i :: 0 <= i < |s| ==> Valid(s[i].key)
    ensures |r| == |s| && forall i :: 0 <= i < |s| ==> r[i] == IsoFormat(s[i].key)
  {
    if s == [] then [] else [IsoFormat(s[0].key)] + DateLabels(s[1..])
  }

  /**
   * Labels `str(date)` and data `total` of the per-date sums of `rows`: one
   * point per date, and when every row is dated the points add up to the rows'
   * cost.
   */
  function DailyChart(rows: seq<Expense>): (c: Chart)
    requires DatesValid(rows)
    ensures |c.labels| == |c.data| == |DailySeries(rows)|
    ensures (forall i :: 0 <= i < |rows| ==> rows[i].date.Some?) ==> Total(c.data) == SumCosts(rows)
  {
    var s := DailySeries(rows);
    assert forall i :: 0 <= i < |s| ==> Valid(s[i].key) by {
      assert forall i :: 0 <= i < |s| ==> s[i].key in DatesIn(rows);
    }
    var c := Chart(DateLabels(s), Values(s));
    if forall i :: 0 <= i < |rows| ==> rows[i].date.Some? then
      DailySeriesTotal(rows);
      c
    else
      c
  }

  /** Each label of the per-date chart reads back as the date of its entry. */
  lemma DailyChartLabels(rows: seq<Expense>)
    requires DatesValid(rows)
    ensures var c := DailyChart(rows); var s := DailySeries(rows);
      |c.labels| == |s| && forall i :: 0 <= i < |s| ==> ParseIso(c.labels[i]) == Some(s[i].key)
  {
    var s := DailySeries(rows);
    var c := DailyChart(rows);
    forall i | 0 <= i < |s| ensures ParseIso(c.labels[i]) == Some(s[i].key) {
      assert s[i].key in DatesIn(rows);
      IsoRoundTrip(s[i].key);
    }
  }

  /** Each point of the per-date chart is the summed cost of its date. */
  lemma DailyChartData(rows: seq<Expense>)
    requires DatesValid(rows)
    ensures var c := DailyChart(rows); var s := DailySeries(rows);
      && |c.labels| == |c.data| == |s|
      && (forall i :: 0 <= i < |s| ==> c.data[i] == CostOnDay(rows, s[i].key))
  {
    DailySeriesValues(rows);
  }

  /** Every date that occurs in the rows has a label. */
  lemma DailyChartCovers(rows: seq<Expense>)
    requires DatesValid(rows)
    ensures var c := DailyChart(rows);
      forall d :: d in DatesIn(rows) ==> Valid(d) && IsoFormat(d) in c.labels
  {
    var s := DailySeries(rows);
    var c := DailyChart(rows);
    forall d | d in DatesIn(rows) ensures Valid(d) && IsoFormat(d) in c.labels {
      assert d in KeySet(s);
      var i :| 0 <= i < |s| && s[i].key == d;
      assert c.labels[i] == IsoFormat(d);
    }
  }

  /** On a row set narrowed by `c`, a day inside `c` has the user's whole spend for that day. */
  lemma {:induction false} CostOnDayOfQuery(es: seq<Expense>, user: UserId, c: Criterion, d: Date)
    requires DateMatches(Some(d), c)
    ensures CostOnDay(Query(es, user, c), d) == SumCosts(Query(es, user, OnDay(d)))
  {
    if es != [] {
      CostOnDayOfQuery(es[1..], user, c, d);
      var tail := Query(es[1..], user, c);
      var dayTail := Query(es[1..], user, OnDay(d));
      var onDay := Matches(es[0], user, OnDay(d));
      assert onDay ==> Matches(es[0], user, c);
      assert Query(es, user, OnDay(d)) == if onDay then [es[0]] + dayTail else dayTail;
      if onDay {
        assert SumCosts([es[0]] + dayTail) == es[0].cost + SumCosts(dayTail);
      }
      if Matches(es[0], user, c) {
        assert Query(es, user, c) == [es[0]] + tail;
        assert ([es[0]] + tail)[1..] == tail;
        assert CostOnDay([es[0]] + tail, d) == (if es[0].date == Some(d) then es[0].cost else 0) + CostOnDay(tail, d);
      } else {
        assert Query(es, user, c) == tail;
      }
    }
  }

  /**
   * The per-date chart of the user's expenses that meet `crit`. When `crit`
   * needs a date, the points add up to the query's total.
   */
  function QueryChart(es: seq<Expense>, user: UserId, crit: Criterion): (c: Chart)
    requires DatesValid(es)
    ensures |c.labels| == |c.data|
    ensures !DateMatches(None, crit) ==> Total(c.data) == SumCosts(Query(es, user, crit))
  {
    var rows := Query(es, user, crit);
    QueryKeepsDatesValid(es, user, crit);
    assert forall i :: 0 <= i < |rows| ==> Matches(rows[i], user, crit);
    DailyChart(rows)
  }

  /** Each point is a date meeting `crit`, with the user's whole spend on that date. */
  lemma QueryChartPoints(es: seq<Expense>, user: UserId, crit: Criterion)
    requires DatesValid(es)
    ensures var c := QueryChart(es, user, crit);
      && |c.labels| == |c.data|
      && forall i :: 0 <= i < |c.labels| ==>
           && ParseIso(c.labels[i]).Some?
           && DateMatches(ParseIso(c.labels[i]), crit)
           && c.data[i] == SumCosts(Query(es, user, OnDay(ParseIso(c.labels[i]).value)))
  {
    var rows := Query(es, user, crit);
    QueryKeepsDatesValid(es, user, crit);
    var s := DailySeries(rows);
    var c := DailyChart(rows);
    DailyChartLabels(rows);
    DailyChartData(rows);
    forall i | 0 <= i < |s|
      ensures DateMatches(Some(s[i].key), crit)
      ensures c.data[i] == SumCosts(Query(es, user, OnDay(s[i].key)))
    {
      assert s[i].key in KeySet(s);
      var k :| 0 <= k < |rows| && rows[k].date == Some(s[i].key);
      assert Matches(rows[k], user, crit);
      CostOnDayOfQuery(es, user, crit, s[i].key);
    }
  }

  /** The labels are in strictly ascending date order. */
  lemma QueryChartAscending(es: seq<Expense>, user: UserId, crit: Criterion)
    requires DatesValid(es)
    ensures var c := QueryChart(es, user, crit);
      forall i, j :: 0 <= i < j < |c.labels| ==>
        && ParseIso(c.labels[i]).Some? && ParseIso(c.labels[j]).Some?
        && Before(ParseIso(c.labels[i]).value, ParseIso(c.labels[j]).value)
  {
    QueryKeepsDatesValid(es, user, crit);
    DailyChartLabels(Query(es, user, crit));
  }

  /** Every dated expense of the user that meets `crit` has its date among the labels. */
  lemma QueryChartCovers(es: seq<Expense>, user: UserId, crit: Criterion)
    requires DatesValid(es)
    ensures var c := QueryChart(es, user, crit);
      forall e :: e in es && Matches(e, user, crit) && e.date.Some? ==>
        Valid(e.date.value) && IsoFormat(e.date.value) in c.labels
  {
    var rows := Query(es, user, crit);
    QueryKeepsDatesValid(es, user, crit);
    QueryExactly(es, user, crit);
    DailyChartCovers(rows);
    forall e | e in es && Matches(e, user, crit) && e.date.Some?
      ensures e.date.value in DatesIn(rows)
    {
      var k :| 0 <= k < |rows| && rows[k] == e;
    }
  }

  /**
   * `expense_chart_data`: the user's spend per day of the current month. Every
   * label is a day of today's month, and the points add up to the month's spend.
   */
  function ExpenseChart(es: seq<Expense>, user: UserId, today: Date): (c: Chart)
    requires Valid(today) && DatesValid(es)
    ensures |c.labels| == |c.data|
    ensures forall i :: 0 <= i < |c.labels| ==>
      && ParseIso(c.labels[i]).Some?
      && ParseIso(c.labels[i]).value.year == today.year
      && ParseIso(c.labels[i]).value.month == today.month
    ensures Total(c.data) == SumCosts(Query(es, user, InMonth(today.year, today.month)))
  {
    QueryChartPoints(es, user, InMonth(today.year, today.month));
    QueryChart(es, user, InMonth(today.year, today.month))
  }

  lemma SinceChartLabels(es: seq<Expense>, user: UserId, start: Date)
    requires DatesValid(es)
    ensures var c := QueryChart(es, user, Since(start));
      && |c.labels| == |c.data|
      && forall i :: 0 <= i < |c.labels| ==>
           ParseIso(c.labels[i]).Some? && OnOrBefore(start, ParseIso(c.labels[i]).value)
  {
    QueryChartPoints(es, user, Since(start));
    var c := QueryChart(es, user, Since(start));
    forall i | 0 <= i < |c.labels|
      ensures ParseIso(c.labels[i]).Some? && OnOrBefore(start, ParseIso(c.labels[i]).value)
    {
      var p := ParseIso(c.labels[i]);
      assert DateMatches(p, Since(start));
    }
  }

  /** `expense_chart_data_filtered`: spend per day since the start of the period; empty for `daily` and unknown periods. */
  function FilteredExpenseChart(es: seq<Expense>, user: UserId, period: string, today: Date): (c: Chart)
    requires Valid(today) && DatesValid(es)
    ensures period == "daily" || !IsPeriodCode(period) ==> c == EMPTY_CHART
  {
    match ChartWindowStart(period, today)
    case None => EMPTY_CHART
    case Some(start) => QueryChart(es, user, Since(start))
  }

  /** For weekly, monthly and yearly every label is a day on or after the start of the budget window. */
  lemma FilteredExpenseChartLabels(es: seq<Expense>, user: UserId, period: string, today: Date)
    requires Valid(today) && DatesValid(es)
    requires IsPeriodCode(period) && period != "daily"
    ensures var c := FilteredExpenseChart(es, user, period, today);
      var start := WindowStart(period, today).value;
      && |c.labels| == |c.data|
      && forall i :: 0 <= i < |c.labels| ==>
           ParseIso(c.labels[i]).Some? && OnOrBefore(start, ParseIso(c.labels[i]).value)
  {
    var start := WindowStart(period, today).value;
    assert FilteredExpenseChart(es, user, period, today) == QueryChart(es, user, Since(start));
    SinceChartLabels(es, user, start);
  }

  /** For weekly, monthly and yearly the points add up to the budget spend of the same period. */
  lemma FilteredExpenseChartTotal(es: seq<Expense>, user: UserId, period: string, today: Date)
    requires Valid(today) && DatesValid(es)
    requires IsPeriodCode(period) && period != "daily"
    ensures Total(FilteredExpenseChart(es, user, period, today).data) == PeriodTotal(es, user, period, today)
  {
    var start := WindowStart(period, today).value;
    assert FilteredExpenseChart(es, user, period, today) == QueryChart(es, user, Since(start));
  }

  function CategoryLabels(g: seq<Group<ExpenseCategory>>): (r: seq<string>)
    ensures |r| == |g| && forall i :: 0 <= i < |g| ==> r[i] == ExpenseCategoryCode(g[i].key)
  {
    if g == [] then [] else [ExpenseCategoryCode(g[0].key)] + CategoryLabels(g[1..])
  }

  /**
   * `category_chart_data`: the user's spend per category, dated or not. No
   * label repeats, each label is a category code whose point is the user's
   * whole spend in that category, and every category the user spent in is
   * labelled.
   */
  function CategoryChart(es: seq<Expense>, user: UserId): (c: Chart)
    ensures |c.labels| == |c.data|
    ensures forall i :: 0 <= i < |c.labels| ==>
      && ParseExpenseCategory(c.labels[i]).Some?
      && c.data[i] == CostInCategory(Query(es, user, AnyDate), ParseExpenseCategory(c.labels[i]).value)
    ensures forall i, j :: 0 <= i < j < |c.labels| ==> c.labels[i] != c.labels[j]
    ensures forall e :: e in es && e.owner == user ==> ExpenseCategoryCode(e.category) in c.labels
  {
    var rows := Query(es, user, AnyDate);
    assert forall e :: e in es && e.owner == user ==> e in rows by {
      QueryExactly(es, user, AnyDate);
    }
    CategoryLabelsCover(rows);
    CategoryPoints(rows);
    ChartOfGroups(CategoryTotals(rows))
  }

  /** The chart of per-category sums. */
  function ChartOfGroups(g: seq<Group<ExpenseCategory>>): (c: Chart)
    ensures c.labels == CategoryLabels(g) && c.data == Values(g)
  {
    Chart(CategoryLabels(g), Values(g))
  }

  /** Each label of the per-category chart of `rows` names its category once, with that category's cost. */
  lemma CategoryPoints(rows: seq<Expense>)
    ensures var c := ChartOfGroups(CategoryTotals(rows));
      && |c.labels| == |c.data|
      && (forall i :: 0 <= i < |c.labels| ==>
            && ParseExpenseCategory(c.labels[i]).Some?
            && c.data[i] == CostInCategory(rows, ParseExpenseCategory(c.labels[i]).value))
      && (forall i, j :: 0 <= i < j < |c.labels| ==> c.labels[i] != c.labels[j])
  {
    var g := CategoryTotals(rows);
    var c := ChartOfGroups(g);
    CategoryTotalsValues(rows);
    forall i | 0 <= i < |g| ensures ParseExpenseCategory(c.labels[i]) == Some(g[i].key) {
      ExpenseCategoryCodeRoundTrip(g[i].key);
    }
    forall i, j | 0 <= i < j < |g| ensures c.labels[i] != c.labels[j] {
      ExpenseCategoryCodeRoundTrip(g[i].key);
      ExpenseCategoryCodeRoundTrip(g[j].key);
    }
  }

  /** Every category among `rows` has a label. */
  lemma CategoryLabelsCover(rows: seq<Expense>)
    ensures forall e :: e in rows ==> ExpenseCategoryCode(e.category) in ChartOfGroups(CategoryTotals(rows)).labels
  {
    var g := CategoryTotals(rows);
    var labels := ChartOfGroups(g).labels;
    forall e | e in rows ensures ExpenseCategoryCode(e.category) in labels {
      var k :| 0 <= k < |rows| && rows[k] == e;
      assert e.category in KeySet(g);
      var i :| 0 <= i < |g| && g[i].key == e.category;
      assert labels[i] == ExpenseCategoryCode(e.category);
    }
  }

  /** The category points add up to the dashboard's expense total. */
  lemma CategoryChartTotal(es: seq<Expense>, user: UserId)
    ensures Total(CategoryChart(es, user).data) == ExpenseTotal(es, user)
  {
    CategoryTotalsTotal(Query(es, user, AnyDate));
  }

  /** `budget_vs_expense_data`: spent and `max(amount - spent, 0)`; empty without a budget. */
  function BudgetChart(budgets: seq<Budget>, es: seq<Expense>, user: UserId, today: Date): (c: Chart)
    requires Valid(today)
    ensures FirstBudget(budgets, user).None? ==> c == EMPTY_CHART
    ensures FirstBudget(budgets, user).Some? ==>
      var b := FirstBudget(budgets, user).value;
      var spent := SpentAgainst(b, es, user, today);
      && c.labels == ["Spent", "Remaining"] && |c.data| == 2 && c.data[0] == spent
      && c.data[1] >= 0 && c.data[1] >= b.amount - spent
      && (c.data[1] == 0 || c.data[1] == b.amount - spent)
  {
    match FirstBudget(budgets, user)
    case None => EMPTY_CHART
    case Some(b) =>
      var total := SpentAgainst(b, es, user, today);
      var remaining := if b.amount - total > 0 then b.amount - total else 0;
      Chart(["Spent", "Remaining"], [total, remaining])
  }

  /** The budget chart and the dashboard agree: same spend, and the chart's remainder is the dashboard's. */
  lemma BudgetChartAgreesWithDashboard(budgets: seq<Budget>, es: seq<Expense>, user: UserId, today: Date)
    requires Valid(today)
    ensures var c := BudgetChart(budgets, es, user, today);
      var s := DashboardStatus(budgets, es, user, today);
      && (s.NoBudget? <==> c == EMPTY_CHART)
      && (s.WithinBudget? ==> c.data[1] == s.remaining && c.data[0] + c.data[1] == FirstBudget(budgets, user).value.amount)
      && (s.Exceeded? ==> c.data[1] == 0 && c.data[0] > FirstBudget(budgets, user).value.amount)
  {
  }
}
