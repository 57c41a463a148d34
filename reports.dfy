/**
 * The expense report (`filter_expenses`): the user's expenses on a chosen day,
 * in its month or in its year, nothing for any other report type, and the
 * total the on-screen report and the PDF export print under it.
 */
module Reports {
  import opened Wrappers
  import opened Calendar
  import opened Models
  import opened Ledger
  import opened Periods

  predicate IsReportType(reportType: string) {
    reportType == "daily" || reportType == "monthly" || reportType == "yearly"
  }

  /** Whether the report of `reportType` for `selected` lists expense `e`. */
  predicate Selected(e: Expense, user: UserId, reportType: string, selected: Date) {
    && e.owner == user && e.date.Some?
    && (|| (reportType == "daily" && e.date.value == selected)
        || (reportType == "monthly" && e.date.value.year == selected.year && e.date.value.month == selected.month)
        || (reportType == "yearly" && e.date.value.year == selected.year))
  }

  function FilterExpenses(es: seq<Expense>, user: UserId, reportType: string, selected: Date): (r: seq<Expense>)
    ensures !IsReportType(reportType) ==> r == []
    ensures forall i :: 0 <= i < |r| ==> Selected(r[i], user, reportType, selected)
  {
    if reportType == "daily" then Query(es, user, OnDay(selected))
    else if reportType == "monthly" then Query(es, user, InMonth(selected.year, selected.month))
    else if reportType == "yearly" then Query(es, user, InYear(selected.year))
    else []
  }

  /** The report lists exactly the selected expenses, each as often as it is stored. */
  lemma FilterExpensesExactly(es: seq<Expense>, user: UserId, reportType: string, selected: Date)
    ensures forall e ::
      multiset(FilterExpenses(es, user, reportType, selected))[e]
      == if Selected(e, user, reportType, selected) then multiset(es)[e] else 0
  {
    if reportType == "daily" {
      QueryExactly(es, user, OnDay(selected));
    } else if reportType == "monthly" {
      QueryExactly(es, user, InMonth(selected.year, selected.month));
    } else if reportType == "yearly" {
      QueryExactly(es, user, InYear(selected.year));
    }
  }

  /**
   * For one selected date the daily report is the monthly report narrowed to
   * that day, and the monthly report is the yearly report narrowed to that month.
   */
  lemma ReportsNest(es: seq<Expense>, user: UserId, selected: Date)
    ensures FilterExpenses(es, user, "daily", selected)
      == Query(FilterExpenses(es, user, "monthly", selected), user, OnDay(selected))
    ensures FilterExpenses(es, user, "monthly", selected)
      == Query(FilterExpenses(es, user, "yearly", selected), user, InMonth(selected.year, selected.month))
    ensures forall e :: e in FilterExpenses(es, user, "daily", selected) ==> e in FilterExpenses(es, user, "monthly", selected)
    ensures forall e :: e in FilterExpenses(es, user, "monthly", selected) ==> e in FilterExpenses(es, user, "yearly", selected)
  {
    QueryNarrows(es, user, OnDay(selected), InMonth(selected.year, selected.month));
    QueryNarrows(es, user, InMonth(selected.year, selected.month), InYear(selected.year));
    QueryExactly(FilterExpenses(es, user, "monthly", selected), user, OnDay(selected));
    QueryExactly(FilterExpenses(es, user, "yearly", selected), user, InMonth(selected.year, selected.month));
  }

  /** `total = sum(float(exp.ExpenseCost) for exp in report_data)`. */
  function ReportTotal(es: seq<Expense>, user: UserId, reportType: string, selected: Date): (total: int)
    ensures !IsReportType(reportType) ==> total == 0
  {
    SumCosts(FilterExpenses(es, user, reportType, selected))
  }

  /** With no negative costs, the day's total is at most the month's, which is at most the year's. */
  lemma ReportTotalsNest(es: seq<Expense>, user: UserId, selected: Date)
    requires NonNegativeCosts(es)
    ensures ReportTotal(es, user, "daily", selected) <= ReportTotal(es, user, "monthly", selected)
    ensures ReportTotal(es, user, "monthly", selected) <= ReportTotal(es, user, "yearly", selected)
  {
    ReportsNest(es, user, selected);
    QuerySumAtMost(es, user, InYear(selected.year));
    QuerySumAtMost(FilterExpenses(es, user, "yearly", selected), user, InMonth(selected.year, selected.month));
    QuerySumAtMost(FilterExpenses(es, user, "monthly", selected), user, OnDay(selected));
  }

  /** The report total does not depend on the order the rows are stored in. */
  lemma ReportTotalReorder(es: seq<Expense>, es': seq<Expense>, user: UserId, reportType: string, selected: Date)
    requires multiset(es) == multiset(es')
    ensures ReportTotal(es, user, reportType, selected) == ReportTotal(es', user, reportType, selected)
  {
    FilterExpensesExactly(es, user, reportType, selected);
    FilterExpensesExactly(es', user, reportType, selected);
    var r, r' := FilterExpenses(es, user, reportType, selected), FilterExpenses(es', user, reportType, selected);
    assert multiset(r) == multiset(r');
    SumCostsPermutation(r, r');
  }

  /**
   * The PDF export builds the date from the URL's year, month and day first:
   * an impossible date is an error (`date()` raises), otherwise the total of the report.
   */
  function PdfTotal(es: seq<Expense>, user: UserId, reportType: string, year: nat, month: nat, day: nat): (r: Option<int>)
    ensures r.None? <==> !Valid(Date(year, month, day))
    ensures r.Some? ==> r.value == ReportTotal(es, user, reportType, Date(year, month, day))
  {
    var selected := Date(year, month, day);
    if Valid(selected) then Some(ReportTotal(es, user, reportType, selected)) else None
  }

  /** The user has no expense dated in a year after `year`, and every date is a real one. */
  predicate NothingAfterYear(es: seq<Expense>, user: UserId, year: int) {
    forall e :: e in es && e.owner == user && e.date.Some? ==> Valid(e.date.value) && e.date.value.year <= year
  }

  /** The user has no expense dated in a month after `month` of `year`, and every date is a real one. */
  predicate NothingAfterMonth(es: seq<Expense>, user: UserId, year: int, month: int) {
    forall e :: e in es && e.owner == user && e.date.Some? ==>
      Valid(e.date.value)
      && (e.date.value.year < year || (e.date.value.year == year && e.date.value.month <= month))
  }

  /**
   * Without future-dated expenses, the yearly budget spend is this year's
   * report total, and the monthly budget spend is this month's.
   */
  lemma ReportMatchesBudgetWindow(es: seq<Expense>, user: UserId, today: Date)
    requires Valid(today)
    ensures NothingAfterYear(es, user, today.year) ==>
      PeriodTotal(es, user, "yearly", today) == ReportTotal(es, user, "yearly", today)
    ensures NothingAfterMonth(es, user, today.year, today.month) ==>
      PeriodTotal(es, user, "monthly", today) == ReportTotal(es, user, "monthly", today)
  {
    if NothingAfterYear(es, user, today.year) {
      QueryAgrees(es, user, Since(Date(today.year, 1, 1)), InYear(today.year));
    }
    if NothingAfterMonth(es, user, today.year, today.month) {
      QueryAgrees(es, user, Since(Date(today.year, today.month, 1)), InMonth(today.year, today.month));
    }
  }
}
