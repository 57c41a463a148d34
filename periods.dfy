/**
 * The budget period window and the spend inside it (`calculate_expense_total`):
 * the window of a period kind starts today, on this week's Monday, on the
 * first of this month or on 1 January, and the total covers every expense of
 * the user dated on or after that start, with no upper bound.
 */
module Periods {
  import opened Wrappers
  import opened Calendar
  import opened Models
  import opened Ledger

  /** The period strings `calculate_expense_total` recognises. */
  predicate IsPeriodCode(period: string) {
    period == "daily" || period == "weekly" || period == "monthly" || period == "yearly"
  }

  /** The first date of the current window of `period`; no window for any other string. */
  function WindowStart(period: string, today: Date): (start: Option<Date>)
    requires Valid(today)
    ensures start.Some? <==> IsPeriodCode(period)
    ensures start.Some? ==> Valid(start.value) && OnOrBefore(start.value, today)
    ensures period == "daily" ==> start == Some(today)
    ensures period == "weekly" ==>
      Weekday(start.value) == 0 && 0 <= Ordinal(today) - Ordinal(start.value) <= 6
    ensures period == "monthly" ==>
      && start.value.year == today.year && start.value.month == today.month
      && forall d :: Valid(d) && d.year == today.year && d.month == today.month ==> OnOrBefore(start.value, d)
    ensures period == "yearly" ==>
      && start.value.year == today.year
      && forall d :: Valid(d) && d.year == today.year ==> OnOrBefore(start.value, d)
  {
    if period == "daily" then Some(today)
    else if period == "weekly" then Some(MondayOnOrBefore(today))
    else if period == "monthly" then Some(Date(today.year, today.month, 1))
    else if period == "yearly" then Some(Date(today.year, 1, 1))
    else None
  }

  /**
   * The window start of the filtered expense chart, which repeats the branches
   * above without the daily one: the chart's window is the budget's window,
   * except that the chart has none for `daily`.
   */
  function ChartWindowStart(period: string, today: Date): (start: Option<Date>)
    requires Valid(today)
    ensures start == if period == "daily" then None else WindowStart(period, today)
  {
    if period == "weekly" then Some(MondayOnOrBefore(today))
    else if period == "monthly" then Some(Date(today.year, today.month, 1))
    else if period == "yearly" then Some(Date(today.year, 1, 1))
    else None
  }

  /** The user's spend in the current window of `period`; 0 when `period` is not a period. */
  function PeriodTotal(es: seq<Expense>, user: UserId, period: string, today: Date): (total: int)
    requires Valid(today)
    ensures !IsPeriodCode(period) ==> total == 0
  {
    match WindowStart(period, today)
    case None => 0
    case Some(start) => SumCosts(Query(es, user, Since(start)))
  }

  /** Whether `e` counts towards the user's spend in the window of `period`. */
  predicate InWindow(e: Expense, user: UserId, period: string, today: Date)
    requires Valid(today)
  {
    IsPeriodCode(period) && Matches(e, user, Since(WindowStart(period, today).value))
  }

  /**
   * The period total is the sum over exactly the user's expenses that have a
   * date on or after the window start, listed in any order.
   */
  lemma PeriodTotalIsSumOfWindow(es: seq<Expense>, user: UserId, period: string, today: Date, rows: seq<Expense>)
    requires Valid(today)
    requires forall e :: multiset(rows)[e] == if InWindow(e, user, period, today) then multiset(es)[e] else 0
    ensures PeriodTotal(es, user, period, today) == SumCosts(rows)
  {
    if IsPeriodCode(period) {
      var start := WindowStart(period, today).value;
      QueryExactly(es, user, Since(start));
      assert multiset(Query(es, user, Since(start))) == multiset(rows);
      SumCostsPermutation(Query(es, user, Since(start)), rows);
    } else {
      assert multiset(rows) == multiset{};
    }
  }

  /**
   * One more stored expense changes the total by its cost exactly when it is
   * the user's, has a date, and that date is on or after the window start; an
   * expense dated after today still counts.
   */
  lemma PeriodTotalAddExpense(es: seq<Expense>, e: Expense, user: UserId, period: string, today: Date)
    requires Valid(today)
    ensures PeriodTotal(es + [e], user, period, today)
      == PeriodTotal(es, user, period, today) + (if InWindow(e, user, period, today) then e.cost else 0)
    ensures e.date.None? || e.owner != user ==> PeriodTotal(es + [e], user, period, today) == PeriodTotal(es, user, period, today)
    ensures IsPeriodCode(period) && e.owner == user && e.date.Some? && OnOrBefore(today, e.date.value) ==>
      PeriodTotal(es + [e], user, period, today) == PeriodTotal(es, user, period, today) + e.cost
  {
    if IsPeriodCode(period) {
      var start := WindowStart(period, today).value;
      QueryAppend(es, [e], user, Since(start));
      SumCostsAppend(Query(es, user, Since(start)), Query([e], user, Since(start)));
      assert Query([e], user, Since(start)) == (if Matches(e, user, Since(start)) then [e] else []) + Query([], user, Since(start));
      if e.date.Some? {
        BeforeIsStrictTotalOrder(start, today, e.date.value);
      }
    }
  }

  /** The period total does not depend on the order the rows are stored in. */
  lemma PeriodTotalReorder(es: seq<Expense>, es': seq<Expense>, user: UserId, period: string, today: Date)
    requires Valid(today) && multiset(es) == multiset(es')
    ensures PeriodTotal(es, user, period, today) == PeriodTotal(es', user, period, today)
  {
    if IsPeriodCode(period) {
      var start := WindowStart(period, today).value;
      QueryExactly(es, user, Since(start));
      QueryExactly(es', user, Since(start));
      assert multiset(Query(es, user, Since(start))) == multiset(Query(es', user, Since(start)));
      SumCostsPermutation(Query(es, user, Since(start)), Query(es', user, Since(start)));
    }
  }
}
