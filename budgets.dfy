/**
 * The user's budget: the single-budget lookup (`Budget.objects.filter(UserId_id=user).first()`),
 * the dashboard's evaluation of the current spend against it, the dashboard's
 * all-time totals, and the save that edits the user's budget or creates one.
 */
module Budgets {
  import opened Wrappers
  import opened Calendar
  import opened Models
  import opened Ledger
  import opened Periods

  /** The position of the user's first budget row (rows are in primary-key order). */
  function FirstBudgetIndex(rows: seq<Budget>, user: UserId): (r: Option<nat>)
    ensures r.Some? ==>
      && r.value < |rows| && rows[r.value].owner == user
      && forall j :: 0 <= j < r.value ==> rows[j].owner != user
    ensures r.None? ==> forall j :: 0 <= j < |rows| ==> rows[j].owner != user
  {
    if rows == [] then None
    else if rows[0].owner == user then Some(0)
    else match FirstBudgetIndex(rows[1..], user)
      case None => None
      case Some(i) => Some(i + 1)
  }

  /** `Budget.objects.filter(UserId_id=user).first()`. */
  function FirstBudget(rows: seq<Budget>, user: UserId): (r: Option<Budget>)
    ensures r.None? <==> forall b :: b in rows ==> b.owner != user
    ensures r.Some? ==> r.value in rows && r.value.owner == user
  {
    match FirstBudgetIndex(rows, user)
    case None => None
    case Some(i) => Some(rows[i])
  }

  /** The user's budget rows, in order. */
  function BudgetsOf(rows: seq<Budget>, user: UserId): (r: seq<Budget>)
    ensures forall b :: b in r <==> b in rows && b.owner == user
  {
    if rows == [] then []
    else (if rows[0].owner == user then [rows[0]] else []) + BudgetsOf(rows[1..], user)
  }

  /** What the dashboard shows about the budget. */
  datatype BudgetStatus =
    | NoBudget
    | Exceeded(period: BudgetPeriod)   // the alert "you have exceeded your <period> budget"
    | WithinBudget(remaining: int)

  /**
   * The spend the dashboard compares with budget `b`: a stored period always has
   * a window, and with no negative costs the spend lies between 0 and the
   * all-time spend.
   */
  function SpentAgainst(b: Budget, es: seq<Expense>, user: UserId, today: Date): (s: int)
    requires Valid(today)
    ensures IsPeriodCode(PeriodCode(b.period))
      && s == SumCosts(Query(es, user, Since(WindowStart(PeriodCode(b.period), today).value)))
    ensures NonNegativeCosts(es) ==> 0 <= s <= ExpenseTotal(es, user)
  {
    var period := PeriodCode(b.period);
    if NonNegativeCosts(es) then
      PeriodTotalAtMostExpenseTotal(es, user, period, today);
      PeriodTotal(es, user, period, today)
    else
      PeriodTotal(es, user, period, today)
  }

  /** The budget branch of the dashboard. */
  function DashboardStatus(budgets: seq<Budget>, es: seq<Expense>, user: UserId, today: Date): (s: BudgetStatus)
    requires Valid(today)
    ensures s.NoBudget? <==> FirstBudget(budgets, user).None?
    ensures s.Exceeded? <==>
      FirstBudget(budgets, user).Some?
      && SpentAgainst(FirstBudget(budgets, user).value, es, user, today) > FirstBudget(budgets, user).value.amount
    ensures s.Exceeded? ==> s.period == FirstBudget(budgets, user).value.period
    ensures s.WithinBudget? ==>
      && s.remaining >= 0
      && s.remaining + SpentAgainst(FirstBudget(budgets, user).value, es, user, today) == FirstBudget(budgets, user).value.amount
  {
    match FirstBudget(budgets, user)
    case None => NoBudget
    case Some(b) =>
      var total := SpentAgainst(b, es, user, today);
      if total > b.amount then Exceeded(b.period) else WithinBudget(b.amount - total)
  }

  /** Spending exactly the budget is within it, with nothing remaining. */
  lemma DashboardAtLimit(budgets: seq<Budget>, es: seq<Expense>, user: UserId, today: Date)
    requires Valid(today) && FirstBudget(budgets, user).Some?
    requires SpentAgainst(FirstBudget(budgets, user).value, es, user, today) == FirstBudget(budgets, user).value.amount
    ensures DashboardStatus(budgets, es, user, today) == WithinBudget(0)
  {
  }

  /** The dashboard's all-time expense total (every expense of the user, dated or not). */
  function ExpenseTotal(es: seq<Expense>, user: UserId): (t: int)
    ensures (forall e :: e in es ==> e.owner != user) ==> t == 0
    ensures NonNegativeCosts(es) ==> t >= 0
  {
    var mine := Query(es, user, AnyDate);
    QueryExactly(es, user, AnyDate);
    assert mine != [] ==> mine[0] in mine;
    if NonNegativeCosts(es) then
      QuerySumAtMost(es, user, AnyDate);
      SumCosts(mine)
    else
      SumCosts(mine)
  }

  /** A new expense raises the user's total by its cost when it is theirs, and leaves it alone otherwise. */
  lemma ExpenseTotalAppend(es: seq<Expense>, e: Expense, user: UserId)
    ensures ExpenseTotal(es + [e], user) == ExpenseTotal(es, user) + (if e.owner == user then e.cost else 0)
  {
    QueryAppend(es, [e], user, AnyDate);
    SumCostsAppend(Query(es, user, AnyDate), Query([e], user, AnyDate));
    assert Query([e], user, AnyDate) == (if e.owner == user then [e] else []) + Query([], user, AnyDate);
  }

  /** The dashboard's income total: the sum of the user's income amounts, 0 when there are none. */
  function IncomeTotal(incomes: seq<Income>, user: UserId): (t: int)
    ensures (forall i :: i in incomes ==> i.owner != user) ==> t == 0
  {
    if incomes == [] then 0
    else (if incomes[0].owner == user then incomes[0].amount else 0) + IncomeTotal(incomes[1..], user)
  }

  /** A new income raises the user's total by its amount when it is theirs, and leaves it alone otherwise. */
  lemma {:induction false} IncomeTotalAppend(incomes: seq<Income>, i: Income, user: UserId)
    ensures IncomeTotal(incomes + [i], user) == IncomeTotal(incomes, user) + (if i.owner == user then i.amount else 0)
  {
    if incomes == [] {
      assert incomes + [i] == [i];
      assert [i][1..] == [];
    } else {
      assert (incomes + [i])[0] == incomes[0];
      assert (incomes + [i])[1..] == incomes[1..] + [i];
      IncomeTotalAppend(incomes[1..], i, user);
    }
  }

  /** The income total does not depend on the order of the rows. */
  lemma {:induction false} IncomeTotalReorder(a: seq<Income>, b: seq<Income>, user: UserId)
    requires multiset(a) == multiset(b)
    ensures IncomeTotal(a, user) == IncomeTotal(b, user)
    decreases |a|
  {
    if a != [] {
      var x := a[|a| - 1];
      var a' := a[..|a| - 1];
      assert a == a' + [x];
      assert x in multiset(b);
      assert x in b;
      var k :| 0 <= k < |b| && b[k] == x;
      var b' := b[..k] + b[k + 1..];
      assert b == b[..k] + [x] + b[k + 1..];
      assert multiset(b') == multiset(b) - multiset{x};
      assert multiset(a') == multiset(a) - multiset{x};
      IncomeTotalReorder(a', b', user);
      IncomeTotalAppend(a', x, user);
      IncomeTotalSplit(b[..k], x, b[k + 1..], user);
    }
  }

  /** Taking one income out of the middle of the rows takes its share out of the total. */
  lemma {:induction false} IncomeTotalSplit(p: seq<Income>, x: Income, q: seq<Income>, user: UserId)
    ensures IncomeTotal(p + [x] + q, user) == IncomeTotal(p + q, user) + (if x.owner == user then x.amount else 0)
  {
    if p == [] {
      assert p + [x] + q == [x] + q;
      assert ([x] + q)[1..] == q;
      assert p + q == q;
    } else {
      assert (p + [x] + q)[0] == p[0];
      assert (p + [x] + q)[1..] == p[1..] + [x] + q;
      assert (p + q)[0] == p[0];
      assert (p + q)[1..] == p[1..] + q;
      IncomeTotalSplit(p[1..], x, q, user);
    }
  }

  /** The dashboard's balance; with no negative costs it never exceeds the income total. */
  function Balance(incomes: seq<Income>, es: seq<Expense>, user: UserId): (b: int)
    ensures NonNegativeCosts(es) ==> b <= IncomeTotal(incomes, user)
    ensures (forall e :: e in es ==> e.owner != user) ==> b == IncomeTotal(incomes, user)
  {
    IncomeTotal(incomes, user) - ExpenseTotal(es, user)
  }

  /** A new expense of the user lowers the balance by its cost; anyone else's leaves it alone. */
  lemma BalanceAfterExpense(incomes: seq<Income>, es: seq<Expense>, e: Expense, user: UserId)
    ensures Balance(incomes, es + [e], user) == Balance(incomes, es, user) - (if e.owner == user then e.cost else 0)
  {
    ExpenseTotalAppend(es, e, user);
  }

  /** A new income of the user raises the balance by its amount; anyone else's leaves it alone. */
  lemma BalanceAfterIncome(incomes: seq<Income>, es: seq<Expense>, i: Income, user: UserId)
    ensures Balance(incomes + [i], es, user) == Balance(incomes, es, user) + (if i.owner == user then i.amount else 0)
  {
    IncomeTotalAppend(incomes, i, user);
  }

  /** With no negative costs, the spend in any window is at most the all-time spend. */
  lemma PeriodTotalAtMostExpenseTotal(es: seq<Expense>, user: UserId, period: string, today: Date)
    requires Valid(today) && NonNegativeCosts(es)
    ensures 0 <= PeriodTotal(es, user, period, today) <= ExpenseTotal(es, user)
  {
    QuerySumAtMost(es, user, AnyDate);
    if IsPeriodCode(period) {
      var start := WindowStart(period, today).value;
      QueryNarrows(es, user, Since(start), AnyDate);
      QuerySumAtMost(Query(es, user, AnyDate), user, Since(start));
    }
  }

  /** The rows after the budget form is saved: the user's budget edited in place, or a new one appended. */
  function Upserted(rows: seq<Budget>, user: UserId, period: BudgetPeriod, amount: int, now: int): (r: seq<Budget>)
    ensures |r| == |rows| + (if FirstBudget(rows, user).None? then 1 else 0)
  {
    match FirstBudgetIndex(rows, user)
    case Some(i) => rows[i := Budget(user, period, amount, rows[i].createdAt)]
    case None => rows + [Budget(user, period, amount, now)]
  }

  /** After a save, the budget the dashboard reads for the user carries the saved period and amount. */
  lemma UpsertedReadsBack(rows: seq<Budget>, user: UserId, period: BudgetPeriod, amount: int, now: int)
    ensures var b := FirstBudget(Upserted(rows, user, period, amount, now), user);
      && b.Some? && b.value.owner == user && b.value.period == period && b.value.amount == amount
      && b.value.createdAt == (if FirstBudget(rows, user).Some? then FirstBudget(rows, user).value.createdAt else now)
  {
    var r := Upserted(rows, user, period, amount, now);
    match FirstBudgetIndex(rows, user)
    case Some(i) =>
      assert r[i].owner == user;
      assert forall j :: 0 <= j < i ==> r[j] == rows[j];
      assert FirstBudgetIndex(r, user) == Some(i) by {
        FirstIndexUnique(r, user, i);
      }
    case None =>
      assert r[|rows|].owner == user;
      FirstIndexUnique(r, user, |rows|);
  }

  lemma {:induction false} FirstIndexUnique(rows: seq<Budget>, user: UserId, i: nat)
    requires i < |rows| && rows[i].owner == user
    requires forall j :: 0 <= j < i ==> rows[j].owner != user
    ensures FirstBudgetIndex(rows, user) == Some(i)
  {
    if i > 0 {
      FirstIndexUnique(rows[1..], user, i - 1);
    }
  }

  /** How a save on a non-empty table relates to a save on its tail. */
  lemma UpsertedStep(rows: seq<Budget>, user: UserId, period: BudgetPeriod, amount: int, now: int)
    requires rows != []
    ensures rows[0].owner == user ==>
      Upserted(rows, user, period, amount, now) == [Budget(user, period, amount, rows[0].createdAt)] + rows[1..]
    ensures rows[0].owner != user ==>
      Upserted(rows, user, period, amount, now) == [rows[0]] + Upserted(rows[1..], user, period, amount, now)
  {
    var b := Budget(user, period, amount, now);
    if rows[0].owner != user {
      match FirstBudgetIndex(rows[1..], user)
      case Some(j) =>
        assert FirstBudgetIndex(rows, user) == Some(j + 1);
        assert rows[j + 1 := Budget(user, period, amount, rows[j + 1].createdAt)]
          == [rows[0]] + rows[1..][j := Budget(user, period, amount, rows[1..][j].createdAt)];
      case None =>
        assert FirstBudgetIndex(rows, user) == None;
        assert rows + [b] == [rows[0]] + (rows[1..] + [b]);
    }
  }

  /** A save never touches another user's budgets. */
  lemma {:induction false} UpsertedKeepsOthers(rows: seq<Budget>, user: UserId, other: UserId, period: BudgetPeriod, amount: int, now: int)
    requires other != user
    ensures BudgetsOf(Upserted(rows, user, period, amount, now), other) == BudgetsOf(rows, other)
  {
    if rows != [] {
      var r := Upserted(rows, user, period, amount, now);
      UpsertedStep(rows, user, period, amount, now);
      if rows[0].owner == user {
        assert r[1..] == rows[1..];
      } else {
        UpsertedKeepsOthers(rows[1..], user, other, period, amount, now);
        assert r[1..] == Upserted(rows[1..], user, period, amount, now);
      }
    } else {
      assert Upserted(rows, user, period, amount, now) == [Budget(user, period, amount, now)];
    }
  }

  /** A save leaves the user with one budget if they had none, and never adds a second. */
  lemma {:induction false} UpsertedBudgetCount(rows: seq<Budget>, user: UserId, period: BudgetPeriod, amount: int, now: int)
    ensures |BudgetsOf(Upserted(rows, user, period, amount, now), user)|
      == if |BudgetsOf(rows, user)| == 0 then 1 else |BudgetsOf(rows, user)|
  {
    if rows != [] {
      var r := Upserted(rows, user, period, amount, now);
      UpsertedStep(rows, user, period, amount, now);
      if rows[0].owner == user {
        assert r[1..] == rows[1..];
      } else {
        UpsertedBudgetCount(rows[1..], user, period, amount, now);
        assert r[1..] == Upserted(rows[1..], user, period, amount, now);
      }
    } else {
      assert Upserted(rows, user, period, amount, now) == [Budget(user, period, amount, now)];
    }
  }

  /** The budget table, updated in place by the budget form. */
  class BudgetTable {
    var rows: seq<Budget>

    constructor ()
      ensures rows == []
    {
      rows := [];
    }

    /** Saves the budget form for `user`: edits the user's budget if there is one, else creates it. */
    method Save(user: UserId, period: BudgetPeriod, amount: int, now: int)
      modifies this
      ensures rows == Upserted(old(rows), user, period, amount, now)
      ensures FirstBudget(rows, user).Some? && FirstBudget(rows, user).value.amount == amount
      ensures forall other :: other != user ==> BudgetsOf(rows, other) == BudgetsOf(old(rows), other)
      ensures |BudgetsOf(old(rows), user)| <= 1 ==> |BudgetsOf(rows, user)| == 1
    {
      ghost var before := rows;
      var found := FirstBudgetIndex(rows, user);
      match found {
        case Some(i) =>
          rows := rows[i := Budget(user, period, amount, rows[i].createdAt)];
        case None =>
          rows := rows + [Budget(user, period, amount, now)];
      }
      UpsertedReadsBack(before, user, period, amount, now);
      UpsertedBudgetCount(before, user, period, amount, now);
      forall other | other != user
        ensures BudgetsOf(rows, other) == BudgetsOf(before, other)
      {
        UpsertedKeepsOthers(before, user, other, period, amount, now);
      }
    }
  }
}
