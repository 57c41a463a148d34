/**
 * The stored records of the tracker: users, expenses, budgets and incomes, the
 * enumerations behind their `choices` columns, and the store that holds them
 * with its ownership rule (every record belongs to an existing user, and
 * deleting a user deletes what they own).
 */
module Models {
  import opened Wrappers
  import opened Calendar

  type UserId = nat

  /** A registered account; `regDate` is the creation timestamp the database fills in. */
  datatype User = User(id: UserId, fullName: string, email: string, password: string, regDate: int)

  datatype ExpenseCategory = Food | Travel | Shopping | Bills | Entertainment | Health | Other

  /** The text stored in the `Category` column. */
  function ExpenseCategoryCode(c: ExpenseCategory): string {
    match c
    case Food => "food"
    case Travel => "travel"
    case Shopping => "shopping"
    case Bills => "bills"
    case Entertainment => "entertainment"
    case Health => "health"
    case Other => "other"
  }

  /** The category a stored `Category` text denotes; text outside the choices denotes none. */
  function ParseExpenseCategory(s: string): (r: Option<ExpenseCategory>)
    ensures r.Some? ==> ExpenseCategoryCode(r.value) == s
  {
    if s == "food" then Some(Food)
    else if s == "travel" then Some(Travel)
    else if s == "shopping" then Some(Shopping)
    else if s == "bills" then Some(Bills)
    else if s == "entertainment" then Some(Entertainment)
    else if s == "health" then Some(Health)
    else if s == "other" then Some(ExpenseCategory.Other)
    else None
  }

  lemma ExpenseCategoryCodeRoundTrip(c: ExpenseCategory)
    ensures ParseExpenseCategory(ExpenseCategoryCode(c)) == Some(c)
    ensures |ExpenseCategoryCode(c)| <= 50
  {
  }

  /**
   * An expense. The date may be absent; `cost` is the already-parsed amount in
   * minor units; `notedAt` is the creation timestamp.
   */
  datatype Expense = Expense(
    owner: UserId,
    date: Option<Date>,
    item: string,
    cost: int,
    category: ExpenseCategory,
    notedAt: int)

  datatype BudgetPeriod = Daily | Weekly | Monthly | Yearly

  /** The text stored in the `Period` column. */
  function PeriodCode(p: BudgetPeriod): string {
    match p
    case Daily => "daily"
    case Weekly => "weekly"
    case Monthly => "monthly"
    case Yearly => "yearly"
  }

  function ParsePeriod(s: string): (r: Option<BudgetPeriod>)
    ensures r.Some? ==> PeriodCode(r.value) == s
  {
    if s == "daily" then Some(Daily)
    else if s == "weekly" then Some(Weekly)
    else if s == "monthly" then Some(Monthly)
    else if s == "yearly" then Some(Yearly)
    else None
  }

  lemma PeriodCodeRoundTrip(p: BudgetPeriod)
    ensures ParsePeriod(PeriodCode(p)) == Some(p)
    ensures |PeriodCode(p)| <= 20
  {
  }

  /** A spending limit over a recurring period; `amount` in minor units. */
  datatype Budget = Budget(owner: UserId, period: BudgetPeriod, amount: int, createdAt: int)

  datatype IncomeCategory = Salary | Business | Freelance | Gift | Investment | Other

  function IncomeCategoryCode(c: IncomeCategory): string {
    match c
    case Salary => "salary"
    case Business => "business"
    case Freelance => "freelance"
    case Gift => "gift"
    case Investment => "investment"
    case Other => "other"
  }

  function ParseIncomeCategory(s: string): (r: Option<IncomeCategory>)
    ensures r.Some? ==> IncomeCategoryCode(r.value) == s
  {
    if s == "salary" then Some(Salary)
    else if s == "business" then Some(Business)
    else if s == "freelance" then Some(Freelance)
    else if s == "gift" then Some(Gift)
    else if s == "investment" then Some(Investment)
    else if s == "other" then Some(IncomeCategory.Other)
    else None
  }

  lemma IncomeCategoryCodeRoundTrip(c: IncomeCategory)
    ensures ParseIncomeCategory(IncomeCategoryCode(c)) == Some(c)
    ensures |IncomeCategoryCode(c)| <= 50
  {
  }

  /** An income; `amount` in minor units. */
  datatype Income = Income(
    owner: UserId,
    date: Option<Date>,
    category: IncomeCategory,
    source: string,
    amount: int,
    notedAt: int)

  /** All tables at one moment; rows are kept in primary-key order. */
  datatype Store = Store(users: seq<User>, expenses: seq<Expense>, budgets: seq<Budget>, incomes: seq<Income>)

  predicate IsUser(s: Store, id: UserId) {
    exists u :: u in s.users && u.id == id
  }

  /** Every record refers to an existing user (the foreign keys). */
  predicate ReferencesHold(s: Store) {
    && (forall e :: e in s.expenses ==> IsUser(s, e.owner))
    && (forall b :: b in s.budgets ==> IsUser(s, b.owner))
    && (forall i :: i in s.incomes ==> IsUser(s, i.owner))
  }

  /** The rows of `s` that `keep` accepts, in their order. */
  function Filter<T(!new)>(s: seq<T>, keep: T -> bool): (r: seq<T>)
    ensures |r| <= |s|
    ensures forall x :: x in r <==> x in s && keep(x)
    ensures forall x :: multiset(r)[x] == if keep(x) then multiset(s)[x] else 0
  {
    if s == [] then []
    else
      assert s == [s[0]] + s[1..];
      (if keep(s[0]) then [s[0]] else []) + Filter(s[1..], keep)
  }

  /** Deleting a user, with `on_delete=CASCADE` on every foreign key to it. */
  function DeleteUser(s: Store, id: UserId): (r: Store)
    ensures forall u :: u in r.users <==> u in s.users && u.id != id
    ensures forall e :: multiset(r.expenses)[e] == if e.owner == id then 0 else multiset(s.expenses)[e]
    ensures forall b :: multiset(r.budgets)[b] == if b.owner == id then 0 else multiset(s.budgets)[b]
    ensures forall i :: multiset(r.incomes)[i] == if i.owner == id then 0 else multiset(s.incomes)[i]
  {
    Store(
      Filter(s.users, (u: User) => u.id != id),
      Filter(s.expenses, (e: Expense) => e.owner != id),
      Filter(s.budgets, (b: Budget) => b.owner != id),
      Filter(s.incomes, (i: Income) => i.owner != id))
  }

  /** The cascade keeps the foreign keys intact and leaves nothing owned by the deleted user. */
  lemma DeleteUserKeepsReferences(s: Store, id: UserId)
    requires ReferencesHold(s)
    ensures ReferencesHold(DeleteUser(s, id))
    ensures !IsUser(DeleteUser(s, id), id)
    ensures forall e :: e in DeleteUser(s, id).expenses ==> e.owner != id
  {
    var r := DeleteUser(s, id);
    forall e | e in r.expenses ensures IsUser(r, e.owner) {
      assert multiset(r.expenses)[e] > 0;
      var u :| u in s.users && u.id == e.owner;
      assert u in r.users;
    }
    forall b | b in r.budgets ensures IsUser(r, b.owner) {
      assert multiset(r.budgets)[b] > 0;
      var u :| u in s.users && u.id == b.owner;
      assert u in r.users;
    }
    forall i | i in r.incomes ensures IsUser(r, i.owner) {
      assert multiset(r.incomes)[i] > 0;
      var u :| u in s.users && u.id == i.owner;
      assert u in r.users;
    }
  }
}
