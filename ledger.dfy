/**
 * The expense queries the views run — `Expense.objects.filter(UserId_id=user, <date
 * condition>)` — and the sum `sum(float(exp.ExpenseCost) for exp in ...)` taken over
 * their results. A query keeps the rows in their stored order.
 */
module Ledger {
  import opened Wrappers
  import opened Calendar
  import opened Models

  /** The date conditions the views put on an expense query. */
  datatype Criterion =
    | AnyDate                         // no condition on the date
    | OnDay(day: Date)                // ExpenseDate = day
    | InMonth(year: int, month: int)  // ExpenseDate__year, ExpenseDate__month
    | InYear(year: int)               // ExpenseDate__year
    | Since(start: Date)              // ExpenseDate__gte = start

  /** Whether a date column value satisfies `c`; a NULL date satisfies only `AnyDate`. */
  predicate DateMatches(date: Option<Date>, c: Criterion) {
    match c
    case AnyDate => true
    case OnDay(d) => date == Some(d)
    case InMonth(y, m) => date.Some? && date.value.year == y && date.value.month == m
    case InYear(y) => date.Some? && date.value.year == y
    case Since(s) => date.Some? && OnOrBefore(s, date.value)
  }

  predicate Matches(e: Expense, user: UserId, c: Criterion) {
    e.owner == user && DateMatches(e.date, c)
  }

  /** The user's expenses satisfying `c`, in stored order. */
  function Query(es: seq<Expense>, user: UserId, c: Criterion): (r: seq<Expense>)
    ensures |r| <= |es|
    ensures forall i :: 0 <= i < |r| ==> Matches(r[i], user, c)
  {
    if es == [] then []
    else (if Matches(es[0], user, c) then [es[0]] else []) + Query(es[1..], user, c)
  }

  /** A query returns exactly the matching rows, each as often as it is stored. */
  lemma {:induction false} QueryExactly(es: seq<Expense>, user: UserId, c: Criterion)
    ensures forall e :: multiset(Query(es, user, c))[e] == if Matches(e, user, c) then multiset(es)[e] else 0
    ensures forall e :: e in Query(es, user, c) <==> e in es && Matches(e, user, c)
  {
    if es != [] {
      assert es == [es[0]] + es[1..];
      QueryExactly(es[1..], user, c);
    }
  }

  /** The total cost of some expenses; never negative when no cost is. */
  function SumCosts(es: seq<Expense>): (s: int)
    ensures NonNegativeCosts(es) ==> s >= 0
  {
    if es == [] then 0 else es[0].cost + SumCosts(es[1..])
  }

  lemma {:induction false} SumCostsAppend(a: seq<Expense>, b: seq<Expense>)
    ensures SumCosts(a + b) == SumCosts(a) + SumCosts(b)
  {
    if a == [] {
      assert a + b == b;
    } else {
      assert (a + b)[0] == a[0];
      assert (a + b)[1..] == a[1..] + b;
      assert SumCosts(a + b) == a[0].cost + SumCosts(a[1..] + b);
      SumCostsAppend(a[1..], b);
    }
  }

  /** Taking out the row at `k` takes its cost out of the total. */
  lemma SumCostsRemove(b: seq<Expense>, k: nat)
    requires k < |b|
    ensures SumCosts(b) == b[k].cost + SumCosts(b[..k] + b[k + 1..])
  {
    var p, x, q := b[..k], [b[k]], b[k + 1..];
    SplitAt(b, k);
    assert SumCosts(x) == b[k].cost + SumCosts(x[1..]);
    SumCostsAppend(p + x, q);
    SumCostsAppend(p, x);
    SumCostsAppend(p, q);
  }

  lemma SplitAt(b: seq<Expense>, k: nat)
    requires k < |b|
    ensures b == b[..k] + [b[k]] + b[k + 1..]
  {
  }

  lemma MultisetRemove(b: seq<Expense>, k: nat)
    requires k < |b|
    ensures multiset(b[..k] + b[k + 1..]) == multiset(b) - multiset{b[k]}
  {
    SplitAt(b, k);
    assert multiset(b) == multiset(b[..k]) + multiset([b[k]]) + multiset(b[k + 1..]);
  }

  lemma MultisetTail(a: seq<Expense>)
    requires a != []
    ensures multiset(a[1..]) == multiset(a) - multiset{a[0]}
  {
    assert a == [a[0]] + a[1..];
  }

  /** The last row's cost is the last term of the total. */
  lemma SumCostsLast(rows: seq<Expense>)
    requires rows != []
    ensures SumCosts(rows) == SumCosts(rows[..|rows| - 1]) + rows[|rows| - 1].cost
  {
    var n := |rows| - 1;
    assert rows == rows[..n] + [rows[n]];
    SumCostsAppend(rows[..n], [rows[n]]);
    assert SumCosts([rows[n]]) == rows[n].cost;
  }

  lemma IndexOf(b: seq<Expense>, x: Expense) returns (k: nat)
    requires x in multiset(b)
    ensures k < |b| && b[k] == x
  {
    assert x in b;
    k :| 0 <= k < |b| && b[k] == x;
  }

  /** The total does not depend on the order of the rows. */
  lemma {:induction false} SumCostsPermutation(a: seq<Expense>, b: seq<Expense>)
    requires multiset(a) == multiset(b)
    ensures SumCosts(a) == SumCosts(b)
  {
    if a != [] {
      var k := IndexOf(b, a[0]);
      var rest := b[..k] + b[k + 1..];
      MultisetRemove(b, k);
      MultisetTail(a);
      SumCostsPermutation(a[1..], rest);
      assert SumCosts(a) == a[0].cost + SumCosts(a[1..]);
      SumCostsRemove(b, k);
    }
  }

  lemma {:induction false} QueryAppend(a: seq<Expense>, b: seq<Expense>, user: UserId, c: Criterion)
    ensures Query(a + b, user, c) == Query(a, user, c) + Query(b, user, c)
  {
    if a == [] {
      assert a + b == b;
    } else {
      var head := if Matches(a[0], user, c) then [a[0]] else [];
      var ab := a + b;
      assert ab[0] == a[0] && ab[1..] == a[1..] + b;
      assert Query(ab, user, c) == head + Query(a[1..] + b, user, c);
      assert Query(a, user, c) == head + Query(a[1..], user, c);
      QueryAppend(a[1..], b, user, c);
      ConcatAssoc(head, Query(a[1..], user, c), Query(b, user, c));
    }
  }

  lemma ConcatAssoc<T>(x: seq<T>, y: seq<T>, z: seq<T>)
    ensures x + (y + z) == (x + y) + z
  {
  }

  /** Two criteria that agree on every row of `es` select the same rows. */
  lemma {:induction false} QueryAgrees(es: seq<Expense>, user: UserId, c1: Criterion, c2: Criterion)
    requires forall e :: e in es ==> (Matches(e, user, c1) <==> Matches(e, user, c2))
    ensures Query(es, user, c1) == Query(es, user, c2)
  {
    if es != [] {
      QueryAgrees(es[1..], user, c1, c2);
    }
  }

  /** Querying with a narrower criterion is the same as narrowing the wider query's result. */
  lemma {:induction false} QueryNarrows(es: seq<Expense>, user: UserId, narrow: Criterion, wide: Criterion)
    requires forall d :: DateMatches(d, narrow) ==> DateMatches(d, wide)
    ensures Query(Query(es, user, wide), user, narrow) == Query(es, user, narrow)
  {
    if es != [] {
      QueryNarrows(es[1..], user, narrow, wide);
      var tail := Query(es[1..], user, wide);
      if Matches(es[0], user, wide) {
        assert Query(es, user, wide) == [es[0]] + tail;
        assert ([es[0]] + tail)[0] == es[0];
        assert ([es[0]] + tail)[1..] == tail;
      } else {
        assert !Matches(es[0], user, narrow);
        assert Query(es, user, wide) == tail;
        assert Query(es, user, narrow) == Query(es[1..], user, narrow);
      }
    }
  }

  predicate NonNegativeCosts(es: seq<Expense>) {
    forall i :: 0 <= i < |es| ==> es[i].cost >= 0
  }

  /** With no negative costs, leaving rows out never raises the total. */
  lemma {:induction false} QuerySumAtMost(es: seq<Expense>, user: UserId, c: Criterion)
    requires NonNegativeCosts(es)
    ensures SumCosts(Query(es, user, c)) <= SumCosts(es)
    ensures NonNegativeCosts(Query(es, user, c))
  {
    if es != [] {
      QuerySumAtMost(es[1..], user, c);
      var tail := Query(es[1..], user, c);
      assert SumCosts(es) == es[0].cost + SumCosts(es[1..]);
      if Matches(es[0], user, c) {
        assert Query(es, user, c) == [es[0]] + tail;
        assert ([es[0]] + tail)[0] == es[0];
        assert ([es[0]] + tail)[1..] == tail;
      } else {
        assert Query(es, user, c) == tail;
      }
    }
  }
}
