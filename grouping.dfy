/**
 * The group-by sums behind the charts, `.values(key).annotate(total=Sum('ExpenseCost'))`:
 * per date, ordered by date (`.order_by('ExpenseDate')`), and per category, in the
 * order the categories are first met.
 */
module Grouping {
  import opened Wrappers
  import opened Calendar
  import opened Models
  import opened Ledger

  /** One row of a grouped result: the key and the summed cost. */
  datatype Group<K> = Group(key: K, total: int)

  function KeySet<K(!new)>(s: seq<Group<K>>): (r: set<K>)
    ensures forall k :: k in r <==> exists i :: 0 <= i < |s| && s[i].key == k
  {
    if s == [] then {}
    else
      assert forall i :: 0 < i < |s| ==> s[i] == s[1..][i - 1];
      {s[0].key} + KeySet(s[1..])
  }

  /** The keys in result order: the chart labels before formatting. */
  function Keys<K>(s: seq<Group<K>>): (r: seq<K>)
    ensures |r| == |s| && forall i :: 0 <= i < |s| ==> r[i] == s[i].key
  {
    if s == [] then [] else [s[0].key] + Keys(s[1..])
  }

  /** The totals in result order: the chart data. */
  function Values<K>(s: seq<Group<K>>): (r: seq<int>)
    ensures |r| == |s| && forall i :: 0 <= i < |s| ==> r[i] == s[i].total
  {
    if s == [] then [] else [s[0].total] + Values(s[1..])
  }

  function Total(xs: seq<int>): int {
    if xs == [] then 0 else xs[0] + Total(xs[1..])
  }

  /** The summed totals of the rows with key `k` (0 when there is none). */
  function AmountOf<K(==)>(s: seq<Group<K>>, k: K): int {
    if s == [] then 0 else (if s[0].key == k then s[0].total else 0) + AmountOf(s[1..], k)
  }

  predicate DistinctKeys<K(==)>(s: seq<Group<K>>) {
    forall i, j :: 0 <= i < j < |s| ==> s[i].key != s[j].key
  }

  lemma {:induction false} AmountOfAbsent<K(!new)>(s: seq<Group<K>>, k: K)
    requires k !in KeySet(s)
    ensures AmountOf(s, k) == 0
  {
    if s != [] {
      AmountOfAbsent(s[1..], k);
    }
  }

  /** When keys are distinct, each row's total is the whole amount for its key. */
  lemma {:induction false} AmountOfDistinct<K(!new)>(s: seq<Group<K>>, i: nat)
    requires DistinctKeys(s) && i < |s|
    ensures AmountOf(s, s[i].key) == s[i].total
  {
    if i == 0 {
      AmountOfAbsent(s[1..], s[0].key);
    } else {
      assert s[i] == s[1..][i - 1];
      AmountOfDistinct(s[1..], i - 1);
    }
  }

  // ---------------------------------------------------------------------------
  // Per-date series

  predicate Ascending(s: seq<Group<Date>>) {
    forall i, j :: 0 <= i < j < |s| ==> Before(s[i].key, s[j].key)
  }

  lemma AscendingIsDistinct(s: seq<Group<Date>>)
    requires Ascending(s)
    ensures DistinctKeys(s)
  {
    forall i, j | 0 <= i < j < |s| ensures s[i].key != s[j].key {
      BeforeIsStrictTotalOrder(s[i].key, s[j].key, s[j].key);
    }
  }

  /** Adds cost `c` on day `d` to a series kept in ascending date order. */
  function InsertDay(s: seq<Group<Date>>, d: Date, c: int): seq<Group<Date>> {
    if s == [] then [Group(d, c)]
    else if s[0].key == d then [Group(d, s[0].total + c)] + s[1..]
    else if Before(d, s[0].key) then [Group(d, c)] + s
    else [s[0]] + InsertDay(s[1..], d, c)
  }

  lemma KeySetCons<K(!new)>(x: Group<K>, t: seq<Group<K>>)
    ensures KeySet([x] + t) == {x.key} + KeySet(t)
  {
    assert ([x] + t)[1..] == t;
  }

  /** A series is ascending when its tail is and its head comes before every later date. */
  lemma AscendingCons(x: Group<Date>, t: seq<Group<Date>>)
    requires Ascending(t) && forall k :: k in KeySet(t) ==> Before(x.key, k)
    ensures Ascending([x] + t)
  {
    var r := [x] + t;
    forall i, j | 0 <= i < j < |r| ensures Before(r[i].key, r[j].key) {
      assert r[j] == t[j - 1];
      if i == 0 {
        assert r[j].key in KeySet(t);
      } else {
        assert r[i] == t[i - 1];
      }
    }
  }

  lemma AscendingTail(s: seq<Group<Date>>)
    requires Ascending(s) && s != []
    ensures Ascending(s[1..]) && forall k :: k in KeySet(s[1..]) ==> Before(s[0].key, k)
  {
    forall k | k in KeySet(s[1..]) ensures Before(s[0].key, k) {
      var i :| 0 <= i < |s[1..]| && s[1..][i].key == k;
      assert s[1..][i] == s[i + 1];
    }
  }

  /** Inserting a day adds it to the key set. */
  lemma {:induction false} InsertDayKeySet(s: seq<Group<Date>>, d: Date, c: int)
    ensures KeySet(InsertDay(s, d, c)) == KeySet(s) + {d}
  {
    if s == [] {
      KeySetCons(Group(d, c), []);
    } else {
      assert s == [s[0]] + s[1..];
      KeySetCons(s[0], s[1..]);
      if s[0].key == d {
        KeySetCons(Group(d, s[0].total + c), s[1..]);
      } else if Before(d, s[0].key) {
        KeySetCons(Group(d, c), s);
      } else {
        InsertDayKeySet(s[1..], d, c);
        KeySetCons(s[0], InsertDay(s[1..], d, c));
      }
    }
  }

  /** Inserting a day keeps a series ascending. */
  lemma {:induction false} InsertDayKeepsOrder(s: seq<Group<Date>>, d: Date, c: int)
    requires Ascending(s)
    ensures Ascending(InsertDay(s, d, c))
  {
    if s == [] {
      KeySetCons(Group(d, c), []);
    } else {
      AscendingTail(s);
      if s[0].key == d {
        AscendingCons(Group(d, s[0].total + c), s[1..]);
      } else if Before(d, s[0].key) {
        assert s == [s[0]] + s[1..];
        KeySetCons(s[0], s[1..]);
        forall k | k in KeySet(s) ensures Before(d, k) {
          BeforeIsStrictTotalOrder(d, s[0].key, k);
        }
        AscendingCons(Group(d, c), s);
      } else {
        BeforeIsStrictTotalOrder(s[0].key, d, d);
        InsertDayKeepsOrder(s[1..], d, c);
        InsertDayKeySet(s[1..], d, c);
        AscendingCons(s[0], InsertDay(s[1..], d, c));
      }
    }
  }

  lemma {:induction false} InsertDayAmount(s: seq<Group<Date>>, d: Date, c: int, k: Date)
    ensures AmountOf(InsertDay(s, d, c), k) == AmountOf(s, k) + (if k == d then c else 0)
  {
    var r := InsertDay(s, d, c);
    if s == [] {
      assert AmountOf(r, k) == (if k == d then c else 0) + AmountOf(r[1..], k);
    } else if s[0].key == d {
      assert r[1..] == s[1..];
    } else if Before(d, s[0].key) {
      assert r[1..] == s;
    } else {
      InsertDayAmount(s[1..], d, c, k);
      assert r[1..] == InsertDay(s[1..], d, c);
    }
  }

  lemma {:induction false} InsertDayTotal(s: seq<Group<Date>>, d: Date, c: int)
    ensures Total(Values(InsertDay(s, d, c))) == Total(Values(s)) + c
  {
    var r := InsertDay(s, d, c);
    if s == [] {
      assert Values(r) == [c];
    } else if s[0].key == d {
      assert Values(r) == [s[0].total + c] + Values(s[1..]);
      assert Values(r)[1..] == Values(s[1..]);
      assert Values(s)[1..] == Values(s[1..]);
    } else if Before(d, s[0].key) {
      assert Values(r) == [c] + Values(s);
      assert Values(r)[1..] == Values(s);
    } else {
      InsertDayTotal(s[1..], d, c);
      assert Values(r) == [s[0].total] + Values(InsertDay(s[1..], d, c));
      assert Values(r)[1..] == Values(InsertDay(s[1..], d, c));
      assert Values(s)[1..] == Values(s[1..]);
    }
  }

  /** The dates the rows carry. */
  function DatesIn(rows: seq<Expense>): (r: set<Date>)
    ensures forall d :: d in r <==> exists i :: 0 <= i < |rows| && rows[i].date == Some(d)
  {
    if rows == [] then {}
    else
      assert forall i :: 0 < i < |rows| ==> rows[i] == rows[1..][i - 1];
      (if rows[0].date.Some? then {rows[0].date.value} else {}) + DatesIn(rows[1..])
  }

  /** The summed cost of the rows dated `d`. */
  function CostOnDay(rows: seq<Expense>, d: Date): int {
    if rows == [] then 0 else (if rows[0].date == Some(d) then rows[0].cost else 0) + CostOnDay(rows[1..], d)
  }

  /** One row per date present, in ascending date order, with that date's summed cost. */
  function DailySeries(rows: seq<Expense>): (s: seq<Group<Date>>)
    ensures Ascending(s) && KeySet(s) == DatesIn(rows)
  {
    if rows == [] then []
    else
      var rest := DailySeries(rows[1..]);
      match rows[0].date
      case None => rest
      case Some(d) =>
        InsertDayKeepsOrder(rest, d, rows[0].cost);
        InsertDayKeySet(rest, d, rows[0].cost);
        InsertDay(rest, d, rows[0].cost)
  }

  lemma {:induction false} DailySeriesAmount(rows: seq<Expense>, d: Date)
    ensures AmountOf(DailySeries(rows), d) == CostOnDay(rows, d)
  {
    if rows != [] {
      DailySeriesAmount(rows[1..], d);
      if rows[0].date.Some? {
        InsertDayAmount(DailySeries(rows[1..]), rows[0].date.value, rows[0].cost, d);
      }
    }
  }

  /** Each row of the series holds exactly the summed cost of its date. */
  lemma DailySeriesValues(rows: seq<Expense>)
    ensures forall i :: 0 <= i < |DailySeries(rows)| ==>
      DailySeries(rows)[i].total == CostOnDay(rows, DailySeries(rows)[i].key)
  {
    var s := DailySeries(rows);
    AscendingIsDistinct(s);
    forall i | 0 <= i < |s| ensures s[i].total == CostOnDay(rows, s[i].key) {
      AmountOfDistinct(s, i);
      DailySeriesAmount(rows, s[i].key);
    }
  }

  /** When every row is dated, the series adds up to the rows' total cost. */
  lemma {:induction false} DailySeriesTotal(rows: seq<Expense>)
    requires forall i :: 0 <= i < |rows| ==> rows[i].date.Some?
    ensures Total(Values(DailySeries(rows))) == SumCosts(rows)
  {
    if rows != [] {
      DailySeriesTotal(rows[1..]);
      InsertDayTotal(DailySeries(rows[1..]), rows[0].date.value, rows[0].cost);
    }
  }

  // ---------------------------------------------------------------------------
  // Per-category totals

  /** Adds cost `c` to key `k`'s row, or appends a row for a key not met before. */
  function AddToGroup<K(==)>(g: seq<Group<K>>, k: K, c: int): seq<Group<K>> {
    if g == [] then [Group(k, c)]
    else if g[0].key == k then [Group(k, g[0].total + c)] + g[1..]
    else [g[0]] + AddToGroup(g[1..], k, c)
  }

  /** Adding to a group adds its key to the key set. */
  lemma {:induction false} AddToGroupKeySet<K(!new)>(g: seq<Group<K>>, k: K, c: int)
    ensures KeySet(AddToGroup(g, k, c)) == KeySet(g) + {k}
  {
    if g == [] {
      KeySetCons(Group(k, c), []);
    } else {
      assert g == [g[0]] + g[1..];
      KeySetCons(g[0], g[1..]);
      if g[0].key == k {
        KeySetCons(Group(k, g[0].total + c), g[1..]);
      } else {
        AddToGroupKeySet(g[1..], k, c);
        KeySetCons(g[0], AddToGroup(g[1..], k, c));
      }
    }
  }

  /** Existing keys keep their places; a new key goes last. */
  lemma {:induction false} AddToGroupKeys<K(!new)>(g: seq<Group<K>>, k: K, c: int)
    ensures Keys(AddToGroup(g, k, c)) == if k in KeySet(g) then Keys(g) else Keys(g) + [k]
  {
    var r := AddToGroup(g, k, c);
    if g == [] {
      assert Keys(r) == [k];
    } else {
      assert g == [g[0]] + g[1..];
      KeySetCons(g[0], g[1..]);
      var head := [g[0].key];
      assert Keys(g) == head + Keys(g[1..]);
      if g[0].key == k {
        assert Keys(r) == head + Keys(g[1..]);
      } else {
        AddToGroupKeys(g[1..], k, c);
        var t := AddToGroup(g[1..], k, c);
        assert Keys(r) == head + Keys(t);
        if k !in KeySet(g[1..]) {
          assert head + (Keys(g[1..]) + [k]) == (head + Keys(g[1..])) + [k];
        }
      }
    }
  }

  lemma DistinctCons<K(!new)>(x: Group<K>, t: seq<Group<K>>)
    requires DistinctKeys(t) && x.key !in KeySet(t)
    ensures DistinctKeys([x] + t)
  {
    var r := [x] + t;
    forall i, j | 0 <= i < j < |r| ensures r[i].key != r[j].key {
      assert r[j] == t[j - 1];
      if i == 0 {
        assert r[j].key in KeySet(t);
      } else {
        assert r[i] == t[i - 1];
      }
    }
  }

  lemma DistinctTail<K(!new)>(g: seq<Group<K>>)
    requires DistinctKeys(g) && g != []
    ensures DistinctKeys(g[1..]) && g[0].key !in KeySet(g[1..])
  {
    forall i | 0 <= i < |g| - 1 ensures g[1..][i].key != g[0].key {
      assert g[1..][i] == g[i + 1];
    }
  }

  lemma {:induction false} AddToGroupDistinct<K(!new)>(g: seq<Group<K>>, k: K, c: int)
    requires DistinctKeys(g)
    ensures DistinctKeys(AddToGroup(g, k, c))
  {
    if g != [] {
      DistinctTail(g);
      if g[0].key == k {
        DistinctCons(Group(k, g[0].total + c), g[1..]);
      } else {
        AddToGroupDistinct(g[1..], k, c);
        AddToGroupKeySet(g[1..], k, c);
        DistinctCons(g[0], AddToGroup(g[1..], k, c));
      }
    }
  }

  lemma {:induction false} AddToGroupAmount<K>(g: seq<Group<K>>, k: K, c: int, key: K)
    ensures AmountOf(AddToGroup(g, k, c), key) == AmountOf(g, key) + (if key == k then c else 0)
  {
    var r := AddToGroup(g, k, c);
    if g == [] {
      assert AmountOf(r, key) == (if key == k then c else 0) + AmountOf(r[1..], key);
    } else if g[0].key == k {
      assert r[1..] == g[1..];
    } else {
      AddToGroupAmount(g[1..], k, c, key);
      assert r[1..] == AddToGroup(g[1..], k, c);
    }
  }

  lemma {:induction false} AddToGroupTotal<K>(g: seq<Group<K>>, k: K, c: int)
    ensures Total(Values(AddToGroup(g, k, c))) == Total(Values(g)) + c
  {
    var r := AddToGroup(g, k, c);
    if g == [] {
      assert Values(r) == [c];
    } else if g[0].key == k {
      assert Values(r)[1..] == Values(g[1..]);
      assert Values(g)[1..] == Values(g[1..]);
    } else {
      AddToGroupTotal(g[1..], k, c);
      assert Values(r)[1..] == Values(AddToGroup(g[1..], k, c));
      assert Values(g)[1..] == Values(g[1..]);
    }
  }

  /** The categories the rows carry. */
  function CategoriesIn(rows: seq<Expense>): (r: set<ExpenseCategory>)
    ensures forall k :: k in r <==> exists i :: 0 <= i < |rows| && rows[i].category == k
  {
    if rows == [] then {}
    else
      var n := |rows| - 1;
      assert forall i :: 0 <= i < n ==> rows[i] == rows[..n][i];
      CategoriesIn(rows[..n]) + {rows[n].category}
  }

  /** The summed cost of the rows in category `k`. */
  function CostInCategory(rows: seq<Expense>, k: ExpenseCategory): int {
    if rows == [] then 0
    else
      var n := |rows| - 1;
      CostInCategory(rows[..n], k) + (if rows[n].category == k then rows[n].cost else 0)
  }

  /** One row per category present, in the order the categories first occur, with its summed cost. */
  function CategoryTotals(rows: seq<Expense>): (g: seq<Group<ExpenseCategory>>)
    ensures DistinctKeys(g) && KeySet(g) == CategoriesIn(rows)
  {
    if rows == [] then []
    else
      var n := |rows| - 1;
      var before := CategoryTotals(rows[..n]);
      AddToGroupKeySet(before, rows[n].category, rows[n].cost);
      AddToGroupDistinct(before, rows[n].category, rows[n].cost);
      AddToGroup(before, rows[n].category, rows[n].cost)
  }

  /** A further expense leaves the existing categories in place and appends its category if it is new. */
  lemma CategoryTotalsFirstSeen(rows: seq<Expense>, e: Expense)
    ensures Keys(CategoryTotals(rows + [e]))
      == if e.category in CategoriesIn(rows) then Keys(CategoryTotals(rows)) else Keys(CategoryTotals(rows)) + [e.category]
  {
    assert (rows + [e])[..|rows|] == rows;
    AddToGroupKeys(CategoryTotals(rows), e.category, e.cost);
  }

  lemma {:induction false} CategoryTotalsAmount(rows: seq<Expense>, k: ExpenseCategory)
    ensures AmountOf(CategoryTotals(rows), k) == CostInCategory(rows, k)
  {
    if rows != [] {
      var n := |rows| - 1;
      CategoryTotalsAmount(rows[..n], k);
      AddToGroupAmount(CategoryTotals(rows[..n]), rows[n].category, rows[n].cost, k);
    }
  }

  /** Each row holds exactly the summed cost of its category. */
  lemma CategoryTotalsValues(rows: seq<Expense>)
    ensures forall i :: 0 <= i < |CategoryTotals(rows)| ==>
      CategoryTotals(rows)[i].total == CostInCategory(rows, CategoryTotals(rows)[i].key)
  {
    var g := CategoryTotals(rows);
    forall i | 0 <= i < |g| ensures g[i].total == CostInCategory(rows, g[i].key) {
      AmountOfDistinct(g, i);
      CategoryTotalsAmount(rows, g[i].key);
    }
  }

  /** The category totals add up to the rows' total cost. */
  lemma {:induction false} CategoryTotalsTotal(rows: seq<Expense>)
    ensures Total(Values(CategoryTotals(rows))) == SumCosts(rows)
  {
    if rows != [] {
      var n := |rows| - 1;
      var before := CategoryTotals(rows[..n]);
      assert CategoryTotals(rows) == AddToGroup(before, rows[n].category, rows[n].cost);
      CategoryTotalsTotal(rows[..n]);
      AddToGroupTotal(before, rows[n].category, rows[n].cost);
      SumCostsLast(rows);
    }
  }
}
