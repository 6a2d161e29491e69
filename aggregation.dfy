/**
 * The sums shown on the dashboard and in utils/notification.ts: overall
 * totals, totals for one month (records whose date starts with the
 * `YYYY-MM` prefix) and the per-category expense sums.
 *
 * `list.reduce((sum, r) => sum + r.amount, 0)` is a left fold, `Total`;
 * `list.filter(...)` keeps order, so both are defined on the last element.
 */
module Aggregation {
  import opened Wrappers
  import opened Strings
  import opened Records
  import opened Sorting

  function Total<T>(s: seq<T>, amount: T -> int): int
    decreases |s|
  {
    if s == [] then 0 else Total(s[..|s| - 1], amount) + amount(s[|s| - 1])
  }

  lemma {:induction false} TotalAppend<T>(a: seq<T>, b: seq<T>, amount: T -> int)
    ensures Total(a + b, amount) == Total(a, amount) + Total(b, amount)
    decreases |b|
  {
    if b == [] {
      assert a + b == a;
    } else {
      var ab := a + b;
      assert ab[..|ab| - 1] == a + b[..|b| - 1];
      assert ab[|ab| - 1] == b[|b| - 1];
      TotalAppend(a, b[..|b| - 1], amount);
    }
  }

  /** A sum does not depend on the order of the records. */
  lemma {:induction false} TotalPermutation<T>(a: seq<T>, b: seq<T>, amount: T -> int)
    requires multiset(a) == multiset(b)
    ensures Total(a, amount) == Total(b, amount)
    decreases |a|
  {
    if a != [] {
      var x := a[0];
      assert x in multiset(b);
      var i :| 0 <= i < |b| && b[i] == x;
      var rest := b[..i] + b[i + 1..];
      assert b == b[..i] + [x] + b[i + 1..];
      assert a == [x] + a[1..];
      assert multiset(a) == multiset{x} + multiset(a[1..]);
      assert multiset(b) == multiset(b[..i]) + multiset{x} + multiset(b[i + 1..]);
      assert multiset(rest) == multiset(b[..i]) + multiset(b[i + 1..]);
      assert multiset(a[1..]) == multiset(a) - multiset{x};
      assert multiset(rest) == multiset(b) - multiset{x};
      TotalPermutation(a[1..], rest, amount);
      TotalAppend([x], a[1..], amount);
      TotalAppend(b[..i], b[i + 1..], amount);
      TotalAppend(b[..i] + [x], b[i + 1..], amount);
      TotalAppend(b[..i], [x], amount);
      assert Total([x], amount) == amount(x) by {
        assert [x][..0] == [];
      }
    }
  }

  // ---------------------------------------------------------------------
  // Overall totals

  datatype Totals = Totals(totalIncome: int, totalExpenses: int, balance: int)

  function CalculateTotals(income: seq<Income>, expenses: seq<Expense>): (t: Totals)
    ensures t.balance == t.totalIncome - t.totalExpenses
    ensures income == [] && expenses == [] ==> t == Totals(0, 0, 0)
  {
    var totalIncome := Total(income, IncomeAmount);
    var totalExpenses := Total(expenses, ExpenseAmount);
    Totals(totalIncome, totalExpenses, totalIncome - totalExpenses)
  }

  /**
   * Every record counts, wherever it sits in the list: adding an income
   * through the reducer's sorted insert raises the income total by its
   * amount.
   */
  lemma TotalsAfterAdd(x: Income, income: seq<Income>, expenses: seq<Expense>)
    ensures var s := SortByDateDesc([x] + income, IncomeDate);
      CalculateTotals(s, expenses).totalIncome == CalculateTotals(income, expenses).totalIncome + x.amount
      && CalculateTotals(s, expenses).balance == CalculateTotals(income, expenses).balance + x.amount
  {
    var s := SortByDateDesc([x] + income, IncomeDate);
    TotalPermutation(s, [x] + income, IncomeAmount);
    TotalAppend([x], income, IncomeAmount);
    assert [x][..0] == [];
  }

  // ---------------------------------------------------------------------
  // One month

  /** The records whose date starts with `prefix`, in order. */
  function InMonth<T(!new)>(s: seq<T>, date: T -> string, prefix: string): (r: seq<T>)
    ensures forall y :: y in r <==> y in s && StartsWith(date(y), prefix)
    decreases |s|
  {
    if s == [] then []
    else
      var init := s[..|s| - 1];
      var last := s[|s| - 1];
      assert s == init + [last];
      InMonth(init, date, prefix) + if StartsWith(date(last), prefix) then [last] else []
  }

  /** The records whose date does not start with `prefix`, in order. */
  function OutsideMonth<T(!new)>(s: seq<T>, date: T -> string, prefix: string): (r: seq<T>)
    ensures forall y :: y in r <==> y in s && !StartsWith(date(y), prefix)
    decreases |s|
  {
    if s == [] then []
    else
      var init := s[..|s| - 1];
      var last := s[|s| - 1];
      assert s == init + [last];
      OutsideMonth(init, date, prefix) + if StartsWith(date(last), prefix) then [] else [last]
  }

  /** The month sum and the sum of the other records make up the total. */
  lemma {:induction false} MonthSplitsTotal<T(!new)>(s: seq<T>, date: T -> string, amount: T -> int, prefix: string)
    ensures Total(InMonth(s, date, prefix), amount) + Total(OutsideMonth(s, date, prefix), amount)
         == Total(s, amount)
    decreases |s|
  {
    if s != [] {
      var init := s[..|s| - 1];
      var last := s[|s| - 1];
      MonthSplitsTotal(init, date, amount, prefix);
      TotalAppend(InMonth(init, date, prefix), if StartsWith(date(last), prefix) then [last] else [], amount);
      TotalAppend(OutsideMonth(init, date, prefix), if StartsWith(date(last), prefix) then [] else [last], amount);
      assert [last][..0] == [];
    }
  }

  /** `month || new Date().toISOString().slice(0, 7)`: an empty month string falls back too. */
  function TargetMonth(month: Option<string>, currentMonth: string): (t: string)
    ensures t == currentMonth || (month.Some? && t == month.value)
    ensures month.Some? && month.value != [] ==> t == month.value
  {
    if month.Some? && month.value != [] then month.value else currentMonth
  }

  datatype MonthlyTotals = MonthlyTotals(monthlyIncome: int, monthlyExpenses: int, monthlyBalance: int)

  function CalculateMonthlyTotals(income: seq<Income>, expenses: seq<Expense>, month: Option<string>,
                                  currentMonth: string): (t: MonthlyTotals)
    ensures t.monthlyBalance == t.monthlyIncome - t.monthlyExpenses
  {
    var target := TargetMonth(month, currentMonth);
    var monthlyIncome := Total(InMonth(income, IncomeDate, target), IncomeAmount);
    var monthlyExpenses := Total(InMonth(expenses, ExpenseDate, target), ExpenseAmount);
    MonthlyTotals(monthlyIncome, monthlyExpenses, monthlyIncome - monthlyExpenses)
  }

  /**
   * The month's balance plus the balance of the records outside it is the
   * overall balance.
   */
  lemma MonthlyPartOfTotals(income: seq<Income>, expenses: seq<Expense>, month: Option<string>, currentMonth: string)
    ensures var target := TargetMonth(month, currentMonth);
      CalculateMonthlyTotals(income, expenses, month, currentMonth).monthlyBalance
      + (Total(OutsideMonth(income, IncomeDate, target), IncomeAmount)
         - Total(OutsideMonth(expenses, ExpenseDate, target), ExpenseAmount))
      == CalculateTotals(income, expenses).balance
  {
    var target := TargetMonth(month, currentMonth);
    MonthSplitsTotal(income, IncomeDate, IncomeAmount, target);
    MonthSplitsTotal(expenses, ExpenseDate, ExpenseAmount, target);
  }

  /** The month prefix "2024-03" takes March records and leaves April's out. */
  lemma MonthPrefixExample(a: Income, b: Income)
    requires a.date == "2024-03-31" && b.date == "2024-04-01"
    ensures CalculateMonthlyTotals([a, b], [], Some("2024-03"), "2025-01").monthlyIncome == a.amount
  {
    assert StartsWith(a.date, "2024-03") by {
      assert a.date[..7] == "2024-03";
    }
    assert !StartsWith(b.date, "2024-03") by {
      assert b.date[..7][6] != "2024-03"[6];
    }
    assert TargetMonth(Some("2024-03"), "2025-01") == "2024-03";
    assert [a, b][..1] == [a];
    assert [a][..0] == [];
    assert InMonth([a], IncomeDate, "2024-03") == [a];
    assert InMonth([a, b], IncomeDate, "2024-03") == [a];
    assert Total([a], IncomeAmount) == a.amount;
  }

  // ---------------------------------------------------------------------
  // Per category

  /** The expenses of category `c`, in order. */
  function OfCategory(s: seq<Expense>, c: string): seq<Expense>
    decreases |s|
  {
    if s == [] then []
    else OfCategory(s[..|s| - 1], c) + if s[|s| - 1].category == c then [s[|s| - 1]] else []
  }

  /** The categories that occur in `s`, each once, in order of first occurrence. */
  function Categories(s: seq<Expense>): (r: seq<string>)
    ensures Distinct(r)
    decreases |s|
  {
    if s == [] then []
    else
      var before := Categories(s[..|s| - 1]);
      var c := s[|s| - 1].category;
      if c in before then before else before + [c]
  }

  lemma CategoriesSnoc(s: seq<Expense>, x: Expense)
    ensures Categories(s + [x]) == if x.category in Categories(s) then Categories(s) else Categories(s) + [x.category]
  {
    assert (s + [x])[..|s|] == s;
  }

  lemma OfCategorySnoc(s: seq<Expense>, x: Expense, c: string)
    ensures OfCategory(s + [x], c) == OfCategory(s, c) + if x.category == c then [x] else []
  {
    assert (s + [x])[..|s|] == s;
  }

  /** The categories listed are exactly those some expense has. */
  lemma {:induction false} CategoriesOccur(s: seq<Expense>, c: string)
    ensures c in Categories(s) <==> exists k :: 0 <= k < |s| && s[k].category == c
    decreases |s|
  {
    if s != [] {
      var init := s[..|s| - 1];
      assert s == init + [s[|s| - 1]];
      CategoriesSnoc(init, s[|s| - 1]);
      CategoriesOccur(init, c);
      if exists k :: 0 <= k < |s| && s[k].category == c {
        var k :| 0 <= k < |s| && s[k].category == c;
        if k < |init| {
          assert init[k] == s[k];
        }
      }
      if exists k :: 0 <= k < |init| && init[k].category == c {
        var k :| 0 <= k < |init| && init[k].category == c;
        assert s[k] == init[k];
      }
    }
  }

  lemma {:induction false} OfCategoryEmpty(s: seq<Expense>, c: string)
    requires c !in Categories(s)
    ensures OfCategory(s, c) == []
    decreases |s|
  {
    if s != [] {
      var init := s[..|s| - 1];
      assert s == init + [s[|s| - 1]];
      CategoriesSnoc(init, s[|s| - 1]);
      OfCategoryEmpty(init, c);
    }
  }

  /**
   * The dictionary the pass builds, as a fold from the left: each expense
   * adds its amount to its category's entry, an absent entry counting as 0.
   */
  function Grouping(s: seq<Expense>): map<string, int>
    decreases |s|
  {
    if s == [] then map[]
    else
      var g := Grouping(s[..|s| - 1]);
      var e := s[|s| - 1];
      g[e.category := (if e.category in g then g[e.category] else 0) + e.amount]
  }

  /** The fold holds exactly the categories that occur, each with the sum of its amounts. */
  lemma GroupingIsCategorySums(s: seq<Expense>)
    ensures forall c :: c in Grouping(s) <==> c in Categories(s)
    ensures forall c :: c in Grouping(s) ==> Grouping(s)[c] == Total(OfCategory(s, c), ExpenseAmount)
  {
    forall c {
      GroupingAt(s, c);
    }
  }

  /** `GroupingIsCategorySums` for one category, by induction on the expenses. */
  lemma {:induction false} GroupingAt(s: seq<Expense>, c: string)
    ensures c in Grouping(s) <==> c in Categories(s)
    ensures c in Grouping(s) ==> Grouping(s)[c] == Total(OfCategory(s, c), ExpenseAmount)
    decreases |s|
  {
    if s != [] {
      var init, e := s[..|s| - 1], s[|s| - 1];
      GroupingAt(init, c);
      if c == e.category {
        if c !in Grouping(init) {
          OfCategoryEmpty(init, c);
        }
        var before := OfCategory(init, c);
        assert OfCategory(s, c) == before + [e];
        assert (before + [e])[..|before|] == before;
      } else {
        assert OfCategory(s, c) == OfCategory(init, c) + [];
        assert OfCategory(init, c) + [] == OfCategory(init, c);
      }
    }
  }

  /**
   * `groupExpensesByCategory`: a dictionary filled by one pass over the
   * expenses, adding each amount to its category's entry (absent counts
   * as 0).
   */
  method GroupExpensesByCategory(expenses: seq<Expense>) returns (grouped: map<string, int>)
    ensures grouped == Grouping(expenses)
    ensures forall c :: c in grouped <==> c in Categories(expenses)
    ensures forall c :: c in grouped ==> grouped[c] == Total(OfCategory(expenses, c), ExpenseAmount)
  {
    grouped := map[];
    var i := 0;
    while i < |expenses|
      invariant 0 <= i <= |expenses|
      invariant grouped == Grouping(expenses[..i])
    {
      var e := expenses[i];
      assert expenses[..i + 1][..i] == expenses[..i];
      grouped := grouped[e.category := (if e.category in grouped then grouped[e.category] else 0) + e.amount];
      i := i + 1;
    }
    assert expenses[..i] == expenses;
    GroupingIsCategorySums(expenses);
  }

  /** The sum, over the categories `cats`, of each category's expense total. */
  function SumByCategory(cats: seq<string>, s: seq<Expense>): int {
    if cats == [] then 0 else Total(OfCategory(s, cats[0]), ExpenseAmount) + SumByCategory(cats[1..], s)
  }

  lemma {:induction false} SumByCategoryAppendExpense(cats: seq<string>, s: seq<Expense>, x: Expense)
    requires Distinct(cats)
    ensures SumByCategory(cats, s + [x]) == SumByCategory(cats, s) + if x.category in cats then x.amount else 0
  {
    if cats != [] {
      OfCategorySnoc(s, x, cats[0]);
      TotalAppend(OfCategory(s, cats[0]), if x.category == cats[0] then [x] else [], ExpenseAmount);
      assert [x][..0] == [];
      assert Distinct(cats[1..]);
      SumByCategoryAppendExpense(cats[1..], s, x);
      if x.category == cats[0] {
        assert x.category !in cats[1..];
      }
    }
  }

  lemma {:induction false} SumByCategoryAppendCategory(cats: seq<string>, c: string, s: seq<Expense>)
    ensures SumByCategory(cats + [c], s) == SumByCategory(cats, s) + Total(OfCategory(s, c), ExpenseAmount)
  {
    if cats == [] {
      assert [c][1..] == [];
    } else {
      assert (cats + [c])[1..] == cats[1..] + [c];
      SumByCategoryAppendCategory(cats[1..], c, s);
    }
  }

  /** The per-category sums add up to the total of all expenses. */
  lemma {:induction false} CategoryTotalsAddUp(s: seq<Expense>)
    ensures SumByCategory(Categories(s), s) == Total(s, ExpenseAmount)
    decreases |s|
  {
    if s != [] {
      var init := s[..|s| - 1];
      var x := s[|s| - 1];
      assert s == init + [x];
      CategoryTotalsAddUp(init);
      CategoriesSnoc(init, x);
      TotalAppend(init, [x], ExpenseAmount);
      var before := Categories(init);
      SumByCategoryAppendExpense(before, init, x);
      if x.category !in before {
        SumByCategoryAppendCategory(before, x.category, s);
        OfCategoryEmpty(init, x.category);
        assert [x][..0] == [];
      }
    }
  }
}
