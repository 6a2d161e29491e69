/**
 * The series behind the balance chart (components/BalanceGraph.tsx): the
 * distinct record dates in ascending order as labels, and for each label
 * the expenses and income dated that day and the running balance
 * (income minus expenses dated on or before it).
 */
module BalanceGraph {
  import opened Wrappers
  import opened Strings
  import opened Records
  import opened Sorting
  import opened Aggregation

  /** `records.map(r => r.date)`. */
  function DatesOf<T>(s: seq<T>, date: T -> string): (r: seq<string>)
    ensures |r| == |s|
    ensures forall k :: 0 <= k < |s| ==> r[k] == date(s[k])
  {
    seq(|s|, k requires 0 <= k < |s| => date(s[k]))
  }

  /**
   * `filter((d, index, self) => self.indexOf(d) === index)`: an element is
   * kept when it does not occur earlier.
   */
  function Dedup(s: seq<string>): (r: seq<string>)
    ensures forall d :: d in r <==> d in s
    decreases |s|
  {
    if s == [] then []
    else
      var init := s[..|s| - 1];
      var last := s[|s| - 1];
      assert s == init + [last];
      Dedup(init) + if last in init then [] else [last]
  }

  /** What `Dedup` keeps occurs once. */
  lemma {:induction false} DedupDistinct(s: seq<string>)
    ensures Distinct(Dedup(s))
    decreases |s|
  {
    if s != [] {
      var init := s[..|s| - 1];
      var last := s[|s| - 1];
      DedupDistinct(init);
      var d := Dedup(init);
      if last in init {
        assert Dedup(s) == d + [];
        assert d + [] == d;
      } else {
        var r := d + [last];
        assert Dedup(s) == r;
        forall i, j | 0 <= i < j < |r| ensures r[i] != r[j] {
          if j == |d| {
            assert r[i] == d[i] && d[i] in d;
          }
        }
      }
    }
  }

  /** `[...expenseDates, ...incomeDates].filter(first occurrence).sort()`. */
  function AllDates(expenses: seq<Expense>, income: seq<Income>): (r: seq<string>)
    ensures StrictlyAscending(r)
    ensures forall d :: d in r <==> d in DatesOf(expenses, ExpenseDate) || d in DatesOf(income, IncomeDate)
  {
    var both := DatesOf(expenses, ExpenseDate) + DatesOf(income, IncomeDate);
    var unique := Dedup(both);
    DedupDistinct(both);
    SortAscendingStrict(unique);
    var r := SortAscending(unique);
    assert forall d :: d in r <==> d in multiset(r);
    assert forall d :: d in unique <==> d in multiset(unique);
    assert forall d :: d in both <==> d in DatesOf(expenses, ExpenseDate) || d in DatesOf(income, IncomeDate);
    r
  }

  /** The records dated on or before `d` (string `<=`), in order. */
  function UpTo<T(!new)>(s: seq<T>, date: T -> string, d: string): (r: seq<T>)
    ensures forall y :: y in r <==> y in s && LexLe(date(y), d)
    decreases |s|
  {
    if s == [] then []
    else
      var init := s[..|s| - 1];
      var last := s[|s| - 1];
      assert s == init + [last];
      UpTo(init, date, d) + if LexLe(date(last), d) then [last] else []
  }

  /** The records dated exactly `d`, in order. */
  function OnDate<T(!new)>(s: seq<T>, date: T -> string, d: string): (r: seq<T>)
    ensures forall y :: y in r <==> y in s && date(y) == d
    decreases |s|
  {
    if s == [] then []
    else
      var init := s[..|s| - 1];
      var last := s[|s| - 1];
      assert s == init + [last];
      OnDate(init, date, d) + if date(last) == d then [last] else []
  }

  /** Income minus expenses over the records dated on or before `d`. */
  function BalanceUntil(expenses: seq<Expense>, income: seq<Income>, d: string): int {
    Total(UpTo(income, IncomeDate, d), IncomeAmount) - Total(UpTo(expenses, ExpenseDate, d), ExpenseAmount)
  }

  datatype Chart = Chart(labels: seq<string>, expenseData: seq<int>, incomeData: seq<int>, balanceData: seq<int>)

  /** The chart data; a missing list (`null`/`undefined`) counts as empty. */
  function BalanceChart(expenses: Option<seq<Expense>>, income: Option<seq<Income>>): (c: Chart)
    ensures |c.expenseData| == |c.labels| && |c.incomeData| == |c.labels| && |c.balanceData| == |c.labels|
    ensures c.labels == AllDates(expenses.GetOr([]), income.GetOr([]))
    ensures forall k :: 0 <= k < |c.labels| ==>
      c.expenseData[k] == Total(OnDate(expenses.GetOr([]), ExpenseDate, c.labels[k]), ExpenseAmount)
      && c.incomeData[k] == Total(OnDate(income.GetOr([]), IncomeDate, c.labels[k]), IncomeAmount)
      && c.balanceData[k] == BalanceUntil(expenses.GetOr([]), income.GetOr([]), c.labels[k])
  {
    var safeExpenses := expenses.GetOr([]);
    var safeIncome := income.GetOr([]);
    var dates := AllDates(safeExpenses, safeIncome);
    Chart(
      dates,
      seq(|dates|, k requires 0 <= k < |dates| => Total(OnDate(safeExpenses, ExpenseDate, dates[k]), ExpenseAmount)),
      seq(|dates|, k requires 0 <= k < |dates| => Total(OnDate(safeIncome, IncomeDate, dates[k]), IncomeAmount)),
      seq(|dates|, k requires 0 <= k < |dates| => BalanceUntil(safeExpenses, safeIncome, dates[k])))
  }

  // ---------------------------------------------------------------------
  // Properties

  /** No records, or missing lists: no labels and empty series. */
  lemma MissingListsAreEmpty()
    ensures BalanceChart(None, None) == Chart([], [], [], [])
    ensures BalanceChart(None, Some([])) == BalanceChart(Some([]), None) == Chart([], [], [], [])
  {
    assert AllDates([], []) == [];
  }

  /** The labels: every record's date once, in ascending order, and no other string. */
  lemma LabelsAreRecordDates(expenses: seq<Expense>, income: seq<Income>, d: string)
    ensures var labels := BalanceChart(Some(expenses), Some(income)).labels;
      StrictlyAscending(labels)
      && (d in labels <==>
            (exists k :: 0 <= k < |expenses| && expenses[k].date == d)
            || (exists k :: 0 <= k < |income| && income[k].date == d))
  {
    var ed := DatesOf(expenses, ExpenseDate);
    var id := DatesOf(income, IncomeDate);
    if d in ed {
      var k :| 0 <= k < |ed| && ed[k] == d;
      assert expenses[k].date == d;
    }
    if d in id {
      var k :| 0 <= k < |id| && id[k] == d;
      assert income[k].date == d;
    }
    if exists k :: 0 <= k < |expenses| && expenses[k].date == d {
      var k :| 0 <= k < |expenses| && expenses[k].date == d;
      assert ed[k] == d;
    }
    if exists k :: 0 <= k < |income| && income[k].date == d {
      var k :| 0 <= k < |income| && income[k].date == d;
      assert id[k] == d;
    }
  }

  /**
   * Between two consecutive labels no record date falls: a label is on or
   * before the later one exactly when it is on or before the earlier one or
   * is the later one.
   */
  lemma BetweenConsecutiveLabels(labels: seq<string>, k: int, x: string)
    requires StrictlyAscending(labels) && 0 <= k && k + 1 < |labels| && x in labels
    ensures LexLe(x, labels[k + 1]) <==> LexLe(x, labels[k]) || x == labels[k + 1]
  {
    var j :| 0 <= j < |labels| && labels[j] == x;
    if j < k {
      assert LexLt(x, labels[k]) && LexLt(x, labels[k + 1]);
    } else if j > k + 1 {
      assert LexLt(labels[k], x) && LexLt(labels[k + 1], x);
      NotLexLe(x, labels[k]);
      NotLexLe(x, labels[k + 1]);
      LexLtIrreflexive(x);
    } else if j == k {
      assert LexLt(x, labels[k + 1]);
    }
  }

  /** Splitting the running total at consecutive dates `d1 < d2`. */
  lemma {:induction false} UpToStep<T(!new)>(s: seq<T>, date: T -> string, amount: T -> int, d1: string, d2: string)
    requires LexLt(d1, d2)
    requires forall y :: y in s ==> (LexLe(date(y), d2) <==> LexLe(date(y), d1) || date(y) == d2)
    ensures Total(UpTo(s, date, d2), amount) == Total(UpTo(s, date, d1), amount) + Total(OnDate(s, date, d2), amount)
    decreases |s|
  {
    if s != [] {
      var init := s[..|s| - 1];
      var last := s[|s| - 1];
      assert s == init + [last];
      assert forall y :: y in init ==> y in s;
      UpToStep(init, date, amount, d1, d2);
      var a := if LexLe(date(last), d2) then [last] else [];
      var b := if LexLe(date(last), d1) then [last] else [];
      var c := if date(last) == d2 then [last] else [];
      TotalAppend(UpTo(init, date, d2), a, amount);
      TotalAppend(UpTo(init, date, d1), b, amount);
      TotalAppend(OnDate(init, date, d2), c, amount);
      assert [last][..0] == [];
      if date(last) == d2 {
        NotLexLe(d2, d1);
        LexLtAsymmetric(d1, d2);
      }
    }
  }

  /** When nothing is dated before `d`, the records up to `d` are those on `d`. */
  lemma {:induction false} UpToOnlyOnDate<T(!new)>(s: seq<T>, date: T -> string, d: string)
    requires forall y :: y in s && LexLe(date(y), d) ==> date(y) == d
    ensures UpTo(s, date, d) == OnDate(s, date, d)
    decreases |s|
  {
    if s != [] {
      var init := s[..|s| - 1];
      assert s == init + [s[|s| - 1]];
      assert forall y :: y in init ==> y in s;
      UpToOnlyOnDate(init, date, d);
    }
  }

  /** When everything is dated on or before `d`, the records up to `d` are all of them. */
  lemma {:induction false} UpToEverything<T(!new)>(s: seq<T>, date: T -> string, d: string)
    requires forall y :: y in s ==> LexLe(date(y), d)
    ensures UpTo(s, date, d) == s
    decreases |s|
  {
    if s != [] {
      var init := s[..|s| - 1];
      assert s == init + [s[|s| - 1]];
      assert forall y :: y in init ==> y in s;
      UpToEverything(init, date, d);
    }
  }

  /** Each record's date is a label. */
  lemma RecordDatesAreLabels(expenses: seq<Expense>, income: seq<Income>)
    ensures var labels := AllDates(expenses, income);
      (forall e :: e in expenses ==> e.date in labels) && (forall i :: i in income ==> i.date in labels)
  {
    var labels := AllDates(expenses, income);
    forall e | e in expenses ensures e.date in labels {
      var k :| 0 <= k < |expenses| && expenses[k] == e;
      assert DatesOf(expenses, ExpenseDate)[k] == e.date;
    }
    forall i | i in income ensures i.date in labels {
      var k :| 0 <= k < |income| && income[k] == i;
      assert DatesOf(income, IncomeDate)[k] == i.date;
    }
  }

  /** Consecutive balances differ by the later day's income minus its expenses. */
  lemma BalanceStep(expenses: Option<seq<Expense>>, income: Option<seq<Income>>, k: int)
    requires 0 <= k && k + 1 < |BalanceChart(expenses, income).labels|
    ensures var c := BalanceChart(expenses, income);
      c.balanceData[k + 1] == c.balanceData[k] + c.incomeData[k + 1] - c.expenseData[k + 1]
  {
    var es := expenses.GetOr([]);
    var ins := income.GetOr([]);
    var labels := AllDates(es, ins);
    RecordDatesAreLabels(es, ins);
    forall y | y in es ensures LexLe(y.date, labels[k + 1]) <==> LexLe(y.date, labels[k]) || y.date == labels[k + 1] {
      BetweenConsecutiveLabels(labels, k, y.date);
    }
    forall y | y in ins ensures LexLe(y.date, labels[k + 1]) <==> LexLe(y.date, labels[k]) || y.date == labels[k + 1] {
      BetweenConsecutiveLabels(labels, k, y.date);
    }
    UpToStep(es, ExpenseDate, ExpenseAmount, labels[k], labels[k + 1]);
    UpToStep(ins, IncomeDate, IncomeAmount, labels[k], labels[k + 1]);
  }

  /** No label comes before the first. */
  lemma FirstLabelIsLeast(labels: seq<string>, x: string)
    requires StrictlyAscending(labels) && x in labels && LexLe(x, labels[0])
    ensures x == labels[0]
  {
    var j :| 0 <= j < |labels| && labels[j] == x;
    if j > 0 {
      assert LexLt(labels[0], x);
      NotLexLe(x, labels[0]);
    }
  }

  /** Up to the first label, the running balance counts only that day's records. */
  lemma BalanceUntilFirstLabel(expenses: seq<Expense>, income: seq<Income>)
    requires AllDates(expenses, income) != []
    ensures var d := AllDates(expenses, income)[0];
      BalanceUntil(expenses, income, d)
        == Total(OnDate(income, IncomeDate, d), IncomeAmount) - Total(OnDate(expenses, ExpenseDate, d), ExpenseAmount)
  {
    var labels := AllDates(expenses, income);
    RecordDatesAreLabels(expenses, income);
    forall y | y in expenses && LexLe(ExpenseDate(y), labels[0]) ensures ExpenseDate(y) == labels[0] {
      FirstLabelIsLeast(labels, y.date);
    }
    forall y | y in income && LexLe(IncomeDate(y), labels[0]) ensures IncomeDate(y) == labels[0] {
      FirstLabelIsLeast(labels, y.date);
    }
    UpToOnlyOnDate(expenses, ExpenseDate, labels[0]);
    UpToOnlyOnDate(income, IncomeDate, labels[0]);
  }

  /** The first balance is the first day's income minus its expenses. */
  lemma BalanceFirst(expenses: Option<seq<Expense>>, income: Option<seq<Income>>)
    requires BalanceChart(expenses, income).labels != []
    ensures var c := BalanceChart(expenses, income);
      c.balanceData[0] == c.incomeData[0] - c.expenseData[0]
  {
    BalanceUntilFirstLabel(expenses.GetOr([]), income.GetOr([]));
  }

  lemma LabelAtMostLast(labels: seq<string>, x: string)
    requires StrictlyAscending(labels) && x in labels
    ensures LexLe(x, labels[|labels| - 1])
  {
    var j :| 0 <= j < |labels| && labels[j] == x;
    if j < |labels| - 1 {
      assert LexLt(x, labels[|labels| - 1]);
    }
  }

  /** Every record is dated on or before the last label. */
  lemma RecordsUpToLastLabel(expenses: seq<Expense>, income: seq<Income>)
    requires AllDates(expenses, income) != []
    ensures var labels := AllDates(expenses, income);
      (forall y :: y in expenses ==> LexLe(y.date, labels[|labels| - 1]))
      && (forall y :: y in income ==> LexLe(y.date, labels[|labels| - 1]))
  {
    var labels := AllDates(expenses, income);
    RecordDatesAreLabels(expenses, income);
    forall y | y in expenses ensures LexLe(y.date, labels[|labels| - 1]) {
      LabelAtMostLast(labels, y.date);
    }
    forall y | y in income ensures LexLe(y.date, labels[|labels| - 1]) {
      LabelAtMostLast(labels, y.date);
    }
  }

  /** The running balance at the last label counts every record. */
  lemma BalanceUntilLastLabel(expenses: seq<Expense>, income: seq<Income>)
    requires AllDates(expenses, income) != []
    ensures var labels := AllDates(expenses, income);
      BalanceUntil(expenses, income, labels[|labels| - 1]) == CalculateTotals(income, expenses).balance
  {
    var labels := AllDates(expenses, income);
    RecordsUpToLastLabel(expenses, income);
    BalanceUntilAll(expenses, income, labels[|labels| - 1]);
  }

  lemma BalanceUntilAll(expenses: seq<Expense>, income: seq<Income>, d: string)
    requires forall y :: y in expenses ==> LexLe(y.date, d)
    requires forall y :: y in income ==> LexLe(y.date, d)
    ensures BalanceUntil(expenses, income, d) == CalculateTotals(income, expenses).balance
  {
    UpToEverything(expenses, ExpenseDate, d);
    UpToEverything(income, IncomeDate, d);
  }

  /** The last balance is total income minus total expenses. */
  lemma BalanceLast(expenses: seq<Expense>, income: seq<Income>)
    requires BalanceChart(Some(expenses), Some(income)).labels != []
    ensures var c := BalanceChart(Some(expenses), Some(income));
      c.balanceData[|c.labels| - 1] == CalculateTotals(income, expenses).balance
  {
    BalanceUntilLastLabel(expenses, income);
  }
}
