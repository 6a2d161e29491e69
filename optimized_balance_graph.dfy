/**
 * The memoised chart data of components/OptimizedBalanceGraph.tsx: the
 * same dates and series as the plain balance chart, with each
 * `YYYY-MM-DD` label shown as `MM/DD`.
 */
module OptimizedBalanceGraph {
  import opened Wrappers
  import opened Strings
  import opened Records
  import opened Dates
  import opened Sorting
  import opened BalanceGraph

  /** A destructured array element that is absent renders as "undefined" in a template string. */
  function PartOr(parts: seq<string>, i: nat): string {
    if i < |parts| then parts[i] else "undefined"
  }

  /** `const [year, month, day] = date.split('-'); return `${month}/${day}``. */
  function FormatLabel(date: string): string {
    var parts := Split(date, '-');
    PartOr(parts, 1) + "/" + PartOr(parts, 2)
  }

  datatype OptimizedChart = OptimizedChart(
    dates: seq<string>,
    labels: seq<string>,
    expenseData: seq<int>,
    incomeData: seq<int>,
    balanceData: seq<int>)

  function ChartData(expenses: Option<seq<Expense>>, income: Option<seq<Income>>): (c: OptimizedChart)
    ensures |c.labels| == |c.dates|
    ensures forall k :: 0 <= k < |c.dates| ==> c.labels[k] == FormatLabel(c.dates[k])
  {
    var plain := BalanceChart(expenses, income);
    var dates := plain.labels;
    OptimizedChart(
      dates,
      seq(|dates|, k requires 0 <= k < |dates| => FormatLabel(dates[k])),
      plain.expenseData,
      plain.incomeData,
      plain.balanceData)
  }

  /** The dates and the three series are those of the plain balance chart. */
  lemma SameSeriesAsBalanceGraph(expenses: Option<seq<Expense>>, income: Option<seq<Income>>)
    ensures var c := ChartData(expenses, income);
      var plain := BalanceChart(expenses, income);
      c.dates == plain.labels && c.expenseData == plain.expenseData
      && c.incomeData == plain.incomeData && c.balanceData == plain.balanceData
      && StrictlyAscending(c.dates)
      && |c.expenseData| == |c.dates| && |c.incomeData| == |c.dates| && |c.balanceData| == |c.dates|
  {
  }

  /** A `YYYY-MM-DD` date is labelled `MM/DD`. */
  lemma FormatLabelOfDate(date: string)
    requires MatchesDateShape(date)
    ensures FormatLabel(date) == date[5..7] + "/" + date[8..10]
  {
    var y, m, d := date[..4], date[5..7], date[8..10];
    assert date == y + ['-'] + m + ['-'] + d;
    assert '-' !in y && '-' !in m && '-' !in d;
    SplitThree(y, m, d, '-');
  }

  lemma DatesAreWellFormed(expenses: seq<Expense>, income: seq<Income>)
    requires forall e :: e in expenses ==> MatchesDateShape(e.date)
    requires forall i :: i in income ==> MatchesDateShape(i.date)
    ensures forall d :: d in AllDates(expenses, income) ==> MatchesDateShape(d)
  {
    var ed := DatesOf(expenses, ExpenseDate);
    var id := DatesOf(income, IncomeDate);
    forall d | d in ed ensures MatchesDateShape(d) {
      var j :| 0 <= j < |ed| && ed[j] == d;
      assert expenses[j] in expenses;
    }
    forall d | d in id ensures MatchesDateShape(d) {
      var j :| 0 <= j < |id| && id[j] == d;
      assert income[j] in income;
    }
  }

  lemma FormatLabelsOfDates(dates: seq<string>)
    ensures forall k :: 0 <= k < |dates| && MatchesDateShape(dates[k]) ==>
      FormatLabel(dates[k]) == dates[k][5..7] + "/" + dates[k][8..10]
  {
    forall k | 0 <= k < |dates| && MatchesDateShape(dates[k]) ensures FormatLabel(dates[k]) == dates[k][5..7] + "/" + dates[k][8..10] {
      FormatLabelOfDate(dates[k]);
    }
  }

  /** Every label of a chart whose record dates are well formed is the date's month and day. */
  lemma LabelsOfValidDates(expenses: seq<Expense>, income: seq<Income>)
    requires forall e :: e in expenses ==> MatchesDateShape(e.date)
    requires forall i :: i in income ==> MatchesDateShape(i.date)
    ensures var c := ChartData(Some(expenses), Some(income));
      forall k :: 0 <= k < |c.dates| ==>
        MatchesDateShape(c.dates[k]) && c.labels[k] == c.dates[k][5..7] + "/" + c.dates[k][8..10]
  {
    DatesAreWellFormed(expenses, income);
    FormatLabelsOfDates(AllDates(expenses, income));
  }

  /** A date without dashes has no month or day part. */
  lemma FormatLabelWithoutDashes(date: string)
    requires '-' !in date
    ensures FormatLabel(date) == "undefined/undefined"
  {
    SplitNoSep(date, '-');
  }
}
