/**
 * The dashboard page's state (app/dashboard/page.tsx): the two record
 * lists, the loading flag, the records being edited and the dialog and
 * banner flags, with the handlers that replace them. What the session
 * lookup and the HTTP calls return is an input to each handler; the
 * browser alert a handler shows is its result.
 */
module Dashboard {
  import opened Wrappers
  import opened Strings
  import opened Records
  import opened Sorting
  import opened Transactions
  import opened Aggregation

  /**
   * What `fetchData` got: no session; a failed or non-ok fetch, or an income
   * body that did not parse; an income list whose expense body then did not
   * parse; or both lists.
   */
  datatype FetchOutcome = NoSession | FetchFailed | ExpensesUnreadable(parsedIncome: seq<Income>)
                        | Fetched(incomeList: seq<Income>, expenseList: seq<Expense>)

  /** What a DELETE got: no session (or a thrown error), a non-ok reply with its error text, or success. */
  datatype DeleteReply = DeleteThrew | DeleteRejected(error: string) | Deleted

  /** What a PUT got: no session (or a thrown error), a non-ok reply with its error text, or the stored record. */
  datatype UpdateReply<T> = UpdateThrew | UpdateRejected(error: string) | Updated(record: T)

  class DashboardPage {
    var income: seq<Income>
    var expenses: seq<Expense>
    var loading: bool
    var editingIncome: Option<Income>
    var editingExpense: Option<Expense>
    var showIncomeSuccess: bool
    var showExpenseSuccess: bool
    var isIncomeDialogOpen: bool
    var isExpenseDialogOpen: bool

    constructor ()
      ensures income == [] && expenses == [] && loading
      ensures editingIncome == None && editingExpense == None
      ensures !showIncomeSuccess && !showExpenseSuccess && !isIncomeDialogOpen && !isExpenseDialogOpen
    {
      income := [];
      expenses := [];
      loading := true;
      editingIncome := None;
      editingExpense := None;
      showIncomeSuccess := false;
      showExpenseSuccess := false;
      isIncomeDialogOpen := false;
      isExpenseDialogOpen := false;
    }

    /**
     * Loading always ends. Income is set as soon as its body is parsed, so an
     * expense body that then fails to parse leaves the new income list beside
     * the old expense list; otherwise both lists change or neither does.
     */
    method FetchData(outcome: FetchOutcome) returns (alert: Option<string>)
      modifies this
      ensures !loading
      ensures outcome.Fetched? ==> income == outcome.incomeList && expenses == outcome.expenseList
      ensures outcome.ExpensesUnreadable? ==> income == outcome.parsedIncome && expenses == old(expenses)
      ensures outcome.NoSession? || outcome.FetchFailed? ==> income == old(income) && expenses == old(expenses)
      ensures alert.Some? <==> outcome.FetchFailed? || outcome.ExpensesUnreadable?
      ensures alert.Some? ==> alert.value == "Failed to load data"
      ensures editingIncome == old(editingIncome) && editingExpense == old(editingExpense)
      ensures showIncomeSuccess == old(showIncomeSuccess) && showExpenseSuccess == old(showExpenseSuccess)
      ensures isIncomeDialogOpen == old(isIncomeDialogOpen) && isExpenseDialogOpen == old(isExpenseDialogOpen)
    {
      alert := None;
      match outcome {
        case NoSession =>
          loading := false;
          return;
        case FetchFailed =>
          alert := Some("Failed to load data");
        case ExpensesUnreadable(i) =>
          income := i;
          alert := Some("Failed to load data");
        case Fetched(i, e) =>
          income := i;
          expenses := e;
      }
      loading := false;
    }

    /** The new income joins the list, latest date first; the success banner shows and the dialog closes. */
    method IncomeAdded(x: Income)
      modifies this
      ensures income == AddSorted(x, old(income), IncomeDate)
      ensures multiset(income) == multiset(old(income)) + multiset{x} && SortedDesc(income, IncomeDate)
      ensures showIncomeSuccess && !isIncomeDialogOpen
      ensures expenses == old(expenses) && loading == old(loading)
      ensures editingIncome == old(editingIncome) && editingExpense == old(editingExpense)
      ensures showExpenseSuccess == old(showExpenseSuccess) && isExpenseDialogOpen == old(isExpenseDialogOpen)
    {
      income := AddSorted(x, income, IncomeDate);
      showIncomeSuccess := true;
      isIncomeDialogOpen := false;
    }

    /** The new expense joins the list, latest date first; the success banner shows and the dialog closes. */
    method ExpenseAdded(x: Expense)
      modifies this
      ensures expenses == AddSorted(x, old(expenses), ExpenseDate)
      ensures multiset(expenses) == multiset(old(expenses)) + multiset{x} && SortedDesc(expenses, ExpenseDate)
      ensures showExpenseSuccess && !isExpenseDialogOpen
      ensures income == old(income) && loading == old(loading)
      ensures editingIncome == old(editingIncome) && editingExpense == old(editingExpense)
      ensures showIncomeSuccess == old(showIncomeSuccess) && isIncomeDialogOpen == old(isIncomeDialogOpen)
    {
      expenses := AddSorted(x, expenses, ExpenseDate);
      showExpenseSuccess := true;
      isExpenseDialogOpen := false;
    }

    /** Only an ok DELETE removes the income records with that id; a failure leaves the list and alerts. */
    method DeleteIncome(id: string, reply: DeleteReply) returns (alert: Option<string>)
      modifies this
      ensures reply.Deleted? ==> income == RemoveById(old(income), id, IncomeId)
      ensures reply.Deleted? ==> forall y :: y in income <==> y in old(income) && y.id != id
      ensures !reply.Deleted? ==> income == old(income)
      ensures alert.None? <==> reply.Deleted?
      ensures reply.DeleteRejected? ==> alert == Some("Failed to delete income: " + reply.error)
      ensures reply.DeleteThrew? ==> alert == Some("An error occurred while deleting income")
      ensures expenses == old(expenses) && loading == old(loading)
      ensures editingIncome == old(editingIncome) && editingExpense == old(editingExpense)
      ensures showIncomeSuccess == old(showIncomeSuccess) && showExpenseSuccess == old(showExpenseSuccess)
      ensures isIncomeDialogOpen == old(isIncomeDialogOpen) && isExpenseDialogOpen == old(isExpenseDialogOpen)
    {
      match reply {
        case DeleteThrew =>
          return Some("An error occurred while deleting income");
        case DeleteRejected(error) =>
          return Some("Failed to delete income: " + error);
        case Deleted =>
          income := RemoveById(income, id, IncomeId);
          return None;
      }
    }

    /** Only an ok DELETE removes the expense records with that id; a failure leaves the list and alerts. */
    method DeleteExpense(id: string, reply: DeleteReply) returns (alert: Option<string>)
      modifies this
      ensures reply.Deleted? ==> expenses == RemoveById(old(expenses), id, ExpenseId)
      ensures reply.Deleted? ==> forall y :: y in expenses <==> y in old(expenses) && y.id != id
      ensures !reply.Deleted? ==> expenses == old(expenses)
      ensures alert.None? <==> reply.Deleted?
      ensures reply.DeleteRejected? ==> alert == Some("Failed to delete expense: " + reply.error)
      ensures reply.DeleteThrew? ==> alert == Some("An error occurred while deleting expense")
      ensures income == old(income) && loading == old(loading)
      ensures editingIncome == old(editingIncome) && editingExpense == old(editingExpense)
      ensures showIncomeSuccess == old(showIncomeSuccess) && showExpenseSuccess == old(showExpenseSuccess)
      ensures isIncomeDialogOpen == old(isIncomeDialogOpen) && isExpenseDialogOpen == old(isExpenseDialogOpen)
    {
      match reply {
        case DeleteThrew =>
          return Some("An error occurred while deleting expense");
        case DeleteRejected(error) =>
          return Some("Failed to delete expense: " + error);
        case Deleted =>
          expenses := RemoveById(expenses, id, ExpenseId);
          return None;
      }
    }

    /**
     * With nothing being edited nothing happens. Otherwise only an ok PUT
     * replaces the records with the returned record's id, re-sorts, and
     * ends the edit; a failure alerts and keeps the edit open.
     */
    method UpdateIncome(reply: UpdateReply<Income>) returns (alert: Option<string>)
      modifies this
      ensures old(editingIncome).Some? && reply.Updated? ==>
        income == UpdateSorted(old(income), reply.record, IncomeId, IncomeDate)
        && SortedDesc(income, IncomeDate) && |income| == |old(income)|
        && editingIncome == None && alert == None
      ensures old(editingIncome).None? || !reply.Updated? ==> income == old(income) && editingIncome == old(editingIncome)
      ensures old(editingIncome).None? ==> alert == None
      ensures old(editingIncome).Some? && reply.UpdateRejected? ==> alert == Some("Failed to update income: " + reply.error)
      ensures old(editingIncome).Some? && reply.UpdateThrew? ==> alert == Some("An error occurred while updating income")
      ensures expenses == old(expenses) && loading == old(loading) && editingExpense == old(editingExpense)
      ensures showIncomeSuccess == old(showIncomeSuccess) && showExpenseSuccess == old(showExpenseSuccess)
      ensures isIncomeDialogOpen == old(isIncomeDialogOpen) && isExpenseDialogOpen == old(isExpenseDialogOpen)
    {
      if editingIncome.None? {
        return None;
      }
      match reply {
        case UpdateThrew =>
          return Some("An error occurred while updating income");
        case UpdateRejected(error) =>
          return Some("Failed to update income: " + error);
        case Updated(record) =>
          UpdateKeepsLength(income, record, IncomeId, IncomeDate);
          income := UpdateSorted(income, record, IncomeId, IncomeDate);
          editingIncome := None;
          return None;
      }
    }

    /** As `UpdateIncome`, for the expense being edited. */
    method UpdateExpense(reply: UpdateReply<Expense>) returns (alert: Option<string>)
      modifies this
      ensures old(editingExpense).Some? && reply.Updated? ==>
        expenses == UpdateSorted(old(expenses), reply.record, ExpenseId, ExpenseDate)
        && SortedDesc(expenses, ExpenseDate) && |expenses| == |old(expenses)|
        && editingExpense == None && alert == None
      ensures old(editingExpense).None? || !reply.Updated? ==> expenses == old(expenses) && editingExpense == old(editingExpense)
      ensures old(editingExpense).None? ==> alert == None
      ensures old(editingExpense).Some? && reply.UpdateRejected? ==> alert == Some("Failed to update expense: " + reply.error)
      ensures old(editingExpense).Some? && reply.UpdateThrew? ==> alert == Some("An error occurred while updating expense")
      ensures income == old(income) && loading == old(loading) && editingIncome == old(editingIncome)
      ensures showIncomeSuccess == old(showIncomeSuccess) && showExpenseSuccess == old(showExpenseSuccess)
      ensures isIncomeDialogOpen == old(isIncomeDialogOpen) && isExpenseDialogOpen == old(isExpenseDialogOpen)
    {
      if editingExpense.None? {
        return None;
      }
      match reply {
        case UpdateThrew =>
          return Some("An error occurred while updating expense");
        case UpdateRejected(error) =>
          return Some("Failed to update expense: " + error);
        case Updated(record) =>
          UpdateKeepsLength(expenses, record, ExpenseId, ExpenseDate);
          expenses := UpdateSorted(expenses, record, ExpenseId, ExpenseDate);
          editingExpense := None;
          return None;
      }
    }

    /**
     * The figures the page renders: overall totals and the current month's
     * totals, computed inline on the page; they agree with
     * `calculateTotals` and `calculateMonthlyTotals` for that month.
     */
    function Summary(currentMonth: string): (r: (Totals, MonthlyTotals))
      reads this
      ensures r.0 == CalculateTotals(income, expenses)
      ensures r.1 == CalculateMonthlyTotals(income, expenses, Some(currentMonth), currentMonth)
      ensures r.0.balance == r.0.totalIncome - r.0.totalExpenses
      ensures r.1.monthlyBalance == r.1.monthlyIncome - r.1.monthlyExpenses
    {
      var totalIncome := Total(income, IncomeAmount);
      var totalExpenses := Total(expenses, ExpenseAmount);
      var monthlyIncome := Total(InMonth(income, IncomeDate, currentMonth), IncomeAmount);
      var monthlyExpenses := Total(InMonth(expenses, ExpenseDate, currentMonth), ExpenseAmount);
      (Totals(totalIncome, totalExpenses, totalIncome - totalExpenses),
       MonthlyTotals(monthlyIncome, monthlyExpenses, monthlyIncome - monthlyExpenses))
    }
  }
}
