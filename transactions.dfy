/**
 * The transactions reducer (hooks/useTransactions.ts): the state of the
 * two record lists and their loading/error flags, and the one transition
 * `dispatch` applies for each action. The list updates it performs are
 * also the ones the dashboard page performs in its own handlers.
 */
module Transactions {
  import opened Wrappers
  import opened Records
  import opened Sorting

  datatype State = State(income: seq<Income>, expenses: seq<Expense>, loading: bool, error: Option<string>)

  /** Both lists empty, loading, no error. */
  const InitialState := State([], [], true, None)

  /** The nine actions, and any other tag, which the reducer ignores. */
  datatype Action =
    | FetchStart
    | FetchSuccess(incomeList: seq<Income>, expenseList: seq<Expense>)
    | FetchError(message: string)
    | AddIncome(newIncome: Income)
    | AddExpense(newExpense: Expense)
    | UpdateIncome(changedIncome: Income)
    | UpdateExpense(changedExpense: Expense)
    | DeleteIncome(incomeId: string)
    | DeleteExpense(expenseId: string)
    | Unrecognised(tag: string)

  // ---------------------------------------------------------------------
  // List updates, generic in the record type through its id and date

  /** `[x, ...s].sort(byDateDesc)`. */
  function AddSorted<T>(x: T, s: seq<T>, date: T -> string): (r: seq<T>)
    ensures multiset(r) == multiset(s) + multiset{x}
    ensures SortedDesc(r, date)
  {
    SortByDateDescSorted([x] + s, date);
    SortByDateDesc([x] + s, date)
  }

  /** `s.map(item => item.id === x.id ? x : item)`. */
  function ReplaceById<T>(s: seq<T>, x: T, id: T -> string): (r: seq<T>)
    ensures |r| == |s|
    ensures forall k :: 0 <= k < |s| ==> r[k] == if id(s[k]) == id(x) then x else s[k]
  {
    if s == [] then []
    else [if id(s[0]) == id(x) then x else s[0]] + ReplaceById(s[1..], x, id)
  }

  /** `s.map(...).sort(byDateDesc)`. */
  function UpdateSorted<T>(s: seq<T>, x: T, id: T -> string, date: T -> string): (r: seq<T>)
    ensures multiset(r) == multiset(ReplaceById(s, x, id))
    ensures SortedDesc(r, date)
  {
    SortByDateDescSorted(ReplaceById(s, x, id), date);
    SortByDateDesc(ReplaceById(s, x, id), date)
  }

  /** `s.filter(item => item.id !== k)`. */
  function RemoveById<T(!new)>(s: seq<T>, k: string, id: T -> string): (r: seq<T>)
    ensures |r| <= |s|
    ensures forall y :: y in r <==> y in s && id(y) != k
  {
    if s == [] then []
    else (if id(s[0]) != k then [s[0]] else []) + RemoveById(s[1..], k, id)
  }

  // ---------------------------------------------------------------------
  // The reducer

  function Reduce(state: State, action: Action): (r: State)
    ensures action.FetchStart? ==>
      r.loading && r.error == None && r.income == state.income && r.expenses == state.expenses
    ensures action.FetchSuccess? ==>
      r.income == action.incomeList && r.expenses == action.expenseList && !r.loading && r.error == state.error
    ensures action.FetchError? ==>
      r.error == Some(action.message) && !r.loading && r.income == state.income && r.expenses == state.expenses
    ensures action.AddIncome? || action.UpdateIncome? || action.DeleteIncome? ==> r.expenses == state.expenses
    ensures action.AddExpense? || action.UpdateExpense? || action.DeleteExpense? ==> r.income == state.income
    ensures !action.FetchStart? && !action.FetchSuccess? && !action.FetchError? ==>
      r.loading == state.loading && r.error == state.error
    ensures action.Unrecognised? ==> r == state
  {
    match action
    case FetchStart => state.(loading := true, error := None)
    case FetchSuccess(income, expenses) => state.(income := income, expenses := expenses, loading := false)
    case FetchError(message) => state.(error := Some(message), loading := false)
    case AddIncome(x) => state.(income := AddSorted(x, state.income, IncomeDate))
    case AddExpense(x) => state.(expenses := AddSorted(x, state.expenses, ExpenseDate))
    case UpdateIncome(x) => state.(income := UpdateSorted(state.income, x, IncomeId, IncomeDate))
    case UpdateExpense(x) => state.(expenses := UpdateSorted(state.expenses, x, ExpenseId, ExpenseDate))
    case DeleteIncome(k) => state.(income := RemoveById(state.income, k, IncomeId))
    case DeleteExpense(k) => state.(expenses := RemoveById(state.expenses, k, ExpenseId))
    case Unrecognised(_) => state
  }

  /** Adding a record: the old list plus the new record, latest date first. */
  lemma ReduceAdds(state: State, action: Action)
    requires action.AddIncome? || action.AddExpense?
    ensures var r := Reduce(state, action);
      if action.AddIncome? then
        multiset(r.income) == multiset(state.income) + multiset{action.newIncome} && SortedDesc(r.income, IncomeDate)
        && WithKey(r.income, IncomeDate, action.newIncome.date)
           == [action.newIncome] + WithKey(state.income, IncomeDate, action.newIncome.date)
      else
        multiset(r.expenses) == multiset(state.expenses) + multiset{action.newExpense} && SortedDesc(r.expenses, ExpenseDate)
        && WithKey(r.expenses, ExpenseDate, action.newExpense.date)
           == [action.newExpense] + WithKey(state.expenses, ExpenseDate, action.newExpense.date)
  {
    if action.AddIncome? {
      AddedPrecedesSameDate(action.newIncome, state.income, IncomeDate);
    } else {
      AddedPrecedesSameDate(action.newExpense, state.expenses, ExpenseDate);
    }
  }

  /** Updating a record: same length, every record with its id replaced, latest date first. */
  lemma ReduceUpdates(state: State, action: Action)
    requires action.UpdateIncome? || action.UpdateExpense?
    ensures var r := Reduce(state, action);
      if action.UpdateIncome? then
        var x := action.changedIncome;
        |r.income| == |state.income| && SortedDesc(r.income, IncomeDate)
        && (forall y :: y in r.income && y.id == x.id ==> y == x)
        && (forall y :: y in state.income && y.id != x.id ==> y in r.income)
      else
        var x := action.changedExpense;
        |r.expenses| == |state.expenses| && SortedDesc(r.expenses, ExpenseDate)
        && (forall y :: y in r.expenses && y.id == x.id ==> y == x)
        && (forall y :: y in state.expenses && y.id != x.id ==> y in r.expenses)
  {
    if action.UpdateIncome? {
      UpdateReplaces(state.income, action.changedIncome, IncomeId, IncomeDate);
    } else {
      UpdateReplaces(state.expenses, action.changedExpense, ExpenseId, ExpenseDate);
    }
  }

  /** Deleting by id: exactly the records with another id remain. */
  lemma ReduceDeletes(state: State, action: Action)
    requires action.DeleteIncome? || action.DeleteExpense?
    ensures var r := Reduce(state, action);
      if action.DeleteIncome? then
        forall y :: y in r.income <==> y in state.income && y.id != action.incomeId
      else
        forall y :: y in r.expenses <==> y in state.expenses && y.id != action.expenseId
  {
  }

  // ---------------------------------------------------------------------
  // Properties of the list updates

  /**
   * The added record comes before every record that already had its date:
   * the list is prepended to and the sort is stable.
   */
  lemma AddedPrecedesSameDate<T>(x: T, s: seq<T>, date: T -> string)
    ensures WithKey(AddSorted(x, s, date), date, date(x)) == [x] + WithKey(s, date, date(x))
  {
    SortByDateDescStable([x] + s, date, date(x));
    WithKeyAppend([x], s, date, date(x));
  }

  /** Records with other dates keep their relative order when one is added. */
  lemma AddKeepsOtherDates<T>(x: T, s: seq<T>, date: T -> string, k: string)
    requires k != date(x)
    ensures WithKey(AddSorted(x, s, date), date, k) == WithKey(s, date, k)
  {
    SortByDateDescStable([x] + s, date, k);
    WithKeyAppend([x], s, date, k);
  }

  /** An update neither adds nor drops a record. */
  lemma UpdateKeepsLength<T>(s: seq<T>, x: T, id: T -> string, date: T -> string)
    ensures |UpdateSorted(s, x, id, date)| == |s|
  {
    var m := ReplaceById(s, x, id);
    var r := UpdateSorted(s, x, id, date);
    assert |r| == |multiset(r)| == |multiset(m)| == |m|;
  }

  /**
   * An update keeps the length, leaves no record with the changed id other
   * than the new one, keeps every record with another id, and contains the
   * new record exactly when some record had its id.
   */
  lemma {:induction false} UpdateReplaces<T>(s: seq<T>, x: T, id: T -> string, date: T -> string)
    ensures var r := UpdateSorted(s, x, id, date);
      |r| == |s|
      && (forall y :: y in r && id(y) == id(x) ==> y == x)
      && (forall y :: y in s && id(y) != id(x) ==> y in r)
      && (forall y :: y in r && y != x ==> y in s)
      && (x in r <==> exists k :: 0 <= k < |s| && id(s[k]) == id(x))
  {
    var m := ReplaceById(s, x, id);
    var r := UpdateSorted(s, x, id, date);
    UpdateKeepsLength(s, x, id, date);
    forall y | y in r ensures y in m {
      assert y in multiset(r);
    }
    forall y | y in m ensures y in r {
      assert y in multiset(m);
    }
    forall y | y in s && id(y) != id(x) ensures y in r {
      var k :| 0 <= k < |s| && s[k] == y;
      assert m[k] == y;
    }
    forall y | y in r && y != x ensures y in s {
      var k :| 0 <= k < |m| && m[k] == y;
    }
    if x in r {
      var k :| 0 <= k < |m| && m[k] == x;
    }
    if exists k :: 0 <= k < |s| && id(s[k]) == id(x) {
      var k :| 0 <= k < |s| && id(s[k]) == id(x);
      assert m[k] == x;
    }
  }

  /** A delete keeps the remaining records in their relative order. */
  lemma {:induction false} RemoveByIdAppend<T(!new)>(a: seq<T>, b: seq<T>, k: string, id: T -> string)
    ensures RemoveById(a + b, k, id) == RemoveById(a, k, id) + RemoveById(b, k, id)
  {
    if a == [] {
      assert a + b == b;
    } else {
      assert (a + b)[1..] == a[1..] + b;
      RemoveByIdAppend(a[1..], b, k, id);
    }
  }

  /** Deleting an id no record has changes nothing; deleting twice is deleting once. */
  lemma {:induction false} RemoveByIdAbsent<T(!new)>(s: seq<T>, k: string, id: T -> string)
    requires forall y :: y in s ==> id(y) != k
    ensures RemoveById(s, k, id) == s
  {
    if s != [] {
      assert forall y :: y in s[1..] ==> y in s;
      RemoveByIdAbsent(s[1..], k, id);
    }
  }

  lemma RemoveByIdIdempotent<T(!new)>(s: seq<T>, k: string, id: T -> string)
    ensures RemoveById(RemoveById(s, k, id), k, id) == RemoveById(s, k, id)
  {
    RemoveByIdAbsent(RemoveById(s, k, id), k, id);
  }

  /** The number of records deleted is the number with that id. */
  lemma {:induction false} RemoveByIdCount<T(!new)>(s: seq<T>, k: string, id: T -> string)
    ensures |RemoveById(s, k, id)| + |MatchingId(s, k, id)| == |s|
  {
    if s != [] {
      RemoveByIdCount(s[1..], k, id);
    }
  }

  function MatchingId<T>(s: seq<T>, k: string, id: T -> string): seq<T> {
    if s == [] then []
    else (if id(s[0]) == k then [s[0]] else []) + MatchingId(s[1..], k, id)
  }
}
