/**
 * The two record shapes of the application (an income row and an expense
 * row) and the projections the list operations are given.
 * Amounts are integers in minor currency units; dates are `YYYY-MM-DD`
 * strings.
 */
module Records {
  import opened Wrappers

  datatype Income = Income(
    id: string,
    userId: string,
    amount: int,
    description: Option<string>,
    date: string,
    createdAt: string)

  datatype Expense = Expense(
    id: string,
    userId: string,
    amount: int,
    category: string,
    description: Option<string>,
    date: string,
    createdAt: string)

  function IncomeId(i: Income): string { i.id }
  function IncomeDate(i: Income): string { i.date }
  function ExpenseId(e: Expense): string { e.id }
  function ExpenseDate(e: Expense): string { e.date }
  function IncomeAmount(i: Income): int { i.amount }
  function ExpenseAmount(e: Expense): int { e.amount }
}
