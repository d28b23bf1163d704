/** The one entity of the tracker: an expense record, and the two category
    values the code itself names. */
module Expenses {

  /** One entered expense. `amount` is the already-parsed number, exact. */
  datatype Expense = Expense(
    id: string,
    date: string,
    description: string,
    amount: real,
    category: string)

  /** The form's category before any choice, and after every successful add. */
  const DefaultCategory: string := "Food"

  /** The filter selector's sentinel that means "no filtering". */
  const AllCategories: string := "All"
}
