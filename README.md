# Expense tracker: state and derived views

This is a model of the single-page expense tracker's `Home` component. The component's state is an
ordered list of expense records, newest first, together with the add-expense form (description text,
amount text, category) and the category-filter selection. Two handlers change that state:

- Submitting the form prepends a new record and resets the form. It does nothing if the description
  or amount text is empty.
- Deleting a row removes every record carrying that row's id.

On each render the page derives four things from the list and the filter: the filtered list, its
total, its count, and whether to show the empty-state message.

Modules:

- `SeqFilter` (`seq_filter.dfy`): the array `filter` that both the delete handler and the category
  view use. It is characterised completely: an order-preserving subsequence with exact
  multiplicities, and the only such subsequence.
- `Expenses` (`expense.dfy`): the `Expense` record, the default category `"Food"` and the
  sentinel `"All"`.
- `ViewModel` (`view_model.dfy`): the filtered list, the total as a left fold with a reference sum
  beside it, and the dashboard figures (total, count, empty state).
- `ExpenseTracker` (`home.dfy`): class `Home` with the component's five state fields, its handlers,
  and the lemmas about deletion. A client method `AddThenDelete` walks through add, delete and a
  repeated delete, starting from an empty page.

Amounts are exact `real` numbers. The clock readings (`id`, `date`) and the parsed amount are
parameters of `AddExpense`.

Two behaviours of the code are worth stating outright, and the model keeps both:

- The add guard (`app/page.tsx:36`) only tests whether the description and amount texts are empty.
  It does not test whether the amount text parses as a number.
- The delete handler keeps every record whose id differs (`app/page.tsx:53`). So one delete removes
  every record with that id. Two records added in the same millisecond get the same id. The model
  never assumes ids are unique.

## Model

| member | source | states |
|---|---|---|
| `SeqFilter.Filter` | app/page.tsx:58 | the filtered list is no longer than the input, and every element in it comes from the input and passes the predicate |
| `SeqFilter.FilterCount` | app/page.tsx:58 | each value occurs in the result as often as in the input if it passes the predicate, and never otherwise |
| `SeqFilter.FilterIsSubsequence` | app/page.tsx:58 | the result is a subsequence of the input (the original order is kept) |
| `SeqFilter.FilterUnique` | app/page.tsx:58 | any subsequence of the input with the multiplicities of FilterCount is the filter result, so order and multiplicities determine it |
| `SeqFilter.FilterAppend` | app/page.tsx:58 | filtering distributes over concatenation |
| `SeqFilter.FilterKeepsAll` | app/page.tsx:53 | when every element passes, the filter returns the input unchanged |
| `SeqFilter.FilterIdempotent` | app/page.tsx:53 | filtering twice by the same predicate equals filtering once |
| `SeqFilter.FilterEmptyIff` | app/page.tsx:137 | the filter result is empty exactly when no element passes |
| `SeqFilter.FilterLength` | app/page.tsx:78 | the filtered list's length is the reference count of elements that pass the predicate |
| `SeqFilter.FilterCommute` | app/page.tsx:53-58 | filtering by two predicates gives the same list in either order |
| `ViewModel.FilteredExpenses` | app/page.tsx:56-58 | with "All" the view is the list itself; otherwise it holds only records of the selected category drawn from the list, and is never longer |
| `ViewModel.CategoryViewIsSelection` | app/page.tsx:56-58 | for a real category the view is a subsequence of the list holding each record of that category as often as the list does, and no other record |
| `ViewModel.ViewOfPrepend` | app/page.tsx:46-58 | prepending a record puts it at the head of the view when "All" is selected or its category matches; the rest of the view is unchanged |
| `ViewModel.SumFromIsSum` | app/page.tsx:60 | the left fold from any starting sum equals that start plus the sum of the amounts |
| `ViewModel.TotalExpenses` | app/page.tsx:60 | the reduce-from-0 total equals the reference sum of the amounts |
| `ViewModel.TotalAppend` | app/page.tsx:60 | the total of no records is 0, and the total is additive over concatenation |
| `ViewModel.TotalPartition` | app/page.tsx:60 | for any predicate, the total is the kept records' total plus the dropped records' total |
| `ViewModel.FilteredTotalBounded` | app/page.tsx:56-60 | with no negative amounts, the filtered total lies between 0 and the overall total |
| `ViewModel.Summarize` | app/page.tsx:72-137 | the dashboard total is the sum of the filtered amounts. The count is the filtered list's length: the list length under "All", otherwise the number of records of the selected category. The empty state shows exactly when the count is 0, which is exactly when the list is empty ("All") or holds no record of the selected category. The total is 0 in the empty state |
| `ExpenseTracker.WithoutId` | app/page.tsx:53 | no record with the deleted id remains; every remaining record comes from the list; the list never grows |
| `ExpenseTracker.DeleteKeepsOthers` | app/page.tsx:52-54 | deletion keeps every other record, as often as before and in its original relative order |
| `ExpenseTracker.DeleteAbsentIsNoop` | app/page.tsx:53 | deleting an id that no record carries leaves the list unchanged |
| `ExpenseTracker.DeleteIdempotent` | app/page.tsx:53 | deleting the same id twice gives the same list as deleting it once |
| `ExpenseTracker.ViewAfterDelete` | app/page.tsx:52-58 | the filtered view after a delete is the old filtered view with that id deleted |
| `ExpenseTracker.Home.constructor` | app/page.tsx:14-18 | initial state: empty list, empty description and amount text, category "Food", filter "All" |
| `ExpenseTracker.Home.SetDescription` | app/page.tsx:91 | the description field takes the typed text |
| `ExpenseTracker.Home.SetAmount` | app/page.tsx:103 | the amount field takes the typed text, unparsed |
| `ExpenseTracker.Home.SetCategory` | app/page.tsx:111 | the form category takes the chosen value |
| `ExpenseTracker.Home.SetFilterCategory` | app/page.tsx:129 | the filter selection takes the chosen value |
| `ExpenseTracker.Home.AddExpense` | app/page.tsx:33-50 | with an empty description or amount text nothing changes. Otherwise the list gains the new record (current description and category, the given id, date and value) at its head and is otherwise the old list. Description and amount text become empty, category becomes "Food", and the filter is untouched. The total of the whole list grows by exactly the new amount. The view gains the record at its head only if it passes the filter, and the filtered total grows by the new amount in that case and is unchanged otherwise |
| `ExpenseTracker.Home.DeleteExpense` | app/page.tsx:52-54 | the list becomes the old list without the id. No record with the id remains. The others keep their multiplicities and relative order. An absent id changes nothing, and the view loses only records with that id |

## Left out

- Persistence is not modelled: reading and writing the `expenses` slot of `localStorage`, and the
  JSON encoding and decoding around it (`app/page.tsx:22-31`). These are browser storage and
  foreign serialisation, run by React's effect scheduling.
- The clock readings are not modelled. `Date.now().toString()` for the id and today's ISO date
  (`app/page.tsx:39-40`) are the `id` and `date` parameters of `AddExpense`. Their uniqueness and
  format are not modelled.
- `parseFloat` (`app/page.tsx:42`) is not modelled. The parsed number is the `value` parameter of
  `AddExpense`, so the NaN that parsing non-numeric text would store is not representable.
- Floating-point arithmetic is not modelled. Amounts and the total are exact reals, so the rounding
  of the floating-point sum (`app/page.tsx:60`) and the two-decimal `toFixed(2)` display
  (`app/page.tsx:72`, `:149`) are not captured.
- Rendering is not modelled: JSX, CSS classes, the "in X" / "across all categories" captions
  (`app/page.tsx:73`, `:79`), `e.preventDefault()`, and the browser's own `required` / number-input
  checks. The `onChange` handlers are modelled only as the setter methods they call.
- The category list (`app/page.tsx:20`) is not modelled. It only fills the two drop-downs, and the
  code never checks a category or filter value against it.
