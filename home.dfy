/** The page component's state and its two state-changing handlers: submitting
    the form (`addExpense`) and deleting a row (`deleteExpense`). */
module ExpenseTracker {
  import opened Expenses
  import opened SeqFilter
  import opened ViewModel

  function IdDiffers(id: string): Expense -> bool
  {
    (e: Expense) => e.id != id
  }

  /** The list after deleting `id`: every record with that id goes. */
  function WithoutId(xs: seq<Expense>, id: string): (r: seq<Expense>)
    ensures forall e :: e in r ==> e in xs && e.id != id
    ensures |r| <= |xs|
  {
    Filter(xs, IdDiffers(id))
  }

  /** Deleting keeps every other record, as often as before and in order. */
  lemma DeleteKeepsOthers(xs: seq<Expense>, id: string)
    ensures IsSubsequence(WithoutId(xs, id), xs)
    ensures forall e :: multiset(WithoutId(xs, id))[e] ==
                        if e.id == id then 0 else multiset(xs)[e]
  {
    FilterIsSubsequence(xs, IdDiffers(id));
    forall e ensures multiset(WithoutId(xs, id))[e] == if e.id == id then 0 else multiset(xs)[e] {
      FilterCount(xs, IdDiffers(id), e);
    }
  }

  /** Deleting an id that no record carries changes nothing. */
  lemma DeleteAbsentIsNoop(xs: seq<Expense>, id: string)
    requires forall e :: e in xs ==> e.id != id
    ensures WithoutId(xs, id) == xs
  {
    FilterKeepsAll(xs, IdDiffers(id));
  }

  /** Deleting the same id twice is deleting it once. */
  lemma DeleteIdempotent(xs: seq<Expense>, id: string)
    ensures WithoutId(WithoutId(xs, id), id) == WithoutId(xs, id)
  {
    FilterIdempotent(xs, IdDiffers(id));
  }

  /** The filtered view after a delete is the old view with that id deleted. */
  lemma ViewAfterDelete(xs: seq<Expense>, id: string, selected: string)
    ensures FilteredExpenses(WithoutId(xs, id), selected) ==
            WithoutId(FilteredExpenses(xs, selected), id)
  {
    if selected != AllCategories {
      FilterCommute(xs, IdDiffers(id), InCategory(selected));
    }
  }

  /** The state of the page: the list, the three form fields (the amount is
      the text as typed) and the filter selection. */
  class Home {
    var expenses: seq<Expense>
    var description: string
    var amount: string
    var category: string
    var filterCategory: string

    constructor ()
      ensures expenses == [] && description == "" && amount == ""
      ensures category == DefaultCategory && filterCategory == AllCategories
    {
      expenses := [];
      description := "";
      amount := "";
      category := DefaultCategory;
      filterCategory := AllCategories;
    }

    method SetDescription(text: string)
      modifies this`description
      ensures description == text
    {
      description := text;
    }

    method SetAmount(text: string)
      modifies this`amount
      ensures amount == text
    {
      amount := text;
    }

    method SetCategory(choice: string)
      modifies this`category
      ensures category == choice
    {
      category := choice;
    }

    method SetFilterCategory(choice: string)
      modifies this`filterCategory
      ensures filterCategory == choice
    {
      filterCategory := choice;
    }

    /** Form submission. `id` and `date` are the clock readings the handler
        takes, `value` is what parsing the amount text yields. Only empty
        description or amount text is refused. */
    method AddExpense(id: string, date: string, value: real)
      modifies this
      ensures old(description) == "" || old(amount) == "" ==> unchanged(this)
      ensures old(description) != "" && old(amount) != "" ==>
        && expenses == [Expense(id, date, old(description), value, old(category))] + old(expenses)
        && description == "" && amount == "" && category == DefaultCategory
        && filterCategory == old(filterCategory)
      ensures old(description) != "" && old(amount) != "" ==>
        && TotalExpenses(expenses) == value + TotalExpenses(old(expenses))
        && FilteredExpenses(expenses, filterCategory) ==
           (if filterCategory == AllCategories || old(category) == filterCategory
            then [expenses[0]] else [])
           + FilteredExpenses(old(expenses), filterCategory)
        && TotalExpenses(FilteredExpenses(expenses, filterCategory)) ==
           (if filterCategory == AllCategories || old(category) == filterCategory
            then value else 0.0)
           + TotalExpenses(FilteredExpenses(old(expenses), filterCategory))
    {
      if description == "" || amount == "" {
        return;
      }
      var added := Expense(id, date, description, value, category);
      assert [added][1..] == [];
      TotalAppend([added], expenses);
      ViewOfPrepend(added, expenses, filterCategory);
      var passes := filterCategory == AllCategories || category == filterCategory;
      TotalAppend(if passes then [added] else [], FilteredExpenses(expenses, filterCategory));
      expenses := [added] + expenses;
      description := "";
      amount := "";
      category := DefaultCategory;
    }

    /** Row deletion: keeps exactly the records whose id differs. */
    method DeleteExpense(id: string)
      modifies this`expenses
      ensures expenses == WithoutId(old(expenses), id)
      ensures forall e :: e in expenses ==> e.id != id
      ensures IsSubsequence(expenses, old(expenses))
      ensures forall e: Expense :: e.id != id ==> multiset(expenses)[e] == multiset(old(expenses))[e]
      ensures (forall e :: e in old(expenses) ==> e.id != id) ==> expenses == old(expenses)
      ensures FilteredExpenses(expenses, filterCategory) ==
              WithoutId(FilteredExpenses(old(expenses), filterCategory), id)
    {
      DeleteKeepsOthers(expenses, id);
      ViewAfterDelete(expenses, id, filterCategory);
      if forall e :: e in expenses ==> e.id != id {
        DeleteAbsentIsNoop(expenses, id);
      }
      expenses := WithoutId(expenses, id);
    }
  }

  /** Adding then deleting one expense, starting from an empty page. */
  method AddThenDelete()
  {
    var page := new Home();
    page.AddExpense("1700000000000", "2024-05-01", 3.5);
    assert page.expenses == [];
    page.SetDescription("Coffee");
    page.SetAmount("3.50");
    page.AddExpense("1700000000001", "2024-05-01", 3.5);
    assert page.expenses == [Expense("1700000000001", "2024-05-01", "Coffee", 3.5, "Food")];
    assert Summarize(page.expenses, page.filterCategory).count == 1;
    page.DeleteExpense("1700000000001");
    assert page.expenses == [];
    page.DeleteExpense("1700000000001");
    assert page.expenses == [];
    assert Summarize(page.expenses, page.filterCategory) == Dashboard(0.0, 0, true);
  }
}
