/** What the page derives from the list and the filter selection on every
    render: the filtered list, its total, its count and the empty-state test. */
module ViewModel {
  import opened Expenses
  import opened SeqFilter

  function InCategory(c: string): Expense -> bool
  {
    (e: Expense) => e.category == c
  }

  function Not(p: Expense -> bool): Expense -> bool
  {
    (e: Expense) => !p(e)
  }

  /** The list shown under the filter selector. */
  function FilteredExpenses(xs: seq<Expense>, selected: string): (r: seq<Expense>)
    ensures selected == AllCategories ==> r == xs
    ensures selected != AllCategories ==> forall e :: e in r ==> e in xs && e.category == selected
    ensures |r| <= |xs|
  {
    if selected == AllCategories then xs else Filter(xs, InCategory(selected))
  }

  /** For a real category the view is exactly the records of that category,
      each as often as in the list, in the list's order. */
  lemma CategoryViewIsSelection(xs: seq<Expense>, selected: string)
    requires selected != AllCategories
    ensures IsSubsequence(FilteredExpenses(xs, selected), xs)
    ensures forall e :: multiset(FilteredExpenses(xs, selected))[e] ==
                        if e.category == selected then multiset(xs)[e] else 0
  {
    FilterIsSubsequence(xs, InCategory(selected));
    forall e ensures multiset(FilteredExpenses(xs, selected))[e] ==
                     if e.category == selected then multiset(xs)[e] else 0 {
      FilterCount(xs, InCategory(selected), e);
    }
  }

  /** A record prepended to the list appears first in the view when it passes
      the filter; the rest of the view is unchanged. */
  lemma ViewOfPrepend(e: Expense, xs: seq<Expense>, selected: string)
    ensures FilteredExpenses([e] + xs, selected) ==
            (if selected == AllCategories || e.category == selected then [e] else [])
            + FilteredExpenses(xs, selected)
  {
    if selected != AllCategories {
      FilterAppend([e], xs, InCategory(selected));
    }
  }

  /** `reduce((sum, exp) => sum + exp.amount, acc)`: a left fold. */
  function SumFrom(acc: real, xs: seq<Expense>): real
    decreases xs
  {
    if xs == [] then acc else SumFrom(acc + xs[0].amount, xs[1..])
  }

  /** The total shown on the dashboard, for the given (filtered) list. */
  function TotalExpenses(xs: seq<Expense>): (r: real)
    ensures r == Sum(xs)
  {
    SumFromIsSum(0.0, xs);
    SumFrom(0.0, xs)
  }

  /** Reference definition: the sum of the amounts. */
  function Sum(xs: seq<Expense>): real
  {
    if xs == [] then 0.0 else xs[0].amount + Sum(xs[1..])
  }

  lemma {:induction false} SumFromIsSum(acc: real, xs: seq<Expense>)
    ensures SumFrom(acc, xs) == acc + Sum(xs)
    decreases xs
  {
    if xs != [] {
      SumFromIsSum(acc + xs[0].amount, xs[1..]);
    }
  }

  lemma {:induction false} SumAppend(a: seq<Expense>, b: seq<Expense>)
    ensures Sum(a + b) == Sum(a) + Sum(b)
  {
    if a == [] {
      assert a + b == b;
    } else {
      assert (a + b)[0] == a[0] && (a + b)[1..] == a[1..] + b;
      SumAppend(a[1..], b);
    }
  }

  /** The total is 0 for no records and additive over concatenation. */
  lemma TotalAppend(a: seq<Expense>, b: seq<Expense>)
    ensures TotalExpenses([]) == 0.0
    ensures TotalExpenses(a + b) == TotalExpenses(a) + TotalExpenses(b)
  {
    SumAppend(a, b);
  }

  lemma {:induction false} SumPartition(xs: seq<Expense>, p: Expense -> bool)
    ensures Sum(xs) == Sum(Filter(xs, p)) + Sum(Filter(xs, Not(p)))
  {
    if xs != [] {
      SumPartition(xs[1..], p);
    }
  }

  /** Any predicate splits the total into the total of the records it keeps
      and the total of those it drops. */
  lemma {:induction false} TotalPartition(xs: seq<Expense>, p: Expense -> bool)
    ensures TotalExpenses(xs) == TotalExpenses(Filter(xs, p)) + TotalExpenses(Filter(xs, Not(p)))
  {
    SumPartition(xs, p);
  }

  lemma {:induction false} SumNonNegative(xs: seq<Expense>)
    requires forall e :: e in xs ==> e.amount >= 0.0
    ensures Sum(xs) >= 0.0
  {
    if xs != [] {
      assert xs[0] in xs;
      assert forall e :: e in xs[1..] ==> e in xs;
      SumNonNegative(xs[1..]);
    }
  }

  /** With no negative amounts, a filtered total never exceeds the overall one. */
  lemma FilteredTotalBounded(xs: seq<Expense>, selected: string)
    requires forall e :: e in xs ==> e.amount >= 0.0
    ensures 0.0 <= TotalExpenses(FilteredExpenses(xs, selected)) <= TotalExpenses(xs)
  {
    if selected != AllCategories {
      var p := InCategory(selected);
      TotalPartition(xs, p);
      SumNonNegative(Filter(xs, p));
      SumNonNegative(Filter(xs, Not(p)));
    } else {
      SumNonNegative(xs);
    }
  }

  /** The figures the page renders from the list and the filter selection. */
  datatype Dashboard = Dashboard(total: real, count: nat, emptyState: bool)

  function Summarize(xs: seq<Expense>, selected: string): (d: Dashboard)
    ensures d.total == Sum(FilteredExpenses(xs, selected))
    ensures d.count == |FilteredExpenses(xs, selected)|
    ensures d.count == if selected == AllCategories then |xs| else CountWhere(xs, InCategory(selected))
    ensures d.count <= |xs|
    ensures d.emptyState <==> d.count == 0
    ensures d.emptyState <==>
            if selected == AllCategories then xs == []
            else forall e :: e in xs ==> e.category != selected
    ensures d.emptyState ==> d.total == 0.0
  {
    var shown := FilteredExpenses(xs, selected);
    FilterEmptyIff(xs, InCategory(selected));
    FilterLength(xs, InCategory(selected));
    Dashboard(TotalExpenses(shown), |shown|, |shown| == 0)
  }
}
