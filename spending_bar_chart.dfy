/**
 * The bar chart on the analytics page: it folds the expense list into one
 * bar per category, adding to the bar already there or appending a new one,
 * and shows a placeholder when there is nothing to draw.
 */
module SpendingBarChart {
  import opened Constants
  import opened CategoryTotals

  /** The single series' label and colour. */
  const TOTAL_SERIES := ChartEntry("Total Spent", "hsl(var(--primary))")

  /** The first entry of `acc` for category `c`, or -1 when there is none. */
  method FindCategory(acc: seq<Total>, c: string) returns (i: int)
    ensures -1 <= i < |acc|
    ensures i >= 0 ==> acc[i].category == c && forall j :: 0 <= j < i ==> acc[j].category != c
    ensures i < 0 ==> forall j :: 0 <= j < |acc| ==> acc[j].category != c
  {
    i := 0;
    while i < |acc|
      invariant 0 <= i <= |acc|
      invariant forall j :: 0 <= j < i ==> acc[j].category != c
    {
      if acc[i].category == c {
        return;
      }
      i := i + 1;
    }
    i := -1;
  }

  /**
   * The bars: the expense list's group-by-category sums, with a placeholder
   * exactly when there are no expenses.
   */
  method SpendingBarChart(expenses: seq<Expense>) returns (data: seq<Total>, placeholder: bool)
    ensures data == GroupSum(expenses)
    ensures placeholder <==> expenses == []
  {
    data := [];
    for k := 0 to |expenses|
      invariant data == GroupSum(expenses[..k])
    {
      var e := expenses[k];
      assert expenses[..k + 1] == expenses[..k] + [e];
      var i := FindCategory(data, e.category);
      if i >= 0 {
        GroupSumStepFound(expenses[..k], e, i);
        data := data[i := Total(data[i].category, data[i].total + e.amount)];
      } else {
        GroupSumStepNew(expenses[..k], e);
        data := data + [Total(e.category, e.amount)];
      }
    }
    assert expenses[..|expenses|] == expenses;
    GroupSumEmpty(expenses);
    placeholder := |data| == 0;
  }
}
