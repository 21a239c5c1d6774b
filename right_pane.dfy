/**
 * The chart data of the right pane (src/components/right-pane.tsx): the pie of
 * spending per category and the doughnut of spent against remaining income.
 * The income is whatever number the currency hook made of the income field;
 * it is a parameter here.
 */
module RightPane {
  import opened Ledger
  import opened App

  /** The labels and the single dataset handed to a chart. */
  datatype ChartData = ChartData(labels: seq<string>, data: seq<real>)

  function Max(a: real, b: real): real {
    if a >= b then a else b
  }

  /** The doughnut's second slice, `Math.max(0, incomeAmount - totalSpent)`. */
  function RemainingSlice(incomeAmount: real, totalSpent: real): (r: real)
    ensures r >= 0.0
    ensures incomeAmount >= totalSpent ==> r == incomeAmount - totalSpent
    ensures incomeAmount < totalSpent ==> r == 0.0
    ensures totalSpent + r == Max(totalSpent, incomeAmount)
  {
    Max(0.0, incomeAmount - totalSpent)
  }

  /** The doughnut: "Spent" then "Remaining"; the two slices together cover the larger of income and spending. */
  function Doughnut(totalSpent: real, incomeAmount: real): (c: ChartData)
    ensures c.labels == ["Spent", "Remaining"] && |c.data| == 2
    ensures c.data[0] == totalSpent && c.data[1] >= 0.0
    ensures c.data[0] + c.data[1] == Max(totalSpent, incomeAmount)
  {
    ChartData(["Spent", "Remaining"], [totalSpent, RemainingSlice(incomeAmount, totalSpent)])
  }

  /** The pie: category titles as labels and the totals as data, index for index. */
  function Pie(cats: seq<Category>, categoryTotals: seq<real>): (c: ChartData)
    ensures |c.labels| == |cats| && forall k :: 0 <= k < |cats| ==> c.labels[k] == cats[k].title
    ensures c.data == categoryTotals
  {
    ChartData(Titles(cats), categoryTotals)
  }

  /**
   * With the totals App passes in, slice `k` of the pie is category `k`'s title
   * and total, and the slices add up to the doughnut's "Spent" slice.
   */
  lemma PieMatchesLedger(cats: seq<Category>, incomeAmount: real)
    ensures var pie := Pie(cats, CategoryTotals(cats));
      && |pie.labels| == |pie.data| == |cats|
      && (forall k :: 0 <= k < |cats| ==> pie.labels[k] == cats[k].title && pie.data[k] == CategoryTotal(cats[k]))
      && Sum(pie.data) == Doughnut(TotalSpent(cats), incomeAmount).data[0]
  {
    TotalSpentIsSumOfAmounts(cats);
  }
}
