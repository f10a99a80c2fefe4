/**
 * The reports page (`src/pages/Reports.tsx`) and its two panels, the monthly report
 * (`src/components/reports/MonthlyReport.tsx`) and the visual analytics
 * (`src/components/reports/VisualAnalytics.tsx`): raw totals, net worth as a signed
 * fold, net savings, and the expenses grouped by category.
 */
module Reports {
  import opened Collections
  import opened FinanceTypes
  import opened Grouping
  import NetWorth

  /** `incomeSources.reduce((sum, i) => sum + i.amount, 0)`: amounts as entered, whatever their frequency. */
  function TotalIncome(sources: seq<IncomeSource>): real {
    Sum(sources, IncomeAmount)
  }

  /** `expenses.reduce((sum, e) => sum + e.amount, 0)`. */
  function TotalExpenses(expenses: seq<Expense>): real {
    Sum(expenses, ExpenseAmount)
  }

  /** The signed fold: each asset adds its value, anything else subtracts it. */
  function SignedWorth(items: seq<AssetLiability>): real
    decreases |items|
  {
    if items == [] then 0.0
    else
      var al := items[|items| - 1];
      var sum := SignedWorth(items[..|items| - 1]);
      if al.kind == Asset then sum + al.value else sum - al.value
  }

  /**
   * The signed fold gives the net worth the net worth page computes from its two
   * filtered totals; with no records it is 0.
   */
  lemma {:induction false} SignedWorthIsNetWorth(items: seq<AssetLiability>)
    ensures SignedWorth(items) == NetWorth.NetWorthOf(items)
    ensures items == [] ==> SignedWorth(items) == 0.0
    decreases |items|
  {
    if items != [] {
      SignedWorthIsNetWorth(items[..|items| - 1]);
      NetWorth.NetWorthDropLast(items);
    }
  }

  /** The pie and bar data: `Object.entries(expensesByCategory)`, one entry per category. */
  function ExpenseChart(expenses: seq<Expense>): seq<Group> {
    Chart(expenses, ExpenseCategory, ExpenseAmount)
  }

  /**
   * The chart has one entry per distinct category string and none twice, so the
   * "Total Categories" figure counts the distinct categories; it is empty iff there
   * are no expenses.
   */
  lemma ExpenseChartCategories(expenses: seq<Expense>)
    ensures Distinct(ExpenseChart(expenses), GroupKey)
    ensures Keys(ExpenseChart(expenses), GroupKey) == Keys(expenses, ExpenseCategory)
    ensures |ExpenseChart(expenses)| == |Keys(expenses, ExpenseCategory)| <= |expenses|
    ensures ExpenseChart(expenses) == [] <==> expenses == []
  {
    ChartKeys(expenses, ExpenseCategory, ExpenseAmount);
  }

  /** Each entry holds its category's total, and the entries together hold all expenses. */
  lemma ExpenseChartTotals(expenses: seq<Expense>)
    ensures forall g :: g in ExpenseChart(expenses) ==>
      g.total == KeySum(expenses, ExpenseCategory, ExpenseAmount, g.key)
    ensures Sum(ExpenseChart(expenses), GroupTotal) == TotalExpenses(expenses)
  {
    ChartTotals(expenses, ExpenseCategory, ExpenseAmount);
  }

  /**
   * The grouping `reduce` both panels run, read back with `Object.entries`: the
   * chart data.
   */
  method ExpensesByCategory(expenses: seq<Expense>) returns (chartData: seq<Group>)
    ensures chartData == ExpenseChart(expenses)
  {
    var order, totals := GroupTotals(expenses, ExpenseCategory, ExpenseAmount);
    chartData := Entries(order, totals);
  }

  /** The "Net Savings" card: the difference, and whether it is shown as a gain. */
  datatype Savings = Savings(amount: real, gain: bool)

  function NetSavings(totalIncome: real, totalExpenses: real): Savings {
    Savings(totalIncome - totalExpenses, totalIncome - totalExpenses >= 0.0)
  }

  /**
   * Net savings are the raw income less everything the chart shows, and are shown as
   * a gain iff the income covers the expenses.
   */
  lemma NetSavingsFromChart(sources: seq<IncomeSource>, expenses: seq<Expense>)
    ensures var s := NetSavings(TotalIncome(sources), TotalExpenses(expenses));
      s.amount == TotalIncome(sources) - Sum(ExpenseChart(expenses), GroupTotal) &&
      (s.gain <==> TotalExpenses(expenses) <= TotalIncome(sources))
  {
    ExpenseChartTotals(expenses);
  }

  /** The three figures under the bar chart. */
  datatype Figures = Figures(categories: nat, incomeSources: nat, items: nat)

  function FiguresOf(expenses: seq<Expense>, sources: seq<IncomeSource>, items: seq<AssetLiability>): Figures {
    Figures(|ExpenseChart(expenses)|, |sources|, |items|)
  }

  /** The category figure counts distinct categories, at most one per expense and none without expenses. */
  lemma FiguresCount(expenses: seq<Expense>, sources: seq<IncomeSource>, items: seq<AssetLiability>)
    ensures FiguresOf(expenses, sources, items).categories == |Keys(expenses, ExpenseCategory)|
    ensures FiguresOf(expenses, sources, items).categories <= |expenses|
    ensures FiguresOf(expenses, sources, items).categories == 0 <==> expenses == []
  {
    ExpenseChartCategories(expenses);
  }
}
