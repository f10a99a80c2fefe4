/**
 * The budget overview cards (`src/components/budget/BudgetOverview.tsx`): the
 * totals, what remains, the overall percentage, and one progress bar per category.
 */
module BudgetOverview {
  import opened Collections
  import opened FinanceTypes
  import SpendingAnalysis
  import Ratios

  datatype Overview = Overview(totalBudget: real, totalSpent: real, remaining: real, spentPercentage: real)

  /** The three summary cards. */
  function Summarise(cats: seq<BudgetCategory>): (o: Overview)
    ensures o.totalBudget == Sum(cats, CategoryBudget) && o.totalSpent == Sum(cats, CategorySpent)
    ensures o.remaining == o.totalBudget - o.totalSpent
    ensures o.totalBudget <= 0.0 ==> o.spentPercentage == 0.0
    ensures o.totalBudget > 0.0 ==> o.spentPercentage * o.totalBudget == o.totalSpent * 100.0
  {
    var totalBudget := Sum(cats, CategoryBudget);
    var totalSpent := Sum(cats, CategorySpent);
    Overview(totalBudget, totalSpent, totalBudget - totalSpent,
             if totalBudget > 0.0 then totalSpent / totalBudget * 100.0 else 0.0)
  }

  /** "On track" rather than "Over budget". */
  predicate OnTrack(o: Overview) {
    o.remaining >= 0.0
  }

  /**
   * On track iff no more is spent than budgeted in total; with a positive budget,
   * iff the overall percentage is at most 100.
   */
  lemma OnTrackIff(cats: seq<BudgetCategory>)
    ensures OnTrack(Summarise(cats)) <==> Sum(cats, CategorySpent) <= Sum(cats, CategoryBudget)
    ensures Summarise(cats).totalBudget > 0.0 ==>
      (OnTrack(Summarise(cats)) <==> Summarise(cats).spentPercentage <= 100.0)
  {
    var o := Summarise(cats);
    if o.totalBudget > 0.0 {
      Ratios.ScaleKeepsOrder(o.spentPercentage, 100.0, o.totalBudget);
    }
  }

  /** When no category spends beyond its own budget, the whole budget is on track. */
  lemma {:induction false} EachWithinMeansOnTrack(cats: seq<BudgetCategory>)
    requires forall i :: 0 <= i < |cats| ==> cats[i].spent <= cats[i].budgetAmount
    ensures OnTrack(Summarise(cats))
    decreases |cats|
  {
    if cats != [] {
      EachWithinMeansOnTrack(cats[..|cats| - 1]);
    }
  }

  /** The summary does not depend on the order of the categories. */
  lemma SummariseIgnoresOrder(a: seq<BudgetCategory>, b: seq<BudgetCategory>)
    requires multiset(a) == multiset(b)
    ensures Summarise(a) == Summarise(b)
  {
    SumPermutation(a, b, CategoryBudget);
    SumPermutation(a, b, CategorySpent);
  }

  datatype Tone = Destructive | Warning | Plain

  /** One category row: its percentage, its two flags, the bar's value and colour. */
  datatype Bar = Bar(percentage: real, isNearLimit: bool, isOverLimit: bool, progress: real, tone: Tone)

  function CategoryBar(c: BudgetCategory): Bar {
    var percentage := SpendingAnalysis.UsedPercent(c);
    var isNearLimit := percentage >= 90.0;
    var isOverLimit := percentage > 100.0;
    Bar(percentage, isNearLimit, isOverLimit,
        if percentage < 100.0 then percentage else 100.0,
        if isOverLimit then Destructive else if isNearLimit then Warning else Plain)
  }

  /**
   * Over the limit implies near it; the bar never passes 100 and shows the percentage
   * itself up to 100; a category without a positive budget has no flag and an empty bar;
   * the bar is red iff over the limit and amber iff near but not over.
   */
  lemma CategoryBarFacts(c: BudgetCategory)
    ensures var bar := CategoryBar(c);
      (bar.isOverLimit ==> bar.isNearLimit) &&
      bar.progress <= 100.0 &&
      (bar.progress == bar.percentage <==> bar.percentage <= 100.0) &&
      (c.budgetAmount <= 0.0 ==> !bar.isNearLimit && !bar.isOverLimit && bar.progress == 0.0) &&
      (bar.tone == Destructive <==> bar.isOverLimit) &&
      (bar.tone == Warning <==> bar.isNearLimit && !bar.isOverLimit)
  {
  }

  /**
   * The overview flags a category as near the limit iff the spending analysis counts it
   * near or over the limit; both agree on over the limit.
   */
  lemma FlagsAgreeWithAnalysis(c: BudgetCategory)
    ensures CategoryBar(c).isNearLimit <==> SpendingAnalysis.IsNearLimit(c) || SpendingAnalysis.IsOverLimit(c)
    ensures CategoryBar(c).isOverLimit <==> SpendingAnalysis.IsOverLimit(c)
    ensures CategoryBar(c).isNearLimit <==> c.budgetAmount > 0.0 && c.spent >= 0.9 * c.budgetAmount
  {
    SpendingAnalysis.LimitBands(c);
    if c.budgetAmount > 0.0 {
      SpendingAnalysis.PercentBands(SpendingAnalysis.UsedPercent(c), c.budgetAmount, c.spent);
    }
  }
}
