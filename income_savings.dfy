/**
 * The income and savings page (`src/pages/IncomeSavings.tsx`): income sources brought
 * to a monthly figure, what is left after the expenses, and that as a rate.
 */
module IncomeSavings {
  import opened Collections
  import opened FinanceTypes
  import opened Ratios
  import Reports

  /** How many months one payment of a source covers. */
  function MonthsPer(f: Frequency): real {
    match f
    case Monthly => 1.0
    case Quarterly => 3.0
    case Yearly => 12.0
  }

  /** A source's monthly share: monthly as is, quarterly over 3, yearly over 12. */
  function MonthlyEquivalent(i: IncomeSource): (r: real)
    ensures r * MonthsPer(i.frequency) == i.amount
  {
    match i.frequency
    case Monthly => i.amount
    case Quarterly => i.amount / 3.0
    case Yearly => i.amount / 12.0
  }

  /** `totalMonthlyIncome`: the monthly shares of all sources. */
  function TotalMonthlyIncome(sources: seq<IncomeSource>): real {
    Sum(sources, MonthlyEquivalent)
  }

  /** The monthly income does not depend on the order of the sources. */
  lemma MonthlyIncomeIgnoresOrder(a: seq<IncomeSource>, b: seq<IncomeSource>)
    requires multiset(a) == multiset(b)
    ensures TotalMonthlyIncome(a) == TotalMonthlyIncome(b)
  {
    SumPermutation(a, b, MonthlyEquivalent);
  }

  /**
   * With no negative amounts the monthly income is at most the raw total the reports
   * page shows, and the two agree when every source is monthly.
   */
  lemma {:induction false} MonthlyAtMostRaw(sources: seq<IncomeSource>)
    ensures (forall i :: 0 <= i < |sources| ==> sources[i].amount >= 0.0) ==>
      TotalMonthlyIncome(sources) <= Reports.TotalIncome(sources)
    ensures (forall i :: 0 <= i < |sources| ==> sources[i].frequency == Monthly) ==>
      TotalMonthlyIncome(sources) == Reports.TotalIncome(sources)
    decreases |sources|
  {
    if sources != [] {
      var front := sources[..|sources| - 1];
      MonthlyAtMostRaw(front);
      assert forall i :: 0 <= i < |front| ==> front[i] == sources[i];
    }
  }

  /** The three cards: monthly income, savings and the savings rate. */
  datatype SavingsSummary = SavingsSummary(monthlyIncome: real, savings: real, rate: real)

  /**
   * Savings are the monthly income less all expenses; the rate is 0 without positive
   * income and otherwise the savings as a percentage of the income.
   */
  function Summarise(sources: seq<IncomeSource>, expenses: seq<Expense>): (s: SavingsSummary)
    ensures s.monthlyIncome == TotalMonthlyIncome(sources)
    ensures s.savings == s.monthlyIncome - Reports.TotalExpenses(expenses)
    ensures s.monthlyIncome <= 0.0 ==> s.rate == 0.0
    ensures s.monthlyIncome > 0.0 ==> s.rate * s.monthlyIncome == s.savings * 100.0
  {
    var income := TotalMonthlyIncome(sources);
    var savings := income - Reports.TotalExpenses(expenses);
    if income > 0.0 then
      QuotientTimes(savings * 100.0, income);
      SavingsSummary(income, savings, savings / income * 100.0)
    else SavingsSummary(income, savings, 0.0)
  }

  /**
   * With positive income the rate is non-negative iff the expenses do not exceed the
   * income, and at most 100 iff the expenses are not negative.
   */
  lemma RateBounds(sources: seq<IncomeSource>, expenses: seq<Expense>)
    ensures var s := Summarise(sources, expenses);
      s.monthlyIncome > 0.0 ==>
        (s.rate >= 0.0 <==> Reports.TotalExpenses(expenses) <= s.monthlyIncome) &&
        (s.rate <= 100.0 <==> Reports.TotalExpenses(expenses) >= 0.0)
  {
    var s := Summarise(sources, expenses);
    if s.monthlyIncome > 0.0 {
      RateLimits(s.rate, s.monthlyIncome, Reports.TotalExpenses(expenses));
    }
  }

  lemma RateLimits(rate: real, income: real, spent: real)
    requires income > 0.0 && rate * income == (income - spent) * 100.0
    ensures rate >= 0.0 <==> spent <= income
    ensures rate <= 100.0 <==> spent >= 0.0
  {
    ScaleKeepsOrder(0.0, rate, income);
    ScaleKeepsOrder(rate, 100.0, income);
  }
}
