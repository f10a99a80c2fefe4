/**
 * The loans page (`src/pages/LoansDebt.tsx`): the total still owed, the total of the
 * monthly instalments (EMI), and those instalments as a share of the monthly income
 * from the budget settings.
 */
module LoansDebt {
  import opened Collections
  import opened FinanceTypes
  import opened Ratios

  /** `loans.reduce((sum, l) => sum + l.remainingAmount, 0)`. */
  function TotalDebt(loans: seq<Loan>): real {
    Sum(loans, LoanRemaining)
  }

  /** `loans.reduce((sum, l) => sum + l.emiAmount, 0)`. */
  function TotalEmi(loans: seq<Loan>): real {
    Sum(loans, LoanEmi)
  }

  /** Adding a loan raises the total debt by what remains on it and the total EMI by its instalment. */
  lemma TotalsAppend(loans: seq<Loan>, l: Loan)
    ensures TotalDebt(loans + [l]) == TotalDebt(loans) + l.remainingAmount
    ensures TotalEmi(loans + [l]) == TotalEmi(loans) + l.emiAmount
  {
    SumAppend(loans, [l], LoanRemaining);
    SumAppend(loans, [l], LoanEmi);
    SumSingleton(l, LoanRemaining);
    SumSingleton(l, LoanEmi);
  }

  /**
   * `budgetSettings?.monthlyIncome || 0`: the stored income, or 0 when there are no
   * settings or no income in them.
   */
  function MonthlyIncome(settings: Option<BudgetSettings>): (r: real)
    ensures settings.None? || settings.value.monthlyIncome.None? ==> r == 0.0
    ensures settings.Some? && settings.value.monthlyIncome.Some? ==> r == settings.value.monthlyIncome.value
  {
    if settings.Some? && settings.value.monthlyIncome.Some? then settings.value.monthlyIncome.value else 0.0
  }

  /** `monthlyIncome > 0 ? (totalEMI / monthlyIncome) * 100 : 0`. */
  function DebtToIncome(totalEmi: real, income: real): (r: real)
    ensures income <= 0.0 ==> r == 0.0
    ensures income > 0.0 ==> r * income == totalEmi * 100.0
  {
    if income > 0.0 then
      QuotientTimes(totalEmi * 100.0, income);
      totalEmi / income * 100.0
    else 0.0
  }

  /**
   * The page's ratio is defined for any settings; with a positive income it stays
   * below a percentage `p` iff the instalments stay below that share of the income.
   */
  lemma DebtToIncomeBelow(loans: seq<Loan>, settings: Option<BudgetSettings>, p: real)
    ensures var income := MonthlyIncome(settings);
      income > 0.0 ==>
        (DebtToIncome(TotalEmi(loans), income) < p <==> TotalEmi(loans) * 100.0 < p * income)
  {
    var income := MonthlyIncome(settings);
    if income > 0.0 {
      ScaleKeepsOrder(DebtToIncome(TotalEmi(loans), income), p, income);
    }
  }
}
