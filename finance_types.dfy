/**
 * The records held by the finance store (`src/contexts/FinanceContext.tsx`, lines 3-76).
 *
 * Amounts are JavaScript numbers in the source; here they are `real`, so all
 * arithmetic is exact (no rounding, no NaN, no infinities). Dates are opaque
 * timestamps. Every `Partial<T>` patch accepted by an update operation is a
 * record of options, one per field of `T`, including `id`: the source's type
 * admits an `id` in the patch, and the spread merge `{ ...x, ...patch }` then
 * overwrites it.
 */
module FinanceTypes {
  import opened Collections

  /** A `Date` value, as an absolute timestamp. */
  type Date = int

  datatype ItemKind = Asset | Liability

  datatype AssetLiability = AssetLiability(
    id: string, name: string, value: real, category: string, kind: ItemKind, date: Date)

  datatype BudgetCategory = BudgetCategory(id: string, name: string, budgetAmount: real, spent: real)

  datatype Expense = Expense(
    id: string, name: string, amount: real, category: string, date: Date, notes: Option<string>)

  /** Every field of the settings singleton is optional. */
  datatype BudgetSettings = BudgetSettings(
    monthlyIncome: Option<real>,
    fixedExpenses: Option<real>,
    ageGroup: Option<string>,
    dependents: Option<real>,
    savingsTarget: Option<real>,
    loanEMI: Option<real>,
    emergencyFunds: Option<bool>,
    isAIGenerated: Option<bool>)

  datatype GoalTerm = ShortTerm | MidTerm | LongTerm
  datatype Priority = Low | Medium | High

  datatype GoalFund = GoalFund(id: string, amount: real, date: Date)

  datatype Goal = Goal(
    id: string, name: string, targetAmount: real, currentAmount: real, deadline: Date,
    category: GoalTerm, priority: Priority, note: Option<string>, createdAt: Date,
    funds: seq<GoalFund>)

  datatype Loan = Loan(
    id: string, name: string, principal: real, remainingAmount: real, interestRate: real,
    emiAmount: real, startDate: Date, endDate: Date, loanType: string)

  datatype Frequency = Monthly | Quarterly | Yearly

  datatype IncomeSource = IncomeSource(id: string, name: string, amount: real, frequency: Frequency, date: Date)

  // ---------------------------------------------------------------------------
  // Patches (`Partial<T>`) and the spread merge `{ ...x, ...patch }`

  datatype AssetLiabilityPatch = AssetLiabilityPatch(
    id: Option<string>, name: Option<string>, value: Option<real>, category: Option<string>,
    kind: Option<ItemKind>, date: Option<Date>)

  function MergeAssetLiability(a: AssetLiability, p: AssetLiabilityPatch): AssetLiability {
    AssetLiability(p.id.GetOr(a.id), p.name.GetOr(a.name), p.value.GetOr(a.value),
                   p.category.GetOr(a.category), p.kind.GetOr(a.kind), p.date.GetOr(a.date))
  }

  datatype BudgetCategoryPatch = BudgetCategoryPatch(
    id: Option<string>, name: Option<string>, budgetAmount: Option<real>, spent: Option<real>)

  function MergeBudgetCategory(c: BudgetCategory, p: BudgetCategoryPatch): BudgetCategory {
    BudgetCategory(p.id.GetOr(c.id), p.name.GetOr(c.name), p.budgetAmount.GetOr(c.budgetAmount),
                   p.spent.GetOr(c.spent))
  }

  /** The patch `{ spent: v }` that the expense operations send to `updateBudgetCategory`. */
  function SpentPatch(v: real): BudgetCategoryPatch {
    BudgetCategoryPatch(None, None, None, Some(v))
  }

  datatype ExpensePatch = ExpensePatch(
    id: Option<string>, name: Option<string>, amount: Option<real>, category: Option<string>,
    date: Option<Date>, notes: Option<string>)

  function MergeExpense(e: Expense, p: ExpensePatch): Expense {
    Expense(p.id.GetOr(e.id), p.name.GetOr(e.name), p.amount.GetOr(e.amount),
            p.category.GetOr(e.category), p.date.GetOr(e.date), if p.notes.Some? then p.notes else e.notes)
  }

  datatype GoalPatch = GoalPatch(
    id: Option<string>, name: Option<string>, targetAmount: Option<real>, currentAmount: Option<real>,
    deadline: Option<Date>, category: Option<GoalTerm>, priority: Option<Priority>,
    note: Option<string>, createdAt: Option<Date>, funds: Option<seq<GoalFund>>)

  function MergeGoal(g: Goal, p: GoalPatch): Goal {
    Goal(p.id.GetOr(g.id), p.name.GetOr(g.name), p.targetAmount.GetOr(g.targetAmount),
         p.currentAmount.GetOr(g.currentAmount), p.deadline.GetOr(g.deadline),
         p.category.GetOr(g.category), p.priority.GetOr(g.priority),
         if p.note.Some? then p.note else g.note, p.createdAt.GetOr(g.createdAt),
         p.funds.GetOr(g.funds))
  }

  datatype LoanPatch = LoanPatch(
    id: Option<string>, name: Option<string>, principal: Option<real>, remainingAmount: Option<real>,
    interestRate: Option<real>, emiAmount: Option<real>, startDate: Option<Date>,
    endDate: Option<Date>, loanType: Option<string>)

  function MergeLoan(l: Loan, p: LoanPatch): Loan {
    Loan(p.id.GetOr(l.id), p.name.GetOr(l.name), p.principal.GetOr(l.principal),
         p.remainingAmount.GetOr(l.remainingAmount), p.interestRate.GetOr(l.interestRate),
         p.emiAmount.GetOr(l.emiAmount), p.startDate.GetOr(l.startDate), p.endDate.GetOr(l.endDate),
         p.loanType.GetOr(l.loanType))
  }

  datatype IncomeSourcePatch = IncomeSourcePatch(
    id: Option<string>, name: Option<string>, amount: Option<real>, frequency: Option<Frequency>,
    date: Option<Date>)

  function MergeIncomeSource(i: IncomeSource, p: IncomeSourcePatch): IncomeSource {
    IncomeSource(p.id.GetOr(i.id), p.name.GetOr(i.name), p.amount.GetOr(i.amount),
                 p.frequency.GetOr(i.frequency), p.date.GetOr(i.date))
  }

  // ---------------------------------------------------------------------------
  // Field accessors, passed to the generic collection helpers

  function AssetLiabilityId(a: AssetLiability): string { a.id }
  function AssetLiabilityValue(a: AssetLiability): real { a.value }
  function AssetLiabilityCategory(a: AssetLiability): string { a.category }
  function CategoryId(c: BudgetCategory): string { c.id }
  function CategoryName(c: BudgetCategory): string { c.name }
  function CategoryBudget(c: BudgetCategory): real { c.budgetAmount }
  function CategorySpent(c: BudgetCategory): real { c.spent }
  function ExpenseId(e: Expense): string { e.id }
  function ExpenseAmount(e: Expense): real { e.amount }
  function ExpenseCategory(e: Expense): string { e.category }
  function GoalId(g: Goal): string { g.id }
  function FundId(f: GoalFund): string { f.id }
  function FundAmount(f: GoalFund): real { f.amount }
  function LoanId(l: Loan): string { l.id }
  function LoanRemaining(l: Loan): real { l.remainingAmount }
  function LoanEmi(l: Loan): real { l.emiAmount }
  function IncomeSourceId(i: IncomeSource): string { i.id }
  function IncomeAmount(i: IncomeSource): real { i.amount }
}
