/**
 * The finance store (`src/contexts/FinanceContext.tsx`, lines 203-339): eight
 * state cells and the operations that replace them.
 *
 * Each call is atomic over the state it starts from. Fresh ids, which the source
 * draws from `crypto.randomUUID()`, are a `newId` argument that must not already
 * be in use in the collection it joins; the clock read by `addGoal` is the `now`
 * argument. The `modifies` clause of each method names the cells the operation
 * writes; every other cell keeps its value, so no operation cascades into
 * another collection.
 */
module Store {
  import opened Collections
  import opened FinanceTypes
  import opened Spend
  import opened GoalFunds

  class FinanceStore {
    var assetsLiabilities: seq<AssetLiability>
    var budgetCategories: seq<BudgetCategory>
    var expenses: seq<Expense>
    var budgetSettings: Option<BudgetSettings>
    var goals: seq<Goal>
    var loans: seq<Loan>
    var incomeSources: seq<IncomeSource>
    var emergencyFund: real

    /** Ids are unique within each collection. */
    ghost predicate IdsDistinct()
      reads this
    {
      Distinct(assetsLiabilities, AssetLiabilityId) && Distinct(budgetCategories, CategoryId) &&
      Distinct(expenses, ExpenseId) && Distinct(goals, GoalId) && Distinct(loans, LoanId) &&
      Distinct(incomeSources, IncomeSourceId)
    }

    /** Category names are unique too, and every category's `spent` is the total of its expenses. */
    ghost predicate SpendConsistent()
      reads this
    {
      Consistent(budgetCategories, expenses)
    }

    /** Every goal's `currentAmount` is the total of its funds. */
    ghost predicate GoalsConsistent()
      reads this
    {
      FundsMatch(goals)
    }

    /** The empty store: no records, no settings, no emergency fund. */
    constructor()
      ensures assetsLiabilities == [] && budgetCategories == [] && expenses == [] && goals == []
      ensures loans == [] && incomeSources == [] && budgetSettings == None && emergencyFund == 0.0
      ensures IdsDistinct() && SpendConsistent() && GoalsConsistent()
    {
      assetsLiabilities, budgetCategories, expenses := [], [], [];
      budgetSettings := None;
      goals, loans, incomeSources := [], [], [];
      emergencyFund := 0.0;
    }

    // -------------------------------------------------------------------------
    // Assets and liabilities

    /** `{ ...item, id }` appended at the end; the given `item.id` is overwritten. */
    method AddAssetLiability(item: AssetLiability, newId: string)
      requires newId !in Keys(assetsLiabilities, AssetLiabilityId)
      modifies this`assetsLiabilities
      ensures assetsLiabilities == old(assetsLiabilities) + [item.(id := newId)]
      ensures old(IdsDistinct()) ==> IdsDistinct()
    {
      AppendKeepsDistinct(assetsLiabilities, AssetLiabilityId, item.(id := newId));
      assetsLiabilities := assetsLiabilities + [item.(id := newId)];
    }

    method UpdateAssetLiability(id: string, p: AssetLiabilityPatch)
      modifies this`assetsLiabilities
      ensures assetsLiabilities == Patched(old(assetsLiabilities), AssetLiabilityId, id, MergeAssetLiability, p)
      ensures old(IdsDistinct()) && p.id.None? ==> IdsDistinct()
    {
      if p.id.None? {
        PatchedKeepsKeys(assetsLiabilities, AssetLiabilityId, id, MergeAssetLiability, p);
      }
      assetsLiabilities := Patched(assetsLiabilities, AssetLiabilityId, id, MergeAssetLiability, p);
    }

    method DeleteAssetLiability(id: string)
      modifies this`assetsLiabilities
      ensures assetsLiabilities == Without(old(assetsLiabilities), AssetLiabilityId, id)
      ensures old(IdsDistinct()) ==> IdsDistinct()
    {
      WithoutKeepsDistinct(assetsLiabilities, AssetLiabilityId, id, AssetLiabilityId);
      assetsLiabilities := Without(assetsLiabilities, AssetLiabilityId, id);
    }

    // -------------------------------------------------------------------------
    // Budget categories

    /** `{ ...category, id, spent: 0 }` appended at the end. */
    method AddBudgetCategory(name: string, budgetAmount: real, newId: string)
      requires newId !in Keys(budgetCategories, CategoryId)
      modifies this`budgetCategories
      ensures budgetCategories == old(budgetCategories) + [BudgetCategory(newId, name, budgetAmount, 0.0)]
      ensures old(IdsDistinct()) ==> IdsDistinct()
      ensures (old(SpendConsistent()) && name !in Keys(old(budgetCategories), CategoryName) &&
               name !in Keys(expenses, ExpenseCategory)) ==> SpendConsistent()
    {
      var c := BudgetCategory(newId, name, budgetAmount, 0.0);
      AppendKeepsDistinct(budgetCategories, CategoryId, c);
      if SpendConsistent() && name !in Keys(budgetCategories, CategoryName) && name !in Keys(expenses, ExpenseCategory) {
        AppendKeepsDistinct(budgetCategories, CategoryName, c);
        NewCategoryKeepsSpend(budgetCategories, expenses, c);
      }
      budgetCategories := budgetCategories + [c];
    }

    method UpdateBudgetCategory(id: string, p: BudgetCategoryPatch)
      modifies this`budgetCategories
      ensures budgetCategories == Patched(old(budgetCategories), CategoryId, id, MergeBudgetCategory, p)
      ensures old(IdsDistinct()) && p.id.None? ==> IdsDistinct()
    {
      if p.id.None? {
        PatchedKeepsKeys(budgetCategories, CategoryId, id, MergeBudgetCategory, p);
      }
      budgetCategories := Patched(budgetCategories, CategoryId, id, MergeBudgetCategory, p);
    }

    /** Deleting a category leaves the expenses filed under its name in place. */
    method DeleteBudgetCategory(id: string)
      modifies this`budgetCategories
      ensures budgetCategories == Without(old(budgetCategories), CategoryId, id)
      ensures old(IdsDistinct()) ==> IdsDistinct()
      ensures old(SpendConsistent()) ==> SpendConsistent()
    {
      WithoutKeepsDistinct(budgetCategories, CategoryId, id, CategoryId);
      if SpendConsistent() {
        WithoutKeepsDistinct(budgetCategories, CategoryId, id, CategoryName);
        DeleteCategoryKeepsSpend(budgetCategories, expenses, id);
      }
      budgetCategories := Without(budgetCategories, CategoryId, id);
    }

    /** `resetBudget`: every category's `spent` becomes 0; expenses are not touched. */
    method ResetBudget()
      modifies this`budgetCategories
      ensures budgetCategories == ResetSpent(old(budgetCategories))
      ensures old(IdsDistinct()) ==> IdsDistinct()
    {
      SameShapeKeepsKeys(budgetCategories, ResetSpent(budgetCategories));
      budgetCategories := ResetSpent(budgetCategories);
    }

    // -------------------------------------------------------------------------
    // Expenses

    /**
     * `addExpense`: the expense is appended with a fresh id, then the first category
     * (in the state the call started from) named `expense.category` gets `spent + amount`.
     */
    method AddExpense(expense: Expense, newId: string)
      requires newId !in Keys(expenses, ExpenseId)
      modifies this`expenses, this`budgetCategories
      ensures expenses == old(expenses) + [expense.(id := newId)]
      ensures budgetCategories == SpendAfterAdd(old(budgetCategories), expense)
      ensures old(IdsDistinct()) ==> IdsDistinct()
      ensures old(SpendConsistent()) ==> SpendConsistent()
    {
      var e := expense.(id := newId);
      var cats := SpendAfterAdd(budgetCategories, expense);
      AddIgnoresId(budgetCategories, expense, newId);
      AddExpenseKeepsConsistent(budgetCategories, expenses, e);
      budgetCategories, expenses := cats, expenses + [e];
    }

    /**
     * `updateExpense` as written: when the id is known, two absolute `spent` writes
     * computed from the starting categories (old category minus old amount, then the
     * effective new category plus the effective amount; the later one wins), and in
     * every case the patch is merged into each expense with that id.
     */
    method UpdateExpense(id: string, p: ExpensePatch)
      modifies this`expenses, this`budgetCategories
      ensures budgetCategories == SpendAfterUpdate(old(budgetCategories), old(expenses), id, p)
      ensures expenses == Patched(old(expenses), ExpenseId, id, MergeExpense, p)
      ensures old(IdsDistinct()) && p.id.None? ==> IdsDistinct()
      ensures old(SpendConsistent()) && p.id.None? && old(MovesAcross(expenses, id, p)) ==> SpendConsistent()
    {
      var cats := SpendAfterUpdate(budgetCategories, expenses, id, p);
      UpdateExpenseKeepsConsistent(budgetCategories, expenses, id, p);
      budgetCategories, expenses := cats, Patched(expenses, ExpenseId, id, MergeExpense, p);
    }

    /** `deleteExpense`: the first category named by the expense loses its amount, then the expense goes. */
    method DeleteExpense(id: string)
      modifies this`expenses, this`budgetCategories
      ensures budgetCategories == SpendAfterDelete(old(budgetCategories), old(expenses), id)
      ensures expenses == Without(old(expenses), ExpenseId, id)
      ensures old(IdsDistinct()) ==> IdsDistinct()
      ensures old(SpendConsistent()) ==> SpendConsistent()
    {
      var cats := SpendAfterDelete(budgetCategories, expenses, id);
      DeleteExpenseKeepsConsistent(budgetCategories, expenses, id);
      budgetCategories, expenses := cats, Without(expenses, ExpenseId, id);
    }

    // -------------------------------------------------------------------------
    // Settings

    method SetBudgetSettings(settings: BudgetSettings)
      modifies this`budgetSettings
      ensures budgetSettings == Some(settings)
    {
      budgetSettings := Some(settings);
    }

    method SetEmergencyFund(amount: real)
      modifies this`emergencyFund
      ensures emergencyFund == amount
    {
      emergencyFund := amount;
    }

    // -------------------------------------------------------------------------
    // Goals

    /** `addGoal`: a new goal created at `now`, with nothing saved and no funds. */
    method AddGoal(draft: GoalDraft, newId: string, now: Date)
      requires newId !in Keys(goals, GoalId)
      modifies this`goals
      ensures goals == old(goals) + [NewGoal(newId, draft, now)]
      ensures old(IdsDistinct()) ==> IdsDistinct()
      ensures old(GoalsConsistent()) ==> GoalsConsistent()
    {
      AppendKeepsDistinct(goals, GoalId, NewGoal(newId, draft, now));
      goals := goals + [NewGoal(newId, draft, now)];
    }

    /** `updateGoal`: any patch, including one that sets `currentAmount`, `funds` or `id`. */
    method UpdateGoal(id: string, p: GoalPatch)
      modifies this`goals
      ensures goals == Patched(old(goals), GoalId, id, MergeGoal, p)
      ensures old(IdsDistinct()) && p.id.None? ==> IdsDistinct()
      ensures old(GoalsConsistent()) && p.currentAmount.None? && p.funds.None? ==> GoalsConsistent()
    {
      if p.id.None? {
        PatchedKeepsKeys(goals, GoalId, id, MergeGoal, p);
      }
      if FundsMatch(goals) && p.currentAmount.None? && p.funds.None? {
        UpdateGoalKeepsFunds(goals, id, p);
      }
      goals := Patched(goals, GoalId, id, MergeGoal, p);
    }

    method DeleteGoal(id: string)
      modifies this`goals
      ensures goals == Without(old(goals), GoalId, id)
      ensures old(IdsDistinct()) ==> IdsDistinct()
      ensures old(GoalsConsistent()) ==> GoalsConsistent()
    {
      WithoutKeepsDistinct(goals, GoalId, id, GoalId);
      if FundsMatch(goals) {
        DeleteGoalKeepsFunds(goals, id);
      }
      goals := Without(goals, GoalId, id);
    }

    /** `addGoalFund`: the fund, with a fresh id, is recorded on every goal with id `goalId`. */
    method AddGoalFund(goalId: string, amount: real, date: Date, newId: string)
      requires forall i :: 0 <= i < |goals| ==> newId !in Keys(goals[i].funds, FundId)
      modifies this`goals
      ensures goals == GoalsAfterFund(old(goals), goalId, GoalFund(newId, amount, date))
      ensures old(IdsDistinct()) ==> IdsDistinct()
      ensures old(GoalsConsistent()) ==> GoalsConsistent()
    {
      var f := GoalFund(newId, amount, date);
      PatchedKeepsKeys(goals, GoalId, goalId, WithFund, f);
      if FundsMatch(goals) {
        AddGoalFundKeepsFunds(goals, goalId, f);
      }
      goals := GoalsAfterFund(goals, goalId, f);
    }

    // -------------------------------------------------------------------------
    // Loans

    method AddLoan(loan: Loan, newId: string)
      requires newId !in Keys(loans, LoanId)
      modifies this`loans
      ensures loans == old(loans) + [loan.(id := newId)]
      ensures old(IdsDistinct()) ==> IdsDistinct()
    {
      AppendKeepsDistinct(loans, LoanId, loan.(id := newId));
      loans := loans + [loan.(id := newId)];
    }

    method UpdateLoan(id: string, p: LoanPatch)
      modifies this`loans
      ensures loans == Patched(old(loans), LoanId, id, MergeLoan, p)
      ensures old(IdsDistinct()) && p.id.None? ==> IdsDistinct()
    {
      if p.id.None? {
        PatchedKeepsKeys(loans, LoanId, id, MergeLoan, p);
      }
      loans := Patched(loans, LoanId, id, MergeLoan, p);
    }

    method DeleteLoan(id: string)
      modifies this`loans
      ensures loans == Without(old(loans), LoanId, id)
      ensures old(IdsDistinct()) ==> IdsDistinct()
    {
      WithoutKeepsDistinct(loans, LoanId, id, LoanId);
      loans := Without(loans, LoanId, id);
    }

    // -------------------------------------------------------------------------
    // Income sources

    method AddIncomeSource(income: IncomeSource, newId: string)
      requires newId !in Keys(incomeSources, IncomeSourceId)
      modifies this`incomeSources
      ensures incomeSources == old(incomeSources) + [income.(id := newId)]
      ensures old(IdsDistinct()) ==> IdsDistinct()
    {
      AppendKeepsDistinct(incomeSources, IncomeSourceId, income.(id := newId));
      incomeSources := incomeSources + [income.(id := newId)];
    }

    method UpdateIncomeSource(id: string, p: IncomeSourcePatch)
      modifies this`incomeSources
      ensures incomeSources == Patched(old(incomeSources), IncomeSourceId, id, MergeIncomeSource, p)
      ensures old(IdsDistinct()) && p.id.None? ==> IdsDistinct()
    {
      if p.id.None? {
        PatchedKeepsKeys(incomeSources, IncomeSourceId, id, MergeIncomeSource, p);
      }
      incomeSources := Patched(incomeSources, IncomeSourceId, id, MergeIncomeSource, p);
    }

    method DeleteIncomeSource(id: string)
      modifies this`incomeSources
      ensures incomeSources == Without(old(incomeSources), IncomeSourceId, id)
      ensures old(IdsDistinct()) ==> IdsDistinct()
    {
      WithoutKeepsDistinct(incomeSources, IncomeSourceId, id, IncomeSourceId);
      incomeSources := Without(incomeSources, IncomeSourceId, id);
    }
  }
}
