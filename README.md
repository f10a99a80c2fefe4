# Personal finance dashboard — a Dafny model of its store and its views

This project models the core of a React personal-finance dashboard in Dafny.

**The finance store.** The store (`FinanceProvider`) keeps eight pieces of state:
- assets and liabilities;
- budget categories;
- expenses;
- the budget settings;
- goals, each holding its funds;
- loans;
- income sources;
- the emergency-fund balance.

It offers add, update and delete operations on these. `Store.FinanceStore` is a class with those eight fields, and each store operation is one method on it. Every method names in `modifies` the fields it may replace, so the frame alone shows there is no cascade between collections.

**The views and editors.** These compute from the store's state, or build on it:
- the emergency-fund tracker;
- the AI and manual budget creators;
- the spending analysis;
- the budget overview;
- the monthly report and the visual analytics;
- the net-worth page with its allocation and ratio cards;
- the income, savings and loans pages.

Forms whose handlers change their own state are classes: `EmergencyFundForm`, `AiBudgetForm` and `ManualBudgetForm`. The manual editor's rows are objects that its change handler writes into in place. Pure computations are functions, each with lemmas stating what the page promises.

**Modelling conventions.**
- Amounts are `real`, so the arithmetic is exact.
- Dates are integers.
- A `Partial<T>` patch is a record of options, one per field.
- Ids from `crypto.randomUUID` are method parameters that must not be in use yet. For a run of additions, `ids` is a list of pairwise different fresh ids.
- `parseFloat` is a function parameter.
- Where JavaScript would divide by zero into an infinity or NaN, the model returns `None`.

**Files.**
- `collections.dfy`: folds, lookup by key, and the three array updates.
- `finance_types.dfy`: the records and the patch merges.
- `store.dfy`: the store class.
- `spend.dfy`: how expenses move category totals.
- `goal_funds.dfy`: goals and their funds.
- `category_drafts.dfy`: batches of category additions.
- `grouping.dfy`: the group-by-key dictionary.
- `ratios.dfy`: arithmetic facts about shares.
- One file per view.

## Model

| member | source | states |
|---|---|---|
| Store.FinanceStore.constructor | src/contexts/FinanceContext.tsx:114-164 | With nothing stored, every collection is empty, there are no settings and the fund is 0; ids are distinct and every derived total (category spend, goal amounts) is consistent |
| Store.FinanceStore.AddAssetLiability | src/contexts/FinanceContext.tsx:203-206 | Appends the item with the fresh id at the end; earlier items unchanged and in order; only this collection changes; distinct ids stay distinct |
| Store.FinanceStore.UpdateAssetLiability | src/contexts/FinanceContext.tsx:208-210 | Every item with the id gets the patch merged, all others untouched, length and order kept; ids stay distinct when the patch does not set an id |
| Store.FinanceStore.DeleteAssetLiability | src/contexts/FinanceContext.tsx:212-214 | Removes exactly the items with the id, rest in order; no other collection changes |
| Store.FinanceStore.AddBudgetCategory | src/contexts/FinanceContext.tsx:216-219 | Appends a category with the fresh id and `spent` 0; spend consistency survives when no category or expense already uses the name |
| Store.FinanceStore.UpdateBudgetCategory | src/contexts/FinanceContext.tsx:221-223 | Patch merged into every category with the id, others untouched |
| Store.FinanceStore.DeleteBudgetCategory | src/contexts/FinanceContext.tsx:225-227 | Removes exactly the categories with the id; expenses untouched; spend consistency of the remaining categories kept |
| Store.FinanceStore.ResetBudget | src/contexts/FinanceContext.tsx:274-276 | Every category's `spent` becomes 0, everything else about the categories and their order kept, expenses untouched |
| Store.FinanceStore.AddExpense | src/contexts/FinanceContext.tsx:229-238 | Appends the expense with the fresh id and adds its amount to the first category of that name (none if no name matches); keeps every category's `spent` equal to its expenses' total |
| Store.FinanceStore.UpdateExpense | src/contexts/FinanceContext.tsx:240-257 | Categories rewritten by the two snapshot writes as written (last wins), expense patched; consistency kept when the expense moves to another category with a non-zero amount |
| Store.FinanceStore.DeleteExpense | src/contexts/FinanceContext.tsx:259-268 | Removes the expense and takes its amount off the first category of its name; unknown id changes nothing; consistency kept |
| Store.FinanceStore.SetBudgetSettings | src/contexts/FinanceContext.tsx:270-272 | The settings become exactly the given value; nothing else changes |
| Store.FinanceStore.SetEmergencyFund | src/contexts/FinanceContext.tsx:337-339 | The fund becomes exactly the given amount; nothing else changes |
| Store.FinanceStore.AddGoal | src/contexts/FinanceContext.tsx:278-287 | Appends a goal with the fresh id, `currentAmount` 0, no funds and the creation time; amounts stay equal to fund totals |
| Store.FinanceStore.UpdateGoal | src/contexts/FinanceContext.tsx:289-291 | Patch merged into the matching goals; fund totals stay consistent when the patch sets neither `currentAmount` nor `funds` |
| Store.FinanceStore.DeleteGoal | src/contexts/FinanceContext.tsx:293-295 | Removes exactly the goals with the id, with their funds |
| Store.FinanceStore.AddGoalFund | src/contexts/FinanceContext.tsx:297-309 | The matching goal gains the fund at the end of its funds and its amount; others untouched; `currentAmount` stays equal to the fund total |
| Store.FinanceStore.AddLoan | src/contexts/FinanceContext.tsx:311-314 | Appends the loan with the fresh id at the end |
| Store.FinanceStore.UpdateLoan | src/contexts/FinanceContext.tsx:316-318 | Patch merged into every loan with the id, others untouched |
| Store.FinanceStore.DeleteLoan | src/contexts/FinanceContext.tsx:320-322 | Removes exactly the loans with the id |
| Store.FinanceStore.AddIncomeSource | src/contexts/FinanceContext.tsx:324-327 | Appends the source with the fresh id at the end |
| Store.FinanceStore.UpdateIncomeSource | src/contexts/FinanceContext.tsx:329-331 | Patch merged into every source with the id, others untouched |
| Store.FinanceStore.DeleteIncomeSource | src/contexts/FinanceContext.tsx:333-335 | Removes exactly the sources with the id |
| Collections.Patched | src/contexts/FinanceContext.tsx:208-210 | `prev.map(x => x.id === id ? {...x, ...patch} : x)`: same length, each position merged iff its id matches |
| Collections.PatchedUnknown | src/contexts/FinanceContext.tsx:221-223 | An update with an id nobody carries is a no-op |
| Collections.PatchedOne | src/contexts/FinanceContext.tsx:289-291 | With distinct ids an update changes exactly one position |
| Collections.PatchedKeepsKeys | src/contexts/FinanceContext.tsx:316-318 | A patch that keeps ids keeps the set of ids and their distinctness |
| Collections.Without | src/contexts/FinanceContext.tsx:212-214 | `prev.filter(x => x.id !== id)`, the general filter with the test `key(x) != id`: nothing left carries the id, never longer |
| Collections.WithoutMembers | src/contexts/FinanceContext.tsx:225-227 | Exactly the elements with other ids are kept |
| Collections.WithoutUnknown | src/contexts/FinanceContext.tsx:293-295 | A delete with an unknown id is a no-op |
| Collections.WithoutOne | src/contexts/FinanceContext.tsx:320-322 | With distinct ids a delete removes exactly that element, keeping the rest in order |
| Collections.WithoutOnly | src/contexts/FinanceContext.tsx:212-214 | When no other element shares the key of element i, deleting by that key removes exactly element i |
| Collections.WithoutKeepsDistinct | src/contexts/FinanceContext.tsx:333-335 | A delete keeps any key distinct that was distinct |
| Collections.AppendKeepsDistinct | src/contexts/FinanceContext.tsx:324-327 | Appending an element with a fresh id keeps ids distinct |
| Collections.FindKey | src/contexts/FinanceContext.tsx:234 | `find` by key: the first element with that key, none iff no element carries it |
| Collections.Filter | src/pages/NetWorth.tsx:16-17 | `filter`: never longer than the input |
| Collections.FilterPasses | src/pages/NetWorth.tsx:16-17 | Every element a filter keeps passes its test |
| Collections.FilterAppend | src/contexts/FinanceContext.tsx:212-214 | Filtering a list split in two filters each part, so the survivors keep their order whatever keys repeat |
| Collections.FilterAll | src/contexts/FinanceContext.tsx:212-214 | A filter every element passes leaves the list unchanged |
| Collections.FilterMembers | src/pages/NetWorth.tsx:16-17 | An element is kept iff it is in the input and passes the test |
| Collections.FilterEmptyIff | src/pages/NetWorth.tsx:16-17 | A filter keeps nothing iff no element passes |
| Collections.FilterComplement | src/pages/NetWorth.tsx:16-20 | Two complementary filters split the length and the total of a list |
| Collections.WithoutIndex | src/components/budget/ManualBudget.tsx:23-25 | `filter((_, i) => i !== index)`: drops exactly that row, or nothing for an index outside the list |
| Spend.AddExpenseSpend | src/contexts/FinanceContext.tsx:234-237 | Adding an expense raises the spent of the category with its name by its amount, every other category unchanged |
| Spend.AddExpenseKeepsSpend | src/contexts/FinanceContext.tsx:229-238 | After `addExpense`, every category's spent is still the total of its expenses |
| Spend.RemoveExpenseSpend | src/contexts/FinanceContext.tsx:262-265 | Removing an expense lowers its category's spent by its amount, others unchanged |
| Spend.DeleteExpenseKeepsSpend | src/contexts/FinanceContext.tsx:259-268 | After `deleteExpense`, every category's spent is still the total of its expenses |
| Spend.UpdateExpenseSpend | src/contexts/FinanceContext.tsx:240-257 | Per category: the new effective category ends at its old spent plus the effective amount; otherwise the old category loses the old amount; others unchanged |
| Spend.UpdateExpenseSpendAt | src/contexts/FinanceContext.tsx:244-253 | The same, for one category position |
| Spend.UpdateAcrossCategoriesKeepsSpend | src/contexts/FinanceContext.tsx:240-257 | Moving an expense to another category with a non-zero amount keeps every category's spent exact |
| Spend.UpdateAcrossCategoriesAt | src/contexts/FinanceContext.tsx:244-253 | The same, for one category position |
| Spend.UpdateWithinCategoryDoubleCounts | src/contexts/FinanceContext.tsx:244-253 | As written, an update within one category leaves it at old spent plus the new amount |
| Spend.ScenarioUpdateDoubleCounts | src/contexts/FinanceContext.tsx:240-257 | "Food" at 300 from one 300 expense, raised to 500: spent becomes 800 while the expenses total 500 |
| Spend.ScenarioZeroAmountMiscounts | src/contexts/FinanceContext.tsx:252 | Moving a 300 expense to "Travel" with amount 0 charges "Travel" 300 while the stored expense is 0 |
| Spend.CorrectedUpdateKeepsSpend | src/contexts/FinanceContext.tsx:240-257 | The corrected update (remove the old expense, then add the stored new one) keeps every category's spent exact for every patch |
| Spend.UnknownCategoryNoChange | src/contexts/FinanceContext.tsx:235 | An expense whose category names no category changes no spent |
| Spend.FirstNamedOnly | src/contexts/FinanceContext.tsx:235 | With distinct names, `find` by name gives the one category with that name, or none iff no category has it |
| Spend.UnknownExpenseNoChange | src/contexts/FinanceContext.tsx:242 | Updating or deleting an unknown expense id changes no category |
| Spend.OneWriteKeepsShape | src/contexts/FinanceContext.tsx:236 | One spend write changes `spent` only: ids, names, budgets and order kept |
| Spend.DeleteKeepsShape | src/contexts/FinanceContext.tsx:264 | Deleting an expense changes categories' `spent` only |
| Spend.UpdateKeepsShape | src/contexts/FinanceContext.tsx:246-252 | Updating an expense changes categories' `spent` only |
| Spend.AddExpenseKeepsConsistent | src/contexts/FinanceContext.tsx:229-238 | `addExpense` keeps category ids distinct, expense ids distinct and the spend totals exact |
| Spend.DeleteExpenseKeepsConsistent | src/contexts/FinanceContext.tsx:259-268 | `deleteExpense` keeps the same three facts |
| Spend.UpdateExpenseKeepsConsistent | src/contexts/FinanceContext.tsx:240-257 | `updateExpense` keeps them when the expense moves across categories with a non-zero amount and no new id |
| Spend.ResetSpent | src/contexts/FinanceContext.tsx:275 | Every spent is 0 and nothing else about the categories changes |
| Spend.NewCategorySpendIff | src/contexts/FinanceContext.tsx:216-219 | A new category with spent 0 keeps the totals exact iff the expenses already filed under its name total 0 |
| Spend.NewCategoryKeepsSpend | src/contexts/FinanceContext.tsx:216-219 | A new category with spent 0 keeps the totals exact when no expense is filed under its name |
| Spend.DeleteCategoryKeepsSpend | src/contexts/FinanceContext.tsx:225-227 | Deleting a category keeps the remaining totals exact |
| Spend.SameShapeKeepsKeys | src/contexts/FinanceContext.tsx:236 | Changing only `spent` keeps ids and names distinct |
| Spend.WithSpentAt | src/contexts/FinanceContext.tsx:221-223 | The `{ spent: v }` update sets exactly the category with that id |
| Spend.WithSpentShape | src/contexts/FinanceContext.tsx:221-223 | The `{ spent: v }` update keeps every other field and every other category |
| GoalFunds.NewGoal | src/contexts/FinanceContext.tsx:278-287 | A new goal: the given fields, the fresh id, the creation time, no funds and an amount of 0, equal to its fund total |
| GoalFunds.GoalsAfterFund | src/contexts/FinanceContext.tsx:297-309 | The matching goal's funds gain the fund at the end and its amount rises by the fund's amount; other goals unchanged |
| GoalFunds.WithFundKeepsTotal | src/contexts/FinanceContext.tsx:301-305 | Recording a fund keeps `currentAmount` equal to the fund total |
| GoalFunds.AddGoalFundKeepsFunds | src/contexts/FinanceContext.tsx:297-309 | `addGoalFund` keeps every goal's amount equal to its fund total |
| GoalFunds.AddGoalFundUnknown | src/contexts/FinanceContext.tsx:299-308 | A fund for an unknown goal changes nothing |
| GoalFunds.AddGoalKeepsFunds | src/contexts/FinanceContext.tsx:278-287 | Adding a goal keeps amounts equal to fund totals |
| GoalFunds.DeleteGoalKeepsFunds | src/contexts/FinanceContext.tsx:293-295 | Deleting a goal keeps them equal |
| GoalFunds.UpdateGoalKeepsFunds | src/contexts/FinanceContext.tsx:289-291 | An update that sets neither amount nor funds keeps them equal |
| GoalFunds.UpdateGoalCanBreakFunds | src/contexts/FinanceContext.tsx:289-291 | An update that sets `currentAmount` can break the equality |
| CategoryDrafts.Created | src/contexts/FinanceContext.tsx:216-219 | A run of additions creates one category per draft, with the next fresh id, its name and budget and spent 0 |
| CategoryDrafts.CreatedAppend | src/contexts/FinanceContext.tsx:216-219 | One more draft appends one more category |
| CategoryDrafts.NextIdFresh | src/contexts/FinanceContext.tsx:217 | The next id of the run is not yet in use |
| CategoryDrafts.AddDraft | src/contexts/FinanceContext.tsx:216-219 | One `addBudgetCategory` call in a run extends the created categories by one; ids stay distinct |
| EmergencyFund.TargetFund | src/components/loans/EmergencyFundTracker.tsx:15-16 | The target is six months of fixed expenses, 0 without settings or fixed expenses |
| EmergencyFund.Progress | src/components/loans/EmergencyFundTracker.tsx:17 | 0 without a positive target; otherwise the fund as a percentage of the target, within [0,100] iff the fund is within [0,target], 100 iff it equals the target |
| EmergencyFund.Transact | src/components/loans/EmergencyFundTracker.tsx:19-27 | No transaction iff the amount does not parse or is not positive |
| EmergencyFund.DepositAdds | src/components/loans/EmergencyFundTracker.tsx:23-24 | "Add" sets the fund to fund plus value |
| EmergencyFund.WithdrawClamps | src/components/loans/EmergencyFundTracker.tsx:25-26 | "Remove" gives `max(0, fund - value)`: never negative, never above a non-negative fund, 0 iff the value reaches the fund |
| EmergencyFund.TransactKeepsNonNegative | src/components/loans/EmergencyFundTracker.tsx:19-27 | A non-negative fund stays non-negative |
| EmergencyFund.DepositThenWithdrawRestores | src/components/loans/EmergencyFundTracker.tsx:23-26 | Add then remove of the same positive value restores a non-negative fund |
| EmergencyFund.WithdrawThenDepositRestoresIff | src/components/loans/EmergencyFundTracker.tsx:23-26 | Remove then add restores the fund iff the value did not exceed it, and never ends below it |
| EmergencyFund.NegativeFundNotRestored | src/components/loans/EmergencyFundTracker.tsx:22-26 | For every negative fund and positive value, adding then removing the value ends at 0, not at the fund: the clamp of the removal swallows the debt |
| EmergencyFund.EmergencyFundForm.constructor | src/components/loans/EmergencyFundTracker.tsx:12-13 | Empty amount, dialog closed |
| EmergencyFund.EmergencyFundForm.HandleTransaction | src/components/loans/EmergencyFundTracker.tsx:19-30 | A rejected amount changes nothing; otherwise the fund becomes the transaction's result and the form resets |
| AiBudget.TrimStart | src/components/budget/AIBudgetCreator.tsx:50 | `trim`'s left half: a suffix of the input starting with a non-space, only spaces dropped |
| AiBudget.TrimEnd | src/components/budget/AIBudgetCreator.tsx:50 | `trim`'s right half: a prefix ending with a non-space, only spaces dropped |
| AiBudget.TrimEmptyIffBlank | src/components/budget/AIBudgetCreator.tsx:50 | A name trims to "" iff it is all whitespace |
| AiBudget.Lower | src/components/budget/AIBudgetCreator.tsx:59 | `toLowerCase` keeps length and lowers each letter |
| AiBudget.LowerIdempotent | src/components/budget/AIBudgetCreator.tsx:59 | Lowering twice is lowering once |
| AiBudget.ContainsIff | src/components/budget/AIBudgetCreator.tsx:61-66 | `includes` is true iff the substring occurs at some position |
| AiBudget.Weight | src/components/budget/AIBudgetCreator.tsx:58-68 | Every weight lies between 0.05 and 0.3, so it is positive |
| AiBudget.WeightIgnoresCase | src/components/budget/AIBudgetCreator.tsx:59 | A name and its lower-case form weigh the same |
| AiBudget.WeightFirstRuleWins | src/components/budget/AIBudgetCreator.tsx:58-66 | For every name, the first rule whose keyword occurs in the lower-cased name gives its weight, whatever later rules match |
| AiBudget.WeightDefault | src/components/budget/AIBudgetCreator.tsx:58-67 | A name weighs 0.05 exactly when none of the twelve keywords occurs in its lower-cased form |
| AiBudget.TotalWeightBound | src/components/budget/AIBudgetCreator.tsx:70 | The total weight is at least 0.05 per name, so positive for a non-empty list |
| AiBudget.ValidNames | src/components/budget/AIBudgetCreator.tsx:50 | Never longer than the rows; with `ValidNamesAppend` and `ValidNamesOne` it is exactly the non-blank rows, as typed, in row order and once each |
| AiBudget.ValidNamesAppend | src/components/budget/AIBudgetCreator.tsx:50 | Filtering a list split in two filters each part, so the kept rows keep their order and their repeats |
| AiBudget.ValidNamesOne | src/components/budget/AIBudgetCreator.tsx:50 | A single row is kept, untrimmed, iff it is not blank |
| AiBudget.ValidNamesMembers | src/components/budget/AIBudgetCreator.tsx:50 | A row is kept, untrimmed, iff it is not blank |
| AiBudget.NoValidNamesIffAllBlank | src/components/budget/AIBudgetCreator.tsx:50-52 | No names iff every row is blank |
| AiBudget.SharesTotalOfWeights | src/components/budget/AIBudgetCreator.tsx:74 | The unrounded allocations add up to the weights' share of the available amount |
| AiBudget.SharesSumToAvailable | src/components/budget/AIBudgetCreator.tsx:70-74 | Divided by the total weight, the allocations add up to exactly the available amount |
| AiBudget.RoundCents | src/components/budget/AIBudgetCreator.tsx:77 | Rounding to cents moves a value by at most half a cent |
| AiBudget.WeightedDrafts | src/components/budget/AIBudgetCreator.tsx:73-79 | One category per name |
| AiBudget.WeightedDraftsAt | src/components/budget/AIBudgetCreator.tsx:73-79 | The i-th category carries the i-th name, untrimmed, and its rounded allocation |
| AiBudget.WeightedDraftsClose | src/components/budget/AIBudgetCreator.tsx:73-79 | The rounded budgets add up to within half a cent per category of the unrounded total |
| AiBudget.AiDraftsUnfold | src/components/budget/AIBudgetCreator.tsx:43-96 | A successful plan is the weighted categories, then savings, then emergency |
| AiBudget.AiDraftsFailIff | src/components/budget/AIBudgetCreator.tsx:44-55 | Generation fails iff every row is blank or income minus fixed, savings and EMI is not positive (missing fields count 0) |
| AiBudget.AiDraftsShares | src/components/budget/AIBudgetCreator.tsx:58-79 | Each weighted category has its row's name and a budget within half a cent of weight / total × available |
| AiBudget.AiDraftsExtras | src/components/budget/AIBudgetCreator.tsx:82-96 | "Savings" at the target is added iff the target is positive; "Emergency Fund" at 10% of income is added last iff the switch is on |
| AiBudget.AiDraftsTotal | src/components/budget/AIBudgetCreator.tsx:70-79 | The weighted budgets add up to the available amount within half a cent per category |
| AiBudget.AddWeighted | src/components/budget/AIBudgetCreator.tsx:73-79 | The `forEach` adds the weighted categories in row order under fresh ids |
| AiBudget.AddExtras | src/components/budget/AIBudgetCreator.tsx:82-96 | After the weighted categories, adds "Savings" iff the target is positive, then "Emergency Fund" iff the switch is on, under fresh ids |
| AiBudget.AiBudgetForm.constructor | src/components/budget/AIBudgetCreator.tsx:18-27 | The initial settings and one empty row |
| AiBudget.AiBudgetForm.AddCategory | src/components/budget/AIBudgetCreator.tsx:29-31 | Appends one empty row |
| AiBudget.AiBudgetForm.RemoveCategory | src/components/budget/AIBudgetCreator.tsx:33-35 | Drops exactly row `index`, the others in order |
| AiBudget.AiBudgetForm.ChangeCategory | src/components/budget/AIBudgetCreator.tsx:37-41 | Replaces row `index` only |
| AiBudget.AiBudgetForm.GenerateBudget | src/components/budget/AIBudgetCreator.tsx:43-99 | Completes iff the plan exists; on failure the store is untouched; on success exactly the plan's categories are appended in order and the settings stored with `isAIGenerated` true |
| ManualBudget.BudgetRow.constructor | src/components/budget/ManualBudget.tsx:16 | A row with empty name and amount |
| ManualBudget.WithField | src/components/budget/ManualBudget.tsx:29 | Sets the chosen field, keeps the other |
| ManualBudget.ManualDrafts | src/components/budget/ManualBudget.tsx:36-43 | At most one category per row |
| ManualBudget.ManualDraftsAppend | src/components/budget/ManualBudget.tsx:36-43 | Submitting two runs of rows adds the first run's categories, then the second's |
| ManualBudget.ManualDraftsMembers | src/components/budget/ManualBudget.tsx:37-41 | A category is added iff some row has both fields filled and carries its name and parsed amount |
| ManualBudget.ManualDraftsEmptyIff | src/components/budget/ManualBudget.tsx:37 | Nothing is added iff no row has both fields filled |
| ManualBudget.ManualDraftsAllFilled | src/components/budget/ManualBudget.tsx:36-43 | With every row filled, row i becomes category i |
| ManualBudget.ManualBudgetForm.constructor | src/components/budget/ManualBudget.tsx:15-17 | One empty row |
| ManualBudget.ManualBudgetForm.AddRow | src/components/budget/ManualBudget.tsx:19-21 | Appends an empty row; the others keep their contents |
| ManualBudget.ManualBudgetForm.RemoveRow | src/components/budget/ManualBudget.tsx:23-25 | Drops exactly row `index`, the others in order with their contents |
| ManualBudget.ManualBudgetForm.Change | src/components/budget/ManualBudget.tsx:27-31 | Writes the field of row `index` in place; that row's other field and every other row unchanged |
| ManualBudget.ManualBudgetForm.Submit | src/components/budget/ManualBudget.tsx:33-46 | Appends exactly one category per filled row, in row order, under fresh ids, and completes whether or not any row qualified |
| SpendingAnalysis.UsedPercent | src/components/budget/SpendingAnalysis.tsx:18 | 0 without a positive budget, otherwise spent as a percentage of the budget |
| SpendingAnalysis.PercentBands | src/components/budget/SpendingAnalysis.tsx:17-25 | A percentage in [90,100] means spent in [90%,100%] of the budget; above 100 means spent above the budget |
| SpendingAnalysis.LimitBands | src/components/budget/SpendingAnalysis.tsx:17-25 | Near limit iff positive budget and 0.9·budget ≤ spent ≤ budget; over iff positive budget and spent > budget; never both |
| SpendingAnalysis.HighestIndex | src/components/budget/SpendingAnalysis.tsx:28 | The first category whose spent is at least every other's |
| SpendingAnalysis.GenerateInsights | src/components/budget/SpendingAnalysis.tsx:8-36 | No insights iff the total budget is 0; otherwise the overall percentage is total spent over total budget |
| SpendingAnalysis.InsightsLists | src/components/budget/SpendingAnalysis.tsx:17-28 | The near and over lists hold exactly the categories in each band, disjointly; the highest spender is a category with maximal spent |
| SpendingAnalysis.Warnings | src/components/budget/SpendingAnalysis.tsx:46-53 | One warning per over-limit category |
| SpendingAnalysis.WarningsAt | src/components/budget/SpendingAnalysis.tsx:47-51 | Warning i names over-limit category i with its excess |
| SpendingAnalysis.GenerateSuggestions | src/components/budget/SpendingAnalysis.tsx:39-83 | The list built by `push` is the warnings, then the alert, info and success parts |
| SpendingAnalysis.PushWarnings | src/components/budget/SpendingAnalysis.tsx:46-53 | The `forEach` pushes exactly one warning per over-limit category, in order, naming it with its excess |
| SpendingAnalysis.PushClosing | src/components/budget/SpendingAnalysis.tsx:56-80 | The three conditional pushes append exactly the closing part (alert, info, success, each only when due) and keep what was there |
| SpendingAnalysis.WarningsFirst | src/components/budget/SpendingAnalysis.tsx:46-80 | Whatever the insights, the warnings stand first in category order and at most three suggestions follow |
| SpendingAnalysis.ClosingOrder | src/components/budget/SpendingAnalysis.tsx:56-80 | At most three closing suggestions, none a warning, in rank order |
| SpendingAnalysis.SuggestionsWarnings | src/components/budget/SpendingAnalysis.tsx:40-53 | No suggestions with a zero total budget; otherwise the list opens with one warning per over-limit category, in category order, each with a positive excess, then at most three more |
| SpendingAnalysis.NoBudgetNoSuggestions | src/components/budget/SpendingAnalysis.tsx:40-41 | With a zero total budget there are no suggestions |
| SpendingAnalysis.SuggestionsShape | src/components/budget/SpendingAnalysis.tsx:39-83 | With a budget, the list is the over-limit warnings followed by the alert, info and success parts |
| SpendingAnalysis.SuggestionsOrder | src/components/budget/SpendingAnalysis.tsx:56-80 | After the warnings: alert, then info, then success, each at most once |
| SpendingAnalysis.AlertIff | src/components/budget/SpendingAnalysis.tsx:56-61 | An alert appears iff some category is near its limit |
| SpendingAnalysis.SuccessIff | src/components/budget/SpendingAnalysis.tsx:75-80 | Success appears iff the overall percentage is below 80, i.e. with a positive budget iff spent is below 80% of it |
| SpendingAnalysis.HabitNoteBands | src/components/budget/SpendingAnalysis.tsx:87-103 | A sentence iff the total budget is non-zero; for a positive budget, the limit warning iff over 90% is spent, the watch note iff over 70% and at most 90%, praise otherwise; praise always comes with the success suggestion, the limit warning never |
| BudgetOverview.Summarise | src/components/budget/BudgetOverview.tsx:9-12 | Totals are the sums over categories, remaining is their difference, the percentage is 0 without a positive budget and spent over budget otherwise |
| BudgetOverview.OnTrackIff | src/components/budget/BudgetOverview.tsx:35-49 | "On track" iff spent does not exceed the budget; with a positive budget iff the percentage is at most 100 |
| BudgetOverview.EachWithinMeansOnTrack | src/components/budget/BudgetOverview.tsx:35-49 | When no category overspends, the whole budget is on track |
| BudgetOverview.SummariseIgnoresOrder | src/components/budget/BudgetOverview.tsx:9-12 | The cards do not depend on category order |
| BudgetOverview.CategoryBarFacts | src/components/budget/BudgetOverview.tsx:58-77 | Over implies near; the bar never passes 100; no budget means no flag and an empty bar; red iff over, amber iff near but not over |
| BudgetOverview.FlagsAgreeWithAnalysis | src/components/budget/BudgetOverview.tsx:58-60 | The overview's near flag is the analysis's near-or-over, its over flag the analysis's over |
| Grouping.FirstSeen | src/components/reports/MonthlyReport.tsx:17-23 | The keys in first-insertion order, never more than the items |
| Grouping.FirstSeenFacts | src/components/reports/MonthlyReport.tsx:17-23 | Each key once, exactly the items' keys, none iff no items |
| Grouping.ChartKeys | src/components/reports/MonthlyReport.tsx:17-28 | One entry per distinct key, no duplicates, none iff no items |
| Grouping.ChartTotals | src/components/reports/MonthlyReport.tsx:17-23 | Each entry holds its key's total; the entries add up to the total of all items |
| Grouping.GroupTotals | src/components/reports/MonthlyReport.tsx:17-23 | The in-place dictionary `reduce`: insertion order, exactly the keys seen, each key's total, read back as the chart |
| Grouping.TotalsStep | src/components/reports/MonthlyReport.tsx:18-21 | One item of the `reduce` appends its key to the insertion order iff it is new and adds its amount to that key's total only |
| Reports.SignedWorthIsNetWorth | src/pages/Reports.tsx:19-21 | The signed fold equals total assets minus total liabilities as the net-worth page computes it; 0 for no records |
| Reports.ExpenseChartCategories | src/components/reports/VisualAnalytics.tsx:14-25 | One bar per distinct category, none twice; "Total Categories" is the number of distinct categories; empty iff no expenses |
| Reports.ExpenseChartTotals | src/components/reports/MonthlyReport.tsx:17-28 | Each slice is its category's total; the slices add up to total expenses |
| Reports.ExpensesByCategory | src/components/reports/VisualAnalytics.tsx:14-25 | The grouping `reduce` read back gives the chart |
| Reports.NetSavingsFromChart | src/components/reports/MonthlyReport.tsx:65-66 | Net savings are raw income less the chart's total, shown as a gain iff income covers expenses |
| Reports.FiguresCount | src/components/reports/VisualAnalytics.tsx:73 | The category figure counts distinct categories, at most one per expense, 0 iff no expenses |
| NetWorth.Partition | src/pages/NetWorth.tsx:16-17 | Assets and liabilities partition the records: each in exactly one list, lengths and values add up |
| NetWorth.NetWorthAppend | src/pages/NetWorth.tsx:19-21 | One more asset raises net worth by its value, one more liability lowers it; no records are worth 0 |
| NetWorth.DebtBands | src/pages/NetWorth.tsx:25-36 | Exactly one band: high above 0.5, moderate in (0.3,0.5], healthy otherwise; zero assets divide by 1; with positive assets the bands compare liabilities with 50% and 30% of assets |
| AssetLiabilityRatio.Shares | src/components/net-worth/AssetLiabilityRatio.tsx:10-11 | The two widths add up to 100; 50/50 without positive assets; otherwise assets' share of the two totals; none only when the totals cancel |
| AssetLiabilityRatio.SharesBounds | src/components/net-worth/AssetLiabilityRatio.tsx:10-11 | Positive assets, non-negative liabilities: asset width in (0,100], 100 iff no liabilities, liability width the liabilities' share |
| AssetLiabilityRatio.LiabilityShare | src/components/net-worth/AssetLiabilityRatio.tsx:11 | The complement of the asset share is the liability share |
| AssetLiabilityRatio.TrendBands | src/components/net-worth/AssetLiabilityRatio.tsx:9-12 | Exactly one trend: positive above 3, moderate in (2,3], else needs attention; with positive liabilities that compares assets with 3× and 2× liabilities; otherwise the ratio is the assets |
| AssetAllocation.Allocate | src/components/net-worth/AssetAllocation.tsx:37-42 | One allocation per dictionary entry |
| AssetAllocation.AllocateAt | src/components/net-worth/AssetAllocation.tsx:37-42 | Allocation i carries entry i's category, value and percentage |
| AssetAllocation.AllocateSums | src/components/net-worth/AssetAllocation.tsx:37-42 | Values add up to the entries' total; percentages to that total's share |
| AssetAllocation.Insert | src/components/net-worth/AssetAllocation.tsx:43 | Inserting adds exactly one element |
| AssetAllocation.InsertPermutes | src/components/net-worth/AssetAllocation.tsx:43 | Inserting adds the element and loses none |
| AssetAllocation.InsertKeepsOrder | src/components/net-worth/AssetAllocation.tsx:43 | Inserting into a non-increasing list keeps it non-increasing |
| AssetAllocation.SortByValue | src/components/net-worth/AssetAllocation.tsx:43 | Sorting keeps the length |
| AssetAllocation.SortOrders | src/components/net-worth/AssetAllocation.tsx:43 | The sort leaves the list non-increasing by value |
| AssetAllocation.SortPermutes | src/components/net-worth/AssetAllocation.tsx:43 | The sort is a permutation of its input: the same allocations, each as often |
| AssetAllocation.AllocationsSorted | src/components/net-worth/AssetAllocation.tsx:37-43 | The allocations are sorted largest first and are a reordering of the entries |
| AssetAllocation.SortedMembers | src/components/net-worth/AssetAllocation.tsx:43 | Sorting keeps exactly the same allocations |
| AssetAllocation.AllocationsPerCategory | src/components/net-worth/AssetAllocation.tsx:29-40 | As many allocations as distinct asset categories, exactly those categories |
| AssetAllocation.AllocationsValues | src/components/net-worth/AssetAllocation.tsx:29-41 | Each allocation is its category's asset total, with its share of all assets |
| AssetAllocation.AllocationsTotals | src/components/net-worth/AssetAllocation.tsx:26-64 | Values add up to total assets; none iff no assets; with a non-zero total the percentages add up to 100 |
| AssetAllocation.ComputeAllocations | src/components/net-worth/AssetAllocation.tsx:26-43 | The dictionary `reduce`, `Object.entries`, map and sort give the allocations |
| IncomeSavings.MonthlyEquivalent | src/pages/IncomeSavings.tsx:42-45 | The monthly figure times the months one payment covers is the amount |
| IncomeSavings.MonthlyIncomeIgnoresOrder | src/pages/IncomeSavings.tsx:41-46 | Total monthly income does not depend on source order |
| IncomeSavings.MonthlyAtMostRaw | src/pages/IncomeSavings.tsx:41-46 | With no negative amounts it is at most the raw total, equal when all sources are monthly |
| IncomeSavings.Summarise | src/pages/IncomeSavings.tsx:41-50 | Savings are monthly income less all expenses; the rate is 0 without positive income, otherwise savings as a percentage of income |
| IncomeSavings.RateBounds | src/pages/IncomeSavings.tsx:50 | With positive income the rate is ≥ 0 iff expenses ≤ income, and ≤ 100 iff expenses ≥ 0 |
| IncomeSavings.RateLimits | src/pages/IncomeSavings.tsx:50 | The same two bounds, on the percentage equation alone |
| LoansDebt.TotalsAppend | src/pages/LoansDebt.tsx:52-53 | One more loan adds its remaining amount to total debt and its EMI to total EMI |
| LoansDebt.MonthlyIncome | src/pages/LoansDebt.tsx:54 | The stored monthly income, or 0 without settings or without an income |
| LoansDebt.DebtToIncome | src/pages/LoansDebt.tsx:55 | 0 without positive income, otherwise total EMI as a percentage of income |
| LoansDebt.DebtToIncomeBelow | src/pages/LoansDebt.tsx:52-55 | With positive income the ratio is below p% iff the EMIs are below p% of income |

## Left out

- Persistence: loading from `localStorage`, the date revivers and the write-back effects (`src/contexts/FinanceContext.tsx:113-201`) are browser I/O. The store constructor starts from empty storage.
- `crypto.randomUUID`: each new id is a parameter that must not be in use yet.
- React mechanics: batching of queued state updates and render closures. Each store call is atomic on the state it reads. The two writes of `updateExpense` are applied in order, the second winning.
- Store.FinanceStore.UpdateExpense: it follows the code, including the double count within one category. The corrected update and its proof are `Spend.SpendAfterUpdateCorrected` and `Spend.CorrectedUpdateKeepsSpend`.
- Floating point: amounts are exact reals. NaN and rounding error are not modelled.
- `Math.round(x * 100) / 100` is modelled exactly on reals (`AiBudget.RoundCents`). The allocation properties are also stated before rounding.
- `parseFloat`/`isNaN`: parsing is a function parameter. In `EmergencyFund.EmergencyFundForm.HandleTransaction` it returns `Option<real>`, with `None` standing for NaN, which is rejected as `isNaN` rejects it. In `ManualBudget.ManualBudgetForm.Submit` it returns a `real`, so a NaN budget amount is not modelled there.
- `toLowerCase` is modelled on ASCII letters only. `trim` uses the JavaScript whitespace set, without the line-terminator subtleties of other engines.
- `alert` and `onComplete` are modelled as the boolean `completed` these methods return.
- The AI wizard's `step` state, `ageGroup` and `dependents` do not enter any computation. They are kept only as settings fields.
- The manual editor's `type="number"` input and its "delete shown only when more than one row" button are UI. `RemoveRow` accepts any index, as the filter does.
- `AiBudget.AiBudgetForm.ChangeCategory` and `ManualBudget.ManualBudgetForm.Change` require an index inside the list. The source's assignment past the end would grow the array with holes, which the UI never does.
- Grouping dictionaries: `Object.entries` lists integer-like keys (such as "2024") in numeric order before the others. The model keeps plain insertion order.
- Grouping dictionaries: a key naming an `Object.prototype` member (such as "constructor") starts from that member rather than 0. This is not modelled.
- AssetAllocation.AllocationsSorted: states order and permutation, not that allocations of equal value keep their entry order. The sort is stable by construction, but that is not proved.
- Non-finite percentages: a division by a zero total gives `None` (`AssetAllocation.Percentage`, `AssetLiabilityRatio.Shares`). JavaScript would show an infinity or NaN.
- SpendingAnalysis.HighestIndex: `[...cats].sort(...)[0]` is specified directly as the first maximal element rather than by sorting.
- Message text, `toFixed` formatting, colours and icons are not modelled. What is modelled is the choice each message depends on: the suggestion kinds, the spending summary sentence (`SpendingAnalysis.HabitNote`), the debt band, the ratio trend, the on-track flag and the net-savings gain.
- LoansDebt.MonthlyIncome: `|| 0` also maps NaN to 0, which the model has no value for.
- `src/components/net-worth/NetWorthGrowthPredictor.tsx`, the insight and tax text components, the market data page, the clock-dependent goal and loan cards, the CSV export and the locale month keys are not part of this model.
- The repeated sums on `src/pages/Index.tsx` and the goal-page sums are the same folds as the modelled ones (`Collections.Sum`).
- Income frequencies other than the three named ones would fall through and add nothing. The typed model has only the three.

## Findings

| source | as written | input that shows it | evidently intended | confidence | as-written member | corrected member |
|---|---|---|---|---|---|---|
| src/contexts/FinanceContext.tsx:244-253 | Both spend writes read the pre-call category; when old and new category are the same, the second write wins and the old amount is never taken off | "Food" spent 300 from one 300 expense; update amount to 500: spent becomes 800 | Spent follows the expenses: 500 | not executed | Spend.ScenarioUpdateDoubleCounts | Spend.CorrectedUpdateKeepsSpend |
| src/contexts/FinanceContext.tsx:252 | `updatedExpense.amount \|\| oldExpense.amount` falls back to the old amount when the new amount is 0, but the stored expense gets 0 | Move a 300 "Food" expense to "Travel" with amount 0: "Travel" spent 300, its expenses total 0 | The category is charged the stored amount, 0 | not executed | Spend.ScenarioZeroAmountMiscounts | Spend.CorrectedUpdateKeepsSpend |

The comments in `updateExpense` (src/contexts/FinanceContext.tsx:243 and :249) describe its two writes as adjusting the old category's spent and then the new category's spent. The code does this exactly only for a move across categories with a non-zero amount (`Spend.UpdateAcrossCategoriesKeepsSpend`); the model follows the code as written and proves the adjustment those comments describe separately (`Spend.CorrectedUpdateKeepsSpend`).
