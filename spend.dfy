/**
 * How the expense operations of the finance store move the `spent` totals of
 * the budget categories (`src/contexts/FinanceContext.tsx`, lines 229-276).
 *
 * An expense is linked to a category by NAME: the store looks up the FIRST
 * category whose `name` equals the expense's `category` string, reads that
 * category's `spent` from the pre-call snapshot, and writes an absolute value
 * back with `updateBudgetCategory(id, { spent: v })`, which rewrites every
 * category carrying that id.
 *
 * The intended invariant is `SpendMatches`: each category's `spent` is the sum
 * of the amounts of the expenses filed under its name.
 */
module Spend {
  import opened Collections
  import opened FinanceTypes

  /** The sum of the amounts of the expenses whose `category` string is `name`. */
  function CategorySpend(exps: seq<Expense>, name: string): real {
    KeySum(exps, ExpenseCategory, ExpenseAmount, name)
  }

  /** What expense `e` adds to the spend of category name `name`. */
  function Share(e: Expense, name: string): real {
    Contribution(e, ExpenseCategory, ExpenseAmount, name)
  }

  /** Every category's `spent` equals the total of the expenses filed under its name. */
  ghost predicate SpendMatches(cats: seq<BudgetCategory>, exps: seq<Expense>) {
    forall i :: 0 <= i < |cats| ==> cats[i].spent == CategorySpend(exps, cats[i].name)
  }

  /** Category ids are pairwise distinct, and so are category names. */
  ghost predicate WellKeyed(cats: seq<BudgetCategory>) {
    Distinct(cats, CategoryId) && Distinct(cats, CategoryName)
  }

  /** The invariant the store's expense operations are meant to keep. */
  ghost predicate Consistent(cats: seq<BudgetCategory>, exps: seq<Expense>) {
    WellKeyed(cats) && Distinct(exps, ExpenseId) && SpendMatches(cats, exps)
  }

  /** Two category arrays that agree on everything except `spent`. */
  ghost predicate SameShape(a: seq<BudgetCategory>, b: seq<BudgetCategory>) {
    |a| == |b| &&
    forall i :: 0 <= i < |a| ==>
      a[i].id == b[i].id && a[i].name == b[i].name && a[i].budgetAmount == b[i].budgetAmount
  }

  /** Changing only `spent` keeps ids and names distinct. */
  lemma SameShapeKeepsKeys(a: seq<BudgetCategory>, b: seq<BudgetCategory>)
    requires SameShape(a, b)
    ensures Distinct(a, CategoryId) ==> Distinct(b, CategoryId)
    ensures WellKeyed(a) ==> WellKeyed(b)
  {
    assert forall i :: 0 <= i < |a| ==> CategoryId(b[i]) == CategoryId(a[i]) && CategoryName(b[i]) == CategoryName(a[i]);
  }

  /** `updateBudgetCategory(id, { spent: v })`: every category with that id gets `spent` = `v`. */
  function WithSpent(cats: seq<BudgetCategory>, id: string, v: real): seq<BudgetCategory>
  {
    Patched(cats, CategoryId, id, MergeBudgetCategory, SpentPatch(v))
  }

  /** `budgetCategories.find(c => c.name === name)`, as the index of the first match. */
  function FirstNamed(cats: seq<BudgetCategory>, name: string): Option<nat> {
    FindKey(cats, CategoryName, name)
  }

  /** With distinct names, the first category named `name` is the only one. */
  lemma FirstNamedOnly(cats: seq<BudgetCategory>, name: string)
    requires Distinct(cats, CategoryName)
    ensures FirstNamed(cats, name).None? ==> forall i :: 0 <= i < |cats| ==> cats[i].name != name
    ensures FirstNamed(cats, name).Some? ==>
      forall i :: 0 <= i < |cats| ==> (cats[i].name == name <==> i == FirstNamed(cats, name).value)
  {
    if FirstNamed(cats, name).None? {
      forall i | 0 <= i < |cats| ensures cats[i].name != name {
        assert CategoryName(cats[i]) in Keys(cats, CategoryName);
      }
    } else {
      var k := FirstNamed(cats, name).value;
      forall i | 0 <= i < |cats| ensures cats[i].name == name <==> i == k {
        if k < i {
          assert CategoryName(cats[k]) != CategoryName(cats[i]);
        }
      }
    }
  }

  /** Rewriting the spent of the category at index `k` by its id touches that category only. */
  lemma WithSpentAt(cats: seq<BudgetCategory>, k: nat, v: real)
    requires Distinct(cats, CategoryId) && k < |cats|
    ensures forall i :: 0 <= i < |cats| ==>
      WithSpent(cats, cats[k].id, v)[i].spent == if i == k then v else cats[i].spent
  {
    forall i | 0 <= i < |cats| && i != k ensures cats[i].id != cats[k].id {
      if i < k {
        assert CategoryId(cats[i]) != CategoryId(cats[k]);
      } else {
        assert CategoryId(cats[k]) != CategoryId(cats[i]);
      }
    }
  }

  /** A `{ spent: v }` write keeps ids, names and budgets, and sets `spent` on the matching categories only. */
  lemma WithSpentShape(cats: seq<BudgetCategory>, id: string, v: real)
    ensures SameShape(cats, WithSpent(cats, id, v))
    ensures forall i :: 0 <= i < |cats| ==>
      WithSpent(cats, id, v)[i].spent == if cats[i].id == id then v else cats[i].spent
  {
  }

  // ---------------------------------------------------------------------------
  // addExpense (lines 229-238)

  /** The category side of `addExpense(e)`: the first category named `e.category` gets `spent + e.amount`. */
  function SpendAfterAdd(cats: seq<BudgetCategory>, e: Expense): seq<BudgetCategory>
  {
    match FirstNamed(cats, e.category)
    case None => cats
    case Some(k) => WithSpent(cats, cats[k].id, cats[k].spent + e.amount)
  }

  /** Only the category and the amount of an expense move the totals, not its id. */
  lemma AddIgnoresId(cats: seq<BudgetCategory>, e: Expense, id: string)
    ensures SpendAfterAdd(cats, e.(id := id)) == SpendAfterAdd(cats, e)
  {
    var e' := e.(id := id);
    assert e'.category == e.category && e'.amount == e.amount;
  }

  /** With distinct ids and names, adding `e` raises exactly the category named `e.category`, by `e.amount`. */
  lemma AddExpenseSpend(cats: seq<BudgetCategory>, e: Expense)
    requires WellKeyed(cats)
    ensures forall i :: 0 <= i < |cats| ==>
      SpendAfterAdd(cats, e)[i].spent == cats[i].spent + Share(e, cats[i].name)
  {
    FirstNamedOnly(cats, e.category);
    match FirstNamed(cats, e.category)
    case None =>
    case Some(k) => WithSpentAt(cats, k, cats[k].spent + e.amount);
  }

  /** `SpendMatches` after `addExpense`: appending an expense and adjusting its category keeps every total exact. */
  lemma AddExpenseKeepsSpend(cats: seq<BudgetCategory>, exps: seq<Expense>, e: Expense)
    requires WellKeyed(cats) && SpendMatches(cats, exps)
    ensures SpendMatches(SpendAfterAdd(cats, e), exps + [e])
  {
    AddExpenseSpend(cats, e);
    var r := SpendAfterAdd(cats, e);
    forall i | 0 <= i < |r| ensures r[i].spent == CategorySpend(exps + [e], r[i].name) {
      KeySumAppend(exps, [e], ExpenseCategory, ExpenseAmount, cats[i].name);
      assert [e][..0] == [];
    }
  }

  // ---------------------------------------------------------------------------
  // deleteExpense (lines 259-268)

  /** The first category named `e.category` gets `spent - e.amount`. */
  function SpendAfterRemove(cats: seq<BudgetCategory>, e: Expense): seq<BudgetCategory>
  {
    match FirstNamed(cats, e.category)
    case None => cats
    case Some(k) => WithSpent(cats, cats[k].id, cats[k].spent - e.amount)
  }

  lemma RemoveExpenseSpend(cats: seq<BudgetCategory>, e: Expense)
    requires WellKeyed(cats)
    ensures forall i :: 0 <= i < |cats| ==>
      SpendAfterRemove(cats, e)[i].spent == cats[i].spent - Share(e, cats[i].name)
  {
    FirstNamedOnly(cats, e.category);
    match FirstNamed(cats, e.category)
    case None =>
    case Some(k) => WithSpentAt(cats, k, cats[k].spent - e.amount);
  }

  /** The category side of `deleteExpense(id)`; an unknown id changes nothing. */
  function SpendAfterDelete(cats: seq<BudgetCategory>, exps: seq<Expense>, id: string): seq<BudgetCategory>
  {
    match FindKey(exps, ExpenseId, id)
    case None => cats
    case Some(k) => SpendAfterRemove(cats, exps[k])
  }

  /** `SpendMatches` after `deleteExpense`: with distinct expense ids, removing the expense and its spend keeps every total exact. */
  lemma DeleteExpenseKeepsSpend(cats: seq<BudgetCategory>, exps: seq<Expense>, id: string)
    requires WellKeyed(cats) && Distinct(exps, ExpenseId) && SpendMatches(cats, exps)
    ensures SpendMatches(SpendAfterDelete(cats, exps, id), Without(exps, ExpenseId, id))
  {
    match FindKey(exps, ExpenseId, id)
    case None =>
      WithoutUnknown(exps, ExpenseId, id);
    case Some(k) =>
      RemoveExpenseSpend(cats, exps[k]);
      WithoutOne(exps, ExpenseId, k);
      var r := SpendAfterDelete(cats, exps, id);
      forall i | 0 <= i < |r|
        ensures r[i].spent == CategorySpend(Without(exps, ExpenseId, id), r[i].name)
      {
        KeySumSplitAt(exps, k, ExpenseCategory, ExpenseAmount, cats[i].name);
      }
  }

  // ---------------------------------------------------------------------------
  // updateExpense (lines 240-257)

  /**
   * The updates for which the as-written spend adjustment is exact: an unknown id, or a
   * move to a different effective category with a patch amount other than 0.
   */
  ghost predicate MovesAcross(exps: seq<Expense>, id: string, p: ExpensePatch) {
    match FindKey(exps, ExpenseId, id)
    case None => true
    case Some(k) => EffectiveCategory(p, exps[k]) != exps[k].category && p.amount != Some(0.0)
  }

  /** `updatedExpense.category || oldExpense.category`: an absent or empty category falls back. */
  function EffectiveCategory(p: ExpensePatch, prior: Expense): string {
    if p.category.Some? && p.category.value != "" then p.category.value else prior.category
  }

  /** `updatedExpense.amount || oldExpense.amount`: an absent or zero amount falls back. */
  function EffectiveAmount(p: ExpensePatch, prior: Expense): real {
    if p.amount.Some? && p.amount.value != 0.0 then p.amount.value else prior.amount
  }

  /**
   * The category side of `updateExpense(id, p)` as written: two absolute writes, both
   * computed from the pre-call snapshot `cats`, applied in order, so the second wins
   * when both land on the same category.
   */
  function SpendAfterUpdate(cats: seq<BudgetCategory>, exps: seq<Expense>, id: string, p: ExpensePatch)
    : seq<BudgetCategory>
  {
    match FindKey(exps, ExpenseId, id)
    case None => cats
    case Some(k) =>
      var prior := exps[k];
      var first := SpendAfterRemove(cats, prior);
      match FirstNamed(cats, EffectiveCategory(p, prior))
      case None => first
      case Some(n) => WithSpent(first, cats[n].id, cats[n].spent + EffectiveAmount(p, prior))
  }

  /**
   * What `updateExpense` does to each category, stated by name: the category named by the
   * effective new category ends at its OLD spent plus the effective amount (the decrement
   * is lost if it is also the old category); otherwise the old category loses the old amount.
   */
  lemma UpdateExpenseSpend(cats: seq<BudgetCategory>, exps: seq<Expense>, id: string, p: ExpensePatch, k: nat)
    requires WellKeyed(cats) && FindKey(exps, ExpenseId, id) == Some(k)
    ensures forall i :: 0 <= i < |cats| ==>
      SpendAfterUpdate(cats, exps, id, p)[i].spent ==
        if cats[i].name == EffectiveCategory(p, exps[k]) then cats[i].spent + EffectiveAmount(p, exps[k])
        else if cats[i].name == exps[k].category then cats[i].spent - exps[k].amount
        else cats[i].spent
  {
    forall i | 0 <= i < |cats|
      ensures SpendAfterUpdate(cats, exps, id, p)[i].spent ==
        if cats[i].name == EffectiveCategory(p, exps[k]) then cats[i].spent + EffectiveAmount(p, exps[k])
        else if cats[i].name == exps[k].category then cats[i].spent - exps[k].amount
        else cats[i].spent
    {
      UpdateExpenseSpendAt(cats, exps, id, p, k, i);
    }
  }

  /** `UpdateExpenseSpend` for the category at index `i`. */
  lemma UpdateExpenseSpendAt(cats: seq<BudgetCategory>, exps: seq<Expense>, id: string, p: ExpensePatch, k: nat, i: nat)
    requires WellKeyed(cats) && FindKey(exps, ExpenseId, id) == Some(k) && i < |cats|
    ensures |SpendAfterUpdate(cats, exps, id, p)| == |cats|
    ensures SpendAfterUpdate(cats, exps, id, p)[i].spent ==
      if cats[i].name == EffectiveCategory(p, exps[k]) then cats[i].spent + EffectiveAmount(p, exps[k])
      else if cats[i].name == exps[k].category then cats[i].spent - exps[k].amount
      else cats[i].spent
  {
    var prior := exps[k];
    var first := SpendAfterRemove(cats, prior);
    RemoveExpenseSpend(cats, prior);
    OneWriteKeepsShape(cats, prior);
    FirstNamedOnly(cats, EffectiveCategory(p, prior));
    match FirstNamed(cats, EffectiveCategory(p, prior))
    case None =>
    case Some(n) =>
      SameShapeKeepsKeys(cats, first);
      WithSpentAt(first, n, cats[n].spent + EffectiveAmount(p, prior));
  }

  /**
   * `SpendMatches` holds after an update that moves an expense to a different, non-empty category
   * name and does not set its amount to 0: then both absolute writes land on
   * different categories and match the stored expense.
   */
  lemma UpdateAcrossCategoriesKeepsSpend(cats: seq<BudgetCategory>, exps: seq<Expense>, id: string, p: ExpensePatch, k: nat)
    requires WellKeyed(cats) && Distinct(exps, ExpenseId) && SpendMatches(cats, exps)
    requires FindKey(exps, ExpenseId, id) == Some(k)
    requires EffectiveCategory(p, exps[k]) != exps[k].category
    requires p.amount != Some(0.0)
    ensures SpendMatches(SpendAfterUpdate(cats, exps, id, p), Patched(exps, ExpenseId, id, MergeExpense, p))
  {
    var r := SpendAfterUpdate(cats, exps, id, p);
    var moved := Patched(exps, ExpenseId, id, MergeExpense, p);
    UpdateKeepsShape(cats, exps, id, p);
    forall i | 0 <= i < |r| ensures r[i].spent == CategorySpend(moved, r[i].name) {
      UpdateAcrossCategoriesAt(cats, exps, id, p, k, i);
    }
  }

  /** `UpdateAcrossCategoriesKeepsSpend` for the category at index `i`. */
  lemma UpdateAcrossCategoriesAt(cats: seq<BudgetCategory>, exps: seq<Expense>, id: string, p: ExpensePatch, k: nat, i: nat)
    requires WellKeyed(cats) && Distinct(exps, ExpenseId) && SpendMatches(cats, exps)
    requires FindKey(exps, ExpenseId, id) == Some(k) && i < |cats|
    requires EffectiveCategory(p, exps[k]) != exps[k].category
    requires p.amount != Some(0.0)
    ensures |SpendAfterUpdate(cats, exps, id, p)| == |cats|
    ensures SpendAfterUpdate(cats, exps, id, p)[i].spent ==
      CategorySpend(Patched(exps, ExpenseId, id, MergeExpense, p), cats[i].name)
  {
    var prior := exps[k];
    var updated := MergeExpense(prior, p);
    assert updated.category == EffectiveCategory(p, prior) && updated.amount == EffectiveAmount(p, prior);
    var name := cats[i].name;
    PatchedOne(exps, ExpenseId, k, MergeExpense, p);
    UpdateExpenseSpendAt(cats, exps, id, p, k, i);
    KeySumReplace(exps, k, updated, ExpenseCategory, ExpenseAmount, name);
    MovedShare(cats[i].spent, SpendAfterUpdate(cats, exps, id, p)[i].spent, CategorySpend(exps, name),
               CategorySpend(Patched(exps, ExpenseId, id, MergeExpense, p), name), name, prior, updated);
  }

  /** One category's arithmetic in `UpdateAcrossCategoriesKeepsSpend`. */
  lemma MovedShare(before: real, after: real, total: real, total': real, name: string, prior: Expense, updated: Expense)
    requires prior.category != updated.category
    requires before == total
    requires total' == total - Share(prior, name) + Share(updated, name)
    requires after == if name == updated.category then before + updated.amount
                       else if name == prior.category then before - prior.amount
                       else before
    ensures after == total'
  {
  }

  /**
   * The as-written update within one category: the category ends at its old spent
   * plus the effective amount, so the old amount is counted twice.
   */
  lemma UpdateWithinCategoryDoubleCounts(cats: seq<BudgetCategory>, exps: seq<Expense>, id: string, p: ExpensePatch, k: nat, c: nat)
    requires WellKeyed(cats) && FindKey(exps, ExpenseId, id) == Some(k)
    requires EffectiveCategory(p, exps[k]) == exps[k].category
    requires c < |cats| && cats[c].name == exps[k].category
    ensures SpendAfterUpdate(cats, exps, id, p)[c].spent == cats[c].spent + EffectiveAmount(p, exps[k])
  {
    UpdateExpenseSpend(cats, exps, id, p, k);
  }

  /** Scenario: "Food" has spent 300 from one 300 expense; raising that expense to 500 leaves spent at 800, not 500. */
  lemma ScenarioUpdateDoubleCounts()
    ensures var cats := [BudgetCategory("c1", "Food", 5000.0, 300.0)];
            var exps := [Expense("e1", "Lunch", 300.0, "Food", 0, None)];
            var p := ExpensePatch(None, None, Some(500.0), None, None, None);
            SpendMatches(cats, exps) &&
            SpendAfterUpdate(cats, exps, "e1", p)[0].spent == 800.0 &&
            CategorySpend(Patched(exps, ExpenseId, "e1", MergeExpense, p), "Food") == 500.0
  {
    var cats := [BudgetCategory("c1", "Food", 5000.0, 300.0)];
    var exps := [Expense("e1", "Lunch", 300.0, "Food", 0, None)];
    var p := ExpensePatch(None, None, Some(500.0), None, None, None);
    assert exps[..0] == [];
    assert FindKey(exps, ExpenseId, "e1") == Some(0);
    UpdateWithinCategoryDoubleCounts(cats, exps, "e1", p, 0, 0);
    var moved := Patched(exps, ExpenseId, "e1", MergeExpense, p);
    assert moved == [Expense("e1", "Lunch", 500.0, "Food", 0, None)];
    assert moved[..0] == [];
  }

  /** Scenario: moving a 300 "Food" expense to "Travel" with amount 0 charges "Travel" 300 while the stored expense is 0. */
  lemma ScenarioZeroAmountMiscounts()
    ensures var cats := [BudgetCategory("c1", "Food", 5000.0, 300.0), BudgetCategory("c2", "Travel", 1000.0, 0.0)];
            var exps := [Expense("e1", "Lunch", 300.0, "Food", 0, None)];
            var p := ExpensePatch(None, None, Some(0.0), Some("Travel"), None, None);
            SpendMatches(cats, exps) &&
            SpendAfterUpdate(cats, exps, "e1", p)[1].spent == 300.0 &&
            CategorySpend(Patched(exps, ExpenseId, "e1", MergeExpense, p), "Travel") == 0.0
  {
    var cats := [BudgetCategory("c1", "Food", 5000.0, 300.0), BudgetCategory("c2", "Travel", 1000.0, 0.0)];
    var exps := [Expense("e1", "Lunch", 300.0, "Food", 0, None)];
    var p := ExpensePatch(None, None, Some(0.0), Some("Travel"), None, None);
    assert exps[..0] == [];
    assert FindKey(exps, ExpenseId, "e1") == Some(0);
    assert WellKeyed(cats);
    UpdateExpenseSpend(cats, exps, "e1", p, 0);
    var moved := Patched(exps, ExpenseId, "e1", MergeExpense, p);
    assert moved == [Expense("e1", "Lunch", 0.0, "Travel", 0, None)];
    assert moved[..0] == [];
  }

  /**
   * The update the comments at FinanceContext.tsx:243 and :249 describe (adjust the old
   * category's spent, then the new one's): take the old expense's amount off its category,
   * then add the STORED new amount to the category of the STORED new category name,
   * reading the spent value already lowered by the first step.
   */
  function SpendAfterUpdateCorrected(cats: seq<BudgetCategory>, exps: seq<Expense>, id: string, p: ExpensePatch)
    : seq<BudgetCategory>
  {
    match FindKey(exps, ExpenseId, id)
    case None => cats
    case Some(k) => SpendAfterAdd(SpendAfterRemove(cats, exps[k]), MergeExpense(exps[k], p))
  }

  /** `SpendMatches` after the corrected update, for every patch, including a patch within one category. */
  lemma CorrectedUpdateKeepsSpend(cats: seq<BudgetCategory>, exps: seq<Expense>, id: string, p: ExpensePatch)
    requires WellKeyed(cats) && Distinct(exps, ExpenseId) && SpendMatches(cats, exps)
    ensures SpendMatches(SpendAfterUpdateCorrected(cats, exps, id, p), Patched(exps, ExpenseId, id, MergeExpense, p))
  {
    match FindKey(exps, ExpenseId, id)
    case None =>
      PatchedUnknown(exps, ExpenseId, id, MergeExpense, p);
    case Some(k) =>
      var r := SpendAfterUpdateCorrected(cats, exps, id, p);
      CorrectedSpendAt(cats, exps, id, p, k, 0);
      forall i | 0 <= i < |r|
        ensures r[i].spent == CategorySpend(Patched(exps, ExpenseId, id, MergeExpense, p), r[i].name)
      {
        CorrectedSpendAt(cats, exps, id, p, k, i);
      }
  }

  /** The corrected update at one category: its name kept, its `spent` the new total of its expenses. */
  lemma CorrectedSpendAt(cats: seq<BudgetCategory>, exps: seq<Expense>, id: string, p: ExpensePatch, k: nat, i: nat)
    requires WellKeyed(cats) && Distinct(exps, ExpenseId) && SpendMatches(cats, exps)
    requires FindKey(exps, ExpenseId, id) == Some(k)
    ensures |SpendAfterUpdateCorrected(cats, exps, id, p)| == |cats|
    ensures i < |cats| ==>
      SpendAfterUpdateCorrected(cats, exps, id, p)[i].name == cats[i].name &&
      SpendAfterUpdateCorrected(cats, exps, id, p)[i].spent ==
        CategorySpend(Patched(exps, ExpenseId, id, MergeExpense, p), cats[i].name)
  {
    var updated := MergeExpense(exps[k], p);
    var first := SpendAfterRemove(cats, exps[k]);
    OneWriteKeepsShape(cats, exps[k]);
    OneWriteKeepsShape(first, updated);
    SameShapeKeepsKeys(cats, first);
    if i < |cats| {
      RemoveExpenseSpend(cats, exps[k]);
      AddExpenseSpend(first, updated);
      PatchedOne(exps, ExpenseId, k, MergeExpense, p);
      KeySumReplace(exps, k, updated, ExpenseCategory, ExpenseAmount, cats[i].name);
    }
  }

  // ---------------------------------------------------------------------------
  // What the expense operations leave alone

  /** Adding or removing one expense's amount changes `spent` and nothing else about the categories. */
  lemma OneWriteKeepsShape(cats: seq<BudgetCategory>, e: Expense)
    ensures SameShape(cats, SpendAfterAdd(cats, e)) && SameShape(cats, SpendAfterRemove(cats, e))
  {
    match FirstNamed(cats, e.category)
    case None =>
    case Some(k) =>
      WithSpentShape(cats, cats[k].id, cats[k].spent + e.amount);
      WithSpentShape(cats, cats[k].id, cats[k].spent - e.amount);
  }

  /** Deleting an expense changes `spent` and nothing else about the categories. */
  lemma DeleteKeepsShape(cats: seq<BudgetCategory>, exps: seq<Expense>, id: string)
    ensures SameShape(cats, SpendAfterDelete(cats, exps, id))
  {
    match FindKey(exps, ExpenseId, id)
    case None =>
    case Some(k) => OneWriteKeepsShape(cats, exps[k]);
  }

  /** Updating an expense, as written or corrected, changes `spent` and nothing else about the categories. */
  lemma UpdateKeepsShape(cats: seq<BudgetCategory>, exps: seq<Expense>, id: string, p: ExpensePatch)
    ensures SameShape(cats, SpendAfterUpdate(cats, exps, id, p))
    ensures SameShape(cats, SpendAfterUpdateCorrected(cats, exps, id, p))
  {
    match FindKey(exps, ExpenseId, id)
    case None =>
    case Some(k) =>
      var first := SpendAfterRemove(cats, exps[k]);
      OneWriteKeepsShape(cats, exps[k]);
      OneWriteKeepsShape(first, MergeExpense(exps[k], p));
      match FirstNamed(cats, EffectiveCategory(p, exps[k]))
      case None =>
      case Some(n) =>
        WithSpentShape(first, cats[n].id, cats[n].spent + EffectiveAmount(p, exps[k]));
  }

  /** An expense whose category names no category moves no `spent` value. */
  lemma UnknownCategoryNoChange(cats: seq<BudgetCategory>, e: Expense)
    requires e.category !in Keys(cats, CategoryName)
    ensures SpendAfterAdd(cats, e) == cats && SpendAfterRemove(cats, e) == cats
  {
  }

  /** Updating or deleting an unknown expense id moves no `spent` value. */
  lemma UnknownExpenseNoChange(cats: seq<BudgetCategory>, exps: seq<Expense>, id: string, p: ExpensePatch)
    requires id !in Keys(exps, ExpenseId)
    ensures SpendAfterDelete(cats, exps, id) == cats && SpendAfterUpdate(cats, exps, id, p) == cats
    ensures SpendAfterUpdateCorrected(cats, exps, id, p) == cats
  {
  }

  // ---------------------------------------------------------------------------
  // The whole invariant across the three expense operations

  /** `addExpense` with a fresh id keeps `Consistent`, and keeps category and expense ids distinct. */
  lemma AddExpenseKeepsConsistent(cats: seq<BudgetCategory>, exps: seq<Expense>, e: Expense)
    requires e.id !in Keys(exps, ExpenseId)
    ensures Distinct(cats, CategoryId) ==> Distinct(SpendAfterAdd(cats, e), CategoryId)
    ensures Distinct(exps, ExpenseId) ==> Distinct(exps + [e], ExpenseId)
    ensures Consistent(cats, exps) ==> Consistent(SpendAfterAdd(cats, e), exps + [e])
  {
    OneWriteKeepsShape(cats, e);
    SameShapeKeepsKeys(cats, SpendAfterAdd(cats, e));
    AppendKeepsDistinct(exps, ExpenseId, e);
    if Consistent(cats, exps) {
      AddExpenseKeepsSpend(cats, exps, e);
    }
  }

  /** `deleteExpense` keeps `Consistent`, whether or not the id is known, and keeps ids distinct. */
  lemma DeleteExpenseKeepsConsistent(cats: seq<BudgetCategory>, exps: seq<Expense>, id: string)
    ensures Distinct(cats, CategoryId) ==> Distinct(SpendAfterDelete(cats, exps, id), CategoryId)
    ensures Distinct(exps, ExpenseId) ==> Distinct(Without(exps, ExpenseId, id), ExpenseId)
    ensures Consistent(cats, exps) ==>
      Consistent(SpendAfterDelete(cats, exps, id), Without(exps, ExpenseId, id))
  {
    DeleteKeepsShape(cats, exps, id);
    SameShapeKeepsKeys(cats, SpendAfterDelete(cats, exps, id));
    WithoutKeepsDistinct(exps, ExpenseId, id, ExpenseId);
    if Consistent(cats, exps) {
      DeleteExpenseKeepsSpend(cats, exps, id);
    }
  }

  /**
   * `updateExpense` keeps `Consistent` when it moves an expense across categories and
   * leaves ids alone; it keeps category ids distinct always, and expense ids distinct
   * when the patch sets no id.
   */
  lemma UpdateExpenseKeepsConsistent(cats: seq<BudgetCategory>, exps: seq<Expense>, id: string, p: ExpensePatch)
    ensures Distinct(cats, CategoryId) ==> Distinct(SpendAfterUpdate(cats, exps, id, p), CategoryId)
    ensures p.id.None? && Distinct(exps, ExpenseId) ==> Distinct(Patched(exps, ExpenseId, id, MergeExpense, p), ExpenseId)
    ensures Consistent(cats, exps) && p.id.None? && MovesAcross(exps, id, p) ==>
      Consistent(SpendAfterUpdate(cats, exps, id, p), Patched(exps, ExpenseId, id, MergeExpense, p))
  {
    UpdateKeepsShape(cats, exps, id, p);
    SameShapeKeepsKeys(cats, SpendAfterUpdate(cats, exps, id, p));
    if p.id.None? {
      PatchedKeepsKeys(exps, ExpenseId, id, MergeExpense, p);
      if Consistent(cats, exps) && MovesAcross(exps, id, p) {
        match FindKey(exps, ExpenseId, id)
        case None =>
          PatchedUnknown(exps, ExpenseId, id, MergeExpense, p);
        case Some(k) =>
          UpdateAcrossCategoriesKeepsSpend(cats, exps, id, p, k);
      }
    }
  }

  // ---------------------------------------------------------------------------
  // Category operations seen from the spend invariant

  /** `resetBudget` (lines 274-276): every category keeps id, name and budget, and `spent` becomes 0. */
  function ResetSpent(cats: seq<BudgetCategory>): (r: seq<BudgetCategory>)
    ensures SameShape(cats, r)
    ensures forall i :: 0 <= i < |r| ==> r[i].spent == 0.0
    decreases |cats|
  {
    if cats == [] then []
    else
      var c := cats[|cats| - 1];
      ResetSpent(cats[..|cats| - 1]) + [c.(spent := 0.0)]
  }

  /**
   * A new category with spent 0 keeps `SpendMatches` exactly when the expenses already
   * filed under its name total 0.
   */
  lemma NewCategorySpendIff(cats: seq<BudgetCategory>, exps: seq<Expense>, c: BudgetCategory)
    requires SpendMatches(cats, exps) && c.spent == 0.0
    ensures SpendMatches(cats + [c], exps) <==> CategorySpend(exps, c.name) == 0.0
  {
    var all := cats + [c];
    assert all[|cats|] == c;
    if CategorySpend(exps, c.name) == 0.0 {
      forall i | 0 <= i < |all| ensures all[i].spent == CategorySpend(exps, all[i].name) {
        if i < |cats| {
          assert all[i] == cats[i];
        }
      }
    }
  }

  /** In particular a new category keeps `SpendMatches` when no expense is filed under its name. */
  lemma NewCategoryKeepsSpend(cats: seq<BudgetCategory>, exps: seq<Expense>, c: BudgetCategory)
    requires SpendMatches(cats, exps) && c.spent == 0.0
    requires c.name !in Keys(exps, ExpenseCategory)
    ensures SpendMatches(cats + [c], exps)
  {
    forall x | x in exps ensures ExpenseCategory(x) != c.name {
      var j :| 0 <= j < |exps| && exps[j] == x;
      assert ExpenseCategory(exps[j]) in Keys(exps, ExpenseCategory);
    }
    KeySumAbsent(exps, ExpenseCategory, ExpenseAmount, c.name);
    NewCategorySpendIff(cats, exps, c);
  }

  /** Deleting a category keeps `SpendMatches` for the categories that remain (no cascade to expenses). */
  lemma DeleteCategoryKeepsSpend(cats: seq<BudgetCategory>, exps: seq<Expense>, id: string)
    requires SpendMatches(cats, exps)
    ensures SpendMatches(Without(cats, CategoryId, id), exps)
  {
    WithoutMembers(cats, CategoryId, id);
    var r := Without(cats, CategoryId, id);
    forall i | 0 <= i < |r| ensures r[i].spent == CategorySpend(exps, r[i].name) {
      assert r[i] in cats;
    }
  }
}
