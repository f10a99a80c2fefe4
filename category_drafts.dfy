/**
 * The budget editors (`src/components/budget/AIBudgetCreator.tsx` and
 * `src/components/budget/ManualBudget.tsx`) end by calling the store's
 * `addBudgetCategory({ name, budgetAmount })` once per planned category, in order.
 * A `CategoryDraft` is one such argument; `Created` is what a run of drafts
 * appends to the store, given the fresh ids drawn for them.
 */
module CategoryDrafts {
  import opened Collections
  import opened FinanceTypes
  import opened Store

  /** The argument `Omit<BudgetCategory, 'id' | 'spent'>` of `addBudgetCategory`. */
  datatype CategoryDraft = CategoryDraft(name: string, budgetAmount: real)

  function DraftBudget(d: CategoryDraft): real { d.budgetAmount }

  /** Ids drawn for a run of additions: pairwise different and unused in `cats`. */
  ghost predicate FreshIds(ids: seq<string>, cats: seq<BudgetCategory>) {
    (forall i, j :: 0 <= i < j < |ids| ==> ids[i] != ids[j]) &&
    forall i :: 0 <= i < |ids| ==> ids[i] !in Keys(cats, CategoryId)
  }

  /** The categories that `drafts` add, the `i`-th under `ids[i]`, each with nothing spent yet. */
  function Created(ids: seq<string>, drafts: seq<CategoryDraft>): (r: seq<BudgetCategory>)
    requires |drafts| <= |ids|
    ensures |r| == |drafts|
    ensures forall i :: 0 <= i < |drafts| ==>
      r[i] == BudgetCategory(ids[i], drafts[i].name, drafts[i].budgetAmount, 0.0)
  {
    seq(|drafts|, i requires 0 <= i < |drafts| =>
      BudgetCategory(ids[i], drafts[i].name, drafts[i].budgetAmount, 0.0))
  }

  /** One more draft adds one more category at the end. */
  lemma CreatedAppend(ids: seq<string>, drafts: seq<CategoryDraft>, d: CategoryDraft)
    requires |drafts| < |ids|
    ensures Created(ids, drafts + [d]) ==
      Created(ids, drafts) + [BudgetCategory(ids[|drafts|], d.name, d.budgetAmount, 0.0)]
  {
  }

  /** The next id of a fresh run is unused after the earlier ones were added. */
  lemma NextIdFresh(ids: seq<string>, cats: seq<BudgetCategory>, drafts: seq<CategoryDraft>)
    requires FreshIds(ids, cats) && |drafts| < |ids|
    ensures ids[|drafts|] !in Keys(cats + Created(ids, drafts), CategoryId)
  {
    var all := cats + Created(ids, drafts);
    forall j | 0 <= j < |all| ensures CategoryId(all[j]) != ids[|drafts|] {
      if j < |cats| {
        assert all[j] == cats[j] && CategoryId(cats[j]) in Keys(cats, CategoryId);
      } else {
        assert CategoryId(all[j]) == ids[j - |cats|];
      }
    }
  }

  /**
   * One `addBudgetCategory(draft)` call in a run of additions: the category gets the
   * next fresh id and joins the end of the list.
   */
  method AddDraft(store: FinanceStore, ids: seq<string>, ghost base: seq<BudgetCategory>,
                  done: seq<CategoryDraft>, d: CategoryDraft)
    requires FreshIds(ids, base) && |done| < |ids|
    requires store.budgetCategories == base + Created(ids, done)
    modifies store`budgetCategories
    ensures store.budgetCategories == base + Created(ids, done + [d])
    ensures old(store.IdsDistinct()) ==> store.IdsDistinct()
  {
    NextIdFresh(ids, base, done);
    store.AddBudgetCategory(d.name, d.budgetAmount, ids[|done|]);
    CreatedAppend(ids, done, d);
  }
}
