/**
 * Savings goals and the contributions recorded against them
 * (`src/contexts/FinanceContext.tsx`, lines 278-309).
 *
 * A goal carries both a running `currentAmount` and the list of `funds` that
 * produced it. The intended invariant is `FundsMatch`: the running amount is the
 * sum of the fund amounts. `addGoal` and `addGoalFund` keep it; `updateGoal`
 * accepts any patch and can break it.
 */
module GoalFunds {
  import opened Collections
  import opened FinanceTypes

  /** The sum of the amounts of the goal's funds. */
  function FundTotal(g: Goal): real {
    Sum(g.funds, FundAmount)
  }

  /** Every goal's `currentAmount` is the total of its funds. */
  ghost predicate FundsMatch(goals: seq<Goal>) {
    forall i :: 0 <= i < |goals| ==> goals[i].currentAmount == FundTotal(goals[i])
  }

  /** The fields of `Omit<Goal, 'id' | 'currentAmount' | 'createdAt' | 'funds'>`. */
  datatype GoalDraft = GoalDraft(
    name: string, targetAmount: real, deadline: Date, category: GoalTerm, priority: Priority,
    note: Option<string>)

  /** `addGoal`'s new record: the draft, a fresh id, nothing saved yet, created `now`. */
  function NewGoal(id: string, d: GoalDraft, now: Date): (g: Goal)
    ensures g.id == id && g.createdAt == now
    ensures g.funds == [] && g.currentAmount == 0.0 && g.currentAmount == FundTotal(g)
    ensures g.name == d.name && g.targetAmount == d.targetAmount && g.deadline == d.deadline
    ensures g.category == d.category && g.priority == d.priority && g.note == d.note
  {
    Goal(id, d.name, d.targetAmount, 0.0, d.deadline, d.category, d.priority, d.note, now, [])
  }

  /** `{ ...g, currentAmount: g.currentAmount + fund.amount, funds: [...g.funds, newFund] }`. */
  function WithFund(g: Goal, f: GoalFund): Goal {
    g.(currentAmount := g.currentAmount + f.amount, funds := g.funds + [f])
  }

  /** Recording a fund keeps a goal's running amount equal to its fund total, and adds one fund. */
  lemma WithFundKeepsTotal(g: Goal, f: GoalFund)
    ensures |WithFund(g, f).funds| == |g.funds| + 1
    ensures FundTotal(WithFund(g, f)) == FundTotal(g) + f.amount
    ensures g.currentAmount == FundTotal(g) ==> WithFund(g, f).currentAmount == FundTotal(WithFund(g, f))
  {
    SumAppend(g.funds, [f], FundAmount);
    SumSingleton(f, FundAmount);
  }

  /** The goals after `addGoalFund(goalId, f)`: every goal with that id records `f`; the rest are kept. */
  function GoalsAfterFund(goals: seq<Goal>, goalId: string, f: GoalFund): (r: seq<Goal>)
    ensures |r| == |goals|
    ensures forall i :: 0 <= i < |goals| && goals[i].id != goalId ==> r[i] == goals[i]
    ensures forall i :: 0 <= i < |goals| && goals[i].id == goalId ==>
      r[i].id == goalId && |r[i].funds| == |goals[i].funds| + 1 && r[i].funds[..|goals[i].funds|] == goals[i].funds
      && r[i].funds[|goals[i].funds|] == f && r[i].currentAmount == goals[i].currentAmount + f.amount
  {
    Patched(goals, GoalId, goalId, WithFund, f)
  }

  /** `addGoalFund` keeps every goal's running amount equal to its fund total. */
  lemma AddGoalFundKeepsFunds(goals: seq<Goal>, goalId: string, f: GoalFund)
    requires FundsMatch(goals)
    ensures FundsMatch(GoalsAfterFund(goals, goalId, f))
  {
    var r := GoalsAfterFund(goals, goalId, f);
    forall i | 0 <= i < |r| ensures r[i].currentAmount == FundTotal(r[i]) {
      if goals[i].id == goalId {
        WithFundKeepsTotal(goals[i], f);
      }
    }
  }

  /** An unknown goal id records nothing. */
  lemma AddGoalFundUnknown(goals: seq<Goal>, goalId: string, f: GoalFund)
    requires goalId !in Keys(goals, GoalId)
    ensures GoalsAfterFund(goals, goalId, f) == goals
  {
    PatchedUnknown(goals, GoalId, goalId, WithFund, f);
  }

  /** `addGoal` keeps the invariant: the new goal has no funds and nothing saved. */
  lemma AddGoalKeepsFunds(goals: seq<Goal>, id: string, d: GoalDraft, now: Date)
    requires FundsMatch(goals)
    ensures FundsMatch(goals + [NewGoal(id, d, now)])
  {
  }

  /** `deleteGoal` keeps the invariant for the goals that remain. */
  lemma DeleteGoalKeepsFunds(goals: seq<Goal>, id: string)
    requires FundsMatch(goals)
    ensures FundsMatch(Without(goals, GoalId, id))
  {
    WithoutMembers(goals, GoalId, id);
    var r := Without(goals, GoalId, id);
    forall i | 0 <= i < |r| ensures r[i].currentAmount == FundTotal(r[i]) {
      assert r[i] in goals;
    }
  }

  /** `updateGoal` keeps the invariant when its patch sets neither `currentAmount` nor `funds`. */
  lemma UpdateGoalKeepsFunds(goals: seq<Goal>, id: string, p: GoalPatch)
    requires FundsMatch(goals) && p.currentAmount.None? && p.funds.None?
    ensures FundsMatch(Patched(goals, GoalId, id, MergeGoal, p))
  {
  }

  /** Scenario: a patch that sets `currentAmount` on a goal with no funds breaks the invariant. */
  lemma UpdateGoalCanBreakFunds()
    ensures var goals := [Goal("g1", "Car", 5000.0, 0.0, 0, ShortTerm, Medium, None, 0, [])];
            var p := GoalPatch(None, None, None, Some(100.0), None, None, None, None, None, None);
            FundsMatch(goals) && !FundsMatch(Patched(goals, GoalId, "g1", MergeGoal, p))
  {
    var goals := [Goal("g1", "Car", 5000.0, 0.0, 0, ShortTerm, Medium, None, 0, [])];
    var p := GoalPatch(None, None, None, Some(100.0), None, None, None, None, None, None);
    var r := Patched(goals, GoalId, "g1", MergeGoal, p);
    assert r[0].currentAmount == 100.0 && FundTotal(r[0]) == 0.0;
  }
}
