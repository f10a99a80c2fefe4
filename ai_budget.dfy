/**
 * The AI budget creator (`src/components/budget/AIBudgetCreator.tsx`, lines 15-100):
 * a list of category names edited row by row, and `handleGenerateBudget`, which
 * splits the money left after fixed costs, savings and loan payments among the
 * non-blank names in proportion to a keyword weight, then adds a savings and an
 * emergency-fund category when asked to.
 *
 * `String.prototype.trim` is modelled with the whitespace set of ECMAScript
 * (WhiteSpace and LineTerminator); `toLowerCase` is modelled on ASCII letters only,
 * which decides every keyword test exactly: no keyword contains a `k` (KELVIN SIGN
 * lower-cases to `k`), and every `i` in a keyword is followed by a letter (LATIN
 * CAPITAL LETTER I WITH DOT ABOVE lower-cases to `i` followed by a combining dot).
 */
module AiBudget {
  import opened Collections
  import opened FinanceTypes
  import opened Store
  import opened CategoryDrafts
  import opened Ratios

  // ---------------------------------------------------------------------------
  // Strings

  /** The characters `trim` removes: ECMAScript WhiteSpace and LineTerminator. */
  predicate IsJsSpace(c: char) {
    var n := c as int;
    n == 0x09 || n == 0x0A || n == 0x0B || n == 0x0C || n == 0x0D || n == 0x20 || n == 0xA0 ||
    n == 0x1680 || (0x2000 <= n <= 0x200A) || n == 0x2028 || n == 0x2029 || n == 0x202F ||
    n == 0x205F || n == 0x3000 || n == 0xFEFF
  }

  /** The leading whitespace dropped: what is left is a suffix that starts with a non-space. */
  function TrimStart(s: string): (r: string)
    ensures |r| <= |s| && r == s[|s| - |r|..]
    ensures forall i :: 0 <= i < |s| - |r| ==> IsJsSpace(s[i])
    ensures r != [] ==> !IsJsSpace(r[0])
    decreases |s|
  {
    if s != [] && IsJsSpace(s[0]) then TrimStart(s[1..]) else s
  }

  /** The trailing whitespace dropped: what is left is a prefix that ends with a non-space. */
  function TrimEnd(s: string): (r: string)
    ensures |r| <= |s| && r == s[..|r|]
    ensures forall i :: |r| <= i < |s| ==> IsJsSpace(s[i])
    ensures r != [] ==> !IsJsSpace(r[|r| - 1])
    decreases |s|
  {
    if s != [] && IsJsSpace(s[|s| - 1]) then TrimEnd(s[..|s| - 1]) else s
  }

  function Trim(s: string): string {
    TrimEnd(TrimStart(s))
  }

  /** Nothing but whitespace. */
  predicate Blank(s: string) {
    forall i :: 0 <= i < |s| ==> IsJsSpace(s[i])
  }

  /** `s.trim() === ''` exactly when `s` is all whitespace. */
  lemma TrimEmptyIffBlank(s: string)
    ensures Trim(s) == "" <==> Blank(s)
  {
    var t := TrimStart(s);
    if t != [] {
      assert t[0] == s[|s| - |t|] && !IsJsSpace(t[0]);
    }
  }

  function LowerChar(c: char): char {
    if 'A' <= c <= 'Z' then (c as int + 32) as char else c
  }

  /** `toLowerCase`, on ASCII letters. */
  function Lower(s: string): (r: string)
    ensures |r| == |s| && forall i :: 0 <= i < |s| ==> r[i] == LowerChar(s[i])
  {
    seq(|s|, i requires 0 <= i < |s| => LowerChar(s[i]))
  }

  /** Lower-casing twice changes nothing more. */
  lemma LowerIdempotent(s: string)
    ensures Lower(Lower(s)) == Lower(s)
  {
    assert forall i :: 0 <= i < |s| ==> Lower(Lower(s))[i] == Lower(s)[i];
  }

  /** `sub` occurs in `s` starting at index `i`. */
  predicate OccursAt(s: string, sub: string, i: nat) {
    i + |sub| <= |s| && s[i..i + |sub|] == sub
  }

  /** `s.includes(sub)`, searched from the left. */
  function Contains(s: string, sub: string): bool
    decreases |s|
  {
    if |sub| > |s| then false else s[..|sub|] == sub || Contains(s[1..], sub)
  }

  /** The search finds `sub` exactly when it occurs somewhere in `s`. */
  lemma {:induction false} ContainsIff(s: string, sub: string)
    ensures Contains(s, sub) <==> exists i: nat :: OccursAt(s, sub, i)
    decreases |s|
  {
    if |sub| > |s| {
      assert forall i: nat :: !OccursAt(s, sub, i);
    } else if s[..|sub|] == sub {
      assert OccursAt(s, sub, 0);
    } else {
      ContainsIff(s[1..], sub);
      if Contains(s[1..], sub) {
        var i: nat :| OccursAt(s[1..], sub, i);
        assert s[i + 1..i + 1 + |sub|] == s[1..][i..i + |sub|];
        assert OccursAt(s, sub, i + 1);
      }
      if i: nat :| OccursAt(s, sub, i) {
        assert i != 0;
        assert s[1..][i - 1..i - 1 + |sub|] == s[i..i + |sub|];
        assert OccursAt(s[1..], sub, i - 1);
      }
    }
  }

  // ---------------------------------------------------------------------------
  // Weights

  /** The keyword weight of a category name: the first matching rule wins, 0.05 if none does. */
  function Weight(name: string): (w: real)
    ensures 0.05 <= w <= 0.3
  {
    var n := Lower(name);
    if Contains(n, "food") || Contains(n, "groceries") then 0.3
    else if Contains(n, "transport") || Contains(n, "fuel") then 0.15
    else if Contains(n, "utilities") || Contains(n, "bills") then 0.15
    else if Contains(n, "health") || Contains(n, "medical") then 0.1
    else if Contains(n, "entertainment") || Contains(n, "leisure") then 0.08
    else if Contains(n, "shopping") || Contains(n, "clothing") then 0.07
    else 0.05
  }

  /** The weight does not depend on letter case. */
  lemma WeightIgnoresCase(name: string)
    ensures Weight(Lower(name)) == Weight(name)
  {
    LowerIdempotent(name);
  }

  /** One rule of the chain: two keywords and the weight a name containing either gets. */
  datatype Rule = Rule(first: string, second: string, weight: real)

  /** The rules in the order the chain tries them. */
  const WeightRules: seq<Rule> := [
    Rule("food", "groceries", 0.3),
    Rule("transport", "fuel", 0.15),
    Rule("utilities", "bills", 0.15),
    Rule("health", "medical", 0.1),
    Rule("entertainment", "leisure", 0.08),
    Rule("shopping", "clothing", 0.07)
  ]

  predicate Matches(n: string, r: Rule) {
    Contains(n, r.first) || Contains(n, r.second)
  }

  /**
   * The first rule that matches the lower-cased name decides its weight, whatever
   * later rules match too.
   */
  lemma WeightFirstRuleWins(name: string, k: nat)
    requires k < |WeightRules| && Matches(Lower(name), WeightRules[k])
    requires forall j :: 0 <= j < k ==> !Matches(Lower(name), WeightRules[j])
    ensures Weight(name) == WeightRules[k].weight
  {
    var n := Lower(name);
    if k > 0 { assert !Matches(n, WeightRules[0]); }
    if k > 1 { assert !Matches(n, WeightRules[1]); }
    if k > 2 { assert !Matches(n, WeightRules[2]); }
    if k > 3 { assert !Matches(n, WeightRules[3]); }
    if k > 4 { assert !Matches(n, WeightRules[4]); }
  }

  /** A name gets the default weight 0.05 exactly when no rule matches it. */
  lemma WeightDefault(name: string)
    ensures Weight(name) == 0.05 <==> forall j :: 0 <= j < |WeightRules| ==> !Matches(Lower(name), WeightRules[j])
  {
    var n := Lower(name);
    forall j | 0 <= j < |WeightRules| && Matches(n, WeightRules[j]) ensures Weight(name) != 0.05 {
      assert j in {0, 1, 2, 3, 4, 5};
    }
    if forall j :: 0 <= j < |WeightRules| ==> !Matches(n, WeightRules[j]) {
      assert !Matches(n, WeightRules[0]) && !Matches(n, WeightRules[1]) && !Matches(n, WeightRules[2]);
      assert !Matches(n, WeightRules[3]) && !Matches(n, WeightRules[4]) && !Matches(n, WeightRules[5]);
    }
  }

  /** `categoryWeights.reduce((sum, w) => sum + w, 0)`. */
  function TotalWeight(names: seq<string>): real {
    Sum(names, Weight)
  }

  /** Every weight is at least 0.05, so a non-empty list has a positive total. */
  lemma {:induction false} TotalWeightBound(names: seq<string>)
    ensures TotalWeight(names) >= 0.05 * |names| as real
    decreases |names|
  {
    if names != [] {
      TotalWeightBound(names[..|names| - 1]);
    }
  }

  // ---------------------------------------------------------------------------
  // The allocation

  /** `monthlyIncome - fixedExpenses - savingsTarget - loanEMI`, a missing field counting as 0. */
  function Available(s: BudgetSettings): real {
    s.monthlyIncome.GetOr(0.0) - s.fixedExpenses.GetOr(0.0) - s.savingsTarget.GetOr(0.0) - s.loanEMI.GetOr(0.0)
  }

  /** `categories.filter(cat => cat.trim() !== '')`: the rows kept as typed, in order. */
  function ValidNames(rows: seq<string>): (r: seq<string>)
    ensures |r| <= |rows|
    decreases |rows|
  {
    if rows == [] then []
    else if Trim(rows[0]) != "" then [rows[0]] + ValidNames(rows[1..])
    else ValidNames(rows[1..])
  }

  /** A name is kept iff it is one of the rows and is not all whitespace. */
  lemma {:induction false} ValidNamesMembers(rows: seq<string>)
    ensures forall x :: x in ValidNames(rows) <==> x in rows && !Blank(x)
    decreases |rows|
  {
    if rows != [] {
      var head, tail := rows[0], rows[1..];
      ValidNamesMembers(tail);
      TrimEmptyIffBlank(head);
      assert rows == [head] + tail;
      var kept := if Trim(head) != "" then [head] else [];
      assert ValidNames(rows) == kept + ValidNames(tail);
    }
  }

  /** The rows of a list split in two are validated part by part, so order and repeats survive. */
  lemma {:induction false} ValidNamesAppend(a: seq<string>, b: seq<string>)
    ensures ValidNames(a + b) == ValidNames(a) + ValidNames(b)
    decreases |a|
  {
    if a == [] {
      assert a + b == b;
    } else {
      assert (a + b)[0] == a[0] && (a + b)[1..] == a[1..] + b;
      ValidNamesAppend(a[1..], b);
    }
  }

  /** One row is kept as typed iff it is not blank. */
  lemma ValidNamesOne(x: string)
    ensures ValidNames([x]) == if Blank(x) then [] else [x]
  {
    TrimEmptyIffBlank(x);
    assert [x][1..] == [];
  }

  /** No name survives exactly when every row is blank. */
  lemma NoValidNamesIffAllBlank(rows: seq<string>)
    ensures ValidNames(rows) == [] <==> forall i :: 0 <= i < |rows| ==> Blank(rows[i])
  {
    ValidNamesMembers(rows);
    if ValidNames(rows) != [] {
      assert ValidNames(rows)[0] in ValidNames(rows);
    }
  }

  /** `(categoryWeights[index] / totalWeight) * availableAmount`: one name's share, before rounding. */
  function Allocation(name: string, total: real, available: real): real
    requires total != 0.0
  {
    Weight(name) / total * available
  }

  /** The shares of all the names, added up in order. */
  function SharesTotal(names: seq<string>, total: real, available: real): real
    requires total != 0.0
    decreases |names|
  {
    if names == [] then 0.0
    else SharesTotal(names[..|names| - 1], total, available) + Allocation(names[|names| - 1], total, available)
  }

  /** The shares add up to the weight total's share of `available`. */
  lemma {:induction false} SharesTotalOfWeights(names: seq<string>, total: real, available: real)
    requires total != 0.0
    ensures SharesTotal(names, total, available) == TotalWeight(names) / total * available
    decreases |names|
  {
    if names != [] {
      var front := names[..|names| - 1];
      SharesTotalOfWeights(front, total, available);
      ShareOfSum(TotalWeight(front), Weight(names[|names| - 1]), total, available);
    }
  }

  /** Before rounding, the categories share out exactly the available amount. */
  lemma SharesSumToAvailable(names: seq<string>, available: real)
    requires names != []
    ensures TotalWeight(names) > 0.0
    ensures SharesTotal(names, TotalWeight(names), available) == available
  {
    TotalWeightBound(names);
    SharesTotalOfWeights(names, TotalWeight(names), available);
    WholeShare(TotalWeight(names), available);
  }

  /** `Math.round(x * 100) / 100`: to the nearest cent, halves rounded up. */
  function RoundCents(x: real): (r: real)
    ensures x - 0.005 < r <= x + 0.005
  {
    (x * 100.0 + 0.5).Floor as real / 100.0
  }

  /** One category per name, in name order, budgeted at its share rounded to the cent. */
  function WeightedDrafts(names: seq<string>, total: real, available: real): (r: seq<CategoryDraft>)
    requires total != 0.0
    ensures |r| == |names|
    decreases |names|
  {
    if names == [] then []
    else WeightedDrafts(names[..|names| - 1], total, available) +
         [CategoryDraft(names[|names| - 1], RoundCents(Allocation(names[|names| - 1], total, available)))]
  }

  /** The `i`-th weighted category carries the `i`-th name and its rounded share. */
  lemma {:induction false} WeightedDraftsAt(names: seq<string>, total: real, available: real)
    requires total != 0.0
    ensures forall i :: 0 <= i < |names| ==>
      WeightedDrafts(names, total, available)[i] ==
        CategoryDraft(names[i], RoundCents(Allocation(names[i], total, available)))
    decreases |names|
  {
    if names != [] {
      WeightedDraftsAt(names[..|names| - 1], total, available);
    }
  }

  /** Rounding each of n shares moves their total by at most half a cent per share. */
  lemma {:induction false} WeightedDraftsClose(names: seq<string>, total: real, available: real)
    requires total != 0.0
    ensures SharesTotal(names, total, available) - 0.005 * |names| as real <=
            Sum(WeightedDrafts(names, total, available), DraftBudget)
    ensures Sum(WeightedDrafts(names, total, available), DraftBudget) <=
            SharesTotal(names, total, available) + 0.005 * |names| as real
    decreases |names|
  {
    if names != [] {
      var front := names[..|names| - 1];
      WeightedDraftsClose(front, total, available);
      var d := WeightedDrafts(names, total, available);
      assert d[..|d| - 1] == WeightedDrafts(front, total, available);
    }
  }

  /** The names of the two categories the generator adds beside the typed ones. */
  const SavingsName: string := "Savings"
  const EmergencyName: string := "Emergency Fund"

  /** The "Savings" category, added iff the savings target is positive. */
  function SavingsDrafts(s: BudgetSettings): seq<CategoryDraft> {
    if s.savingsTarget.GetOr(0.0) > 0.0 then [CategoryDraft(SavingsName, s.savingsTarget.value)] else []
  }

  /** The "Emergency Fund" category at 10% of income, added iff the switch is on. */
  function EmergencyDrafts(s: BudgetSettings): seq<CategoryDraft> {
    if s.emergencyFunds == Some(true) then [CategoryDraft(EmergencyName, s.monthlyIncome.GetOr(0.0) * 0.1)]
    else []
  }

  /**
   * The categories `handleGenerateBudget` adds, in order, or `None` when it stops at
   * the alert (no non-blank name, or nothing available).
   */
  function AiDrafts(s: BudgetSettings, rows: seq<string>): Option<seq<CategoryDraft>> {
    var names := ValidNames(rows);
    if |names| == 0 || Available(s) <= 0.0 then None
    else
      TotalWeightBound(names);
      Some(WeightedDrafts(names, TotalWeight(names), Available(s)) + SavingsDrafts(s) + EmergencyDrafts(s))
  }

  /** A successful plan is the weighted categories, then the savings one, then the emergency one. */
  lemma AiDraftsUnfold(s: BudgetSettings, rows: seq<string>)
    requires |ValidNames(rows)| != 0 && Available(s) > 0.0
    ensures TotalWeight(ValidNames(rows)) > 0.0
    ensures AiDrafts(s, rows) == Some(WeightedDrafts(ValidNames(rows), TotalWeight(ValidNames(rows)), Available(s)) +
                                     SavingsDrafts(s) + EmergencyDrafts(s))
  {
    TotalWeightBound(ValidNames(rows));
  }

  /** Generation stops with nothing added iff every row is blank or no money is available. */
  lemma AiDraftsFailIff(s: BudgetSettings, rows: seq<string>)
    ensures AiDrafts(s, rows).None? <==>
      (forall i :: 0 <= i < |rows| ==> Blank(rows[i])) || Available(s) <= 0.0
  {
    NoValidNamesIffAllBlank(rows);
  }

  /**
   * A successful plan starts with one category per non-blank row, in row order and under
   * the name as typed, each within half a cent of its weighted share of the available amount.
   */
  lemma AiDraftsShares(s: BudgetSettings, rows: seq<string>)
    requires AiDrafts(s, rows).Some?
    ensures var d := AiDrafts(s, rows).value;
            var names := ValidNames(rows);
            TotalWeight(names) > 0.0 && |names| <= |d| &&
            forall i :: 0 <= i < |names| ==>
              d[i].name == names[i] &&
              Allocation(names[i], TotalWeight(names), Available(s)) - 0.005 < d[i].budgetAmount &&
              d[i].budgetAmount <= Allocation(names[i], TotalWeight(names), Available(s)) + 0.005
  {
    var names := ValidNames(rows);
    TotalWeightBound(names);
    var w := WeightedDrafts(names, TotalWeight(names), Available(s));
    WeightedDraftsAt(names, TotalWeight(names), Available(s));
    var d := AiDrafts(s, rows).value;
    assert d[..|names|] == w;
    forall i | 0 <= i < |names|
      ensures d[i] == CategoryDraft(names[i], RoundCents(Allocation(names[i], TotalWeight(names), Available(s))))
    {
      assert d[i] == w[i];
    }
  }

  /**
   * After the weighted categories come "Savings", at the target, iff the target is
   * positive, then "Emergency Fund", at 10% of income, iff the switch is on.
   */
  lemma AiDraftsExtras(s: BudgetSettings, rows: seq<string>)
    requires AiDrafts(s, rows).Some?
    ensures var d := AiDrafts(s, rows).value;
            var n := |ValidNames(rows)|;
            var saving := if s.savingsTarget.GetOr(0.0) > 0.0 then 1 else 0;
            |d| == n + saving + (if s.emergencyFunds == Some(true) then 1 else 0) &&
            (s.savingsTarget.GetOr(0.0) > 0.0 <==>
              n < |d| && d[n] == CategoryDraft(SavingsName, s.savingsTarget.GetOr(0.0))) &&
            (s.emergencyFunds == Some(true) <==> |d| > n + saving) &&
            (s.emergencyFunds == Some(true) ==>
              d[|d| - 1] == CategoryDraft(EmergencyName, s.monthlyIncome.GetOr(0.0) * 0.1))
  {
  }

  /** The unrounded plan spends exactly the available amount; rounding moves it by at most half a cent per name. */
  lemma AiDraftsTotal(s: BudgetSettings, rows: seq<string>)
    requires AiDrafts(s, rows).Some?
    ensures var names := ValidNames(rows);
            var n := |names|;
            var spent := Sum(AiDrafts(s, rows).value[..n], DraftBudget);
            TotalWeight(names) > 0.0 &&
            SharesTotal(names, TotalWeight(names), Available(s)) == Available(s) &&
            Available(s) - 0.005 * n as real <= spent <= Available(s) + 0.005 * n as real
  {
    var names := ValidNames(rows);
    SharesSumToAvailable(names, Available(s));
    WeightedDraftsClose(names, TotalWeight(names), Available(s));
    var w := WeightedDrafts(names, TotalWeight(names), Available(s));
    assert AiDrafts(s, rows).value[..|names|] == w;
  }

  /**
   * The `forEach` over the non-blank names: each gets its rounded weighted share of
   * `available`, under the next fresh id, in order.
   */
  method AddWeighted(store: FinanceStore, ids: seq<string>, ghost base: seq<BudgetCategory>,
                     names: seq<string>, total: real, available: real) returns (done: seq<CategoryDraft>)
    requires total != 0.0 && FreshIds(ids, base) && |names| <= |ids|
    requires store.budgetCategories == base
    modifies store`budgetCategories
    ensures done == WeightedDrafts(names, total, available)
    ensures store.budgetCategories == base + Created(ids, done)
    ensures old(store.IdsDistinct()) ==> store.IdsDistinct()
  {
    ghost var weighted := WeightedDrafts(names, total, available);
    WeightedDraftsAt(names, total, available);
    done := [];
    var index := 0;
    while index < |names|
      invariant 0 <= index <= |names|
      invariant done == weighted[..index]
      invariant store.budgetCategories == base + Created(ids, done)
      invariant old(store.IdsDistinct()) ==> store.IdsDistinct()
    {
      var allocation := Weight(names[index]) / total * available;
      var draft := CategoryDraft(names[index], RoundCents(allocation));
      assert draft == weighted[index];
      AddDraft(store, ids, base, done, draft);
      done := done + [draft];
      index := index + 1;
    }
    assert done == weighted;
  }

  /**
   * The two `if` blocks after the loop: the "Savings" category when the target is
   * positive, then the "Emergency Fund" category when the switch is on.
   */
  method AddExtras(store: FinanceStore, ids: seq<string>, ghost base: seq<BudgetCategory>,
                   done: seq<CategoryDraft>, s: BudgetSettings) returns (all: seq<CategoryDraft>)
    requires FreshIds(ids, base) && |done| + 2 <= |ids|
    requires store.budgetCategories == base + Created(ids, done)
    modifies store`budgetCategories
    ensures all == done + SavingsDrafts(s) + EmergencyDrafts(s)
    ensures store.budgetCategories == base + Created(ids, all)
    ensures old(store.IdsDistinct()) ==> store.IdsDistinct()
  {
    all := done;
    var savingsTarget := s.savingsTarget.GetOr(0.0);
    if savingsTarget > 0.0 {
      var draft := CategoryDraft(SavingsName, savingsTarget);
      AddDraft(store, ids, base, all, draft);
      all := all + [draft];
    }
    ghost var saved := all;
    assert saved == done + SavingsDrafts(s);
    if s.emergencyFunds == Some(true) {
      var draft := CategoryDraft(EmergencyName, s.monthlyIncome.GetOr(0.0) * 0.1);
      AddDraft(store, ids, base, all, draft);
      all := all + [draft];
    }
    assert all == saved + EmergencyDrafts(s);
  }

  // ---------------------------------------------------------------------------
  // The form

  /** The creator's state: the settings typed so far and the category-name rows. */
  class AiBudgetForm {
    var settings: BudgetSettings
    var categories: seq<string>

    /** The initial state: an empty age group, no dependents, the switch off, one empty row. */
    constructor()
      ensures settings == BudgetSettings(None, None, Some(""), Some(0.0), None, None, Some(false), None)
      ensures categories == [""]
    {
      settings := BudgetSettings(None, None, Some(""), Some(0.0), None, None, Some(false), None);
      categories := [""];
    }

    /** `handleAddCategory`: one more empty row at the end. */
    method AddCategory()
      modifies this`categories
      ensures categories == old(categories) + [""]
    {
      categories := categories + [""];
    }

    /** `handleRemoveCategory(index)`: row `index` goes, the others keep their order. */
    method RemoveCategory(index: int)
      modifies this`categories
      ensures categories == WithoutIndex(old(categories), index)
      ensures 0 <= index < |old(categories)| ==> |categories| == |old(categories)| - 1
    {
      categories := WithoutIndex(categories, index);
    }

    /** `handleCategoryChange(index, value)`: row `index` becomes `value`, no other row changes. */
    method ChangeCategory(index: nat, value: string)
      requires index < |categories|
      modifies this`categories
      ensures categories == old(categories)[index := value]
    {
      var updated := categories;
      updated := updated[index := value];
      categories := updated;
    }

    /**
     * `handleGenerateBudget`: either stops at the alert with nothing changed, or adds the
     * planned categories in order, each with a fresh id from `ids`, then stores the
     * settings marked as AI-generated and completes.
     */
    method GenerateBudget(store: FinanceStore, ids: seq<string>) returns (completed: bool)
      requires FreshIds(ids, store.budgetCategories) && |ids| >= |categories| + 2
      modifies store`budgetCategories, store`budgetSettings
      ensures completed <==> AiDrafts(settings, categories).Some?
      ensures !completed ==>
        store.budgetCategories == old(store.budgetCategories) && store.budgetSettings == old(store.budgetSettings)
      ensures completed ==>
        |AiDrafts(settings, categories).value| <= |ids| &&
        store.budgetCategories == old(store.budgetCategories) + Created(ids, AiDrafts(settings, categories).value) &&
        store.budgetSettings == Some(settings.(isAIGenerated := Some(true)))
      ensures old(store.IdsDistinct()) ==> store.IdsDistinct()
    {
      var s := settings;
      var monthlyIncome := s.monthlyIncome.GetOr(0.0);
      var savingsTarget := s.savingsTarget.GetOr(0.0);
      var availableAmount := monthlyIncome - s.fixedExpenses.GetOr(0.0) - savingsTarget - s.loanEMI.GetOr(0.0);
      var rows := categories;
      var validCategories := ValidNames(rows);
      if |validCategories| == 0 || availableAmount <= 0.0 {
        return false;
      }
      TotalWeightBound(validCategories);
      var totalWeight := TotalWeight(validCategories);
      ghost var base := store.budgetCategories;
      var weighted := AddWeighted(store, ids, base, validCategories, totalWeight, availableAmount);
      var all := AddExtras(store, ids, base, weighted, s);
      assert Available(s) == availableAmount;
      AiDraftsUnfold(s, rows);
      assert AiDrafts(s, rows) == Some(all);
      store.SetBudgetSettings(s.(isAIGenerated := Some(true)));
      completed := true;
    }
  }
}
