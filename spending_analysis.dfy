/**
 * The spending analysis panel (`src/components/budget/SpendingAnalysis.tsx`):
 * insights drawn from the budget categories, and the suggestions built from them.
 *
 * Only the kind of each suggestion and the data it shows are modelled, not its text.
 */
module SpendingAnalysis {
  import opened Collections
  import opened FinanceTypes
  import opened Ratios

  function TotalBudget(cats: seq<BudgetCategory>): real { Sum(cats, CategoryBudget) }

  function TotalSpent(cats: seq<BudgetCategory>): real { Sum(cats, CategorySpent) }

  /** A category's used percentage, 0 when its budget is not positive. */
  function UsedPercent(c: BudgetCategory): (p: real)
    ensures c.budgetAmount <= 0.0 ==> p == 0.0
    ensures c.budgetAmount > 0.0 ==> p * c.budgetAmount == c.spent * 100.0
  {
    if c.budgetAmount > 0.0 then c.spent / c.budgetAmount * 100.0 else 0.0
  }

  predicate IsNearLimit(c: BudgetCategory) {
    90.0 <= UsedPercent(c) <= 100.0
  }

  predicate IsOverLimit(c: BudgetCategory) {
    UsedPercent(c) > 100.0
  }

  /** A percentage `p` of a positive `b` that `s` makes up, read back on `s` and `b`. */
  lemma PercentBands(p: real, b: real, s: real)
    requires b > 0.0 && p * b == s * 100.0
    ensures 90.0 <= p <= 100.0 <==> 0.9 * b <= s <= b
    ensures p > 100.0 <==> s > b
  {
    ScaleKeepsOrder(90.0, p, b);
    ScaleKeepsOrder(p, 100.0, b);
    ScaleKeepsOrder(100.0, p, b);
  }

  /**
   * Near the limit means a positive budget with 90% to 100% of it spent; over the
   * limit means a positive budget with more than all of it spent. No category is both.
   */
  lemma LimitBands(c: BudgetCategory)
    ensures IsNearLimit(c) <==> c.budgetAmount > 0.0 && 0.9 * c.budgetAmount <= c.spent <= c.budgetAmount
    ensures IsOverLimit(c) <==> c.budgetAmount > 0.0 && c.spent > c.budgetAmount
    ensures !(IsNearLimit(c) && IsOverLimit(c))
  {
    if c.budgetAmount > 0.0 {
      PercentBands(UsedPercent(c), c.budgetAmount, c.spent);
    }
  }

  /**
   * The position of `[...cats].sort((a, b) => b.spent - a.spent)[0]`: the sort is
   * stable, so this is the first category with the largest `spent`.
   */
  function HighestIndex(cats: seq<BudgetCategory>): (k: nat)
    requires cats != []
    ensures k < |cats|
    ensures forall j :: 0 <= j < |cats| ==> cats[j].spent <= cats[k].spent
    ensures forall j :: 0 <= j < k ==> cats[j].spent < cats[k].spent
    decreases |cats|
  {
    if |cats| == 1 then 0
    else
      var k := HighestIndex(cats[..|cats| - 1]);
      if cats[k].spent >= cats[|cats| - 1].spent then k else |cats| - 1
  }

  datatype Insights = Insights(
    spentPercentage: real,
    nearLimit: seq<BudgetCategory>,
    overLimit: seq<BudgetCategory>,
    highestSpending: BudgetCategory)

  /** `generateInsights`: nothing when the total budget is 0. */
  function GenerateInsights(cats: seq<BudgetCategory>): (r: Option<Insights>)
    ensures r.None? <==> TotalBudget(cats) == 0.0
    ensures r.Some? ==> r.value.spentPercentage * TotalBudget(cats) == TotalSpent(cats) * 100.0
  {
    if TotalBudget(cats) == 0.0 then None
    else
      Some(Insights(
        TotalSpent(cats) / TotalBudget(cats) * 100.0,
        Filter(cats, IsNearLimit),
        Filter(cats, IsOverLimit),
        cats[HighestIndex(cats)]))
  }

  /**
   * With a non-zero budget, the near-limit and over-limit lists hold exactly the
   * categories in those bands and share none; the highest spender is a category
   * spending at least as much as every other.
   */
  lemma InsightsLists(cats: seq<BudgetCategory>, c: BudgetCategory)
    requires GenerateInsights(cats).Some?
    ensures var ins := GenerateInsights(cats).value;
      (c in ins.nearLimit <==> c in cats && c.budgetAmount > 0.0 && 0.9 * c.budgetAmount <= c.spent <= c.budgetAmount) &&
      (c in ins.overLimit <==> c in cats && c.budgetAmount > 0.0 && c.spent > c.budgetAmount) &&
      !(c in ins.nearLimit && c in ins.overLimit) &&
      ins.highestSpending in cats &&
      (c in cats ==> c.spent <= ins.highestSpending.spent)
  {
    FilterMembers(cats, IsNearLimit, c);
    FilterMembers(cats, IsOverLimit, c);
    LimitBands(c);
  }

  datatype Suggestion =
    | Warning(category: string, excess: real)
    | Alert(categories: seq<string>)
    | Info(category: string)
    | Success

  /** One warning per over-limit category, in order, with the amount spent beyond its budget. */
  function Warnings(over: seq<BudgetCategory>): (r: seq<Suggestion>)
    ensures |r| == |over|
    decreases |over|
  {
    if over == [] then []
    else
      var last := over[|over| - 1];
      Warnings(over[..|over| - 1]) + [Warning(last.name, last.spent - last.budgetAmount)]
  }

  lemma {:induction false} WarningsAt(over: seq<BudgetCategory>)
    ensures forall i :: 0 <= i < |over| ==>
      Warnings(over)[i] == Warning(over[i].name, over[i].spent - over[i].budgetAmount)
    decreases |over|
  {
    if over != [] {
      WarningsAt(over[..|over| - 1]);
    }
  }

  /** `nearLimit.map(c => c.name)`. */
  function Names(cs: seq<BudgetCategory>): seq<string> {
    seq(|cs|, i requires 0 <= i < |cs| => cs[i].name)
  }

  /**
   * The info suggestion's test on the highest spender: something spent and
   * `spent / budgetAmount * 100 > 70`. A zero budget gives `+Infinity` there, which
   * passes; a negative budget gives a negative percentage, which fails.
   */
  predicate InfoDue(h: BudgetCategory) {
    h.spent > 0.0 && (h.budgetAmount == 0.0 || (h.budgetAmount > 0.0 && h.spent / h.budgetAmount * 100.0 > 70.0))
  }

  /** What `generateSuggestions` returns. */
  function Suggestions(cats: seq<BudgetCategory>): seq<Suggestion> {
    match GenerateInsights(cats)
    case None => []
    case Some(ins) => Warnings(ins.overLimit) + AlertPart(ins) + InfoPart(ins) + SuccessPart(ins)
  }

  function AlertPart(ins: Insights): seq<Suggestion> {
    if ins.nearLimit != [] then [Alert(Names(ins.nearLimit))] else []
  }

  function InfoPart(ins: Insights): seq<Suggestion> {
    if InfoDue(ins.highestSpending) then [Info(ins.highestSpending.name)] else []
  }

  function SuccessPart(ins: Insights): seq<Suggestion> {
    if ins.spentPercentage < 80.0 then [Success] else []
  }

  /** The alert, the info and the success that may follow the warnings, in that order. */
  function Closing(ins: Insights): seq<Suggestion> {
    AlertPart(ins) + InfoPart(ins) + SuccessPart(ins)
  }

  /** `generateSuggestions`: the list built up by `push`. */
  method GenerateSuggestions(cats: seq<BudgetCategory>) returns (suggestions: seq<Suggestion>)
    ensures suggestions == Suggestions(cats)
  {
    var insights := GenerateInsights(cats);
    if insights.None? {
      return [];
    }
    var ins := insights.value;
    suggestions := PushWarnings(ins.overLimit);
    suggestions := PushClosing(ins, suggestions);
    ClosingFollows(Warnings(ins.overLimit), ins);
  }

  /** The `forEach` over the over-limit categories: one warning each, in order. */
  method PushWarnings(over: seq<BudgetCategory>) returns (suggestions: seq<Suggestion>)
    ensures suggestions == Warnings(over)
  {
    suggestions := [];
    var k := 0;
    while k < |over|
      invariant 0 <= k <= |over|
      invariant suggestions == Warnings(over[..k])
    {
      var cat := over[k];
      assert over[..k + 1][..k] == over[..k];
      suggestions := suggestions + [Warning(cat.name, cat.spent - cat.budgetAmount)];
      k := k + 1;
    }
    assert over[..k] == over;
  }

  /** The three conditional `push`es that follow the warnings. */
  method PushClosing(ins: Insights, warned: seq<Suggestion>) returns (suggestions: seq<Suggestion>)
    ensures suggestions == warned + Closing(ins)
  {
    suggestions := warned;
    if |ins.nearLimit| > 0 {
      suggestions := suggestions + [Alert(Names(ins.nearLimit))];
    }
    ghost var alerted := suggestions;
    var highest := ins.highestSpending;
    if highest.spent > 0.0 {
      if highest.budgetAmount == 0.0 || (highest.budgetAmount > 0.0 && highest.spent / highest.budgetAmount * 100.0 > 70.0) {
        suggestions := suggestions + [Info(highest.name)];
      }
    }
    ghost var informed := suggestions;
    if ins.spentPercentage < 80.0 {
      suggestions := suggestions + [Success];
    }
    assert alerted == warned + AlertPart(ins);
    assert informed == alerted + InfoPart(ins);
    assert suggestions == informed + SuccessPart(ins);
    ClosingFollows(warned, ins);
  }

  /** The order of the kinds: warnings, then the alert, the info and the success. */
  function Rank(s: Suggestion): nat {
    match s
    case Warning(_, _) => 0
    case Alert(_) => 1
    case Info(_) => 2
    case Success => 3
  }

  /** The closing suggestions are at most three, none a warning, each kind after the one before. */
  lemma ClosingOrder(ins: Insights)
    ensures var c := Closing(ins);
            |c| <= 3 &&
            (forall i :: 0 <= i < |c| ==> Rank(c[i]) > 0) &&
            forall i, j :: 0 <= i < j < |c| ==> Rank(c[i]) < Rank(c[j])
  {
    var a, b, d := AlertPart(ins), InfoPart(ins), SuccessPart(ins);
    var c := a + b + d;
    assert forall x :: x in a ==> Rank(x) == 1;
    assert forall x :: x in b ==> Rank(x) == 2;
    assert forall x :: x in d ==> Rank(x) == 3;
    forall i, j | 0 <= i < j < |c| ensures Rank(c[i]) < Rank(c[j]) {
      assert c[i] in a || c[i] in b;
      if c[i] in b {
        assert c[j] in d;
      } else {
        assert c[j] in b || c[j] in d;
      }
    }
  }

  /**
   * No suggestions without a budget. Otherwise the list opens with one warning per
   * over-limit category, in category order, each with a positive excess.
   */
  lemma SuggestionsWarnings(cats: seq<BudgetCategory>)
    ensures TotalBudget(cats) == 0.0 ==> Suggestions(cats) == []
    ensures TotalBudget(cats) != 0.0 ==> WarnsFirst(Suggestions(cats), Filter(cats, IsOverLimit))
    ensures forall i :: 0 <= i < |Filter(cats, IsOverLimit)| ==>
      Filter(cats, IsOverLimit)[i].spent - Filter(cats, IsOverLimit)[i].budgetAmount > 0.0
  {
    if TotalBudget(cats) != 0.0 {
      SuggestionsShape(cats);
      WarningsFirst(Filter(cats, IsOverLimit), GenerateInsights(cats).value);
    } else {
      NoBudgetNoSuggestions(cats);
    }
    OverLimitExcess(cats);
  }

  /**
   * `s` opens with one warning per category of `over`, in order, each naming the
   * category and its excess, and holds at most three suggestions more.
   */
  predicate WarnsFirst(s: seq<Suggestion>, over: seq<BudgetCategory>) {
    |over| <= |s| <= |over| + 3 &&
    forall i :: 0 <= i < |over| ==> s[i] == Warning(over[i].name, over[i].spent - over[i].budgetAmount)
  }

  /** The warnings stand first, one per category, and at most three suggestions follow. */
  lemma WarningsFirst(over: seq<BudgetCategory>, ins: Insights)
    ensures WarnsFirst(Warnings(over) + Closing(ins), over)
  {
    WarningsAt(over);
    ClosingOrder(ins);
  }

  /** Every over-limit category has spent strictly more than its budget. */
  lemma OverLimitExcess(cats: seq<BudgetCategory>)
    ensures forall i :: 0 <= i < |Filter(cats, IsOverLimit)| ==>
      Filter(cats, IsOverLimit)[i].spent - Filter(cats, IsOverLimit)[i].budgetAmount > 0.0
  {
    var over := Filter(cats, IsOverLimit);
    forall i | 0 <= i < |over| ensures over[i].spent - over[i].budgetAmount > 0.0 {
      FilterMembers(cats, IsOverLimit, over[i]);
      LimitBands(over[i]);
    }
  }

  lemma ClosingFollows(w: seq<Suggestion>, ins: Insights)
    ensures w + AlertPart(ins) + InfoPart(ins) + SuccessPart(ins) == w + Closing(ins)
  {
  }

  /** Without a budget there are no insights and so no suggestions. */
  lemma NoBudgetNoSuggestions(cats: seq<BudgetCategory>)
    requires TotalBudget(cats) == 0.0
    ensures Suggestions(cats) == []
  {
    assert GenerateInsights(cats) == None;
  }

  /** With a budget, the list is the over-limit warnings followed by the closing suggestions. */
  lemma SuggestionsShape(cats: seq<BudgetCategory>)
    requires TotalBudget(cats) != 0.0
    ensures GenerateInsights(cats).value.overLimit == Filter(cats, IsOverLimit)
    ensures Suggestions(cats) == Warnings(Filter(cats, IsOverLimit)) + Closing(GenerateInsights(cats).value)
  {
    ClosingFollows(Warnings(Filter(cats, IsOverLimit)), GenerateInsights(cats).value);
  }

  /** From position `n` on, no warning and each kind strictly after the one before. */
  predicate RisingFrom(s: seq<Suggestion>, n: nat) {
    forall i, j :: n <= i < j < |s| ==> 0 < Rank(s[i]) < Rank(s[j])
  }

  /** Whatever comes before them, the closing suggestions strictly rise in rank. */
  lemma ClosingOrderAfter(w: seq<Suggestion>, ins: Insights)
    ensures RisingFrom(w + Closing(ins), |w|)
  {
    var c := Closing(ins);
    ClosingOrder(ins);
    forall i, j | |w| <= i < j < |w + c| ensures 0 < Rank((w + c)[i]) < Rank((w + c)[j]) {
      assert (w + c)[i] == c[i - |w|] && (w + c)[j] == c[j - |w|];
    }
  }

  /**
   * After the warnings there is no other warning and the kinds strictly rise, so the
   * alert, the info and the success each appear at most once and in that order.
   */
  lemma SuggestionsOrder(cats: seq<BudgetCategory>)
    ensures RisingFrom(Suggestions(cats), |Filter(cats, IsOverLimit)|)
  {
    if TotalBudget(cats) != 0.0 {
      SuggestionsShape(cats);
      ClosingOrderAfter(Warnings(Filter(cats, IsOverLimit)), GenerateInsights(cats).value);
    } else {
      NoBudgetNoSuggestions(cats);
    }
  }

  /** The alert is there iff some category is near its limit. */
  lemma AlertIff(cats: seq<BudgetCategory>)
    ensures (exists i :: 0 <= i < |Suggestions(cats)| && Suggestions(cats)[i].Alert?) <==>
      TotalBudget(cats) != 0.0 && exists c :: c in cats && IsNearLimit(c)
  {
    var s := Suggestions(cats);
    if TotalBudget(cats) != 0.0 {
      var near := Filter(cats, IsNearLimit);
      var w := |Filter(cats, IsOverLimit)|;
      if near != [] {
        FilterMembers(cats, IsNearLimit, near[0]);
        assert s[w].Alert?;
      } else {
        forall c | c in cats ensures !IsNearLimit(c) {
          FilterMembers(cats, IsNearLimit, c);
        }
        var ins := GenerateInsights(cats).value;
        WarningsAt(ins.overLimit);
        forall i | 0 <= i < |s| ensures !s[i].Alert? {
          if i < w {
            assert s[i] == Warnings(ins.overLimit)[i];
          } else {
            assert s[i] == Closing(ins)[i - w];
          }
        }
      }
    }
  }

  /** Warnings are never the success message. */
  lemma NoSuccessAmongWarnings(over: seq<BudgetCategory>)
    ensures Success !in Warnings(over)
  {
    WarningsAt(over);
  }

  /**
   * The success suggestion is there iff the overall spent percentage is below 80; for
   * a positive total budget, iff less than 80% of it is spent.
   */
  lemma SuccessIff(cats: seq<BudgetCategory>)
    ensures Success in Suggestions(cats) <==>
      TotalBudget(cats) != 0.0 && GenerateInsights(cats).value.spentPercentage < 80.0
    ensures TotalBudget(cats) > 0.0 ==>
      (Success in Suggestions(cats) <==> TotalSpent(cats) < 0.8 * TotalBudget(cats))
  {
    if TotalBudget(cats) != 0.0 {
      var ins := GenerateInsights(cats).value;
      SuggestionsShape(cats);
      NoSuccessAmongWarnings(Filter(cats, IsOverLimit));
      assert Success in Closing(ins) <==> ins.spentPercentage < 80.0;
      if TotalBudget(cats) > 0.0 {
        BelowShare(ins.spentPercentage, TotalBudget(cats), TotalSpent(cats));
      }
    } else {
      assert GenerateInsights(cats).None?;
    }
  }

  /** A percentage `p` of a positive total `t` that `s` makes up is below 80 iff `s` is below 80% of `t`. */
  lemma BelowShare(p: real, t: real, s: real)
    requires t > 0.0 && p * t == s * 100.0
    ensures p < 80.0 <==> s < 0.8 * t
  {
    ScaleKeepsOrder(p, 80.0, t);
  }

  /** The closing sentence of the analysis text, chosen by the overall spent percentage. */
  datatype Habit = CloseToLimit | WatchSpending | Effective

  /** `spentPercentage > 90 ? … : spentPercentage > 70 ? … : …`; no text when there are no insights. */
  function HabitNote(cats: seq<BudgetCategory>): Option<Habit> {
    match GenerateInsights(cats)
    case None => None
    case Some(ins) =>
      Some(if ins.spentPercentage > 90.0 then CloseToLimit
           else if ins.spentPercentage > 70.0 then WatchSpending
           else Effective)
  }

  /**
   * There is a sentence iff the total budget is not 0. For a positive total budget it
   * warns of the limit iff more than 90% is spent, asks to watch spending iff more than
   * 70% and at most 90% is, and praises otherwise; the praise always comes with the
   * success suggestion, the limit warning never does.
   */
  lemma HabitNoteBands(cats: seq<BudgetCategory>)
    ensures HabitNote(cats).None? <==> TotalBudget(cats) == 0.0
    ensures var t, sp := TotalBudget(cats), TotalSpent(cats);
      t > 0.0 ==>
        (HabitNote(cats) == Some(CloseToLimit) <==> sp * 100.0 > 90.0 * t) &&
        (HabitNote(cats) == Some(WatchSpending) <==> 70.0 * t < sp * 100.0 <= 90.0 * t) &&
        (HabitNote(cats) == Some(Effective) <==> sp * 100.0 <= 70.0 * t)
    ensures HabitNote(cats) == Some(Effective) ==> Success in Suggestions(cats)
    ensures HabitNote(cats) == Some(CloseToLimit) ==> Success !in Suggestions(cats)
  {
    SuccessIff(cats);
    var t, sp := TotalBudget(cats), TotalSpent(cats);
    if t > 0.0 {
      var p := GenerateInsights(cats).value.spentPercentage;
      QuotientAbove(p, t, sp * 100.0, 90.0);
      QuotientAbove(p, t, sp * 100.0, 70.0);
    }
  }
}
