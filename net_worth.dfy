/**
 * The net worth page (`src/pages/NetWorth.tsx`): the split of the asset/liability
 * records by type, the two totals, net worth, and the debt band the insight picks.
 * The insight's wording, its rounded percentage and its suggested amounts are text.
 */
module NetWorth {
  import opened Collections
  import opened FinanceTypes
  import opened Ratios

  predicate IsAsset(x: AssetLiability) {
    x.kind == Asset
  }

  predicate IsLiability(x: AssetLiability) {
    x.kind == Liability
  }

  /** `assetsLiabilities.filter(item => item.type === 'asset')`. */
  function Assets(items: seq<AssetLiability>): seq<AssetLiability> {
    Filter(items, IsAsset)
  }

  /** `assetsLiabilities.filter(item => item.type === 'liability')`. */
  function Liabilities(items: seq<AssetLiability>): seq<AssetLiability> {
    Filter(items, IsLiability)
  }

  /**
   * The two lists partition the records: each record is in exactly one of them,
   * their lengths add up, and so do their values.
   */
  lemma Partition(items: seq<AssetLiability>)
    ensures forall x :: x in Assets(items) <==> x in items && x.kind == Asset
    ensures forall x :: x in Liabilities(items) <==> x in items && x.kind == Liability
    ensures forall x :: x in items ==> (x in Assets(items) <==> x !in Liabilities(items))
    ensures |Assets(items)| + |Liabilities(items)| == |items|
    ensures Sum(items, AssetLiabilityValue) ==
            Sum(Assets(items), AssetLiabilityValue) + Sum(Liabilities(items), AssetLiabilityValue)
  {
    forall x ensures x in Assets(items) <==> x in items && x.kind == Asset {
      FilterMembers(items, IsAsset, x);
    }
    forall x ensures x in Liabilities(items) <==> x in items && x.kind == Liability {
      FilterMembers(items, IsLiability, x);
    }
    FilterComplement(items, IsAsset, IsLiability, AssetLiabilityValue);
  }

  function TotalAssets(items: seq<AssetLiability>): real {
    Sum(Assets(items), AssetLiabilityValue)
  }

  function TotalLiabilities(items: seq<AssetLiability>): real {
    Sum(Liabilities(items), AssetLiabilityValue)
  }

  /** `totalAssets - totalLiabilities`. */
  function NetWorthOf(items: seq<AssetLiability>): real {
    TotalAssets(items) - TotalLiabilities(items)
  }

  /**
   * Recording one more item raises net worth by its value when it is an asset and
   * lowers it by its value when it is a liability; an empty list is worth 0.
   */
  lemma {:induction false} NetWorthAppend(items: seq<AssetLiability>, x: AssetLiability)
    ensures NetWorthOf([]) == 0.0
    ensures NetWorthOf(items + [x]) ==
            NetWorthOf(items) + (if x.kind == Asset then x.value else -x.value)
  {
    var s := items + [x];
    assert s[..|s| - 1] == items;
    SumAppend(Assets(items), if IsAsset(x) then [x] else [], AssetLiabilityValue);
    SumAppend(Liabilities(items), if IsLiability(x) then [x] else [], AssetLiabilityValue);
    SumSingleton(x, AssetLiabilityValue);
  }

  /** `NetWorthAppend` read from the other end: the last record's signed value on top of the rest. */
  lemma NetWorthDropLast(items: seq<AssetLiability>)
    requires items != []
    ensures var last := items[|items| - 1];
      NetWorthOf(items) == NetWorthOf(items[..|items| - 1]) + (if last.kind == Asset then last.value else -last.value)
  {
    var front, last := items[..|items| - 1], items[|items| - 1];
    assert items == front + [last];
    NetWorthAppend(front, last);
  }

  /** `totalLiabilities / (totalAssets || 1)`: a zero total of assets divides by 1. */
  function DebtRatio(totalAssets: real, totalLiabilities: real): real {
    totalLiabilities / (if totalAssets != 0.0 then totalAssets else 1.0)
  }

  datatype DebtBand = HighDebt | ModerateDebt | HealthyDebt

  /** The branch `generateAIInsight` takes for a ratio. */
  function BandOf(ratio: real): DebtBand {
    if ratio > 0.5 then HighDebt
    else if ratio > 0.3 then ModerateDebt
    else HealthyDebt
  }

  /** The band the page shows for the records. */
  function InsightBand(items: seq<AssetLiability>): DebtBand {
    BandOf(DebtRatio(TotalAssets(items), TotalLiabilities(items)))
  }

  /**
   * Exactly one band is chosen for any ratio: high above 0.5, moderate in (0.3, 0.5],
   * healthy up to 0.3. With no assets the ratio is the liabilities themselves; with
   * positive assets the bands compare liabilities with half and with 30% of the assets.
   */
  lemma DebtBands(a: real, l: real)
    ensures var r := DebtRatio(a, l);
      (BandOf(r) == HighDebt <==> r > 0.5) &&
      (BandOf(r) == ModerateDebt <==> 0.3 < r <= 0.5) &&
      (BandOf(r) == HealthyDebt <==> r <= 0.3)
    ensures a == 0.0 ==> DebtRatio(a, l) == l
    ensures a > 0.0 ==> DebtRatio(a, l) * a == l
    ensures a > 0.0 ==>
      (BandOf(DebtRatio(a, l)) == HighDebt <==> l > 0.5 * a) &&
      (BandOf(DebtRatio(a, l)) == ModerateDebt <==> 0.3 * a < l <= 0.5 * a)
  {
    if a > 0.0 {
      var r := DebtRatio(a, l);
      QuotientTimes(l, a);
      QuotientAbove(r, a, l, 0.5);
      QuotientAbove(r, a, l, 0.3);
    }
  }

}
