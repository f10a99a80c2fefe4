/**
 * The asset-versus-liability card (`src/components/net-worth/AssetLiabilityRatio.tsx`):
 * the ratio, the two widths of the bar and the trend arrow, all from the two totals.
 *
 * JavaScript divides by zero into an infinity; the one place that can happen here,
 * positive assets with liabilities of the opposite amount, has no percentages (`None`).
 */
module AssetLiabilityRatio {
  import opened Collections
  import opened Ratios

  /** Assets per unit of liability, or the assets themselves when there are no positive liabilities. */
  function Ratio(totalAssets: real, totalLiabilities: real): real {
    if totalLiabilities > 0.0 then totalAssets / totalLiabilities else totalAssets
  }

  /** The widths of the two parts of the bar, in percent. */
  datatype Split = Split(asset: real, liability: real)

  /**
   * `assetPercentage` and `liabilityPercentage`: the two always add up to 100; without
   * positive assets the bar is split evenly; otherwise the asset part is the assets'
   * share of the two totals.
   */
  function Shares(totalAssets: real, totalLiabilities: real): (r: Option<Split>)
    ensures r.Some? ==> r.value.asset + r.value.liability == 100.0
    ensures totalAssets <= 0.0 ==> r == Some(Split(50.0, 50.0))
    ensures r.None? <==> totalAssets > 0.0 && totalAssets + totalLiabilities == 0.0
    ensures totalAssets > 0.0 && r.Some? ==> r.value.asset * (totalAssets + totalLiabilities) == totalAssets * 100.0
  {
    if totalAssets <= 0.0 then Some(Split(50.0, 50.0))
    else if totalAssets + totalLiabilities == 0.0 then None
    else
      var asset := totalAssets / (totalAssets + totalLiabilities) * 100.0;
      QuotientTimes(totalAssets * 100.0, totalAssets + totalLiabilities);
      Some(Split(asset, 100.0 - asset))
  }

  /**
   * With positive assets and no negative liabilities the asset part lies in (0, 100],
   * it is the whole bar iff there are no liabilities, and the liability part is the
   * liabilities' share of the two totals.
   */
  lemma SharesBounds(totalAssets: real, totalLiabilities: real)
    requires totalAssets > 0.0 && totalLiabilities >= 0.0
    ensures Shares(totalAssets, totalLiabilities).Some?
    ensures var s := Shares(totalAssets, totalLiabilities).value;
      0.0 < s.asset <= 100.0 &&
      (s.asset == 100.0 <==> totalLiabilities == 0.0) &&
      s.liability * (totalAssets + totalLiabilities) == totalLiabilities * 100.0
  {
    var whole := totalAssets + totalLiabilities;
    var s := Shares(totalAssets, totalLiabilities).value;
    ScaleKeepsOrder(0.0, s.asset, whole);
    ScaleKeepsOrder(s.asset, 100.0, whole);
    ScaleKeepsOrder(100.0, s.asset, whole);
    LiabilityShare(s.asset, whole, totalAssets, totalLiabilities);
  }

  /** The complement of the asset share is the liability share. */
  lemma LiabilityShare(asset: real, whole: real, a: real, l: real)
    requires whole == a + l && asset * whole == a * 100.0
    ensures (100.0 - asset) * whole == l * 100.0
  {
  }

  datatype Trend = Positive | Moderate | NeedsAttention

  function TrendOf(ratio: real): Trend {
    if ratio > 3.0 then Positive else if ratio > 2.0 then Moderate else NeedsAttention
  }

  /**
   * Exactly one trend is shown: positive above 3, moderate in (2, 3], needs attention
   * otherwise. With positive liabilities that compares the assets with three and two
   * times the liabilities; without, the assets themselves with 3 and 2.
   */
  lemma TrendBands(totalAssets: real, totalLiabilities: real)
    ensures var t := TrendOf(Ratio(totalAssets, totalLiabilities));
      var r := Ratio(totalAssets, totalLiabilities);
      (t == Positive <==> r > 3.0) &&
      (t == Moderate <==> 2.0 < r <= 3.0) &&
      (t == NeedsAttention <==> r <= 2.0)
    ensures totalLiabilities <= 0.0 ==> Ratio(totalAssets, totalLiabilities) == totalAssets
    ensures totalLiabilities > 0.0 ==>
      (TrendOf(Ratio(totalAssets, totalLiabilities)) == Positive <==> totalAssets > 3.0 * totalLiabilities) &&
      (TrendOf(Ratio(totalAssets, totalLiabilities)) == Moderate <==>
         2.0 * totalLiabilities < totalAssets <= 3.0 * totalLiabilities)
  {
    if totalLiabilities > 0.0 {
      var r := Ratio(totalAssets, totalLiabilities);
      QuotientTimes(totalAssets, totalLiabilities);
      QuotientAbove(r, totalLiabilities, totalAssets, 3.0);
      QuotientAbove(r, totalLiabilities, totalAssets, 2.0);
    }
  }

}
