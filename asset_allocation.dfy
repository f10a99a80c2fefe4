/**
 * The asset allocation card (`src/components/net-worth/AssetAllocation.tsx`): the
 * assets grouped by category, each group with its share of all assets, largest first.
 */
module AssetAllocation {
  import opened Collections
  import opened FinanceTypes
  import opened Ratios
  import opened Grouping

  /** One line of the card. */
  datatype Allocation = Allocation(category: string, value: real, percentage: Option<real>)

  function AllocationValue(al: Allocation): real { al.value }

  function AllocationCategory(al: Allocation): string { al.category }

  /** The percentage shown, 0 where there is none. */
  function PercentOf(al: Allocation): real { al.percentage.GetOr(0.0) }

  /**
   * `(value / totalAssets) * 100`. With a zero total JavaScript produces an infinity
   * or NaN, which is no percentage at all: `None`.
   */
  function Percentage(value: real, total: real): Option<real> {
    if total != 0.0 then Some(value / total * 100.0) else None
  }

  /** `Object.entries(categoryMap).map(...)`: one allocation per entry, in entry order. */
  function Allocate(groups: seq<Group>, total: real): (r: seq<Allocation>)
    ensures |r| == |groups|
    decreases |groups|
  {
    if groups == [] then []
    else
      var g := groups[|groups| - 1];
      Allocate(groups[..|groups| - 1], total) + [Allocation(g.key, g.total, Percentage(g.total, total))]
  }

  lemma {:induction false} AllocateAt(groups: seq<Group>, total: real)
    ensures forall i :: 0 <= i < |groups| ==>
      Allocate(groups, total)[i] == Allocation(groups[i].key, groups[i].total, Percentage(groups[i].total, total))
    decreases |groups|
  {
    if groups != [] {
      AllocateAt(groups[..|groups| - 1], total);
    }
  }

  /**
   * The allocations carry the entries' totals, and with a non-zero total their
   * percentages add up to the entries' share of it.
   */
  lemma {:induction false} AllocateSums(groups: seq<Group>, total: real)
    ensures Sum(Allocate(groups, total), AllocationValue) == Sum(groups, GroupTotal)
    ensures total != 0.0 ==> Sum(Allocate(groups, total), PercentOf) == Sum(groups, GroupTotal) / total * 100.0
    decreases |groups|
  {
    if groups != [] {
      var front := groups[..|groups| - 1];
      AllocateSums(front, total);
      if total != 0.0 {
        ShareOfSum(Sum(front, GroupTotal), groups[|groups| - 1].total, total, 100.0);
      }
    }
  }

  // ---------------------------------------------------------------------------
  // `.sort((a, b) => b.value - a.value)`

  predicate NonIncreasing(s: seq<Allocation>) {
    forall i, j :: 0 <= i < j < |s| ==> s[i].value >= s[j].value
  }

  /** `x` placed after every element whose value is at least its own. */
  function Insert(sorted: seq<Allocation>, x: Allocation): (r: seq<Allocation>)
    ensures |r| == |sorted| + 1
    decreases |sorted|
  {
    if sorted == [] then [x]
    else if sorted[0].value >= x.value then [sorted[0]] + Insert(sorted[1..], x)
    else [x] + sorted
  }

  lemma {:induction false} InsertPermutes(sorted: seq<Allocation>, x: Allocation)
    ensures multiset(Insert(sorted, x)) == multiset(sorted) + multiset{x}
    decreases |sorted|
  {
    if sorted != [] {
      assert sorted == [sorted[0]] + sorted[1..];
      if sorted[0].value >= x.value {
        InsertPermutes(sorted[1..], x);
      }
    }
  }

  /** An insertion keeps every value at most a bound that `x` and `sorted` respect. */
  lemma {:induction false} InsertBelow(sorted: seq<Allocation>, x: Allocation, bound: real)
    requires x.value <= bound
    requires forall i :: 0 <= i < |sorted| ==> sorted[i].value <= bound
    ensures forall i :: 0 <= i < |Insert(sorted, x)| ==> Insert(sorted, x)[i].value <= bound
    decreases |sorted|
  {
    if sorted != [] && sorted[0].value >= x.value {
      InsertBelow(sorted[1..], x, bound);
    }
  }

  lemma {:induction false} InsertKeepsOrder(sorted: seq<Allocation>, x: Allocation)
    requires NonIncreasing(sorted)
    ensures NonIncreasing(Insert(sorted, x))
    decreases |sorted|
  {
    if sorted != [] {
      var head, rest := sorted[0], sorted[1..];
      var r := Insert(sorted, x);
      if head.value >= x.value {
        InsertKeepsOrder(rest, x);
        InsertBelow(rest, x, head.value);
        var tail := Insert(rest, x);
        assert r == [head] + tail;
        forall i, j | 0 <= i < j < |r| ensures r[i].value >= r[j].value {
          assert r[j] == tail[j - 1];
          if i > 0 {
            assert r[i] == tail[i - 1];
          }
        }
      } else {
        assert r == [x] + sorted;
        forall i, j | 0 <= i < j < |r| ensures r[i].value >= r[j].value {
          assert r[j] == sorted[j - 1];
          if i > 0 {
            assert r[i] == sorted[i - 1];
          }
        }
      }
    }
  }

  /** Insertion sort, one element at a time in list order, largest value first. */
  function SortByValue(s: seq<Allocation>): (r: seq<Allocation>)
    ensures |r| == |s|
    decreases |s|
  {
    if s == [] then [] else Insert(SortByValue(s[..|s| - 1]), s[|s| - 1])
  }

  /** The sorted list is non-increasing by value. */
  lemma {:induction false} SortOrders(s: seq<Allocation>)
    ensures NonIncreasing(SortByValue(s))
    decreases |s|
  {
    if s != [] {
      var front, x := s[..|s| - 1], s[|s| - 1];
      SortOrders(front);
      InsertKeepsOrder(SortByValue(front), x);
    }
  }

  /** The sorted list holds exactly the same allocations, as often as the input. */
  lemma {:induction false} SortPermutes(s: seq<Allocation>)
    ensures multiset(SortByValue(s)) == multiset(s)
    decreases |s|
  {
    if s != [] {
      var front, x := s[..|s| - 1], s[|s| - 1];
      SortPermutes(front);
      InsertPermutes(SortByValue(front), x);
      assert s == front + [x];
    }
  }

  // ---------------------------------------------------------------------------
  // The card

  /** `assets.reduce((sum, asset) => sum + asset.value, 0)`. */
  function TotalAssets(assets: seq<AssetLiability>): real {
    Sum(assets, AssetLiabilityValue)
  }

  /** The entries of the category dictionary, in insertion order. */
  function CategoryGroups(assets: seq<AssetLiability>): seq<Group> {
    Chart(assets, AssetLiabilityCategory, AssetLiabilityValue)
  }

  /** `allocations`: the entries as allocations, sorted by value, largest first. */
  function Allocations(assets: seq<AssetLiability>): seq<Allocation> {
    SortByValue(Allocate(CategoryGroups(assets), TotalAssets(assets)))
  }

  /** The allocations are sorted non-increasing by value, a reordering of the unsorted entries. */
  lemma AllocationsSorted(assets: seq<AssetLiability>)
    ensures NonIncreasing(Allocations(assets))
    ensures multiset(Allocations(assets)) == multiset(Allocate(CategoryGroups(assets), TotalAssets(assets)))
  {
    SortOrders(Allocate(CategoryGroups(assets), TotalAssets(assets)));
    SortPermutes(Allocate(CategoryGroups(assets), TotalAssets(assets)));
  }

  /** Sorting keeps the same allocations, and so the same categories. */
  lemma SortedMembers(assets: seq<AssetLiability>)
    ensures forall al :: al in Allocations(assets) <==> al in Allocate(CategoryGroups(assets), TotalAssets(assets))
    ensures |Allocations(assets)| == |CategoryGroups(assets)|
  {
    var unsorted := Allocate(CategoryGroups(assets), TotalAssets(assets));
    SortPermutes(unsorted);
    forall al ensures al in Allocations(assets) <==> al in unsorted {
      assert al in Allocations(assets) <==> al in multiset(Allocations(assets));
      assert al in unsorted <==> al in multiset(unsorted);
    }
  }

  /**
   * One allocation per distinct asset category: as many allocations as categories,
   * exactly the categories of the assets.
   */
  lemma AllocationsPerCategory(assets: seq<AssetLiability>)
    ensures |Allocations(assets)| == |Keys(assets, AssetLiabilityCategory)|
    ensures Keys(Allocations(assets), AllocationCategory) == Keys(assets, AssetLiabilityCategory)
  {
    var groups := CategoryGroups(assets);
    var unsorted := Allocate(groups, TotalAssets(assets));
    ChartKeys(assets, AssetLiabilityCategory, AssetLiabilityValue);
    AllocateAt(groups, TotalAssets(assets));
    SortedMembers(assets);
    KeysOfSameMembers(Allocations(assets), unsorted, AllocationCategory);
    assert Keys(unsorted, AllocationCategory) == Keys(groups, GroupKey) by {
      forall k | k in Keys(groups, GroupKey) ensures k in Keys(unsorted, AllocationCategory) {
        var i :| 0 <= i < |groups| && GroupKey(groups[i]) == k;
        assert AllocationCategory(unsorted[i]) == k;
      }
    }
  }

  /** Each allocation is valued at the total of its category's assets and carries its share of all assets. */
  lemma AllocationsValues(assets: seq<AssetLiability>)
    ensures forall al :: al in Allocations(assets) ==>
      al.value == KeySum(assets, AssetLiabilityCategory, AssetLiabilityValue, al.category) &&
      al.percentage == Percentage(al.value, TotalAssets(assets))
  {
    var groups := CategoryGroups(assets);
    var unsorted := Allocate(groups, TotalAssets(assets));
    ChartTotals(assets, AssetLiabilityCategory, AssetLiabilityValue);
    AllocateAt(groups, TotalAssets(assets));
    SortedMembers(assets);
    forall al | al in Allocations(assets)
      ensures al.value == KeySum(assets, AssetLiabilityCategory, AssetLiabilityValue, al.category)
      ensures al.percentage == Percentage(al.value, TotalAssets(assets))
    {
      var i :| 0 <= i < |unsorted| && unsorted[i] == al;
    }
  }

  /**
   * The allocation values add up to `totalAssets`; there are none iff there are no
   * assets; and with a non-zero total the percentages add up to 100.
   */
  lemma AllocationsTotals(assets: seq<AssetLiability>)
    ensures Sum(Allocations(assets), AllocationValue) == TotalAssets(assets)
    ensures Allocations(assets) == [] <==> assets == []
    ensures TotalAssets(assets) != 0.0 ==> Sum(Allocations(assets), PercentOf) == 100.0
  {
    var groups := CategoryGroups(assets);
    var total := TotalAssets(assets);
    var unsorted := Allocate(groups, total);
    ChartKeys(assets, AssetLiabilityCategory, AssetLiabilityValue);
    ChartTotals(assets, AssetLiabilityCategory, AssetLiabilityValue);
    SortPermutes(unsorted);
    AllocateSums(groups, total);
    SumPermutation(unsorted, Allocations(assets), AllocationValue);
    SumPermutation(unsorted, Allocations(assets), PercentOf);
    if total != 0.0 {
      WholeShare(total, 100.0);
    }
  }

  /**
   * The card's computation: the dictionary filled by the `reduce`, read back in
   * insertion order, mapped to allocations and sorted.
   */
  method ComputeAllocations(assets: seq<AssetLiability>) returns (allocations: seq<Allocation>)
    ensures allocations == Allocations(assets)
  {
    var totalAssets := TotalAssets(assets);
    var order, categoryMap := GroupTotals(assets, AssetLiabilityCategory, AssetLiabilityValue);
    allocations := SortByValue(Allocate(Entries(order, categoryMap), totalAssets));
  }
}
