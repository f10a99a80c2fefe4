/**
 * The grouping that three views repeat: `items.reduce((acc, x) => { if (!acc[key(x)])
 * acc[key(x)] = 0; acc[key(x)] += val(x); return acc; }, {})` followed by
 * `Object.entries(acc)`. The accumulator is a dictionary updated in place; its keys
 * come out in the order they were first inserted.
 */
module Grouping {
  import opened Collections

  /** One entry of the dictionary: a key and the total of its items. */
  datatype Group = Group(key: string, total: real)

  function GroupKey(g: Group): string { g.key }

  function GroupTotal(g: Group): real { g.total }

  /** The keys of `items` in the order they first appear. */
  function FirstSeen<T>(items: seq<T>, key: T -> string): (r: seq<string>)
    ensures |r| <= |items|
    decreases |items|
  {
    if items == [] then []
    else
      var front := FirstSeen(items[..|items| - 1], key);
      if key(items[|items| - 1]) in front then front else front + [key(items[|items| - 1])]
  }

  predicate NoRepeats(ks: seq<string>) {
    forall i, j :: 0 <= i < j < |ks| ==> ks[i] != ks[j]
  }

  /** Each key appears once, exactly the keys the items carry, and none iff there are no items. */
  lemma {:induction false} FirstSeenFacts<T>(items: seq<T>, key: T -> string)
    ensures NoRepeats(FirstSeen(items, key))
    ensures forall k :: k in FirstSeen(items, key) <==> k in Keys(items, key)
    ensures FirstSeen(items, key) == [] <==> items == []
    decreases |items|
  {
    if items != [] {
      var front := items[..|items| - 1];
      FirstSeenFacts(front, key);
      var x := items[|items| - 1];
      forall k ensures k in Keys(items, key) <==> k in Keys(front, key) || k == key(x) {
        if k in Keys(items, key) {
          var i :| 0 <= i < |items| && key(items[i]) == k;
          if i < |items| - 1 {
            assert front[i] == items[i];
          }
        }
        if k in Keys(front, key) {
          var i :| 0 <= i < |front| && key(front[i]) == k;
          assert items[i] == front[i];
        }
      }
    }
  }

  /** A list of distinct keys has as many entries as its set of keys. */
  lemma {:induction false} NoRepeatsSize(ks: seq<string>)
    requires NoRepeats(ks)
    ensures |set k | k in ks| == |ks|
    decreases |ks|
  {
    if ks != [] {
      var front := ks[..|ks| - 1];
      NoRepeatsSize(front);
      assert (set k | k in ks) == (set k | k in front) + {ks[|ks| - 1]};
    }
  }

  /** The entries for the keys `ks`, each with the total of its items, in the order of `ks`. */
  function GroupsOf<T>(items: seq<T>, key: T -> string, val: T -> real, ks: seq<string>): (r: seq<Group>)
    ensures |r| == |ks|
    decreases |ks|
  {
    if ks == [] then []
    else
      var k := ks[|ks| - 1];
      GroupsOf(items, key, val, ks[..|ks| - 1]) + [Group(k, KeySum(items, key, val, k))]
  }

  lemma {:induction false} GroupsOfAt<T>(items: seq<T>, key: T -> string, val: T -> real, ks: seq<string>)
    ensures forall i :: 0 <= i < |ks| ==>
      GroupsOf(items, key, val, ks)[i] == Group(ks[i], KeySum(items, key, val, ks[i]))
    decreases |ks|
  {
    if ks != [] {
      GroupsOfAt(items, key, val, ks[..|ks| - 1]);
    }
  }

  /** What `Object.entries` of the finished dictionary holds. */
  function Chart<T>(items: seq<T>, key: T -> string, val: T -> real): seq<Group> {
    GroupsOf(items, key, val, FirstSeen(items, key))
  }

  lemma {:induction false} GroupsOfNoItems<T>(key: T -> string, val: T -> real, ks: seq<string>)
    ensures Sum(GroupsOf([], key, val, ks), GroupTotal) == 0.0
    decreases |ks|
  {
    if ks != [] {
      GroupsOfNoItems(key, val, ks[..|ks| - 1]);
    }
  }

  /** One more item raises the entries' total by its value when its key is listed. */
  lemma {:induction false} GroupsOfAddItem<T>(front: seq<T>, x: T, key: T -> string, val: T -> real, ks: seq<string>)
    requires NoRepeats(ks)
    ensures Sum(GroupsOf(front + [x], key, val, ks), GroupTotal) ==
            Sum(GroupsOf(front, key, val, ks), GroupTotal) + (if key(x) in ks then val(x) else 0.0)
    decreases |ks|
  {
    if ks != [] {
      var kf := ks[..|ks| - 1];
      var k := ks[|ks| - 1];
      assert NoRepeats(kf);
      GroupsOfAddItem(front, x, key, val, kf);
      assert (front + [x])[..|front + [x]| - 1] == front;
      assert key(x) in ks <==> key(x) in kf || key(x) == k;
      assert key(x) in kf ==> key(x) != k;
    }
  }

  /** Entries over distinct keys that cover every item add up to the total of all items. */
  lemma {:induction false} GroupsOfCover<T>(items: seq<T>, key: T -> string, val: T -> real, ks: seq<string>)
    requires NoRepeats(ks)
    requires forall i :: 0 <= i < |items| ==> key(items[i]) in ks
    ensures Sum(GroupsOf(items, key, val, ks), GroupTotal) == Sum(items, val)
    decreases |items|
  {
    if items == [] {
      GroupsOfNoItems(key, val, ks);
    } else {
      var front := items[..|items| - 1];
      var x := items[|items| - 1];
      GroupsOfCover(front, key, val, ks);
      assert items == front + [x];
      GroupsOfAddItem(front, x, key, val, ks);
    }
  }

  /**
   * The entries have distinct keys, exactly the keys of the items, as many as there
   * are distinct keys, and there are none iff there are no items.
   */
  lemma ChartKeys<T>(items: seq<T>, key: T -> string, val: T -> real)
    ensures var c := Chart(items, key, val);
      Distinct(c, GroupKey) &&
      (forall k :: k in Keys(c, GroupKey) <==> k in Keys(items, key)) &&
      |c| == |Keys(items, key)| && |c| <= |items| &&
      (c == [] <==> items == [])
  {
    var ks := FirstSeen(items, key);
    var c := Chart(items, key, val);
    FirstSeenFacts(items, key);
    GroupsOfAt(items, key, val, ks);
    NoRepeatsSize(ks);
    assert (set k | k in ks) == Keys(items, key);
    forall k ensures k in Keys(c, GroupKey) <==> k in ks {
      if k in ks {
        var i :| 0 <= i < |ks| && ks[i] == k;
        assert GroupKey(c[i]) == k;
      }
    }
  }

  /** Each entry holds the total of its items, and together they hold the total of all items. */
  lemma ChartTotals<T>(items: seq<T>, key: T -> string, val: T -> real)
    ensures var c := Chart(items, key, val);
      (forall i :: 0 <= i < |c| ==> c[i].total == KeySum(items, key, val, c[i].key)) &&
      Sum(c, GroupTotal) == Sum(items, val)
  {
    var ks := FirstSeen(items, key);
    FirstSeenFacts(items, key);
    GroupsOfAt(items, key, val, ks);
    forall i | 0 <= i < |items| ensures key(items[i]) in ks {
      assert key(items[i]) in Keys(items, key);
    }
    GroupsOfCover(items, key, val, ks);
  }

  /** `Object.entries(acc)`, given the order of insertion and the totals. */
  function Entries(order: seq<string>, totals: map<string, real>): seq<Group>
    requires forall k :: k in order ==> k in totals
  {
    seq(|order|, i requires 0 <= i < |order| => Group(order[i], totals[order[i]]))
  }

  /**
   * The `reduce` that fills the dictionary: a key gets 0 on its first item, then every
   * item adds its value. (A key already at 0 is reset to 0, which changes nothing.)
   */
  method GroupTotals<T>(items: seq<T>, key: T -> string, val: T -> real)
    returns (order: seq<string>, totals: map<string, real>)
    ensures order == FirstSeen(items, key)
    ensures forall k :: k in totals <==> k in order
    ensures forall k :: k in totals ==> totals[k] == KeySum(items, key, val, k)
    ensures Entries(order, totals) == Chart(items, key, val)
  {
    order, totals := [], map[];
    var i := 0;
    while i < |items|
      invariant 0 <= i <= |items|
      invariant order == FirstSeen(items[..i], key)
      invariant forall k :: k in totals <==> k in order
      invariant forall k :: k in totals ==> totals[k] == KeySum(items[..i], key, val, k)
    {
      var x := items[i];
      var k := key(x);
      ghost var order0, totals0 := order, totals;
      if k !in totals {
        totals := totals[k := 0.0];
        order := order + [k];
      }
      totals := totals[k := totals[k] + val(x)];
      TotalsStep(items, key, val, i, order0, totals0, order, totals);
      i := i + 1;
    }
    assert items[..i] == items;
    GroupsOfAt(items, key, val, order);
  }

  /** One pass of the loop in `GroupTotals` keeps its invariant. */
  lemma TotalsStep<T>(items: seq<T>, key: T -> string, val: T -> real, i: nat,
                      order0: seq<string>, totals0: map<string, real>,
                      order: seq<string>, totals: map<string, real>)
    requires i < |items|
    requires order0 == FirstSeen(items[..i], key)
    requires forall k :: k in totals0 <==> k in order0
    requires forall k :: k in totals0 ==> totals0[k] == KeySum(items[..i], key, val, k)
    requires order == if key(items[i]) in totals0 then order0 else order0 + [key(items[i])]
    requires forall k :: k in totals <==> k in totals0 || k == key(items[i])
    requires forall k :: k in totals0 && k != key(items[i]) ==> totals[k] == totals0[k]
    requires key(items[i]) in totals
    requires totals[key(items[i])] ==
      (if key(items[i]) in totals0 then totals0[key(items[i])] else 0.0) + val(items[i])
    ensures order == FirstSeen(items[..i + 1], key)
    ensures forall k :: k in totals <==> k in order
    ensures forall k :: k in totals ==> totals[k] == KeySum(items[..i + 1], key, val, k)
  {
    var k := key(items[i]);
    OrderStep(items, key, i, order0);
    if k !in totals0 {
      KeySumAbsentFromOrder(items[..i], key, val, k, order0);
    }
    forall k' | k' in totals ensures totals[k'] == KeySum(items[..i + 1], key, val, k') {
      KeySumStep(items, key, val, i, k');
    }
  }

  /** The keys seen so far gain the key of item `i` unless it was seen before. */
  lemma OrderStep<T>(items: seq<T>, key: T -> string, i: nat, order0: seq<string>)
    requires i < |items|
    requires order0 == FirstSeen(items[..i], key)
    ensures FirstSeen(items[..i + 1], key) ==
      if key(items[i]) in order0 then order0 else order0 + [key(items[i])]
  {
    assert items[..i + 1][..i] == items[..i];
  }

  /** A key not among those seen so far has no items yet. */
  lemma KeySumAbsentFromOrder<T>(front: seq<T>, key: T -> string, val: T -> real, k: string, order0: seq<string>)
    requires order0 == FirstSeen(front, key)
    requires k !in order0
    ensures KeySum(front, key, val, k) == 0.0
  {
    FirstSeenFacts(front, key);
    KeySumAbsent(front, key, val, k);
  }

  /** Item `i` adds its value to its own key's sum and nothing to the others. */
  lemma KeySumStep<T>(items: seq<T>, key: T -> string, val: T -> real, i: nat, k: string)
    requires i < |items|
    ensures KeySum(items[..i + 1], key, val, k) ==
      KeySum(items[..i], key, val, k) + (if key(items[i]) == k then val(items[i]) else 0.0)
  {
    assert items[..i + 1][..i] == items[..i];
  }
}
