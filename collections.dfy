/**
 * Sequence helpers shared by the store and by the read-only projections.
 *
 * The store keeps every collection as a JavaScript array and changes it only
 * through three expressions: `[...prev, x]`, `prev.map(x => x.id === id ? {...x, ...patch} : x)`
 * and `prev.filter(x => x.id !== id)`. The projections only ever fold an array
 * with `reduce((sum, x) => sum + f(x), 0)`. Each of these is defined here once,
 * generically, over an accessor function (the record field the source reads).
 */
module Collections {

  datatype Option<T> = None | Some(value: T) {
    /** `x ?? d` for an optional record field. */
    function GetOr(default: T): T {
      if Some? then value else default
    }
  }

  // ---------------------------------------------------------------------------
  // Folds

  /** `s.reduce((sum, x) => sum + val(x), 0)`: a left fold from 0. */
  function Sum<T>(s: seq<T>, val: T -> real): real
    decreases |s|
  {
    if s == [] then 0.0 else Sum(s[..|s| - 1], val) + val(s[|s| - 1])
  }

  lemma {:induction false} SumAppend<T>(a: seq<T>, b: seq<T>, val: T -> real)
    ensures Sum(a + b, val) == Sum(a, val) + Sum(b, val)
    decreases |b|
  {
    if b == [] {
      assert a + b == a;
    } else {
      assert (a + b)[..|a + b| - 1] == a + b[..|b| - 1];
      SumAppend(a, b[..|b| - 1], val);
    }
  }

  lemma SumSingleton<T>(x: T, val: T -> real)
    ensures Sum([x], val) == val(x)
  {
    assert [x][..0] == [];
  }

  /** Removing element `i` lowers the fold by exactly that element's value. */
  lemma SumSplitAt<T>(s: seq<T>, i: nat, val: T -> real)
    requires i < |s|
    ensures Sum(s, val) == Sum(s[..i] + s[i + 1..], val) + val(s[i])
  {
    var front, back := s[..i], s[i + 1..];
    var rest := [s[i]] + back;
    assert s == front + rest;
    SumAppend(front, rest, val);
    SumAppend([s[i]], back, val);
    SumSingleton(s[i], val);
    SumAppend(front, back, val);
  }

  /** The fold does not depend on the order of the array: any permutation gives the same total. */
  lemma {:induction false} SumPermutation<T>(a: seq<T>, b: seq<T>, val: T -> real)
    requires multiset(a) == multiset(b)
    ensures Sum(a, val) == Sum(b, val)
    decreases |a|
  {
    if a == [] {
      assert |b| == |multiset(b)| == 0;
    } else {
      var x := a[|a| - 1];
      assert a == a[..|a| - 1] + [x];
      assert x in multiset(b);
      var j :| 0 <= j < |b| && b[j] == x;
      var rest := b[..j] + b[j + 1..];
      assert multiset(b) == multiset(rest) + multiset{x} by {
        assert b == b[..j] + [x] + b[j + 1..];
        assert multiset(rest) == multiset(b[..j]) + multiset(b[j + 1..]);
      }
      assert multiset(a) == multiset(a[..|a| - 1]) + multiset{x} by {
        assert a == a[..|a| - 1] + [x];
      }
      assert multiset(a[..|a| - 1]) == multiset(a) - multiset{x};
      assert multiset(rest) == multiset(b) - multiset{x};
      SumPermutation(a[..|a| - 1], rest, val);
      SumSplitAt(b, j, val);
    }
  }

  /** The fold of `val` restricted to the elements whose `key` is `k`. */
  function KeySum<T>(s: seq<T>, key: T -> string, val: T -> real, k: string): real
    decreases |s|
  {
    if s == [] then 0.0
    else KeySum(s[..|s| - 1], key, val, k) + (if key(s[|s| - 1]) == k then val(s[|s| - 1]) else 0.0)
  }

  /** What one element contributes to `KeySum(_, key, val, k)`. */
  function Contribution<T>(x: T, key: T -> string, val: T -> real, k: string): real {
    if key(x) == k then val(x) else 0.0
  }

  lemma {:induction false} KeySumAppend<T>(a: seq<T>, b: seq<T>, key: T -> string, val: T -> real, k: string)
    ensures KeySum(a + b, key, val, k) == KeySum(a, key, val, k) + KeySum(b, key, val, k)
    decreases |b|
  {
    if b == [] {
      assert a + b == a;
    } else {
      assert (a + b)[..|a + b| - 1] == a + b[..|b| - 1];
      KeySumAppend(a, b[..|b| - 1], key, val, k);
    }
  }

  lemma KeySumSplitAt<T>(s: seq<T>, i: nat, key: T -> string, val: T -> real, k: string)
    requires i < |s|
    ensures KeySum(s, key, val, k) == KeySum(s[..i] + s[i + 1..], key, val, k) + Contribution(s[i], key, val, k)
  {
    assert s == s[..i] + [s[i]] + s[i + 1..];
    KeySumAppend(s[..i] + [s[i]], s[i + 1..], key, val, k);
    KeySumAppend(s[..i], [s[i]], key, val, k);
    assert [s[i]][..0] == [];
    KeySumAppend(s[..i], s[i + 1..], key, val, k);
  }

  /** Replacing element `i` by `x` swaps its contribution for that of `x`. */
  lemma KeySumReplace<T>(s: seq<T>, i: nat, x: T, key: T -> string, val: T -> real, k: string)
    requires i < |s|
    ensures KeySum(s[i := x], key, val, k)
         == KeySum(s, key, val, k) - Contribution(s[i], key, val, k) + Contribution(x, key, val, k)
  {
    KeySumSplitAt(s, i, key, val, k);
    KeySumSplitAt(s[i := x], i, key, val, k);
    assert s[i := x][..i] + s[i := x][i + 1..] == s[..i] + s[i + 1..];
  }

  /** A key that no element carries sums to 0. */
  lemma {:induction false} KeySumAbsent<T>(s: seq<T>, key: T -> string, val: T -> real, k: string)
    requires forall x :: x in s ==> key(x) != k
    ensures KeySum(s, key, val, k) == 0.0
    decreases |s|
  {
    if s != [] {
      KeySumAbsent(s[..|s| - 1], key, val, k);
    }
  }

  // ---------------------------------------------------------------------------
  // Keys, lookup by key, uniqueness

  /** The set of keys (`id`s or `name`s) carried by the elements of `s`. */
  function Keys<T>(s: seq<T>, key: T -> string): set<string> {
    set i | 0 <= i < |s| :: key(s[i])
  }

  /** Two lists with the same elements carry the same keys. */
  lemma KeysOfSameMembers<T>(a: seq<T>, b: seq<T>, key: T -> string)
    requires forall x :: x in a <==> x in b
    ensures Keys(a, key) == Keys(b, key)
  {
    forall k | k in Keys(a, key) ensures k in Keys(b, key) {
      var i :| 0 <= i < |a| && key(a[i]) == k;
      assert a[i] in b;
      var j :| 0 <= j < |b| && b[j] == a[i];
    }
    forall k | k in Keys(b, key) ensures k in Keys(a, key) {
      var j :| 0 <= j < |b| && key(b[j]) == k;
      assert b[j] in a;
      var i :| 0 <= i < |a| && a[i] == b[j];
    }
  }

  /** No two elements of `s` carry the same key. */
  predicate Distinct<T>(s: seq<T>, key: T -> string) {
    forall i, j :: 0 <= i < j < |s| ==> key(s[i]) != key(s[j])
  }

  /** `s.findIndex(x => key(x) === k)`, as an option: the FIRST element whose key is `k`. */
  function FindKey<T>(s: seq<T>, key: T -> string, k: string): (r: Option<nat>)
    ensures r.Some? ==> r.value < |s| && key(s[r.value]) == k
    ensures r.Some? ==> forall j :: 0 <= j < r.value ==> key(s[j]) != k
    ensures r.None? <==> k !in Keys(s, key)
    decreases |s|
  {
    if s == [] then None
    else if key(s[0]) == k then Some(0)
    else
      var t := FindKey(s[1..], key, k);
      assert k in Keys(s[1..], key) ==> k in Keys(s, key) by {
        if k in Keys(s[1..], key) {
          var i :| 0 <= i < |s| - 1 && key(s[1..][i]) == k;
          assert s[1..][i] == s[i + 1];
        }
      }
      assert k in Keys(s, key) ==> k in Keys(s[1..], key) by {
        if k in Keys(s, key) {
          var i :| 0 <= i < |s| && key(s[i]) == k;
          assert s[1..][i - 1] == s[i];
        }
      }
      if t.None? then None else Some(t.value + 1)
  }

  // ---------------------------------------------------------------------------
  // The three collection transforms of the store

  /**
   * `s.map(x => key(x) === id ? merge(x, p) : x)`: every element whose key is `id`
   * is merged with the patch `p`; every other element is kept as it is.
   */
  function Patched<T, P>(s: seq<T>, key: T -> string, id: string, merge: (T, P) -> T, p: P): (r: seq<T>)
    ensures |r| == |s|
    ensures forall i :: 0 <= i < |s| ==> r[i] == if key(s[i]) == id then merge(s[i], p) else s[i]
    decreases |s|
  {
    if s == [] then []
    else
      var x := s[|s| - 1];
      Patched(s[..|s| - 1], key, id, merge, p) + [if key(x) == id then merge(x, p) else x]
  }

  /** An id that no element carries leaves the array exactly as it was. */
  lemma PatchedUnknown<T, P>(s: seq<T>, key: T -> string, id: string, merge: (T, P) -> T, p: P)
    requires id !in Keys(s, key)
    ensures Patched(s, key, id, merge, p) == s
  {
    var r := Patched(s, key, id, merge, p);
    forall i | 0 <= i < |s| ensures r[i] == s[i] {
      assert s[i] in s;
    }
  }

  /** With distinct ids the map touches exactly one position. */
  lemma PatchedOne<T, P>(s: seq<T>, key: T -> string, i: nat, merge: (T, P) -> T, p: P)
    requires Distinct(s, key) && i < |s|
    ensures Patched(s, key, key(s[i]), merge, p) == s[i := merge(s[i], p)]
  {
  }

  /**
   * A patch that leaves every key as it was keeps the set of keys, and keeps
   * keys distinct: the update `{ ...x, ...patch }` with no `id` in the patch.
   */
  lemma PatchedKeepsKeys<T, P>(s: seq<T>, key: T -> string, id: string, merge: (T, P) -> T, p: P)
    requires forall i :: 0 <= i < |s| ==> key(merge(s[i], p)) == key(s[i])
    ensures Keys(Patched(s, key, id, merge, p), key) == Keys(s, key)
    ensures Distinct(s, key) ==> Distinct(Patched(s, key, id, merge, p), key)
  {
    var r := Patched(s, key, id, merge, p);
    assert forall i :: 0 <= i < |s| ==> key(r[i]) == key(s[i]);
  }

  /** The test `x => key(x) !== id`. */
  function KeyIsNot<T>(key: T -> string, id: string): T -> bool {
    x => key(x) != id
  }

  /** `s.filter(x => key(x) !== id)`: drops every element whose key is `id`, keeping the order of the rest. */
  function Without<T>(s: seq<T>, key: T -> string, id: string): (r: seq<T>)
    ensures |r| <= |s|
    ensures forall j :: 0 <= j < |r| ==> key(r[j]) != id
  {
    FilterPasses(s, KeyIsNot(key, id));
    Filter(s, KeyIsNot(key, id))
  }

  /** What the filter keeps is exactly the elements whose key is not `id`. */
  lemma WithoutMembers<T(!new)>(s: seq<T>, key: T -> string, id: string)
    ensures forall x :: x in Without(s, key, id) <==> x in s && key(x) != id
  {
    forall x ensures x in Without(s, key, id) <==> x in s && key(x) != id {
      FilterMembers(s, KeyIsNot(key, id), x);
    }
  }

  /** Deleting an unknown id is a no-op. */
  lemma WithoutUnknown<T(!new)>(s: seq<T>, key: T -> string, id: string)
    requires id !in Keys(s, key)
    ensures Without(s, key, id) == s
  {
    FilterAll(s, KeyIsNot(key, id));
  }

  /** With distinct ids, deleting the id of element `i` removes exactly that element. */
  lemma WithoutOne<T(!new)>(s: seq<T>, key: T -> string, i: nat)
    requires Distinct(s, key) && i < |s|
    ensures Without(s, key, key(s[i])) == s[..i] + s[i + 1..]
  {
    WithoutOnly(s, key, i);
  }

  lemma {:induction false} WithoutOnly<T(!new)>(s: seq<T>, key: T -> string, i: nat)
    requires i < |s|
    requires forall j :: 0 <= j < |s| && j != i ==> key(s[j]) != key(s[i])
    ensures Without(s, key, key(s[i])) == s[..i] + s[i + 1..]
    decreases |s|
  {
    var id, n := key(s[i]), |s|;
    var front := s[..n - 1];
    if i == n - 1 {
      assert id !in Keys(front, key) by {
        forall j | 0 <= j < |front| ensures key(front[j]) != id {
          assert front[j] == s[j];
        }
      }
      WithoutUnknown(front, key, id);
    } else {
      assert front[i] == s[i];
      WithoutOnly(front, key, i);
      assert front[..i] + front[i + 1..] + [s[n - 1]] == s[..i] + s[i + 1..];
    }
  }

  /** Deleting keeps distinct whatever was distinct: the ids, or any other key such as a name. */
  lemma {:induction false} WithoutKeepsDistinct<T(!new)>(s: seq<T>, key: T -> string, id: string, other: T -> string)
    ensures Distinct(s, other) ==> Distinct(Without(s, key, id), other)
    decreases |s|
  {
    if s != [] && Distinct(s, other) {
      var x := s[|s| - 1];
      var front := s[..|s| - 1];
      WithoutKeepsDistinct(front, key, id, other);
      var r := Without(front, key, id);
      if key(x) != id {
        WithoutMembers(front, key, id);
        forall y | y in r ensures other(y) != other(x) {
          assert y in front;
          var j :| 0 <= j < |front| && front[j] == y;
          assert s[j] == y;
        }
        forall i, j | 0 <= i < j < |r + [x]| ensures other((r + [x])[i]) != other((r + [x])[j]) {
          if j == |r| {
            assert (r + [x])[i] in r;
          } else {
            assert (r + [x])[i] == r[i] && (r + [x])[j] == r[j];
          }
        }
      }
    }
  }

  /** Appending an element whose id is fresh keeps ids distinct. */
  lemma AppendKeepsDistinct<T>(s: seq<T>, key: T -> string, x: T)
    requires key(x) !in Keys(s, key)
    ensures Distinct(s, key) ==> Distinct(s + [x], key)
  {
    if Distinct(s, key) {
      forall i, j | 0 <= i < j < |s + [x]| ensures key((s + [x])[i]) != key((s + [x])[j]) {
        if j == |s| {
          assert (s + [x])[i] == s[i] && s[i] in s;
        }
      }
    }
  }

  /** Removing row `index`: `s.filter((_, i) => i !== index)`. An index outside the array removes nothing. */
  function WithoutIndex<T>(s: seq<T>, index: int): (r: seq<T>)
    ensures 0 <= index < |s| ==> r == s[..index] + s[index + 1..]
    ensures !(0 <= index < |s|) ==> r == s
    decreases |s|
  {
    if s == [] then []
    else
      var front := WithoutIndex(s[..|s| - 1], index);
      var r := if index == |s| - 1 then front else front + [s[|s| - 1]];
      assert 0 <= index < |s| - 1 ==> r == s[..index] + s[index + 1..] by {
        if 0 <= index < |s| - 1 {
          assert s[..|s| - 1][..index] == s[..index];
          assert s[..|s| - 1][index + 1..] + [s[|s| - 1]] == s[index + 1..];
        }
      }
      r
  }

  /** `s.filter(p)`: the elements that pass `p`, in their order. */
  function Filter<T>(s: seq<T>, p: T -> bool): (r: seq<T>)
    ensures |r| <= |s|
    decreases |s|
  {
    if s == [] then []
    else Filter(s[..|s| - 1], p) + (if p(s[|s| - 1]) then [s[|s| - 1]] else [])
  }

  /** Filtering a list split in two filters each part: whatever repeats, the survivors keep their order. */
  lemma {:induction false} FilterAppend<T>(a: seq<T>, b: seq<T>, p: T -> bool)
    ensures Filter(a + b, p) == Filter(a, p) + Filter(b, p)
    decreases |b|
  {
    if b == [] {
      assert a + b == a;
    } else {
      assert (a + b)[..|a + b| - 1] == a + b[..|b| - 1];
      FilterAppend(a, b[..|b| - 1], p);
    }
  }

  /** Every element the filter keeps passes the test. */
  lemma {:induction false} FilterPasses<T>(s: seq<T>, p: T -> bool)
    ensures forall j :: 0 <= j < |Filter(s, p)| ==> p(Filter(s, p)[j])
    decreases |s|
  {
    if s != [] {
      FilterPasses(s[..|s| - 1], p);
    }
  }

  /** A filter that every element passes keeps the list as it is. */
  lemma {:induction false} FilterAll<T>(s: seq<T>, p: T -> bool)
    requires forall i :: 0 <= i < |s| ==> p(s[i])
    ensures Filter(s, p) == s
    decreases |s|
  {
    if s != [] {
      FilterAll(s[..|s| - 1], p);
    }
  }

  /** An element is kept iff it is in `s` and passes `p`. */
  lemma {:induction false} FilterMembers<T>(s: seq<T>, p: T -> bool, x: T)
    ensures x in Filter(s, p) <==> x in s && p(x)
    decreases |s|
  {
    if s != [] {
      var front := s[..|s| - 1];
      FilterMembers(front, p, x);
      assert s == front + [s[|s| - 1]];
    }
  }

  /** Nothing is kept iff no element passes. */
  lemma FilterEmptyIff<T>(s: seq<T>, p: T -> bool)
    ensures Filter(s, p) == [] <==> forall i :: 0 <= i < |s| ==> !p(s[i])
  {
    var r := Filter(s, p);
    if r != [] {
      FilterMembers(s, p, r[0]);
    }
    forall i | 0 <= i < |s| && p(s[i]) ensures r != [] {
      FilterMembers(s, p, s[i]);
    }
  }

  /**
   * Two complementary filters split `s`: their lengths add up to its length and
   * their folds to its fold.
   */
  lemma {:induction false} FilterComplement<T>(s: seq<T>, p: T -> bool, q: T -> bool, val: T -> real)
    requires forall x :: q(x) == !p(x)
    ensures |Filter(s, p)| + |Filter(s, q)| == |s|
    ensures Sum(s, val) == Sum(Filter(s, p), val) + Sum(Filter(s, q), val)
    decreases |s|
  {
    if s != [] {
      var front, last := s[..|s| - 1], s[|s| - 1];
      FilterComplement(front, p, q, val);
      SumAppend(Filter(front, p), if p(last) then [last] else [], val);
      SumAppend(Filter(front, q), if q(last) then [last] else [], val);
      SumSingleton(last, val);
    }
  }
}
