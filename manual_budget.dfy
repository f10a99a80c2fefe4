/**
 * The manual budget editor (`src/components/budget/ManualBudget.tsx`): a list of
 * rows, each a name and an amount as typed, and a submit that adds one budget
 * category per row with both fields filled in.
 *
 * The rows are objects: `handleChange` copies the list but writes the field into
 * the row object itself, which the old and the new list share. `BudgetRow` is that
 * object and `Change` updates it in place. The amount is read by a `parse` argument
 * standing for `parseFloat`.
 */
module ManualBudget {
  import opened Collections
  import opened FinanceTypes
  import opened Store
  import opened CategoryDrafts

  /** One row of the editor, `{ name, amount }`, both as typed. */
  class BudgetRow {
    var name: string
    var amount: string

    constructor()
      ensures name == "" && amount == ""
    {
      name, amount := "", "";
    }
  }

  /** The contents of a row at one moment. */
  datatype Entry = Entry(name: string, amount: string)

  /** The contents of the rows `rs`, in order. */
  function EntriesOf(rs: seq<BudgetRow>): seq<Entry>
    reads set i | 0 <= i < |rs| :: rs[i]
  {
    seq(|rs|, i requires 0 <= i < |rs| reads set j | 0 <= j < |rs| :: rs[j] => Entry(rs[i].name, rs[i].amount))
  }

  /** Dropping a row drops its entry and keeps the others in order. */
  lemma EntriesWithout(rs: seq<BudgetRow>, index: int)
    ensures EntriesOf(WithoutIndex(rs, index)) == WithoutIndex(EntriesOf(rs), index)
  {
    var e := EntriesOf(rs);
    if 0 <= index < |rs| {
      var r := WithoutIndex(rs, index);
      forall i | 0 <= i < |r| ensures EntriesOf(r)[i] == WithoutIndex(e, index)[i] {
        if i < index {
          assert r[i] == rs[i];
        } else {
          assert r[i] == rs[i + 1];
        }
      }
    }
  }

  /** Dropping a row keeps the remaining rows distinct objects. */
  lemma WithoutIndexDistinct(rs: seq<BudgetRow>, index: int)
    requires forall i, j :: 0 <= i < j < |rs| ==> rs[i] != rs[j]
    ensures var r := WithoutIndex(rs, index);
      forall i, j :: 0 <= i < j < |r| ==> r[i] != r[j]
  {
    var r := WithoutIndex(rs, index);
    if 0 <= index < |rs| {
      forall i, j | 0 <= i < j < |r| ensures r[i] != r[j] {
        var i' := if i < index then i else i + 1;
        var j' := if j < index then j else j + 1;
        assert r[i] == rs[i'] && r[j] == rs[j'];
      }
    }
  }

  /** The two inputs of a row. */
  datatype Field = Name | Amount

  /** `e` with `field` set to `value` and the other field kept. */
  function WithField(e: Entry, field: Field, value: string): (r: Entry)
    ensures field == Name ==> r.name == value && r.amount == e.amount
    ensures field == Amount ==> r.amount == value && r.name == e.name
  {
    if field == Name then e.(name := value) else e.(amount := value)
  }

  /** `if (cat.name && cat.amount)`: both strings non-empty. */
  predicate Qualifies(e: Entry) {
    e.name != "" && e.amount != ""
  }

  /** The categories `handleSubmit` adds for the rows `entries`, in row order. */
  function ManualDrafts(entries: seq<Entry>, parse: string -> real): (r: seq<CategoryDraft>)
    ensures |r| <= |entries|
  {
    if entries == [] then []
    else
      var last := entries[|entries| - 1];
      ManualDrafts(entries[..|entries| - 1], parse) +
        (if Qualifies(last) then [CategoryDraft(last.name, parse(last.amount))] else [])
  }

  /** Submitting two runs of rows adds the first run's categories, then the second's. */
  lemma {:induction false} ManualDraftsAppend(a: seq<Entry>, b: seq<Entry>, parse: string -> real)
    ensures ManualDrafts(a + b, parse) == ManualDrafts(a, parse) + ManualDrafts(b, parse)
    decreases |b|
  {
    if b != [] {
      var front := b[..|b| - 1];
      ManualDraftsAppend(a, front, parse);
      assert (a + b)[..|a + b| - 1] == a + front;
    } else {
      assert a + b == a;
    }
  }

  /** A category is added iff some row qualifies and carries its name and parsed amount. */
  lemma {:induction false} ManualDraftsMembers(entries: seq<Entry>, parse: string -> real, d: CategoryDraft)
    ensures d in ManualDrafts(entries, parse) <==>
      exists i :: 0 <= i < |entries| && Qualifies(entries[i]) &&
        d == CategoryDraft(entries[i].name, parse(entries[i].amount))
    decreases |entries|
  {
    if entries != [] {
      var front := entries[..|entries| - 1];
      ManualDraftsMembers(front, parse, d);
      var n := |entries| - 1;
      if d in ManualDrafts(front, parse) {
        var i :| 0 <= i < |front| && Qualifies(front[i]) && d == CategoryDraft(front[i].name, parse(front[i].amount));
        assert entries[i] == front[i];
      }
      if exists i :: 0 <= i < |entries| && Qualifies(entries[i]) &&
           d == CategoryDraft(entries[i].name, parse(entries[i].amount)) {
        var i :| 0 <= i < |entries| && Qualifies(entries[i]) &&
          d == CategoryDraft(entries[i].name, parse(entries[i].amount));
        if i < n {
          assert front[i] == entries[i];
        }
      }
    }
  }

  /** Nothing is added iff no row has both fields filled in. */
  lemma ManualDraftsEmptyIff(entries: seq<Entry>, parse: string -> real)
    ensures ManualDrafts(entries, parse) == [] <==> forall i :: 0 <= i < |entries| ==> !Qualifies(entries[i])
  {
    var r := ManualDrafts(entries, parse);
    if r != [] {
      ManualDraftsMembers(entries, parse, r[0]);
    }
    forall i | 0 <= i < |entries| && Qualifies(entries[i]) ensures r != [] {
      ManualDraftsMembers(entries, parse, CategoryDraft(entries[i].name, parse(entries[i].amount)));
    }
  }

  /** When every row is filled in, each row becomes one category, in row order. */
  lemma {:induction false} ManualDraftsAllFilled(entries: seq<Entry>, parse: string -> real)
    requires forall i :: 0 <= i < |entries| ==> Qualifies(entries[i])
    ensures |ManualDrafts(entries, parse)| == |entries|
    ensures forall i :: 0 <= i < |entries| ==>
      ManualDrafts(entries, parse)[i] == CategoryDraft(entries[i].name, parse(entries[i].amount))
    decreases |entries|
  {
    if entries != [] {
      ManualDraftsAllFilled(entries[..|entries| - 1], parse);
    }
  }

  /** The editor's state: the list of row objects. */
  class ManualBudgetForm {
    var rows: seq<BudgetRow>

    /** Each row object appears once in the list. */
    ghost predicate Valid()
      reads this
    {
      forall i, j :: 0 <= i < j < |rows| ==> rows[i] != rows[j]
    }

    /** What the rows hold now. */
    function Entries(): seq<Entry>
      reads this, set i | 0 <= i < |rows| :: rows[i]
    {
      EntriesOf(rows)
    }

    /** The initial state: one empty row. */
    constructor()
      ensures Valid()
      ensures Entries() == [Entry("", "")]
    {
      var row := new BudgetRow();
      rows := [row];
    }

    /** `handleAddCategory`: a new empty row at the end, the others untouched. */
    method AddRow()
      requires Valid()
      modifies this`rows
      ensures Valid()
      ensures Entries() == old(Entries()) + [Entry("", "")]
    {
      var row := new BudgetRow();
      rows := rows + [row];
    }

    /** `handleRemoveCategory(index)`: row `index` goes, the others keep their contents and order. */
    method RemoveRow(index: int)
      requires Valid()
      modifies this`rows
      ensures Valid()
      ensures rows == WithoutIndex(old(rows), index)
      ensures Entries() == WithoutIndex(old(Entries()), index)
    {
      EntriesWithout(rows, index);
      WithoutIndexDistinct(rows, index);
      rows := WithoutIndex(rows, index);
    }

    /**
     * `handleChange(index, field, value)`: the field of row `index` becomes `value`;
     * its other field and every other row keep their contents.
     */
    method Change(index: nat, field: Field, value: string)
      requires Valid() && index < |rows|
      modifies rows[index]
      ensures Valid()
      ensures Entries() == old(Entries())[index := WithField(old(Entries())[index], field, value)]
    {
      if field == Name {
        rows[index].name := value;
      } else {
        rows[index].amount := value;
      }
    }

    /**
     * `handleSubmit`: one new category per row with both fields filled in, in row
     * order, each under the next fresh id from `ids`; then the editor completes,
     * whether or not any row qualified.
     */
    method Submit(store: FinanceStore, ids: seq<string>, parse: string -> real) returns (completed: bool)
      requires FreshIds(ids, store.budgetCategories) && |rows| <= |ids|
      modifies store`budgetCategories
      ensures completed
      ensures store.budgetCategories == old(store.budgetCategories) + Created(ids, ManualDrafts(Entries(), parse))
      ensures old(store.IdsDistinct()) ==> store.IdsDistinct()
    {
      ghost var base := store.budgetCategories;
      ghost var entries := Entries();
      var done: seq<CategoryDraft> := [];
      var k := 0;
      while k < |rows|
        invariant 0 <= k <= |rows|
        invariant done == ManualDrafts(entries[..k], parse)
        invariant store.budgetCategories == base + Created(ids, done)
        invariant old(store.IdsDistinct()) ==> store.IdsDistinct()
      {
        var row := rows[k];
        assert entries[..k + 1][..k] == entries[..k];
        if row.name != "" && row.amount != "" {
          var draft := CategoryDraft(row.name, parse(row.amount));
          AddDraft(store, ids, base, done, draft);
          done := done + [draft];
        }
        k := k + 1;
      }
      assert entries[..k] == entries;
      completed := true;
    }
  }
}
