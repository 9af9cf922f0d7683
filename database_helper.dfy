/**
 * The local item store. The query builder's schema and SQL text are not
 * part of this model; the table is a value `Table` whose behaviour is the
 * one the helper code and its tests rely on:
 *  - rows come back from "select all" in id order, which is insertion order;
 *  - an insert passes only a name, the id is assigned by the store and the
 *    favourite flag starts at 0;
 *  - names are unique: inserting a name that is already present is ignored,
 *    so the existing row keeps its id and its favourite flag.
 */
module Database {

  /** A row of the item table. */
  datatype Beer = Beer(id: int, name: string, favorite: int)

  /** `Beer.isFavorited()`: any non-zero flag counts as favourited. */
  predicate IsFavorited(b: Beer) {
    b.favorite != 0
  }

  /** `Boolean.toLong()`: the flag the store writes for a boolean. */
  function ToLong(b: bool): (r: int)
    ensures r == 0 || r == 1
    ensures (r != 0) == b
  {
    if b then 1 else 0
  }

  /** The item table: its rows in select-all order and the id the next insert receives. */
  datatype Table = Table(rows: seq<Beer>, nextId: int)

  /** The table of a fresh database. */
  const EmptyTable := Table([], 1)

  predicate IncreasingIds(rows: seq<Beer>) {
    forall i, j :: 0 <= i < j < |rows| ==> rows[i].id < rows[j].id
  }

  predicate DistinctNames(rows: seq<Beer>) {
    forall i, j :: 0 <= i < j < |rows| ==> rows[i].name != rows[j].name
  }

  /** The invariant every operation of the store keeps. */
  predicate WellFormed(t: Table) {
    && t.nextId >= 1
    && (forall i :: 0 <= i < |t.rows| ==> 1 <= t.rows[i].id < t.nextId)
    && IncreasingIds(t.rows)
    && DistinctNames(t.rows)
    && (forall i :: 0 <= i < |t.rows| ==> t.rows[i].favorite == 0 || t.rows[i].favorite == 1)
  }

  predicate HasName(rows: seq<Beer>, name: string) {
    exists i :: 0 <= i < |rows| && rows[i].name == name
  }

  /** One `insertBeer(null, name)`: adds a row unless the name is already present. */
  function InsertName(t: Table, name: string): (r: Table)
    ensures WellFormed(t) ==> WellFormed(r)
    ensures t.rows <= r.rows && t.nextId <= r.nextId
    ensures HasName(r.rows, name)
    ensures HasName(t.rows, name) ==> r == t
    ensures !HasName(t.rows, name) ==>
      |r.rows| == |t.rows| + 1 && r.rows[|t.rows|] == Beer(t.nextId, name, 0)
  {
    if HasName(t.rows, name) then t
    else
      var r := Table(t.rows + [Beer(t.nextId, name, 0)], t.nextId + 1);
      assert r.rows[|t.rows|].name == name;
      r
  }

  /** `insertBeers`: the names of `beers` inserted in order; ids and flags of `beers` are not used. */
  function InsertAll(t: Table, beers: seq<Beer>): Table
    decreases |beers|
  {
    if |beers| == 0 then t
    else InsertName(InsertAll(t, beers[..|beers| - 1]), beers[|beers| - 1].name)
  }

  /**
   * Inserting keeps the invariant, keeps every existing row as it was (so a
   * favourite flag survives a re-download), makes every inserted name
   * present, and adds only rows carrying one of those names with flag 0.
   */
  lemma {:induction false} InsertAllKeepsRows(t: Table, beers: seq<Beer>)
    requires WellFormed(t)
    ensures var r := InsertAll(t, beers);
      && WellFormed(r)
      && t.rows <= r.rows
      && (forall k :: 0 <= k < |beers| ==> HasName(r.rows, beers[k].name))
      && (forall i :: |t.rows| <= i < |r.rows| ==>
            r.rows[i].favorite == 0 && exists k :: 0 <= k < |beers| && beers[k].name == r.rows[i].name)
  {
    if |beers| > 0 {
      var front := beers[..|beers| - 1];
      var last := beers[|beers| - 1].name;
      InsertAllKeepsRows(t, front);
      var m := InsertAll(t, front);
      var r := InsertName(m, last);
      forall k | 0 <= k < |beers|
        ensures HasName(r.rows, beers[k].name)
      {
        if k < |beers| - 1 {
          assert beers[k] == front[k];
          var i :| 0 <= i < |m.rows| && m.rows[i].name == beers[k].name;
          assert r.rows[i] == m.rows[i];
        }
      }
      forall i | |t.rows| <= i < |r.rows|
        ensures r.rows[i].favorite == 0 && exists k :: 0 <= k < |beers| && beers[k].name == r.rows[i].name
      {
        if i < |m.rows| {
          assert r.rows[i] == m.rows[i];
          var k :| 0 <= k < |front| && front[k].name == m.rows[i].name;
          assert beers[k] == front[k];
        } else {
          assert beers[|beers| - 1].name == r.rows[i].name;
        }
      }
    }
  }

  /** Two batches with the same names, in the same order, insert the same rows. */
  lemma {:induction false} InsertAllUsesOnlyNames(t: Table, a: seq<Beer>, b: seq<Beer>)
    requires |a| == |b|
    requires forall k :: 0 <= k < |a| ==> a[k].name == b[k].name
    ensures InsertAll(t, a) == InsertAll(t, b)
  {
    if |a| > 0 {
      InsertAllUsesOnlyNames(t, a[..|a| - 1], b[..|b| - 1]);
    }
  }

  /** Re-inserting names that are all present already leaves the table exactly as it was. */
  lemma {:induction false} InsertAllKnownNames(t: Table, beers: seq<Beer>)
    requires forall k :: 0 <= k < |beers| ==> HasName(t.rows, beers[k].name)
    ensures InsertAll(t, beers) == t
  {
    if |beers| > 0 {
      InsertAllKnownNames(t, beers[..|beers| - 1]);
    }
  }

  /** In a fresh table, distinct names get ids 1, 2, ... in insertion order, unfavourited. */
  lemma {:induction false} InsertAllFresh(beers: seq<Beer>)
    requires forall i, j :: 0 <= i < j < |beers| ==> beers[i].name != beers[j].name
    ensures var r := InsertAll(EmptyTable, beers);
      && |r.rows| == |beers|
      && r.nextId == |beers| + 1
      && forall i :: 0 <= i < |beers| ==> r.rows[i] == Beer(i + 1, beers[i].name, 0)
  {
    if |beers| > 0 {
      var n := |beers|;
      var front := beers[..n - 1];
      InsertAllFresh(front);
      var m := InsertAll(EmptyTable, front);
      assert !HasName(m.rows, beers[n - 1].name) by {
        forall i | 0 <= i < |m.rows| ensures m.rows[i].name != beers[n - 1].name {
          assert beers[i] == front[i];
        }
      }
    }
  }

  /** `updateFavorite(flag, id)` on the table: only the favourite of the row with that id changes. */
  function SetFavorite(t: Table, id: int, flag: int): (r: Table)
    ensures |r.rows| == |t.rows| && r.nextId == t.nextId
    ensures forall i :: 0 <= i < |t.rows| ==>
      r.rows[i].id == t.rows[i].id && r.rows[i].name == t.rows[i].name
    ensures forall i :: 0 <= i < |t.rows| ==>
      r.rows[i].favorite == (if t.rows[i].id == id then flag else t.rows[i].favorite)
    ensures WellFormed(t) && (flag == 0 || flag == 1) ==> WellFormed(r)
  {
    Table(seq(|t.rows|, i requires 0 <= i < |t.rows| =>
      if t.rows[i].id == id then t.rows[i].(favorite := flag) else t.rows[i]), t.nextId)
  }

  /** `selectById(id)`: the rows whose id is `id`, in table order. */
  function RowsWithId(rows: seq<Beer>, id: int): (r: seq<Beer>)
    ensures forall x :: x in r ==> x in rows && x.id == id
    ensures r == [] <==> forall i :: 0 <= i < |rows| ==> rows[i].id != id
  {
    if |rows| == 0 then []
    else (if rows[0].id == id then [rows[0]] else []) + RowsWithId(rows[1..], id)
  }

  /** Selecting by the id of a listed row yields exactly that row. */
  lemma {:induction false} SelectByListedId(rows: seq<Beer>, i: nat)
    requires IncreasingIds(rows)
    requires i < |rows|
    ensures RowsWithId(rows, rows[i].id) == [rows[i]]
  {
    if i == 0 {
      assert RowsWithId(rows[1..], rows[0].id) == [] by {
        forall j | 0 <= j < |rows[1..]| ensures rows[1..][j].id != rows[0].id {
          assert rows[1..][j] == rows[j + 1];
        }
      }
    } else {
      assert rows[1..][i - 1] == rows[i];
      SelectByListedId(rows[1..], i - 1);
    }
  }

  /** With increasing ids, an id selects at most one row. */
  lemma {:induction false} AtMostOneWithId(rows: seq<Beer>, id: int)
    ensures IncreasingIds(rows) ==> |RowsWithId(rows, id)| <= 1
  {
    if |rows| > 0 && IncreasingIds(rows) {
      assert IncreasingIds(rows[1..]) by {
        forall p, q | 0 <= p < q < |rows[1..]| ensures rows[1..][p].id < rows[1..][q].id {
          assert rows[1..][p] == rows[p + 1] && rows[1..][q] == rows[q + 1];
        }
      }
      AtMostOneWithId(rows[1..], id);
      if rows[0].id == id {
        assert RowsWithId(rows[1..], id) == [] by {
          forall j | 0 <= j < |rows[1..]| ensures rows[1..][j].id != id {
            assert rows[1..][j] == rows[j + 1];
          }
        }
      }
    }
  }

  /**
   * After `updateFavorite(id, b)` for the id of a listed row, selecting that id
   * yields the same row with flag `toLong(b)`, which reads back as `b`.
   */
  lemma UpdateThenSelect(t: Table, i: nat, b: bool)
    requires WellFormed(t)
    requires i < |t.rows|
    ensures var r := SetFavorite(t, t.rows[i].id, ToLong(b));
      && RowsWithId(r.rows, t.rows[i].id) == [t.rows[i].(favorite := ToLong(b))]
      && IsFavorited(RowsWithId(r.rows, t.rows[i].id)[0]) == b
  {
    var r := SetFavorite(t, t.rows[i].id, ToLong(b));
    assert IncreasingIds(r.rows) by {
      forall p, q | 0 <= p < q < |r.rows| ensures r.rows[p].id < r.rows[q].id {
        assert r.rows[p].id == t.rows[p].id && r.rows[q].id == t.rows[q].id;
      }
    }
    SelectByListedId(r.rows, i);
  }

  /**
   * The helper around the generated queries. The table is a value held in a
   * field, replaced by each write; each write runs as one transaction.
   */
  class DatabaseHelper {
    var table: Table

    /** Opens a database whose table already holds `existing`. */
    constructor (existing: Table)
      requires WellFormed(existing)
      ensures table == existing
    {
      table := existing;
    }

    /** One snapshot of the observable `selectAllItems()` query. */
    function SelectAllItems(): seq<Beer>
      reads this
    {
      table.rows
    }

    /** One snapshot of the observable `selectById(id)` query. */
    function SelectById(id: int): (r: seq<Beer>)
      reads this
      ensures forall x :: x in r ==> x in SelectAllItems() && x.id == id
      ensures r == [] <==> forall i :: 0 <= i < |table.rows| ==> table.rows[i].id != id
      ensures WellFormed(table) ==> |r| <= 1
    {
      AtMostOneWithId(table.rows, id);
      RowsWithId(table.rows, id)
    }

    /** `insertBeers`: one `insertBeer(null, beer.name)` per element, in order. */
    method InsertBeers(beers: seq<Beer>)
      requires WellFormed(table)
      modifies this
      ensures table == InsertAll(old(table), beers)
      ensures WellFormed(table)
    {
      var i := 0;
      while i < |beers|
        invariant 0 <= i <= |beers|
        invariant table == InsertAll(old(table), beers[..i])
      {
        assert beers[..i + 1][..i] == beers[..i];
        table := InsertName(table, beers[i].name);
        i := i + 1;
      }
      assert beers[..|beers|] == beers;
      InsertAllKeepsRows(old(table), beers);
    }

    /**
     * `deleteAll`: every row goes. Which id the next insert receives depends on
     * the table's key declaration, which is not modelled; the model keeps the
     * counter, and the contract promises only an empty, well-formed table.
     */
    method DeleteAll()
      requires WellFormed(table)
      modifies this
      ensures table.rows == [] && WellFormed(table)
      ensures SelectAllItems() == []
    {
      table := Table([], table.nextId);
    }

    /** `updateFavorite(beerId, favorite)`: writes `favorite.toLong()` into that row. */
    method UpdateFavorite(beerId: int, favorite: bool)
      requires WellFormed(table)
      modifies this
      ensures table == SetFavorite(old(table), beerId, ToLong(favorite))
      ensures WellFormed(table)
    {
      table := SetFavorite(table, beerId, ToLong(favorite));
    }
  }
}
