/** SQLite cannot alter a CHECK in place, so every migration of `runs` and `run_events` creates a
    second table, copies a listed set of columns into it, drops the first and renames. This module
    is that rebuild, for any pair of schemas, and the algebra of going there and back. */
module Rebuild {
  import opened Sql

  /** A table definition: columns, NOT NULL columns, the conjunction of its CHECKs, and its PRIMARY
      KEY and UNIQUE column sets (all NOT NULL here). */
  datatype Schema = Schema(
    columns: set<Column>,
    required: set<Column>,
    check: Row -> bool,
    keys: set<set<Column>>)

  predicate Admits(s: Schema, r: Row) {
    && r.Keys == s.columns
    && (forall c | c in s.required :: Get(r, c) != Null)
    && (forall c | c in r && IsNumeric(c) :: !r[c].Text?)
    && s.check(r)
  }

  predicate KeysDistinct(keys: set<set<Column>>, rows: seq<Row>) {
    forall k, i, j {:trigger k in keys, rows[i], rows[j]} | k in keys && 0 <= i < j < |rows| ::
      Restrict(rows[i], k) != Restrict(rows[j], k)
  }

  /** A state the table can be in. */
  predicate Holds(s: Schema, rows: seq<Row>) {
    && (forall i | 0 <= i < |rows| :: Admits(s, rows[i]))
    && KeysDistinct(s.keys, rows)
  }

  /** INSERT INTO target (listed) SELECT listed FROM source, for one row. `fill` is what the INSERT
      leaves in a column it does not copy: a literal of the SELECT or the column's DEFAULT. */
  function CopyRow(target: Schema, listed: set<Column>, fill: Row, r: Row): Row {
    map c | c in target.columns :: if c in listed then Get(r, c) else Get(fill, c)
  }

  function CopyRows(target: Schema, listed: set<Column>, fill: Row, rows: seq<Row>): (copy: seq<Row>)
    ensures |copy| == |rows|
  {
    seq(|rows|, i requires 0 <= i < |rows| => CopyRow(target, listed, fill, rows[i]))
  }

  /** Value-for-value when the listed columns are all of both tables' columns. */
  lemma CopyIsIdentity(target: Schema, listed: set<Column>, rows: seq<Row>)
    requires target.columns == listed
    requires forall i | 0 <= i < |rows| :: rows[i].Keys == listed
    ensures CopyRows(target, listed, map[], rows) == rows
  {
    forall i | 0 <= i < |rows| ensures CopyRow(target, listed, map[], rows[i]) == rows[i] {
    }
  }

  /** Copying keeps every key that the copied columns cover. */
  lemma CopyKeepsKeys(target: Schema, listed: set<Column>, fill: Row, keys: set<set<Column>>, rows: seq<Row>)
    requires KeysDistinct(keys, rows)
    requires forall k | k in keys :: k <= listed && k <= target.columns
    ensures KeysDistinct(keys, CopyRows(target, listed, fill, rows))
  {
  }

  // ----- widening a table by new columns, and narrowing it again -----

  /** `wide` is `narrow` with the columns of `fill` added; CHECKs of the narrow table are not
      assumed to be CHECKs of the wide one. */
  predicate Widens(narrow: Schema, wide: Schema, fill: Row) {
    && narrow.columns !! fill.Keys
    && wide.columns == narrow.columns + fill.Keys
    && narrow.required <= narrow.columns
    && narrow.required <= wide.required <= narrow.required + fill.Keys
    && wide.keys == narrow.keys
    && (forall k | k in narrow.keys :: k <= narrow.columns)
  }

  lemma NarrowAfterWiden(narrow: Schema, wide: Schema, fill: Row, rows: seq<Row>)
    requires Widens(narrow, wide, fill)
    requires forall i | 0 <= i < |rows| :: rows[i].Keys == narrow.columns
    ensures CopyRows(narrow, narrow.columns, map[], CopyRows(wide, narrow.columns, fill, rows)) == rows
  {
    forall i | 0 <= i < |rows|
      ensures CopyRow(narrow, narrow.columns, map[], CopyRow(wide, narrow.columns, fill, rows[i])) == rows[i]
    {
    }
  }

  /** What the two copies look like through the shared columns. */
  lemma CopiesShareColumns(narrow: Schema, wide: Schema, fill: Row, r: Row, w: Row)
    requires Widens(narrow, wide, fill) && r.Keys == narrow.columns
    ensures Restrict(CopyRow(wide, narrow.columns, fill, r), narrow.columns) == r
    ensures CopyRow(narrow, narrow.columns, map[], w) == Restrict(w, narrow.columns)
    ensures HoldsOnlyFill(fill, CopyRow(wide, narrow.columns, fill, r))
  {
  }

  predicate HoldsOnlyFill(fill: Row, r: Row) {
    forall c | c in fill :: Get(r, c) == fill[c]
  }

  /** Narrowing and then widening restores a wide table exactly when every dropped column of every
      row already held the value widening writes. */
  lemma WidenAfterNarrow(narrow: Schema, wide: Schema, fill: Row, rows: seq<Row>)
    requires Widens(narrow, wide, fill)
    requires forall i | 0 <= i < |rows| :: rows[i].Keys == wide.columns
    ensures CopyRows(wide, narrow.columns, fill, CopyRows(narrow, narrow.columns, map[], rows)) == rows
       <==> forall i | 0 <= i < |rows| :: HoldsOnlyFill(fill, rows[i])
  {
    var back := CopyRows(wide, narrow.columns, fill, CopyRows(narrow, narrow.columns, map[], rows));
    forall i | 0 <= i < |rows| ensures back[i] == rows[i] <==> HoldsOnlyFill(fill, rows[i]) {
      RowBack(narrow, wide, fill, rows[i]);
    }
    if back == rows {
      forall i | 0 <= i < |rows| ensures HoldsOnlyFill(fill, rows[i]) {
        assert back[i] == rows[i];
      }
    }
  }

  lemma RowBack(narrow: Schema, wide: Schema, fill: Row, r: Row)
    requires Widens(narrow, wide, fill) && r.Keys == wide.columns
    ensures CopyRow(wide, narrow.columns, fill, CopyRow(narrow, narrow.columns, map[], r)) == r
       <==> HoldsOnlyFill(fill, r)
  {
  }

  /** A fill the wide table can store: right types, and no NULL in a required column. */
  predicate FillFits(wide: Schema, fill: Row) {
    && (forall c | c in fill && c in wide.required :: fill[c] != Null)
    && (forall c | c in fill && IsNumeric(c) :: !fill[c].Text?)
  }

  /** Widening a valid table gives a valid table, provided the wide CHECKs accept each copy. */
  lemma WidenHolds(narrow: Schema, wide: Schema, fill: Row, rows: seq<Row>)
    requires Widens(narrow, wide, fill) && FillFits(wide, fill) && Holds(narrow, rows)
    requires forall i | 0 <= i < |rows| :: wide.check(CopyRow(wide, narrow.columns, fill, rows[i]))
    ensures Holds(wide, CopyRows(wide, narrow.columns, fill, rows))
  {
    CopyKeepsKeys(wide, narrow.columns, fill, narrow.keys, rows);
    forall i | 0 <= i < |rows|
      ensures Admits(wide, CopyRow(wide, narrow.columns, fill, rows[i]))
    {
      var w := CopyRow(wide, narrow.columns, fill, rows[i]);
      assert w.Keys == wide.columns;
      assert forall c | c in narrow.required :: Get(rows[i], c) != Null;
    }
  }

  /** Narrowing a valid table gives a valid table, provided the narrow CHECKs accept each copy. */
  lemma NarrowHolds(narrow: Schema, wide: Schema, fill: Row, rows: seq<Row>)
    requires Widens(narrow, wide, fill) && Holds(wide, rows)
    requires forall i | 0 <= i < |rows| :: narrow.check(CopyRow(narrow, narrow.columns, map[], rows[i]))
    ensures Holds(narrow, CopyRows(narrow, narrow.columns, map[], rows))
  {
    CopyKeepsKeys(narrow, narrow.columns, map[], narrow.keys, rows);
    forall i | 0 <= i < |rows|
      ensures Admits(narrow, CopyRow(narrow, narrow.columns, map[], rows[i]))
    {
      var r := CopyRow(narrow, narrow.columns, map[], rows[i]);
      assert r.Keys == narrow.columns;
      assert forall c | c in wide.required :: Get(rows[i], c) != Null;
    }
  }

  // ----- a reversible step: a widening, and the rows that block its reversal -----

  /** One table's part in a migration: its schema before and after, what the new columns are filled
      with, and the rows the downgrade's preflight counts. */
  datatype Evolution = Evolution(narrow: Schema, wide: Schema, fill: Row, blocks: Row -> bool)

  function Widened(e: Evolution, r: Row): Row { CopyRow(e.wide, e.narrow.columns, e.fill, r) }
  function Narrowed(e: Evolution, w: Row): Row { CopyRow(e.narrow, e.narrow.columns, map[], w) }

  function WidenAll(e: Evolution, rows: seq<Row>): seq<Row> { CopyRows(e.wide, e.narrow.columns, e.fill, rows) }
  function NarrowAll(e: Evolution, rows: seq<Row>): seq<Row> { CopyRows(e.narrow, e.narrow.columns, map[], rows) }

  predicate NoRow(p: Row -> bool, rows: seq<Row>) {
    forall i | 0 <= i < |rows| :: !p(rows[i])
  }

  lemma NarrowedIsRestriction(e: Evolution, w: Row)
    ensures Narrowed(e, w) == Restrict(w, e.narrow.columns)
    ensures Restrict(Narrowed(e, w), e.narrow.columns) == Narrowed(e, w)
  {
  }

  /** What has to be shown of single rows for the whole table to go there and back. */
  ghost predicate Sound(e: Evolution) {
    && Widens(e.narrow, e.wide, e.fill) && FillFits(e.wide, e.fill)
    && (forall r :: Admits(e.narrow, r) ==> e.wide.check(Widened(e, r)) && !e.blocks(Widened(e, r)))
    && (forall w :: Admits(e.wide, w) && !e.blocks(w) ==> e.narrow.check(Narrowed(e, w)) && HoldsOnlyFill(e.fill, w))
  }

  lemma TableUp(e: Evolution, rows: seq<Row>)
    requires Sound(e) && Holds(e.narrow, rows)
    ensures Holds(e.wide, WidenAll(e, rows)) && NoRow(e.blocks, WidenAll(e, rows))
    ensures NarrowAll(e, WidenAll(e, rows)) == rows
  {
    forall i | 0 <= i < |rows|
      ensures e.wide.check(Widened(e, rows[i])) && !e.blocks(Widened(e, rows[i]))
    {
      assert Admits(e.narrow, rows[i]);
    }
    WidenHolds(e.narrow, e.wide, e.fill, rows);
    NarrowAfterWiden(e.narrow, e.wide, e.fill, rows);
  }

  lemma TableDown(e: Evolution, rows: seq<Row>)
    requires Sound(e) && Holds(e.wide, rows) && NoRow(e.blocks, rows)
    ensures Holds(e.narrow, NarrowAll(e, rows))
    ensures WidenAll(e, NarrowAll(e, rows)) == rows
  {
    forall i | 0 <= i < |rows|
      ensures e.narrow.check(Narrowed(e, rows[i])) && HoldsOnlyFill(e.fill, rows[i])
    {
      assert Admits(e.wide, rows[i]) && !e.blocks(rows[i]);
    }
    NarrowHolds(e.narrow, e.wide, e.fill, rows);
    WidenAfterNarrow(e.narrow, e.wide, e.fill, rows);
  }

  /** The preflight count of a downgrade. */
  method CountWhere(p: Row -> bool, rows: seq<Row>) returns (count: nat)
    ensures count == 0 <==> NoRow(p, rows)
  {
    count := 0;
    for i := 0 to |rows|
      invariant count == 0 <==> NoRow(p, rows[..i])
    {
      assert forall j | 0 <= j < i :: rows[..i + 1][j] == rows[..i][j];
      if p(rows[i]) {
        count := count + 1;
        assert p(rows[..i + 1][i]);
      }
    }
    assert rows[..|rows|] == rows;
  }

  // ----- the rebuild itself -----

  /** A table under migration: the rows, and the schema the file currently declares for them. */
  class Table {
    var schema: Schema
    var rows: seq<Row>

    constructor (s: Schema, initial: seq<Row>)
      ensures schema == s && rows == initial
    {
      schema, rows := s, initial;
    }

    /** CREATE the target, INSERT ... SELECT row by row, DROP, RENAME. SQLite aborts the INSERT at
        the first row a constraint rejects; the source table is then still in place. */
    method RebuildAs(target: Schema, listed: set<Column>, fill: Row) returns (ok: bool)
      modifies this
      ensures ok <==> Holds(target, CopyRows(target, listed, fill, old(rows)))
      ensures ok ==> schema == target && rows == CopyRows(target, listed, fill, old(rows))
      ensures !ok ==> schema == old(schema) && rows == old(rows)
    {
      var copy: seq<Row> := [];
      var i := 0;
      ghost var all := CopyRows(target, listed, fill, rows);
      while i < |rows|
        invariant 0 <= i <= |rows|
        invariant schema == old(schema) && rows == old(rows)
        invariant copy == all[..i]
        invariant Holds(target, copy)
      {
        var r := CopyRow(target, listed, fill, rows[i]);
        assert all[i] == r;
        FitsMeans(target.keys, copy, r);
        if !Admits(target, r) || !Fits(target.keys, copy, r) {
          assert copy + [r] <= all;
          PrefixKeys(target.keys, all, copy + [r]);
          return false;
        }
        copy := copy + [r];
        i := i + 1;
      }
      assert copy == all;
      schema, rows := target, copy;
      ok := true;
    }
  }

  /** No row already stored shares a key with the new one. */
  predicate Fits(keys: set<set<Column>>, rows: seq<Row>, r: Row) {
    forall k | k in keys :: forall i | 0 <= i < |rows| :: Restrict(rows[i], k) != Restrict(r, k)
  }

  lemma FitsMeans(keys: set<set<Column>>, rows: seq<Row>, r: Row)
    requires KeysDistinct(keys, rows)
    ensures Fits(keys, rows, r) <==> KeysDistinct(keys, rows + [r])
  {
    var longer := rows + [r];
    if Fits(keys, rows, r) {
      forall k, i, j | k in keys && 0 <= i < j < |longer|
        ensures Restrict(longer[i], k) != Restrict(longer[j], k)
      {
      }
    }
    if KeysDistinct(keys, longer) {
      forall k, i | k in keys && 0 <= i < |rows| ensures Restrict(rows[i], k) != Restrict(r, k) {
        assert longer[i] == rows[i] && longer[|rows|] == r;
      }
    }
  }

  lemma PrefixKeys(keys: set<set<Column>>, all: seq<Row>, prefix: seq<Row>)
    requires prefix <= all
    ensures KeysDistinct(keys, all) ==> KeysDistinct(keys, prefix)
  {
  }
}
