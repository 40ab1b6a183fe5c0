/** The migration diff filter: it discards the spurious unique-constraint operations that a
    name-keyed comparison produces on tables whose unique constraints share a name, after checking
    those tables' constraint signatures. */
module DiffFilter {
  import opened Sql

  /** A sorted tuple of column names is determined by the multiset of the names. */
  datatype Signature = Signature(name: string, columns: multiset<string>)

  datatype Constraint = Constraint(isUnique: bool, name: Option<string>, columns: seq<string>)

  /** A table of the metadata, and what the inspector finds under its name and schema. */
  datatype Table = Table(
    schema: Option<string>, name: string, constraints: seq<Constraint>, exists_: bool, found: seq<Constraint>)

  datatype Item = CreateUnique(name: Option<string>) | DropConstraint(kind: string, name: Option<string>) | OtherItem(text: string)

  /** `ModifyTableOps`, whose list of items the filter replaces. */
  class TableOps {
    const tableName: string
    var ops: seq<Item>

    constructor (tableName: string, ops: seq<Item>)
      ensures this.tableName == tableName && this.ops == ops
    {
      this.tableName := tableName;
      this.ops := ops;
    }
  }

  datatype Operation = Modify(table: TableOps) | OtherOperation(text: string)

  /** str(name), where an unnamed constraint becomes the text None. */
  function Str(name: Option<string>): string { if name.Some? then name.value else "None" }

  function SignatureOf(c: Constraint): Signature { Signature(Str(c.name), multiset(c.columns)) }

  // ----- specification -----

  function Expected(constraints: seq<Constraint>): seq<Signature> {
    if constraints == [] then []
    else (if constraints[0].isUnique then [SignatureOf(constraints[0])] else []) + Expected(constraints[1..])
  }

  function Actual(t: Table): seq<Signature> { seq(|t.found|, i requires 0 <= i < |t.found| => SignatureOf(t.found[i])) }

  ghost predicate Repeats(s: seq<Signature>, name: string) {
    exists i, j :: 0 <= i < j < |s| && s[i].name == name && s[j].name == name
  }

  /** Two constraints share this name, as declared or as found. */
  ghost predicate Collides(t: Table, name: string) {
    t.exists_ && (Repeats(Expected(t.constraints), name) || Repeats(Actual(t), name))
  }

  /** No unique constraint was added, dropped, renamed or given other columns. */
  predicate Clean(t: Table) { multiset(Expected(t.constraints)) == multiset(Actual(t)) }

  ghost predicate Drifts(t: Table) { !Clean(t) && exists name :: Collides(t, name) }

  predicate Removed(item: Item, names: set<string>) {
    match item
    case CreateUnique(name) => name.Some? && name.value in names
    case DropConstraint(kind, name) => kind == "unique" && name.Some? && name.value in names
    case OtherItem(_) => false
  }

  function Kept(ops: seq<Item>, names: set<string>): seq<Item> {
    if ops == [] then [] else (if Removed(ops[0], names) then [] else [ops[0]]) + Kept(ops[1..], names)
  }

  lemma {:induction false} KeptAppends(ops: seq<Item>, item: Item, names: set<string>)
    ensures Kept(ops + [item], names) == Kept(ops, names) + if Removed(item, names) then [] else [item]
  {
    if ops != [] {
      KeptAppends(ops[1..], item, names);
      assert (ops + [item])[1..] == ops[1..] + [item];
    }
  }

  /** The filter keeps exactly the items it does not remove, each as it was and in order. */
  lemma {:induction false} KeptExactly(ops: seq<Item>, names: set<string>) returns (at: seq<nat>)
    ensures |at| == |Kept(ops, names)|
    ensures forall k | 0 <= k < |at| :: at[k] < |ops| && Kept(ops, names)[k] == ops[at[k]]
    ensures forall k, l | 0 <= k < l < |at| :: at[k] < at[l]
    ensures forall i: nat | i < |ops| :: i in at <==> !Removed(ops[i], names)
  {
    if ops == [] {
      at := [];
    } else {
      var last := |ops| - 1;
      var front := ops[..last];
      assert ops == front + [ops[last]];
      KeptAppends(front, ops[last], names);
      at := KeptExactly(front, names);
      if !Removed(ops[last], names) {
        at := at + [last];
      }
    }
  }

  lemma {:induction false} KeptTwice(ops: seq<Item>, names: set<string>)
    ensures Kept(Kept(ops, names), names) == Kept(ops, names)
  {
    if ops != [] {
      KeptTwice(ops[1..], names);
      if !Removed(ops[0], names) {
        assert Kept(ops, names)[1..] == Kept(ops[1..], names);
      } else {
        assert Kept(ops, names) == Kept(ops[1..], names);
      }
    }
  }

  // ----- `compare_colliding_unique_names` -----

  method ExpectedSignatures(constraints: seq<Constraint>) returns (s: seq<Signature>)
    ensures s == Expected(constraints)
  {
    s := [];
    for i := |constraints| downto 0
      invariant s == Expected(constraints[i..])
    {
      assert constraints[i..][0] == constraints[i] && constraints[i..][1..] == constraints[i + 1..];
      if constraints[i].isUnique {
        s := [SignatureOf(constraints[i])] + s;
      }
    }
  }

  /** The names counted more than once. */
  method RepeatedNames(s: seq<Signature>) returns (names: set<string>)
    ensures forall name :: name in names <==> Repeats(s, name)
  {
    var seen: set<string> := {};
    names := {};
    for j := 0 to |s|
      invariant forall name :: name in seen <==> exists i :: 0 <= i < j && s[i].name == name
      invariant forall name :: name in names <==> Repeats(s[..j], name)
    {
      forall name
        ensures Repeats(s[..j + 1], name) <==>
          Repeats(s[..j], name) || (name == s[j].name && exists i :: 0 <= i < j && s[i].name == name)
      {
        RepeatsExtends(s, j, name);
      }
      if s[j].name in seen {
        names := names + {s[j].name};
      }
      seen := seen + {s[j].name};
    }
    assert s[..|s|] == s;
  }

  lemma RepeatsExtends(s: seq<Signature>, j: nat, name: string)
    requires j < |s|
    ensures Repeats(s[..j + 1], name) <==>
      Repeats(s[..j], name) || (name == s[j].name && exists i :: 0 <= i < j && s[i].name == name)
  {
  }

  /** What the first loop leaves in `colliding`: an entry for a name comes from an existing, clean
      table of that name with collisions, and holds exactly its colliding names. */
  ghost predicate IsColliding(tables: seq<Table>, n: nat, colliding: map<string, set<string>>)
    requires n <= |tables|
  {
    && (forall i: nat | i < n :: !Drifts(tables[i]) && Covered(tables[i], colliding))
    && (forall key | key in colliding :: exists i: nat :: i < n && Explains(tables[i], key, colliding[key]))
  }

  ghost predicate Covered(t: Table, colliding: map<string, set<string>>) {
    forall name | Collides(t, name) :: t.name in colliding
  }

  ghost predicate Explains(t: Table, key: string, names: set<string>) {
    t.name == key && t.exists_ && Clean(t) && names != {} && forall name :: name in names <==> Collides(t, name)
  }

  /** One table of the first loop: its colliding names, or a drift. */
  method Inspect(t: Table) returns (names: set<string>, drifts: bool)
    ensures forall name :: name in names <==> Collides(t, name)
    ensures drifts <==> Drifts(t)
  {
    if !t.exists_ {
      return {}, false;
    }
    var expected := ExpectedSignatures(t.constraints);
    var actual := Actual(t);
    var declared := RepeatedNames(expected);
    var present := RepeatedNames(actual);
    names := declared + present;
    if names != {} {
      ghost var name := ElementOf(names);
    }
    drifts := names != {} && multiset(expected) != multiset(actual);
  }

  method FindColliding(tables: seq<Table>) returns (colliding: map<string, set<string>>, drift: Option<string>)
    ensures drift.None? ==> IsColliding(tables, |tables|, colliding)
    ensures drift.Some? ==> exists i: nat :: i < |tables| && Drifts(tables[i]) && tables[i].name == drift.value
  {
    colliding := map[];
    for n := 0 to |tables|
      invariant IsColliding(tables, n, colliding)
    {
      var names, drifts := Inspect(tables[n]);
      if drifts {
        return colliding, Some(tables[n].name);
      }
      if names != {} {
        ghost var name := ElementOf(names);
        assert Explains(tables[n], tables[n].name, names);
        CollidingExtends(tables, n, colliding, names);
        colliding := colliding[tables[n].name := names];
      } else {
        assert Covered(tables[n], colliding);
        CollidingStays(tables, n, colliding);
      }
    }
    drift := None;
  }

  lemma CollidingExtends(tables: seq<Table>, n: nat, colliding: map<string, set<string>>, names: set<string>)
    requires n < |tables| && IsColliding(tables, n, colliding) && !Drifts(tables[n]) && Explains(tables[n], tables[n].name, names)
    ensures IsColliding(tables, n + 1, colliding[tables[n].name := names])
  {
    var more := colliding[tables[n].name := names];
    forall key | key in more ensures exists i: nat :: i < n + 1 && Explains(tables[i], key, more[key]) {
      if key != tables[n].name {
        var i: nat :| i < n && Explains(tables[i], key, colliding[key]);
      }
    }
  }

  lemma CollidingStays(tables: seq<Table>, n: nat, colliding: map<string, set<string>>)
    requires n < |tables| && IsColliding(tables, n, colliding) && !Drifts(tables[n]) && Covered(tables[n], colliding)
    ensures IsColliding(tables, n + 1, colliding)
  {
  }

  function NamesFor(colliding: map<string, set<string>>, table: string): set<string> {
    if table in colliding then colliding[table] else {}
  }

  method FilterOps(ops: seq<Item>, names: set<string>) returns (kept: seq<Item>)
    ensures kept == Kept(ops, names)
  {
    kept := [];
    for i := 0 to |ops|
      invariant kept == Kept(ops[..i], names)
    {
      KeptAppends(ops[..i], ops[i], names);
      assert ops[..i + 1] == ops[..i] + [ops[i]];
      if !Removed(ops[i], names) {
        kept := kept + [ops[i]];
      }
    }
    assert ops[..|ops|] == ops;
  }

  function TablesOf(changes: seq<Operation>): set<TableOps> {
    set i | 0 <= i < |changes| && changes[i].Modify? :: changes[i].table
  }

  /** One list of changes. A table that occurs again, here or in another list, is filtered again,
      which changes nothing more. */
  method FilterChanges(changes: seq<Operation>, colliding: map<string, set<string>>)
    modifies TablesOf(changes)
    ensures forall o | o in TablesOf(changes) :: o.ops == Kept(old(o.ops), NamesFor(colliding, o.tableName))
  {
    for i := 0 to |changes|
      invariant forall o | o in TablesOf(changes[..i]) :: o.ops == Kept(old(o.ops), NamesFor(colliding, o.tableName))
      invariant forall o | o in TablesOf(changes) && o !in TablesOf(changes[..i]) :: o.ops == old(o.ops)
    {
      assert TablesOf(changes[..i + 1]) == TablesOf(changes[..i]) + (if changes[i].Modify? then {changes[i].table} else {}) by {
        TablesExtend(changes, i);
      }
      if changes[i].Modify? {
        var o := changes[i].table;
        assert o in TablesOf(changes);
        var names := NamesFor(colliding, o.tableName);
        KeptTwice(old(o.ops), names);
        o.ops := FilterOps(o.ops, names);
      }
    }
    assert changes[..|changes|] == changes;
  }

  lemma TablesExtend(changes: seq<Operation>, i: nat)
    requires i < |changes|
    ensures TablesOf(changes[..i + 1]) == TablesOf(changes[..i]) + if changes[i].Modify? then {changes[i].table} else {}
  {
  }

  function ListTables(lists: seq<seq<Operation>>): set<TableOps> {
    set l, i | 0 <= l < |lists| && 0 <= i < |lists[l]| && lists[l][i].Modify? :: lists[l][i].table
  }

  lemma ListTablesStep(lists: seq<seq<Operation>>, i: nat)
    requires i < |lists|
    ensures ListTables(lists[..i + 1]) == ListTables(lists[..i]) + TablesOf(lists[i])
    ensures TablesOf(lists[i]) <= ListTables(lists)
  {
  }

  method FilterLists(lists: seq<seq<Operation>>, colliding: map<string, set<string>>)
    modifies ListTables(lists)
    ensures forall o | o in ListTables(lists) :: o.ops == Kept(old(o.ops), NamesFor(colliding, o.tableName))
  {
    for i := 0 to |lists|
      invariant forall o | o in ListTables(lists[..i]) :: o.ops == Kept(old(o.ops), NamesFor(colliding, o.tableName))
      invariant forall o | o in ListTables(lists) && o !in ListTables(lists[..i]) :: o.ops == old(o.ops)
    {
      ListTablesStep(lists, i);
      forall o | o in ListTables(lists[..i])
        ensures Kept(o.ops, NamesFor(colliding, o.tableName)) == Kept(old(o.ops), NamesFor(colliding, o.tableName))
      {
        KeptTwice(old(o.ops), NamesFor(colliding, o.tableName));
      }
      FilterChanges(lists[i], colliding);
    }
    assert lists[..|lists|] == lists;
  }

  /** The whole hook. Off SQLite it does nothing. It raises exactly when some existing table has
      colliding names and other signatures than declared, and then no operation has been touched.
      Otherwise every table operation keeps exactly what `Kept` says for the names found colliding.
      `changes` are the upgrade and downgrade lists of all directives. */
  method CompareCollidingUniqueNames(sqlite: bool, tables: seq<Table>, changes: seq<seq<Operation>>)
    returns (drift: Option<string>, colliding: map<string, set<string>>)
    modifies ListTables(changes)
    ensures drift.Some? <==> sqlite && exists i: nat :: i < |tables| && Drifts(tables[i])
    ensures drift.Some? ==> exists i: nat :: i < |tables| && Drifts(tables[i]) && tables[i].name == drift.value
    ensures drift.Some? || !sqlite ==> forall o | o in ListTables(changes) :: o.ops == old(o.ops)
    ensures drift.None? && sqlite ==> IsColliding(tables, |tables|, colliding)
    ensures drift.None? && sqlite ==>
      forall o | o in ListTables(changes) :: o.ops == Kept(old(o.ops), NamesFor(colliding, o.tableName))
  {
    colliding, drift := map[], None;
    if !sqlite {
      return;
    }
    colliding, drift := FindColliding(tables);
    if drift.None? {
      FilterLists(changes, colliding);
    }
  }

  // ----- nothing real is hidden -----

  /** Whenever an item is removed, a table of that name exists whose declared and found signatures are
      the same multiset, and the item's name is one that its constraints share. */
  lemma RemovalIsSpurious(tables: seq<Table>, colliding: map<string, set<string>>, table: string, item: Item)
    requires IsColliding(tables, |tables|, colliding) && Removed(item, NamesFor(colliding, table))
    ensures !item.OtherItem? && item.name.Some?
    ensures exists i: nat :: i < |tables| && tables[i].name == table && Clean(tables[i]) && Collides(tables[i], item.name.value)
  {
    var i: nat :| i < |tables| && Explains(tables[i], table, colliding[table]);
  }

  predicate DistinctNames(tables: seq<Table>) {
    forall i, j | 0 <= i < j < |tables| :: tables[i].name != tables[j].name
  }

  /** With one table per name, as in metadata without schemas, the removal sees no drift of that table
      at all, and it never touches a table without colliding names. */
  lemma NoDriftIsHidden(tables: seq<Table>, colliding: map<string, set<string>>, i: nat, item: Item)
    requires DistinctNames(tables) && IsColliding(tables, |tables|, colliding) && i < |tables|
    ensures Removed(item, NamesFor(colliding, tables[i].name)) ==> Clean(tables[i]) && Collides(tables[i], item.name.value)
    ensures (forall name :: !Collides(tables[i], name)) ==> Kept([item], NamesFor(colliding, tables[i].name)) == [item]
  {
    if Removed(item, NamesFor(colliding, tables[i].name)) {
      RemovalIsSpurious(tables, colliding, tables[i].name, item);
    }
  }

  /** Exactly when a drift can be discarded: some item would be removed from a drifted table if and
      only if another table has its bare name and constraints sharing a name. */
  lemma HidesDriftExactly(tables: seq<Table>, colliding: map<string, set<string>>, i: nat)
    requires IsColliding(tables, |tables|, colliding) && i < |tables| && !Clean(tables[i])
    ensures (exists item :: Removed(item, NamesFor(colliding, tables[i].name))) <==>
      exists k: nat, name :: k < |tables| && k != i && tables[k].name == tables[i].name && Collides(tables[k], name)
  {
    var key := tables[i].name;
    if item :| Removed(item, NamesFor(colliding, key)) {
      RemovalIsSpurious(tables, colliding, key, item);
    }
    if k: nat, name :| k < |tables| && k != i && tables[k].name == key && Collides(tables[k], name) {
      assert Covered(tables[k], colliding);
      var x := ElementOf(colliding[key]);
      assert Removed(CreateUnique(Some(x)), NamesFor(colliding, key));
    }
  }

  /** The entry is keyed by the bare table name: with a second table of the same name in another
      schema, a real drift of that one can be discarded. */
  lemma SchemasCanHideDrift(item: Item) returns (tables: seq<Table>, colliding: map<string, set<string>>)
    requires item == CreateUnique(Some("uq"))
    ensures |tables| == 2 && tables[0].name == tables[1].name && tables[0].schema != tables[1].schema
    ensures IsColliding(tables, 2, colliding)
    ensures !Clean(tables[1]) && Removed(item, NamesFor(colliding, tables[1].name))
  {
    var clean := CleanExample();
    var drifted := DriftedExample();
    tables, colliding := [clean, drifted], map["t" := {"uq"}];
    assert Explains(tables[0], "t", colliding["t"]);
  }

  lemma CleanExample() returns (t: Table)
    ensures t.schema == None && t.name == "t" && Explains(t, "t", {"uq"})
  {
    var a, b := Constraint(true, Some("uq"), ["a"]), Constraint(true, Some("uq"), ["b"]);
    t := Table(None, "t", [a, b], true, [a, b]);
    TwoOfAName(a, b);
    assert Actual(t) == Expected([a, b]);
    assert Collides(t, "uq");
  }

  lemma DriftedExample() returns (t: Table)
    ensures t.schema == Some("other") && t.name == "t" && !Clean(t) && forall name :: !Collides(t, name)
  {
    var a := Constraint(true, Some("uq"), ["a"]);
    t := Table(Some("other"), "t", [a], true, []);
    OneOfAName(a);
    assert Actual(t) == [];
    assert SignatureOf(a) in multiset(Expected([a]));
  }

  lemma TwoOfAName(a: Constraint, b: Constraint)
    requires a.isUnique && b.isUnique && a.name == b.name
    ensures Expected([a, b]) == [SignatureOf(a), SignatureOf(b)]
    ensures forall name :: Repeats(Expected([a, b]), name) <==> name == Str(a.name)
  {
    assert [a, b][1..] == [b];
    assert [b][1..] == [];
    assert Expected([b]) == [SignatureOf(b)] + Expected([]);
    assert Expected([a, b]) == [SignatureOf(a)] + Expected([b]);
    var s := Expected([a, b]);
    assert s[0].name == Str(a.name) && s[1].name == Str(a.name);
  }

  lemma OneOfAName(a: Constraint)
    requires a.isUnique
    ensures Expected([a]) == [SignatureOf(a)] && forall name :: !Repeats(Expected([a]), name)
  {
  }
}
