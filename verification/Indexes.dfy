/** Unique indexes over nullable columns: the tool-definition identity of revision 0007 and the
    occurrence identities of revision 0008. */
module Indexes {
  import opened Sql

  /** A unique index: its key columns, and the WHERE clause that says which rows are in it. */
  datatype Index<!R> = Index(key: R -> seq<Value>, where: R -> Tri)

  predicate HasNull(key: seq<Value>) { exists i :: 0 <= i < |key| && key[i] == Null }

  /** Two rows collide when both are in the index and have the same key without a NULL in it:
      NULLs are distinct under UNIQUE. */
  predicate Collide<R>(ix: Index<R>, a: R, b: R) {
    ix.where(a).Fires() && ix.where(b).Fires() && ix.key(a) == ix.key(b) && !HasNull(ix.key(a))
  }

  predicate Unique<R(!new)>(ix: Index<R>, table: seq<R>) {
    forall i, j | 0 <= i < j < |table| :: !Collide(ix, table[i], table[j])
  }

  // ----- tool definitions -----

  datatype ToolRow = ToolRow(kind: Value, source: Value, name: Value, rest: string)

  /** source_kind and upstream_name are NOT NULL, and source_kind IN ('builtin','mcp'). */
  predicate Kinded(r: ToolRow) {
    r.kind != Null && r.name != Null && IsWord(r.kind, Builtin).Or(IsWord(r.kind, Mcp)).Passes()
  }

  /** SOURCE_PAIRING */
  function Pairing(r: ToolRow): Tri {
    IsWord(r.kind, Builtin).And(IsNull(r.source)).Or(IsWord(r.kind, Mcp).And(NotNull(r.source)))
  }

  function BuiltinIndex(): Index<ToolRow> { Index((r: ToolRow) => [r.name], (r: ToolRow) => IsWord(r.kind, Builtin)) }
  function McpIndex(): Index<ToolRow> { Index((r: ToolRow) => [r.source, r.name], (r: ToolRow) => IsWord(r.kind, Mcp)) }
  function PlainUnique(): Index<ToolRow> { Index((r: ToolRow) => [r.kind, r.source, r.name], (r: ToolRow) => True) }

  /** The same tool: equal in all three columns, a NULL being equal to a NULL. */
  predicate SameTool(a: ToolRow, b: ToolRow) { a.kind == b.kind && a.source == b.source && a.name == b.name }

  predicate NullSafeUnique(table: seq<ToolRow>) {
    forall i, j | 0 <= i < j < |table| :: !SameTool(table[i], table[j])
  }

  lemma CollideExactly(a: ToolRow, b: ToolRow)
    requires Kinded(a) && Kinded(b)
    ensures Collide(BuiltinIndex(), a, b) <==> a.kind == Text(Builtin) && b.kind == Text(Builtin) && a.name == b.name
    ensures Collide(McpIndex(), a, b) <==> a.kind == Text(Mcp) && SameTool(a, b) && a.source != Null
    ensures Collide(PlainUnique(), a, b) <==> SameTool(a, b) && a.source != Null
  {
    assert HasNull([a.source, a.name]) <==> a.source == Null by {
      assert [a.source, a.name][0] == a.source;
    }
    assert HasNull([a.kind, a.source, a.name]) <==> a.source == Null by {
      assert [a.kind, a.source, a.name][1] == a.source;
    }
    assert [a.source, a.name] == [b.source, b.name] <==> a.source == b.source && a.name == b.name by {
      assert [a.source, a.name][0] == a.source && [a.source, a.name][1] == a.name;
      assert [b.source, b.name][0] == b.source && [b.source, b.name][1] == b.name;
    }
    PlainKey(a, b);
  }

  lemma PlainKey(a: ToolRow, b: ToolRow)
    ensures [a.kind, a.source, a.name] == [b.kind, b.source, b.name] <==> SameTool(a, b)
  {
  }

  /** On every table, the two partial indexes with the pairing CHECK are NULL-safe uniqueness. */
  lemma PartialIndexesAreNullSafe(table: seq<ToolRow>)
    requires forall i | 0 <= i < |table| :: Kinded(table[i]) && Pairing(table[i]).Passes()
    ensures Unique(BuiltinIndex(), table) && Unique(McpIndex(), table) <==> NullSafeUnique(table)
  {
  }

  /** What the pairing CHECK is there for: without it, tables that satisfy both indexes are NULL-safe
      unique exactly when they hold no tool twice as an `mcp` row with a NULL source. A `builtin` row
      that carries a source is inside the builtin index and escapes nothing. */
  lemma EscapeWithoutPairing(table: seq<ToolRow>)
    requires forall i | 0 <= i < |table| :: Kinded(table[i])
    requires Unique(BuiltinIndex(), table) && Unique(McpIndex(), table)
    ensures NullSafeUnique(table) <==>
      forall i, j | 0 <= i < j < |table| :: SameTool(table[i], table[j]) ==> !(table[i].kind == Text(Mcp) && table[i].source == Null)
  {
  }

  /** n copies of one built-in. */
  function Copies(r: ToolRow, n: nat): seq<ToolRow> { seq(n, i => r) }

  /** A plain three-column UNIQUE admits any number of copies of a built-in; the partial indexes
      admit no second one. */
  lemma PlainUniqueIsBlind(r: ToolRow, n: nat)
    requires Kinded(r) && r.kind == Text(Builtin) && r.source == Null
    ensures Pairing(r).Passes() && Unique(PlainUnique(), Copies(r, n))
    ensures Unique(BuiltinIndex(), Copies(r, n)) && Unique(McpIndex(), Copies(r, n)) <==> n <= 1
  {
    CollideExactly(r, r);
    if n > 1 {
      assert Collide(BuiltinIndex(), Copies(r, n)[0], Copies(r, n)[1]);
    }
  }

  // ----- trigger occurrences -----

  /** `rest` is every column no constraint modelled here reads. */
  datatype Occurrence = Occurrence(
    trigger: nat, status: Value, run: Value, skipCode: Value, skipMessage: Value,
    nominalAt: Value, eventId: Value, idempotencyKey: Value, rest: string)

  const RUN_CREATED := Text(Free("run_created"))
  const SKIPPED := Text(Free("skipped"))

  function StatusShape(o: Occurrence): Tri {
    Eq(o.status, RUN_CREATED).And(NotNull(o.run)).And(IsNull(o.skipCode)).And(IsNull(o.skipMessage))
      .Or(Eq(o.status, SKIPPED).And(IsNull(o.run)).And(NotNull(o.skipCode)).And(NotNull(o.skipMessage)))
  }

  function IdentityShape(o: Occurrence): Tri {
    NotNull(o.nominalAt).And(IsNull(o.eventId)).And(IsNull(o.idempotencyKey))
      .Or(IsNull(o.nominalAt).And(NotNull(o.eventId)).And(IsNull(o.idempotencyKey)))
      .Or(IsNull(o.nominalAt).And(IsNull(o.eventId)).And(NotNull(o.idempotencyKey)))
      .Or(IsNull(o.nominalAt).And(IsNull(o.eventId)).And(IsNull(o.idempotencyKey)))
  }

  datatype Identity = Scheduled(at: Value) | Published(event: Value) | Keyed(key: Value) | Keyless

  /** The one identity of an admitted occurrence. */
  function IdentityOf(o: Occurrence): Identity {
    if o.nominalAt != Null then Scheduled(o.nominalAt)
    else if o.eventId != Null then Published(o.eventId)
    else if o.idempotencyKey != Null then Keyed(o.idempotencyKey)
    else Keyless
  }

  /** The row's own constraints; `others` stands for bounds, formats and foreign keys. */
  predicate RowOk(o: Occurrence, others: Occurrence -> bool) {
    o.status != Null && StatusShape(o).Passes() && IdentityShape(o).Passes() && others(o)
  }

  /** An admitted occurrence names at most one identity, and a Run or a skip but not both. */
  lemma RowsAreExclusive(o: Occurrence, others: Occurrence -> bool)
    requires RowOk(o, others)
    ensures o.nominalAt == Null || (o.eventId == Null && o.idempotencyKey == Null)
    ensures o.eventId == Null || o.idempotencyKey == Null
    ensures (o.run == Null) == (o.skipCode != Null) == (o.skipMessage != Null)
    ensures o.status == if o.run == Null then SKIPPED else RUN_CREATED
  {
  }

  function RunIndex(): Index<Occurrence> { Index((o: Occurrence) => [o.run], (o: Occurrence) => NotNull(o.run)) }
  function ScheduleIndex(): Index<Occurrence> {
    Index((o: Occurrence) => [Num(o.trigger), o.nominalAt], (o: Occurrence) => NotNull(o.nominalAt))
  }
  function EventIndex(): Index<Occurrence> {
    Index((o: Occurrence) => [Num(o.trigger), o.eventId], (o: Occurrence) => NotNull(o.eventId))
  }
  function KeyIndex(): Index<Occurrence> {
    Index((o: Occurrence) => [Num(o.trigger), o.idempotencyKey], (o: Occurrence) => NotNull(o.idempotencyKey))
  }

  predicate Clash(a: Occurrence, b: Occurrence) {
    Collide(RunIndex(), a, b) || Collide(ScheduleIndex(), a, b) || Collide(EventIndex(), a, b) || Collide(KeyIndex(), a, b)
  }

  /** Two admitted rows clash exactly when they name the same Run, or the same identity of the same
      trigger. */
  lemma ClashExactly(a: Occurrence, b: Occurrence, others: Occurrence -> bool)
    requires RowOk(a, others) && RowOk(b, others)
    ensures Clash(a, b) <==>
      || (a.run != Null && a.run == b.run)
      || (a.trigger == b.trigger && IdentityOf(a) == IdentityOf(b) && IdentityOf(a) != Keyless)
  {
  }

  predicate Accepts(table: seq<Occurrence>, o: Occurrence, others: Occurrence -> bool) {
    RowOk(o, others) && forall i | 0 <= i < |table| :: !Clash(table[i], o)
  }

  /** One attempted insert; a refused one leaves the table as it was. */
  function Try(table: seq<Occurrence>, o: Occurrence, others: Occurrence -> bool): seq<Occurrence> {
    if Accepts(table, o, others) then table + [o] else table
  }

  function After(table: seq<Occurrence>, attempts: seq<Occurrence>, others: Occurrence -> bool): seq<Occurrence>
    decreases |attempts|
  {
    if attempts == [] then table else After(Try(table, attempts[0], others), attempts[1..], others)
  }

  /** The row is there, or another with its Run or its identity is. */
  ghost predicate Settled(table: seq<Occurrence>, o: Occurrence) {
    exists i :: 0 <= i < |table| && (table[i] == o || Clash(table[i], o))
  }

  lemma SettledStays(table: seq<Occurrence>, longer: seq<Occurrence>, o: Occurrence)
    requires table <= longer && Settled(table, o)
    ensures Settled(longer, o)
  {
  }

  lemma TryKeeps(table: seq<Occurrence>, o: Occurrence, others: Occurrence -> bool)
    requires Deduplicated(table, others)
    ensures Deduplicated(Try(table, o, others), others) && table <= Try(table, o, others)
    ensures RowOk(o, others) ==> Settled(Try(table, o, others), o)
  {
    if Accepts(table, o, others) {
      AcceptedStaysDeduplicated(table, o, others);
      assert (table + [o])[|table|] == o;
    }
  }

  /** No common Run, and no common identity under one trigger. */
  predicate Apart(a: Occurrence, b: Occurrence) {
    && (a.run == Null || a.run != b.run)
    && (a.trigger == b.trigger ==> IdentityOf(a) == Keyless || IdentityOf(a) != IdentityOf(b))
  }

  /** What the constraints promise of a whole table, said without indexes. */
  ghost predicate Deduplicated(table: seq<Occurrence>, others: Occurrence -> bool) {
    RowsOk(table, others) && forall i, j | 0 <= i < j < |table| :: Apart(table[i], table[j])
  }

  lemma AcceptedStaysDeduplicated(table: seq<Occurrence>, o: Occurrence, others: Occurrence -> bool)
    requires Deduplicated(table, others) && Accepts(table, o, others)
    ensures Deduplicated(table + [o], others)
  {
    forall i | 0 <= i < |table| ensures Apart(table[i], o) {
      ClashExactly(table[i], o, others);
    }
    AllApart(table, o, others);
  }

  lemma AllApart(table: seq<Occurrence>, o: Occurrence, others: Occurrence -> bool)
    requires Deduplicated(table, others) && RowOk(o, others) && forall i | 0 <= i < |table| :: Apart(table[i], o)
    ensures Deduplicated(table + [o], others)
  {
  }

  /** Over every sequence of inserts: one occurrence per instant, event or key of a trigger, one
      identity per occurrence, one occurrence per Run. And an insert is refused only for its own row
      or because its Run or its identity is already there. */
  lemma {:induction false} InsertsDeduplicate(table: seq<Occurrence>, attempts: seq<Occurrence>, others: Occurrence -> bool)
    requires Deduplicated(table, others)
    ensures Deduplicated(After(table, attempts, others), others)
    ensures table <= After(table, attempts, others)
    ensures forall o | o in attempts && RowOk(o, others) :: Settled(After(table, attempts, others), o)
    decreases |attempts|
  {
    if attempts != [] {
      var next := Try(table, attempts[0], others);
      TryKeeps(table, attempts[0], others);
      InsertsDeduplicate(next, attempts[1..], others);
      var last := After(next, attempts[1..], others);
      forall o | o in attempts && RowOk(o, others) ensures Settled(last, o) {
        if o == attempts[0] {
          SettledStays(next, last, o);
        } else {
          assert o in attempts[1..];
        }
      }
    }
  }

  /** Neither a Run nor an identity: a skipped keyless delivery. */
  predicate Anonymous(o: Occurrence) { o.run == Null && IdentityOf(o) == Keyless }

  function Again(o: Occurrence, others: Occurrence -> bool): seq<Occurrence> {
    if RowOk(o, others) && Anonymous(o) then [o] else []
  }

  function Repeats(attempts: seq<Occurrence>, others: Occurrence -> bool): seq<Occurrence> {
    if attempts == [] then [] else Again(attempts[0], others) + Repeats(attempts[1..], others)
  }

  predicate RowsOk(table: seq<Occurrence>, others: Occurrence -> bool) {
    forall i | 0 <= i < |table| :: RowOk(table[i], others)
  }

  lemma SettledRow(table: seq<Occurrence>, o: Occurrence, others: Occurrence -> bool)
    requires RowsOk(table, others)
    requires RowOk(o, others) && Settled(table, o)
    ensures Accepts(table, o, others) <==> Anonymous(o)
  {
  }

  lemma TrySettled(table: seq<Occurrence>, o: Occurrence, others: Occurrence -> bool)
    requires RowsOk(table, others) && (RowOk(o, others) ==> Settled(table, o))
    ensures Try(table, o, others) == table + Again(o, others)
    ensures RowsOk(table + Again(o, others), others)
  {
    if RowOk(o, others) {
      SettledRow(table, o, others);
    }
  }

  ghost predicate AllSettled(table: seq<Occurrence>, attempts: seq<Occurrence>, others: Occurrence -> bool) {
    forall i | 0 <= i < |attempts| && RowOk(attempts[i], others) :: Settled(table, attempts[i])
  }

  lemma AllStaySettled(table: seq<Occurrence>, attempts: seq<Occurrence>, more: seq<Occurrence>, others: Occurrence -> bool)
    requires AllSettled(table, attempts, others) && attempts != []
    ensures AllSettled(table + more, attempts[1..], others)
  {
    forall i | 0 <= i < |attempts[1..]| && RowOk(attempts[1..][i], others) ensures Settled(table + more, attempts[1..][i]) {
      assert attempts[1..][i] == attempts[i + 1];
      SettledStays(table, table + more, attempts[i + 1]);
    }
  }

  lemma ReplayStep(table: seq<Occurrence>, attempts: seq<Occurrence>, others: Occurrence -> bool) returns (more: seq<Occurrence>)
    requires RowsOk(table, others) && AllSettled(table, attempts, others) && attempts != []
    ensures RowsOk(table + more, others) && AllSettled(table + more, attempts[1..], others)
    ensures After(table, attempts, others) == After(table + more, attempts[1..], others)
    ensures Repeats(attempts, others) == more + Repeats(attempts[1..], others)
  {
    more := Again(attempts[0], others);
    TrySettled(table, attempts[0], others);
    AllStaySettled(table, attempts, more, others);
  }

  /** Inserting where everything attempted is already settled adds the anonymous rows and no other. */
  lemma {:induction false} SettledReplay(table: seq<Occurrence>, attempts: seq<Occurrence>, others: Occurrence -> bool)
    requires RowsOk(table, others) && AllSettled(table, attempts, others)
    ensures After(table, attempts, others) == table + Repeats(attempts, others)
    decreases |attempts|
  {
    if attempts != [] {
      var more := ReplayStep(table, attempts, others);
      SettledReplay(table + more, attempts[1..], others);
      Associates(table, more, Repeats(attempts[1..], others));
    }
  }

  lemma Associates(a: seq<Occurrence>, b: seq<Occurrence>, c: seq<Occurrence>)
    ensures (a + b) + c == a + (b + c)
  {
  }

  /** Delivering everything a second time creates no Run and no identified occurrence again: the
      table grows by the anonymous rows alone, in order. */
  lemma ReplayIsIdempotent(table: seq<Occurrence>, attempts: seq<Occurrence>, others: Occurrence -> bool)
    requires Deduplicated(table, others)
    ensures var once := After(table, attempts, others);
      After(once, attempts, others) == once + Repeats(attempts, others)
  {
    InsertsDeduplicate(table, attempts, others);
    SettledReplay(After(table, attempts, others), attempts, others);
  }
}
