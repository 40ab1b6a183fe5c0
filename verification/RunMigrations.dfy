/** Migrations 0004 and 0005: two rebuilds of `runs` that change only its CHECKs, and the two
    refusing downgrades. */
module RunMigrations {
  import opened Sql
  import opened RunChecks
  import opened Rebuild

  function RunsSchema(g: Generation, t: Texts): Schema {
    Schema(RUN_COLUMNS, RUN_REQUIRED, r => RunCheck(g, t, r), {{Run(Id)}})
  }

  lemma NumericCell(r: Row, c: Column)
    requires IsNumeric(c) && forall c | c in r && IsNumeric(c) :: !r[c].Text?
    ensures !Get(r, c).Text?
  {
  }

  lemma StoredIsTyped(r: Row)
    requires forall c | c in RUN_REQUIRED :: Get(r, c) != Null
    requires forall c | c in r && IsNumeric(c) :: !r[c].Text?
    ensures WellTyped(LifeOf(r))
  {
    assert Run(Status) in RUN_REQUIRED && Run(CreatedAt) in RUN_REQUIRED;
    NumericCell(r, Run(CreatedAt)); NumericCell(r, Run(StartedAt)); NumericCell(r, Run(FinishedAt));
    NumericCell(r, Run(InputTokens)); NumericCell(r, Run(OutputTokens)); NumericCell(r, Run(TotalTokens));
    NumericCell(r, Run(ElapsedMs));
  }

  /** A row one generation admits is admitted by another exactly when its shape belongs there. */
  lemma CrossesOver(from: Generation, to: Generation, t: Texts, r: Row)
    requires Admits(RunsSchema(from, t), r)
    ensures InGeneration(from, ShapeOf(LifeOf(r)))
    ensures HasShape(ShapeOf(LifeOf(r)), t.nonBlank, LifeOf(r))
    ensures Admits(RunsSchema(to, t), r) <==> InGeneration(to, ShapeOf(LifeOf(r)))
  {
    StoredIsTyped(r);
    LifecycleMeans(from, t.nonBlank, LifeOf(r));
    LifecycleMeans(to, t.nonBlank, LifeOf(r));
  }

  // ----- the predicates the migrations select on -----

  /** A failed Run whose code is the exhausted one: what 0004's tightened branch can reject. */
  predicate CarriesExhausted(r: Row) {
    IsWord(Get(r, Run(Status)), Failed).And(IsWord(Get(r, Run(ErrorCode)), RecoveryExhausted)).Fires()
  }

  /** SELECT count(*) FROM runs WHERE status='failed' AND started_at IS NULL */
  predicate ClosedBeforeStart(r: Row) {
    IsWord(Get(r, Run(Status)), Failed).And(IsNull(Get(r, Run(StartedAt)))).Fires()
  }

  /** SELECT count(*) FROM runs WHERE status='cancelled' */
  predicate IsCancelled(r: Row) { IsWord(Get(r, Run(Status)), Cancelled).Fires() }

  /** Which rows of the old generation block the move to the new one. */
  predicate Blocks(from: Generation, to: Generation, r: Row) {
    match (from, to)
    case (StageB, C3) => CarriesExhausted(r)
    case (C3, StageB) => ClosedBeforeStart(r)
    case (C5, C3) => IsCancelled(r)
    case _ => false
  }

  predicate IsStep(from: Generation, to: Generation) {
    from != to && (from == C3 || to == C3)
  }

  lemma BlocksByShape(from: Generation, to: Generation, nb: TextTest, r: Row)
    requires IsStep(from, to) && WellTyped(LifeOf(r))
    requires InGeneration(from, ShapeOf(LifeOf(r))) && HasShape(ShapeOf(LifeOf(r)), nb, LifeOf(r))
    ensures Blocks(from, to, r) <==> !InGeneration(to, ShapeOf(LifeOf(r)))
  {
  }

  /** The four moves: a table of the old generation fits the new one exactly when no row is
      selected by that move's predicate. For the downgrades this makes the preflight exact; rows
      with a NULL code are covered, since the shapes cover them. */
  lemma MoveIsExact(from: Generation, to: Generation, t: Texts, rows: seq<Row>)
    requires IsStep(from, to) && Holds(RunsSchema(from, t), rows)
    ensures CopyRows(RunsSchema(to, t), RUN_COLUMNS, map[], rows) == rows
    ensures Holds(RunsSchema(to, t), rows) <==> NoRow(r => Blocks(from, to, r), rows)
  {
    CopyIsIdentity(RunsSchema(to, t), RUN_COLUMNS, rows);
    forall i | 0 <= i < |rows|
      ensures Admits(RunsSchema(to, t), rows[i]) <==> !Blocks(from, to, rows[i])
    {
      CrossesOver(from, to, t, rows[i]);
      StoredIsTyped(rows[i]);
      BlocksByShape(from, to, t.nonBlank, rows[i]);
    }
  }

  /** 0004's upgrade: no preflight, so it is the INSERT that fails on a Stage B failed Run carrying
      the exhausted code. */
  method Upgrade0004(runs: Table, t: Texts) returns (ok: bool)
    requires runs.schema == RunsSchema(StageB, t) && Holds(runs.schema, runs.rows)
    modifies runs
    ensures ok <==> NoRow(CarriesExhausted, old(runs.rows))
    ensures runs.rows == old(runs.rows)
    ensures runs.schema == if ok then RunsSchema(C3, t) else old(runs.schema)
    ensures Holds(runs.schema, runs.rows)
  {
    MoveIsExact(StageB, C3, t, runs.rows);
    ok := runs.RebuildAs(RunsSchema(C3, t), RUN_COLUMNS, map[]);
  }

  /** 0004's downgrade refuses on a Run closed before it started; past that it cannot fail. */
  method Downgrade0004(runs: Table, t: Texts) returns (refused: bool)
    requires runs.schema == RunsSchema(C3, t) && Holds(runs.schema, runs.rows)
    modifies runs
    ensures refused <==> !NoRow(ClosedBeforeStart, old(runs.rows))
    ensures runs.rows == old(runs.rows)
    ensures runs.schema == if refused then old(runs.schema) else RunsSchema(StageB, t)
    ensures Holds(runs.schema, runs.rows)
  {
    var stranded := CountWhere(ClosedBeforeStart, runs.rows);
    if stranded != 0 {
      return true;
    }
    MoveIsExact(C3, StageB, t, runs.rows);
    var ok := runs.RebuildAs(RunsSchema(StageB, t), RUN_COLUMNS, map[]);
    refused := !ok;
  }

  /** 0005's upgrade only widens, so it never fails. */
  method Upgrade0005(runs: Table, t: Texts)
    requires runs.schema == RunsSchema(C3, t) && Holds(runs.schema, runs.rows)
    modifies runs
    ensures runs.rows == old(runs.rows) && runs.schema == RunsSchema(C5, t)
    ensures Holds(runs.schema, runs.rows)
  {
    MoveIsExact(C3, C5, t, runs.rows);
    var ok := runs.RebuildAs(RunsSchema(C5, t), RUN_COLUMNS, map[]);
    assert ok;
  }

  method Downgrade0005(runs: Table, t: Texts) returns (refused: bool)
    requires runs.schema == RunsSchema(C5, t) && Holds(runs.schema, runs.rows)
    modifies runs
    ensures refused <==> !NoRow(IsCancelled, old(runs.rows))
    ensures runs.rows == old(runs.rows)
    ensures runs.schema == if refused then old(runs.schema) else RunsSchema(C3, t)
    ensures Holds(runs.schema, runs.rows)
  {
    var stranded := CountWhere(IsCancelled, runs.rows);
    if stranded != 0 {
      return true;
    }
    MoveIsExact(C5, C3, t, runs.rows);
    var ok := runs.RebuildAs(RunsSchema(C3, t), RUN_COLUMNS, map[]);
    refused := !ok;
  }
}
