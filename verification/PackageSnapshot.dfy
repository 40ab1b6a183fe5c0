/** Migration 0013's part on `runs`: eleven execution-snapshot columns, tied to the execution kind
    by one CHECK. The downgrade refuses only when a package-backed Run exists. */
module PackageSnapshot {
  import opened Sql
  import opened RunChecks
  import opened Rebuild
  import opened StageD

  /** What the upgrade's SELECT and the column DEFAULTs write. */
  const BUILTIN: Row :=
    map[Pkg(ExecutionKind) := Text(Builtin), Pkg(EffectiveConfigJson) := Text(EmptyJson),
        Pkg(InstalledPackageVersionId) := Null, Pkg(PackageContentDigest) := Null,
        Pkg(PackageEnvironmentId) := Null, Pkg(PackageEnvironmentDigest) := Null,
        Pkg(PackageEntrypoint) := Null, Pkg(EffectiveConfigDigest) := Null,
        Pkg(AgentInstanceConfigRevision) := Null, Pkg(HostProtocolVersion) := Null,
        Pkg(SdkApiVersion) := Null]

  function BuiltinSnapshot(r: Row): Tri {
    IsWord(Get(r, Pkg(ExecutionKind)), Builtin)
      .And(IsNull(Get(r, Pkg(InstalledPackageVersionId)))).And(IsNull(Get(r, Pkg(PackageContentDigest))))
      .And(IsNull(Get(r, Pkg(PackageEnvironmentId)))).And(IsNull(Get(r, Pkg(PackageEnvironmentDigest))))
      .And(IsNull(Get(r, Pkg(PackageEntrypoint)))).And(IsWord(Get(r, Pkg(EffectiveConfigJson)), EmptyJson))
      .And(IsNull(Get(r, Pkg(EffectiveConfigDigest)))).And(IsNull(Get(r, Pkg(AgentInstanceConfigRevision))))
      .And(IsNull(Get(r, Pkg(HostProtocolVersion)))).And(IsNull(Get(r, Pkg(SdkApiVersion))))
  }

  function PackageBacked(r: Row): Tri {
    IsWord(Get(r, Pkg(ExecutionKind)), Package)
      .And(NotNull(Get(r, Pkg(InstalledPackageVersionId)))).And(NotNull(Get(r, Pkg(PackageContentDigest))))
      .And(NotNull(Get(r, Pkg(PackageEnvironmentId)))).And(NotNull(Get(r, Pkg(PackageEnvironmentDigest))))
      .And(NotNull(Get(r, Pkg(PackageEntrypoint)))).And(NotNull(Get(r, Pkg(EffectiveConfigDigest))))
      .And(NotNull(Get(r, Pkg(AgentInstanceConfigRevision)))).And(NotNull(Get(r, Pkg(HostProtocolVersion))))
      .And(NotNull(Get(r, Pkg(SdkApiVersion))))
  }

  function KindValue(r: Row): Tri {
    IsWord(Get(r, Pkg(ExecutionKind)), Builtin).Or(IsWord(Get(r, Pkg(ExecutionKind)), Package))
  }

  /** SELECT count(*) FROM runs WHERE execution_kind = 'package' */
  predicate IsPackageRun(r: Row) { IsWord(Get(r, Pkg(ExecutionKind)), Package).Fires() }

  /** The table 0013 starts from: its columns, its NOT NULL columns, and its CHECKs, which v2
      restates, as a predicate of those columns. */
  datatype Base = Base(columns: set<Column>, required: set<Column>, check: Row -> bool)

  /** All that matters of it: it has an id, and none of the snapshot columns. */
  predicate Fine(b: Base) {
    b.required <= b.columns && Run(Id) in b.columns && forall c | c in b.columns :: !c.Pkg?
  }

  lemma Runs0012IsFine(check: Row -> bool)
    ensures Fine(Base(RUN_COLUMNS + LEGACY.Keys, RUN_REQUIRED + LEGACY.Keys, check))
  {
  }

  /** `runs_ddl_v1` */
  function V1(b: Base): Schema {
    Schema(b.columns, b.required, r => b.check(Restrict(r, b.columns)), {{Run(Id)}})
  }

  /** `runs_ddl_v2` */
  function V2(b: Base): Schema {
    Schema(b.columns + BUILTIN.Keys, b.required + {Pkg(ExecutionKind), Pkg(EffectiveConfigJson)},
           r => b.check(Restrict(r, b.columns)) && KindValue(r).Passes() && BuiltinSnapshot(r).Or(PackageBacked(r)).Passes(),
           {{Run(Id)}})
  }

  function Step(b: Base): Evolution { Evolution(V1(b), V2(b), BUILTIN, IsPackageRun) }

  lemma StepWidens(b: Base)
    requires Fine(b)
    ensures Widens(V1(b), V2(b), BUILTIN) && FillFits(V2(b), BUILTIN)
  {
  }

  lemma FillIsBuiltin(w: Row)
    requires HoldsOnlyFill(BUILTIN, w)
    ensures BuiltinSnapshot(w) == True && KindValue(w) == True && !IsPackageRun(w)
  {
    assert Get(w, Pkg(ExecutionKind)) == Text(Builtin) && Get(w, Pkg(EffectiveConfigJson)) == Text(EmptyJson);
    assert Get(w, Pkg(InstalledPackageVersionId)) == Null && Get(w, Pkg(PackageContentDigest)) == Null;
    assert Get(w, Pkg(PackageEnvironmentId)) == Null && Get(w, Pkg(PackageEnvironmentDigest)) == Null;
    assert Get(w, Pkg(PackageEntrypoint)) == Null && Get(w, Pkg(EffectiveConfigDigest)) == Null;
    assert Get(w, Pkg(AgentInstanceConfigRevision)) == Null && Get(w, Pkg(HostProtocolVersion)) == Null;
    assert Get(w, Pkg(SdkApiVersion)) == Null;
  }

  /** The snapshot CHECK leaves a non-package Run no choice: every dropped column is the default. */
  lemma BuiltinIsFill(w: Row)
    requires Get(w, Pkg(ExecutionKind)) != Null && Get(w, Pkg(EffectiveConfigJson)) != Null
    requires BuiltinSnapshot(w).Or(PackageBacked(w)).Passes() && !IsPackageRun(w)
    ensures HoldsOnlyFill(BUILTIN, w)
  {
  }

  lemma RowUp(b: Base, r: Row)
    requires Fine(b) && Admits(V1(b), r)
    ensures Step(b).wide.check(Widened(Step(b), r)) && !Step(b).blocks(Widened(Step(b), r))
  {
    var w := Widened(Step(b), r);
    StepWidens(b);
    CopiesShareColumns(V1(b), V2(b), BUILTIN, r, map[]);
    assert b.check(Restrict(w, b.columns)) by {
      assert V1(b).check(r);
      assert Restrict(w, b.columns) == r == Restrict(r, b.columns);
    }
    FillIsBuiltin(w);
  }

  lemma RowDown(b: Base, w: Row)
    requires Fine(b) && Admits(V2(b), w) && !IsPackageRun(w)
    ensures Step(b).narrow.check(Narrowed(Step(b), w)) && HoldsOnlyFill(BUILTIN, w)
  {
    NarrowedIsRestriction(Step(b), w);
    assert Pkg(ExecutionKind) in V2(b).required && Pkg(EffectiveConfigJson) in V2(b).required;
    BuiltinIsFill(w);
  }

  lemma StepSound(b: Base)
    requires Fine(b)
    ensures Sound(Step(b))
  {
    StepWidens(b);
    forall r | Admits(Step(b).narrow, r)
      ensures Step(b).wide.check(Widened(Step(b), r)) && !Step(b).blocks(Widened(Step(b), r))
    {
      RowUp(b, r);
    }
    forall w | Admits(Step(b).wide, w) && !Step(b).blocks(w)
      ensures Step(b).narrow.check(Narrowed(Step(b), w)) && HoldsOnlyFill(Step(b).fill, w)
    {
      RowDown(b, w);
    }
  }

  /** The upgrade never fails, and an unrefused downgrade is undone row for row by re-upgrading;
      the refusal is exact, since a package-backed row is never what an upgrade produces. */
  lemma Migration0013(b: Base, rows: seq<Row>)
    requires Fine(b)
    ensures Holds(V1(b), rows) ==>
      && Holds(V2(b), WidenAll(Step(b), rows))
      && NarrowAll(Step(b), WidenAll(Step(b), rows)) == rows
    ensures Holds(V2(b), rows) ==>
      (NoRow(IsPackageRun, rows) <==> exists older :: Holds(V1(b), older) && WidenAll(Step(b), older) == rows)
    ensures Holds(V2(b), rows) && NoRow(IsPackageRun, rows) ==>
      Holds(V1(b), NarrowAll(Step(b), rows)) && WidenAll(Step(b), NarrowAll(Step(b), rows)) == rows
  {
    StepSound(b);
    if Holds(V1(b), rows) {
      TableUp(Step(b), rows);
    }
    if Holds(V2(b), rows) && NoRow(IsPackageRun, rows) {
      TableDown(Step(b), rows);
    }
    if older :| Holds(V1(b), older) && WidenAll(Step(b), older) == rows {
      TableUp(Step(b), older);
    }
  }

  method Upgrade0013(runs: Table, b: Base)
    requires Fine(b) && runs.schema == V1(b) && Holds(runs.schema, runs.rows)
    modifies runs
    ensures runs.schema == V2(b) && runs.rows == WidenAll(Step(b), old(runs.rows))
    ensures Holds(runs.schema, runs.rows)
  {
    Migration0013(b, runs.rows);
    var ok := runs.RebuildAs(V2(b), b.columns, BUILTIN);
    assert ok;
  }

  method Downgrade0013(runs: Table, b: Base) returns (refused: bool)
    requires Fine(b) && runs.schema == V2(b) && Holds(runs.schema, runs.rows)
    modifies runs
    ensures refused <==> !NoRow(IsPackageRun, old(runs.rows))
    ensures refused ==> runs.schema == old(runs.schema) && runs.rows == old(runs.rows)
    ensures !refused ==> runs.schema == V1(b) && WidenAll(Step(b), runs.rows) == old(runs.rows)
    ensures Holds(runs.schema, runs.rows)
  {
    var packageRuns := CountWhere(IsPackageRun, runs.rows);
    if packageRuns != 0 {
      return true;
    }
    Migration0013(b, runs.rows);
    var ok := runs.RebuildAs(V1(b), b.columns, map[]);
    refused := !ok;
  }
}
