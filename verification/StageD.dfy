/** Migration 0007: five columns on `runs`, three on `job_attempts`, one column and six event types
    on `run_events`, four new tables; and a downgrade that preflights before its first DROP. */
module StageD {
  import opened Sql
  import opened RunChecks
  import opened Rebuild
  import opened RunMigrations

  /** The CHECKs 0007 restates verbatim, per table: any predicate of the columns both shapes share.
      For `runs` the C5 CHECKs are the instance (see `C5IsAnInstance`). */
  datatype Rules = Rules(runs: Row -> bool, event: Row -> bool, attempt: Row -> bool)

  // ----- runs -----

  /** The column DEFAULTs, which are also the only values the older schema can represent. */
  const LEGACY: Row :=
    map[Tool(MaxToolCalls) := Num(0), Tool(ToolTimeoutMs) := Num(30000),
        Tool(ToolResultMaxBytes) := Num(65536), Tool(MaxConsecutiveToolFailures) := Num(3),
        Tool(ToolGrantCutoffId) := Num(0)]

  function Between(v: Value, low: int, high: int): Tri { Ge(v, Num(low)).And(Ge(Num(high), v)) }

  function ToolLimits(r: Row): Tri {
    Between(Get(r, Tool(MaxToolCalls)), 0, 16)
      .And(Between(Get(r, Tool(ToolTimeoutMs)), 1000, 300000))
      .And(Between(Get(r, Tool(ToolResultMaxBytes)), 1024, 1048576))
      .And(Ge(Get(r, Tool(MaxConsecutiveToolFailures)), Num(1)))
      .And(Ge(Get(r, Tool(ToolGrantCutoffId)), Num(0)))
  }

  function RunSchema(u: Rules): Schema {
    Schema(RUN_COLUMNS, RUN_REQUIRED, r => u.runs(Restrict(r, RUN_COLUMNS)), {{Run(Id)}})
  }

  function WideRuns(u: Rules): Schema {
    Schema(RUN_COLUMNS + LEGACY.Keys, RUN_REQUIRED + LEGACY.Keys,
           r => u.runs(Restrict(r, RUN_COLUMNS)) && ToolLimits(r).Passes(), {{Run(Id)}})
  }

  lemma C5IsAnInstance(t: Texts, u: Rules, r: Row)
    requires forall x :: u.runs(x) == RunCheck(C5, t, x)
    ensures Admits(RunSchema(u), r) <==> Admits(RunsSchema(C5, t), r)
  {
    if r.Keys == RUN_COLUMNS {
      SameCheck(t, u, r);
    }
  }

  lemma SameCheck(t: Texts, u: Rules, r: Row)
    requires r.Keys == RUN_COLUMNS && forall x :: u.runs(x) == RunCheck(C5, t, x)
    ensures RunSchema(u).check(r) == RunsSchema(C5, t).check(r)
  {
    assert Restrict(r, RUN_COLUMNS) == r;
    assert u.runs(r) == RunCheck(C5, t, r);
  }

  // ----- run_events -----

  predicate EventNullable(c: EventColumn) {
    c.EventAttempt? || c.Code? || c.Message? || c.EventAttemptNumber? || c.AvailableAt?
  }

  const EVENT_COLUMNS: set<Column> := set c: EventColumn :: Event(c)
  const EVENT_REQUIRED: set<Column> := set c: EventColumn | !EventNullable(c) :: Event(c)
  const NO_INVOCATION: Row := map[ToolInvocationId := Null]

  predicate IsC1Type(w: Word) {
    match w
    case RunCreated | RunQueued | AttemptClaimed | AttemptStarted | AttemptFailed | AttemptExpired
       | RetryScheduled | CancellationRequested | RunCancelled | RunSucceeded | RunFailed
       | RecoveryPreStart | RecoveryAmbiguous => true
    case _ => false
  }

  predicate IsToolType(w: Word) {
    match w
    case ToolRequested | ToolStarted | ToolSucceeded | ToolFailed | ToolDenied | ToolAmbiguous => true
    case _ => false
  }

  function TypeIn(p: Word -> bool, v: Value): Tri {
    if v == Null then Unknown else Of(v.Text? && p(v.w))
  }

  /** The event vocabulary: the thirteen Stage C types, and with tools six more. */
  function Vocabulary(tools: bool, r: Row): Tri {
    TypeIn(w => IsC1Type(w) || (tools && IsToolType(w)), Get(r, Event(EventType)))
  }

  function EventSchema(u: Rules, tools: bool): Schema {
    Schema(if tools then EVENT_COLUMNS + NO_INVOCATION.Keys else EVENT_COLUMNS, EVENT_REQUIRED,
           r => u.event(Restrict(r, EVENT_COLUMNS)) && Vocabulary(tools, r).Passes(),
           {{Event(EventId)}, {Event(EventRun), Event(Sequence)}})
  }

  // ----- job_attempts -----

  const ATTEMPT_COLUMNS: set<Column> := set c: AttemptColumn :: Attempt(c)
  const NO_USAGE: Row :=
    map[Usage(AttemptInputTokens) := Null, Usage(AttemptOutputTokens) := Null,
        Usage(AttemptTotalTokens) := Null]

  function AttemptSchema(u: Rules, usage: bool): Schema {
    Schema(if usage then ATTEMPT_COLUMNS + NO_USAGE.Keys else ATTEMPT_COLUMNS, {Attempt(AttemptId)},
           r => u.attempt(Restrict(r, ATTEMPT_COLUMNS)), {{Attempt(AttemptId)}})
  }

  // ----- the preflight counts on existing tables -----

  predicate IsToolEvent(r: Row) { TypeIn(IsToolType, Get(r, Event(EventType))).Fires() }
  predicate NamesInvocation(r: Row) { NotNull(Get(r, ToolInvocationId)).Fires() }
  predicate HoldsUsage(r: Row) {
    NotNull(Get(r, Usage(AttemptInputTokens))).Or(NotNull(Get(r, Usage(AttemptOutputTokens))))
      .Or(NotNull(Get(r, Usage(AttemptTotalTokens)))).Fires()
  }

  predicate Differs(v: Value, legacy: int) { Ne(v, Num(legacy)).Fires() }

  /** Some one of the five counts on `runs` includes the row. */
  predicate LeavesLegacy(r: Row) {
    || Differs(Get(r, Tool(MaxToolCalls)), 0)
    || Differs(Get(r, Tool(ToolTimeoutMs)), 30000)
    || Differs(Get(r, Tool(ToolResultMaxBytes)), 65536)
    || Differs(Get(r, Tool(MaxConsecutiveToolFailures)), 3)
    || Differs(Get(r, Tool(ToolGrantCutoffId)), 0)
  }

  predicate IsStageDEvent(r: Row) { IsToolEvent(r) || NamesInvocation(r) }

  /** The three tables 0007 evolves. */
  datatype Plan = Plan(runs: Evolution, attempts: Evolution, events: Evolution)

  function RunsStep(u: Rules): Evolution {
    Evolution(RunSchema(u), WideRuns(u), LEGACY, LeavesLegacy)
  }

  function AttemptsStep(u: Rules): Evolution {
    Evolution(AttemptSchema(u, false), AttemptSchema(u, true), NO_USAGE, HoldsUsage)
  }

  function EventsStep(u: Rules): Evolution {
    Evolution(EventSchema(u, false), EventSchema(u, true), NO_INVOCATION, IsStageDEvent)
  }

  function Plan0007(u: Rules): Plan { Plan(RunsStep(u), AttemptsStep(u), EventsStep(u)) }

  // ----- the database -----

  /** The four Stage D tables, and the AUTOINCREMENT counter of `agent_tool_grants`. */
  datatype StageDTables = StageDTables(
    connections: seq<Row>, definitions: seq<Row>, grants: seq<Row>, invocations: seq<Row>, grantSeq: nat)

  datatype Db = Db(runs: seq<Row>, attempts: seq<Row>, events: seq<Row>, stageD: Option<StageDTables>)

  predicate Valid06(p: Plan, d: Db) {
    && d.stageD.None?
    && Holds(p.runs.narrow, d.runs) && Holds(p.attempts.narrow, d.attempts) && Holds(p.events.narrow, d.events)
  }

  predicate Valid07(p: Plan, d: Db) {
    && d.stageD.Some?
    && Holds(p.runs.wide, d.runs) && Holds(p.attempts.wide, d.attempts) && Holds(p.events.wide, d.events)
  }

  function Upgraded(p: Plan, d: Db): Db {
    Db(WidenAll(p.runs, d.runs), WidenAll(p.attempts, d.attempts), WidenAll(p.events, d.events),
       Some(StageDTables([], [], [], [], 0)))
  }

  function Downgraded(p: Plan, d: Db): Db {
    Db(NarrowAll(p.runs, d.runs), NarrowAll(p.attempts, d.attempts), NarrowAll(p.events, d.events), None)
  }

  predicate TablesEmpty(d: StageDTables) {
    d.connections == [] && d.definitions == [] && d.grants == [] && d.invocations == []
  }

  /** Every blocker count is zero. */
  predicate Preflight(p: Plan, d: Db) {
    && (d.stageD.Some? ==> TablesEmpty(d.stageD.value))
    && NoRow(p.runs.blocks, d.runs) && NoRow(p.attempts.blocks, d.attempts) && NoRow(p.events.blocks, d.events)
  }

  ghost predicate PlanSound(p: Plan) { Sound(p.runs) && Sound(p.attempts) && Sound(p.events) }

  /** Every 0006 database survives the upgrade, passes the preflight, and comes back unchanged. */
  lemma DowngradeUndoesUpgrade(p: Plan, d: Db)
    requires PlanSound(p) && Valid06(p, d)
    ensures Valid07(p, Upgraded(p, d)) && Preflight(p, Upgraded(p, d))
    ensures Downgraded(p, Upgraded(p, d)) == d
  {
    TableUp(p.runs, d.runs);
    TableUp(p.attempts, d.attempts);
    TableUp(p.events, d.events);
  }

  function CounterReset(d: Db): Db
    requires d.stageD.Some?
  {
    d.(stageD := Some(d.stageD.value.(grantSeq := 0)))
  }

  /** A database that passes the preflight is restored by re-upgrading, except that recreating
      `agent_tool_grants` restarts its id counter. */
  lemma UpgradeUndoesDowngrade(p: Plan, d: Db)
    requires PlanSound(p) && Valid07(p, d) && Preflight(p, d)
    ensures Valid06(p, Downgraded(p, d))
    ensures Upgraded(p, Downgraded(p, d)) == CounterReset(d)
  {
    TableDown(p.runs, d.runs);
    TableDown(p.attempts, d.attempts);
    TableDown(p.events, d.events);
  }

  /** The preflight is exact: it passes precisely on the databases an upgrade can produce. */
  lemma PreflightIsTheImage(p: Plan, d: Db)
    requires PlanSound(p) && Valid07(p, d)
    ensures Preflight(p, d) <==> exists d0 :: Valid06(p, d0) && Upgraded(p, d0) == CounterReset(d)
  {
    if Preflight(p, d) {
      UpgradeUndoesDowngrade(p, d);
      var d0 := Downgraded(p, d);
      assert Valid06(p, d0) && Upgraded(p, d0) == CounterReset(d);
    }
    if d0 :| Valid06(p, d0) && Upgraded(p, d0) == CounterReset(d) {
      DowngradeUndoesUpgrade(p, d0);
      assert Preflight(p, CounterReset(d));
    }
  }

  // ----- 0007's three evolutions are sound, row by row -----

  lemma RunColumnFacts()
    ensures RUN_COLUMNS !! LEGACY.Keys && RUN_REQUIRED <= RUN_COLUMNS && Run(Id) in RUN_COLUMNS
  {
  }

  lemma LegacyFits(wide: Schema)
    ensures FillFits(wide, LEGACY)
  {
  }

  lemma RunsWiden(u: Rules)
    ensures Widens(RunSchema(u), WideRuns(u), LEGACY) && FillFits(WideRuns(u), LEGACY)
  {
    RunColumnFacts();
    LegacyFits(WideRuns(u));
    WidensFrom(RunSchema(u), WideRuns(u), LEGACY, Run(Id));
  }

  lemma WidensFrom(narrow: Schema, wide: Schema, fill: Row, key: Column)
    requires narrow.columns !! fill.Keys && wide.columns == narrow.columns + fill.Keys
    requires narrow.required <= narrow.columns && wide.required == narrow.required + fill.Keys
    requires key in narrow.columns && narrow.keys == wide.keys == {{key}}
    ensures Widens(narrow, wide, fill)
  {
  }

  lemma EventsWiden(u: Rules)
    ensures Widens(EventSchema(u, false), EventSchema(u, true), NO_INVOCATION)
    ensures FillFits(EventSchema(u, true), NO_INVOCATION)
  {
  }

  lemma AttemptsWiden(u: Rules)
    ensures Widens(AttemptSchema(u, false), AttemptSchema(u, true), NO_USAGE)
    ensures FillFits(AttemptSchema(u, true), NO_USAGE)
  {
  }

  lemma LegacyPasses(w: Row)
    requires HoldsOnlyFill(LEGACY, w)
    ensures ToolLimits(w) == True && !LeavesLegacy(w)
  {
  }

  lemma AtLegacy(w: Row)
    requires forall c | c in LEGACY :: Get(w, c) != Null
    requires !LeavesLegacy(w)
    ensures HoldsOnlyFill(LEGACY, w)
  {
  }

  lemma RunRowUp(u: Rules, r: Row)
    requires Admits(RunSchema(u), r)
    ensures Restrict(Widened(RunsStep(u), r), RUN_COLUMNS) == Restrict(r, RUN_COLUMNS)
    ensures HoldsOnlyFill(LEGACY, Widened(RunsStep(u), r))
  {
    RunsWiden(u);
    CopiesShareColumns(RunSchema(u), WideRuns(u), LEGACY, r, map[]);
    assert Restrict(r, RUN_COLUMNS) == r;
  }

  lemma RunRowDown(u: Rules, w: Row)
    requires Admits(WideRuns(u), w)
    ensures RunSchema(u).check(Narrowed(RunsStep(u), w))
  {
    NarrowedIsRestriction(RunsStep(u), w);
  }

  lemma WideRunAtLegacy(u: Rules, w: Row)
    requires Admits(WideRuns(u), w) && !LeavesLegacy(w)
    ensures HoldsOnlyFill(LEGACY, w)
  {
    AtLegacy(w);
  }

  lemma RunUp(u: Rules, r: Row)
    requires Admits(RunSchema(u), r)
    ensures RunsStep(u).wide.check(Widened(RunsStep(u), r)) && !RunsStep(u).blocks(Widened(RunsStep(u), r))
  {
    RunRowUp(u, r);
    LegacyPasses(Widened(RunsStep(u), r));
  }

  lemma RunDown(u: Rules, w: Row)
    requires Admits(WideRuns(u), w) && !LeavesLegacy(w)
    ensures RunsStep(u).narrow.check(Narrowed(RunsStep(u), w)) && HoldsOnlyFill(RunsStep(u).fill, w)
  {
    RunRowDown(u, w);
    WideRunAtLegacy(u, w);
  }

  lemma RunsSound(u: Rules)
    ensures Sound(RunsStep(u))
  {
    RunsWiden(u);
    forall r | Admits(RunsStep(u).narrow, r)
      ensures RunsStep(u).wide.check(Widened(RunsStep(u), r)) && !RunsStep(u).blocks(Widened(RunsStep(u), r))
    {
      RunUp(u, r);
    }
    forall w | Admits(RunsStep(u).wide, w) && !RunsStep(u).blocks(w)
      ensures RunsStep(u).narrow.check(Narrowed(RunsStep(u), w)) && HoldsOnlyFill(RunsStep(u).fill, w)
    {
      RunDown(u, w);
    }
  }

  /** The type of an event is NOT NULL, so both vocabularies decide it. */
  lemma EventTypeKnown(u: Rules, tools: bool, r: Row)
    requires Admits(EventSchema(u, tools), r)
    ensures Get(r, Event(EventType)) != Null
  {
  }

  lemma SameType(r: Row, w: Row)
    requires Restrict(w, EVENT_COLUMNS) == Restrict(r, EVENT_COLUMNS)
    ensures Get(w, Event(EventType)) == Get(r, Event(EventType))
  {
    assert Event(EventType) in EVENT_COLUMNS;
    assert Restrict(w, EVENT_COLUMNS)[Event(EventType)] == Restrict(r, EVENT_COLUMNS)[Event(EventType)];
  }

  lemma EventRowUp(u: Rules, r: Row)
    requires Admits(EventSchema(u, false), r)
    ensures Restrict(Widened(EventsStep(u), r), EVENT_COLUMNS) == Restrict(r, EVENT_COLUMNS)
    ensures Get(Widened(EventsStep(u), r), ToolInvocationId) == Null
  {
  }

  lemma EventRowDown(u: Rules, w: Row)
    requires Admits(EventSchema(u, true), w) && !IsStageDEvent(w)
    ensures EventSchema(u, false).check(Narrowed(EventsStep(u), w)) && HoldsOnlyFill(NO_INVOCATION, w)
  {
    var r := Narrowed(EventsStep(u), w);
    EventTypeKnown(u, true, w);
    NarrowedIsRestriction(EventsStep(u), w);
    SameType(r, w);
    VocabularyGrows(r, w);
  }

  lemma VocabularyGrows(r: Row, w: Row)
    requires Get(r, Event(EventType)) == Get(w, Event(EventType)) && Get(r, Event(EventType)) != Null
    ensures Vocabulary(false, r).Passes() ==> Vocabulary(true, w).Passes() && !IsToolEvent(w)
    ensures Vocabulary(true, w).Passes() && !IsToolEvent(w) ==> Vocabulary(false, r).Passes()
  {
  }

  lemma EventUp(u: Rules, r: Row)
    requires Admits(EventSchema(u, false), r)
    ensures EventsStep(u).wide.check(Widened(EventsStep(u), r)) && !EventsStep(u).blocks(Widened(EventsStep(u), r))
  {
    var w := Widened(EventsStep(u), r);
    EventRowUp(u, r);
    EventTypeKnown(u, false, r);
    SameType(r, w);
    VocabularyGrows(r, w);
  }

  lemma EventsSound(u: Rules)
    ensures Sound(EventsStep(u))
  {
    EventsWiden(u);
    forall r | Admits(EventsStep(u).narrow, r)
      ensures EventsStep(u).wide.check(Widened(EventsStep(u), r)) && !EventsStep(u).blocks(Widened(EventsStep(u), r))
    {
      EventUp(u, r);
    }
    forall w | Admits(EventsStep(u).wide, w) && !EventsStep(u).blocks(w)
      ensures EventsStep(u).narrow.check(Narrowed(EventsStep(u), w)) && HoldsOnlyFill(EventsStep(u).fill, w)
    {
      EventRowDown(u, w);
    }
  }

  lemma AttemptsSound(u: Rules)
    ensures Sound(AttemptsStep(u))
  {
    AttemptsWiden(u);
    forall r | Admits(AttemptsStep(u).narrow, r)
      ensures AttemptsStep(u).wide.check(Widened(AttemptsStep(u), r))
      ensures !AttemptsStep(u).blocks(Widened(AttemptsStep(u), r))
    {
      CopiesShareColumns(AttemptSchema(u, false), AttemptSchema(u, true), NO_USAGE, r, map[]);
      assert Restrict(r, ATTEMPT_COLUMNS) == r;
      UsageMeansFill(Widened(AttemptsStep(u), r));
    }
    forall w | Admits(AttemptsStep(u).wide, w) && !AttemptsStep(u).blocks(w)
      ensures AttemptsStep(u).narrow.check(Narrowed(AttemptsStep(u), w))
      ensures HoldsOnlyFill(AttemptsStep(u).fill, w)
    {
      var r := Narrowed(AttemptsStep(u), w);
      assert r == Restrict(w, ATTEMPT_COLUMNS) == Restrict(r, ATTEMPT_COLUMNS);
      UsageMeansFill(w);
    }
  }

  lemma UsageMeansFill(r: Row)
    ensures !HoldsUsage(r) <==> HoldsOnlyFill(NO_USAGE, r)
  {
  }

  lemma Plan0007Sound(u: Rules)
    ensures PlanSound(Plan0007(u))
  {
    RunsSound(u);
    EventsSound(u);
    AttemptsSound(u);
  }

  /** 0007 itself: its downgrade runs to completion exactly on the databases its upgrade produces,
      and then the two undo each other. */
  lemma Migration0007(u: Rules, d: Db)
    ensures var p := Plan0007(u);
      Valid06(p, d) ==> Valid07(p, Upgraded(p, d)) && Preflight(p, Upgraded(p, d)) && Downgraded(p, Upgraded(p, d)) == d
    ensures var p := Plan0007(u);
      Valid07(p, d) ==> (Preflight(p, d) <==> exists d0 :: Valid06(p, d0) && Upgraded(p, d0) == CounterReset(d))
  {
    Plan0007Sound(u);
    if Valid06(Plan0007(u), d) {
      DowngradeUndoesUpgrade(Plan0007(u), d);
    }
    if Valid07(Plan0007(u), d) {
      PreflightIsTheImage(Plan0007(u), d);
    }
  }

  // ----- the migration as it runs -----

  class Store {
    const runs: Table
    const attempts: Table
    const events: Table
    var stageD: Option<StageDTables>

    ghost predicate Apart() { runs != attempts && runs != events && attempts != events }

    ghost function Contents(): Db
      reads this, runs, attempts, events
    {
      Db(runs.rows, attempts.rows, events.rows, stageD)
    }

    constructor (runs: Table, attempts: Table, events: Table)
      ensures this.runs == runs && this.attempts == attempts && this.events == events
      ensures stageD == None
    {
      this.runs, this.attempts, this.events, this.stageD := runs, attempts, events, None;
    }

    /** create_stage_d_tables, rebuild_runs, three ADD COLUMN, rebuild_run_events. */
    method Upgrade(p: Plan)
      requires Apart() && PlanSound(p) && Valid06(p, Contents())
      modifies this, runs, attempts, events
      ensures Contents() == Upgraded(p, old(Contents())) && Valid07(p, Contents())
    {
      DowngradeUndoesUpgrade(p, Contents());
      stageD := Some(StageDTables([], [], [], [], 0));
      var ok := runs.RebuildAs(p.runs.wide, p.runs.narrow.columns, p.runs.fill);
      assert ok;
      ok := attempts.RebuildAs(p.attempts.wide, p.attempts.narrow.columns, p.attempts.fill);
      assert ok;
      ok := events.RebuildAs(p.events.wide, p.events.narrow.columns, p.events.fill);
      assert ok;
    }

    /** refuse_if_stage_d_state_exists: every count is read before any destructive statement. */
    method HasBlockers(p: Plan) returns (blocked: bool)
      ensures blocked <==> !Preflight(p, Contents())
    {
      var events := CountWhere(p.events.blocks, events.rows);
      var limits := CountWhere(p.runs.blocks, runs.rows);
      var usage := CountWhere(p.attempts.blocks, attempts.rows);
      blocked := (stageD.Some? && !TablesEmpty(stageD.value)) || events + limits + usage > 0;
    }

    /** Refuses with nothing changed, or restores the 0006 database completely. */
    method Downgrade(p: Plan) returns (refused: bool)
      requires Apart() && PlanSound(p) && Valid07(p, Contents())
      modifies this, runs, attempts, events
      ensures refused <==> !Preflight(p, old(Contents()))
      ensures refused ==> Contents() == old(Contents())
      ensures !refused ==> Contents() == Downgraded(p, old(Contents())) && Valid06(p, Contents())
    {
      refused := HasBlockers(p);
      if refused {
        return;
      }
      UpgradeUndoesDowngrade(p, Contents());
      var ok := events.RebuildAs(p.events.narrow, p.events.narrow.columns, map[]);
      assert ok;
      ok := attempts.RebuildAs(p.attempts.narrow, p.attempts.narrow.columns, map[]);
      assert ok;
      ok := runs.RebuildAs(p.runs.narrow, p.runs.narrow.columns, map[]);
      assert ok;
      stageD := None;
    }
  }
}
