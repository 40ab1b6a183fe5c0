/** The part of SQL every other module needs: nullable values, Kleene's three-valued logic, rows
    as column maps, and the rule that a CHECK rejects only on False while a WHERE or a PL/pgSQL
    IF acts only on True. */
module Sql {

  datatype Option<+T> = None | Some(value: T)

  datatype Tri = True | False | Unknown {
    function And(other: Tri): Tri {
      if this == False || other == False then False
      else if this == True && other == True then True
      else Unknown
    }

    function Or(other: Tri): Tri {
      if this == True || other == True then True
      else if this == False && other == False then False
      else Unknown
    }

    /** A CHECK constraint accepts everything but False. */
    predicate Passes() { this != False }

    /** A WHERE clause selects, and a PL/pgSQL IF enters its branch, on True alone. */
    predicate Fires() { this == True }
  }

  function Of(b: bool): Tri { if b then True else False }

  /** Text literals that some CHECK compares against; any other text is `Free`. */
  datatype Word =
    | Created | Running | Succeeded | Failed | Cancelled
    | RecoveryExhausted
    | RunCreated | RunQueued | AttemptClaimed | AttemptStarted | AttemptFailed | AttemptExpired
    | RetryScheduled | CancellationRequested | RunCancelled | RunSucceeded | RunFailed
    | RecoveryPreStart | RecoveryAmbiguous
    | ToolRequested | ToolStarted | ToolSucceeded | ToolFailed | ToolDenied | ToolAmbiguous
    | Builtin | Mcp | Package | EmptyJson
    | Free(text: string)

  /** Instants and counters are `Num`; text is `Word`. */
  datatype Value = Null | Num(n: int) | Text(w: Word)

  function IsNull(v: Value): Tri { Of(v == Null) }
  function NotNull(v: Value): Tri { Of(v != Null) }
  function Eq(a: Value, b: Value): Tri { if a == Null || b == Null then Unknown else Of(a == b) }
  function Ne(a: Value, b: Value): Tri { if a == Null || b == Null then Unknown else Of(a != b) }

  /** Order comparison. Only columns that `IsNumeric` are ever ordered, so the text case, which
      SQLite would settle by collation, is never reached in an admitted row. */
  function Ge(a: Value, b: Value): Tri {
    if a == Null || b == Null then Unknown
    else if a.Num? && b.Num? then Of(a.n >= b.n)
    else Of(a == b)
  }

  function IsWord(v: Value, w: Word): Tri { Eq(v, Text(w)) }

  /** An element of a nonempty set. */
  lemma ElementOf<T(!new)>(s: set<T>) returns (x: T)
    requires s != {}
    ensures x in s
  {
    assert exists e: T :: e in s;
    x :| x in s;
  }

  // ----- columns, grouped by the table and the revision that introduced them -----

  /** `runs`, revisions 0002 to 0006. */
  datatype RunColumn =
    | Id | AgentInstanceId | Status | AgentKey | AgentDefinitionVersion | ModelProvider | ModelName
    | InputText | InputMaxBytes | InputMaxCodePoints | OutputMaxBytes | OutputMaxCodePoints
    | ProviderTimeoutMs | MaxOutputTokens | MaxModelCalls | OutputText | FinishReason | ErrorCode
    | ErrorMessage | InputTokens | OutputTokens | TotalTokens | ElapsedMs | CreatedAt | StartedAt
    | FinishedAt

  /** `runs`, added by 0007. */
  datatype ToolColumn =
    | MaxToolCalls | ToolTimeoutMs | ToolResultMaxBytes | MaxConsecutiveToolFailures
    | ToolGrantCutoffId

  /** `runs`, added by 0013. */
  datatype PackageColumn =
    | ExecutionKind | InstalledPackageVersionId | PackageContentDigest | PackageEnvironmentId
    | PackageEnvironmentDigest | PackageEntrypoint | EffectiveConfigJson | EffectiveConfigDigest
    | AgentInstanceConfigRevision | HostProtocolVersion | SdkApiVersion

  datatype EventColumn =
    | EventId | EventRun | EventJob | EventAttempt | Sequence | EventType | Code | Message
    | EventAttemptNumber | AvailableAt | EventCreatedAt

  datatype AttemptColumn =
    | AttemptId | AttemptJob | AttemptNumber | AttemptStatus | WorkerId | ClaimToken | ClaimedAt
    | ExecutionStartedAt | LeaseExpiresAt | LastHeartbeatAt | AttemptFinishedAt | RetryDisposition
    | AttemptErrorCode | AttemptErrorMessage | AttemptCreatedAt

  datatype UsageColumn = AttemptInputTokens | AttemptOutputTokens | AttemptTotalTokens

  datatype Column =
    | Run(run: RunColumn)
    | Tool(tool: ToolColumn)
    | Pkg(pkg: PackageColumn)
    | Event(event: EventColumn)
    | ToolInvocationId                    // `run_events`, added by 0007
    | Attempt(attempt: AttemptColumn)
    | Usage(usage: UsageColumn)           // `job_attempts`, added by 0007

  type Row = map<Column, Value>

  function Get(r: Row, c: Column): Value { if c in r then r[c] else Null }

  function Restrict(r: Row, cs: set<Column>): Row { map c | c in cs :: Get(r, c) }

  /** The columns whose CHECKs use an order comparison. */
  predicate IsNumeric(c: Column) {
    match c
    case Run(rc) =>
      rc.InputTokens? || rc.OutputTokens? || rc.TotalTokens? || rc.ElapsedMs?
      || rc.CreatedAt? || rc.StartedAt? || rc.FinishedAt?
    case Tool(_) => true
    case Event(e) => e.Sequence? || e.EventAttemptNumber?
    case _ => false
  }
}
