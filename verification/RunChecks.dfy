/** The lifecycle CHECKs on `runs` in revisions 0002, 0004 and 0005, written in the Kleene
    connectives, and the exact set of rows each generation admits.

    `length(trim(...)) > 0` is an arbitrary predicate `nb` on text: every theorem holds for all of
    them, and only its NULL behaviour is fixed. */
module RunChecks {
  import opened Sql

  /** The twelve columns the lifecycle CHECKs mention. */
  datatype Life = Life(
    status: Value, created: Value, started: Value, finished: Value,
    output: Value, reason: Value, code: Value, message: Value,
    inputTokens: Value, outputTokens: Value, totalTokens: Value, elapsed: Value)

  /** NOT NULL on status and created_at, and instants and counters stored as numbers. */
  predicate WellTyped(l: Life) {
    && l.status != Null && l.created.Num?
    && !l.started.Text? && !l.finished.Text? && !l.elapsed.Text?
    && !l.inputTokens.Text? && !l.outputTokens.Text? && !l.totalTokens.Text?
  }

  type TextTest = Word -> bool

  function NonBlank(nb: TextTest, v: Value): Tri {
    if v == Null then Unknown else Of(v.Text? && nb(v.w))
  }

  function NoUsage(l: Life): Tri {
    IsNull(l.inputTokens).And(IsNull(l.outputTokens)).And(IsNull(l.totalTokens))
  }

  function NoError(l: Life): Tri { IsNull(l.code).And(IsNull(l.message)) }

  function NoOutput(l: Life): Tri { IsNull(l.output).And(IsNull(l.reason)) }

  // ----- one function per parenthesised disjunct of the lifecycle expressions -----

  function CreatedBranch(l: Life): Tri {
    IsWord(l.status, Created).And(IsNull(l.started)).And(IsNull(l.finished))
      .And(NoOutput(l)).And(NoError(l)).And(NoUsage(l)).And(IsNull(l.elapsed))
  }

  function RunningBranch(l: Life): Tri {
    IsWord(l.status, Running).And(NotNull(l.started)).And(IsNull(l.finished))
      .And(NoOutput(l)).And(NoError(l)).And(NoUsage(l)).And(IsNull(l.elapsed))
  }

  function SucceededBranch(nb: TextTest, l: Life): Tri {
    IsWord(l.status, Succeeded).And(NotNull(l.started)).And(NotNull(l.finished))
      .And(NotNull(l.output)).And(NonBlank(nb, l.output)).And(NoError(l)).And(NotNull(l.elapsed))
  }

  /** Stage B: any non-null code. */
  function FailedBranchB(nb: TextTest, l: Life): Tri {
    IsWord(l.status, Failed).And(NotNull(l.started)).And(NotNull(l.finished)).And(NoOutput(l))
      .And(NotNull(l.code)).And(NotNull(l.message)).And(NonBlank(nb, l.message))
      .And(NotNull(l.elapsed))
  }

  /** C3: the same, but never the exhausted code. */
  function FailedStartedBranch(nb: TextTest, l: Life): Tri {
    IsWord(l.status, Failed).And(NotNull(l.started)).And(NotNull(l.finished)).And(NoOutput(l))
      .And(NotNull(l.code)).And(Ne(l.code, Text(RecoveryExhausted))).And(NotNull(l.message))
      .And(NonBlank(nb, l.message)).And(NotNull(l.elapsed))
  }

  /** C3, never started. `error_code = '...'` is Unknown, not False, on a NULL code. */
  function FailedUnstartedBranch(nb: TextTest, l: Life): Tri {
    IsWord(l.status, Failed).And(IsNull(l.started)).And(NotNull(l.finished)).And(NoOutput(l))
      .And(IsWord(l.code, RecoveryExhausted)).And(NotNull(l.message))
      .And(NonBlank(nb, l.message)).And(NoUsage(l)).And(IsNull(l.elapsed))
  }

  function CancelledStartedBranch(l: Life): Tri {
    IsWord(l.status, Cancelled).And(NotNull(l.started)).And(NotNull(l.finished)).And(NoOutput(l))
      .And(NoError(l)).And(NoUsage(l)).And(NotNull(l.elapsed))
  }

  function CancelledUnstartedBranch(l: Life): Tri {
    IsWord(l.status, Cancelled).And(IsNull(l.started)).And(NotNull(l.finished)).And(NoOutput(l))
      .And(NoError(l)).And(NoUsage(l)).And(IsNull(l.elapsed))
  }

  // ----- the three generations of lifecycle_shape, finished_order and status_value -----

  datatype Generation = StageB | C3 | C5

  function LifecycleShape(g: Generation, nb: TextTest, l: Life): Tri {
    var three := CreatedBranch(l).Or(RunningBranch(l)).Or(SucceededBranch(nb, l));
    match g
    case StageB => three.Or(FailedBranchB(nb, l))
    case C3 => three.Or(FailedStartedBranch(nb, l)).Or(FailedUnstartedBranch(nb, l))
    case C5 =>
      three.Or(FailedStartedBranch(nb, l)).Or(FailedUnstartedBranch(nb, l))
        .Or(CancelledStartedBranch(l)).Or(CancelledUnstartedBranch(l))
  }

  function FinishedOrder(g: Generation, l: Life): Tri {
    var afterStart := IsNull(l.finished).Or(NotNull(l.started).And(Ge(l.finished, l.started)));
    var exhausted := IsWord(l.code, RecoveryExhausted);
    match g
    case StageB => afterStart
    case C3 => afterStart.Or(IsNull(l.started).And(exhausted).And(Ge(l.finished, l.created)))
    case C5 =>
      afterStart.Or(IsNull(l.started).And(Ge(l.finished, l.created))
                      .And(exhausted.Or(IsWord(l.status, Cancelled))))
  }

  function StatusValue(g: Generation, l: Life): Tri {
    var four := IsWord(l.status, Created).Or(IsWord(l.status, Running))
                  .Or(IsWord(l.status, Succeeded)).Or(IsWord(l.status, Failed));
    if g == C5 then four.Or(IsWord(l.status, Cancelled)) else four
  }

  function AtLeastZero(v: Value): Tri { IsNull(v).Or(Ge(v, Num(0))) }

  predicate BoundsPass(l: Life) {
    && AtLeastZero(l.inputTokens).And(AtLeastZero(l.outputTokens)).And(AtLeastZero(l.totalTokens)).Passes()
    && AtLeastZero(l.elapsed).Passes()
    && IsNull(l.started).Or(Ge(l.started, l.created)).Passes()
  }

  /** Every lifecycle CHECK of the generation passes. */
  predicate ChecksPass(g: Generation, nb: TextTest, l: Life) {
    BoundsPass(l) && LifecyclePasses(g, nb, l)
  }

  // ----- the shapes the design names -----

  datatype Shape =
    | NotStarted | InFlight | Success | ProviderFailure | ExhaustedRecovery
    | CancelledInFlight | CancelledBeforeStart
    | UncodedFailure   // admitted by C3 and C5 only because NULL passes a CHECK
    | MiscodedFailure  // a started Run with the exhausted code: Stage B alone admits it

  predicate Bare(l: Life) {
    && l.output == Null && l.reason == Null && l.code == Null && l.message == Null
    && l.inputTokens == Null && l.outputTokens == Null && l.totalTokens == Null
  }

  predicate Told(nb: TextTest, l: Life) {
    l.message.Text? && nb(l.message.w) && l.output == Null && l.reason == Null
  }

  predicate RanToEnd(l: Life) {
    l.started.Num? && l.finished.Num? && l.finished.n >= l.started.n && l.elapsed.Num?
  }

  predicate EndedUnstarted(l: Life) {
    && l.started == Null && l.finished.Num? && l.created.Num? && l.finished.n >= l.created.n
    && l.inputTokens == Null && l.outputTokens == Null && l.totalTokens == Null && l.elapsed == Null
  }

  /** Two-valued reading of one shape: what the design says such a Run looks like. */
  predicate HasShape(s: Shape, nb: TextTest, l: Life) {
    match s
    case NotStarted =>
      l.status == Text(Created) && l.started == Null && l.finished == Null && l.elapsed == Null && Bare(l)
    case InFlight =>
      l.status == Text(Running) && l.started.Num? && l.finished == Null && l.elapsed == Null && Bare(l)
    case Success =>
      && l.status == Text(Succeeded) && RanToEnd(l) && l.output.Text? && nb(l.output.w)
      && l.code == Null && l.message == Null
    case ProviderFailure =>
      && l.status == Text(Failed) && RanToEnd(l) && Told(nb, l)
      && l.code != Null && l.code != Text(RecoveryExhausted)
    case ExhaustedRecovery =>
      l.status == Text(Failed) && EndedUnstarted(l) && Told(nb, l) && l.code == Text(RecoveryExhausted)
    case CancelledInFlight => l.status == Text(Cancelled) && RanToEnd(l) && Bare(l)
    case CancelledBeforeStart => l.status == Text(Cancelled) && EndedUnstarted(l) && Bare(l)
    case UncodedFailure => l.status == Text(Failed) && EndedUnstarted(l) && Told(nb, l) && l.code == Null
    case MiscodedFailure =>
      l.status == Text(Failed) && RanToEnd(l) && Told(nb, l) && l.code == Text(RecoveryExhausted)
  }

  /** The value bounds every generation shares, free of any lifecycle content. */
  predicate InBounds(l: Life) {
    && (l.inputTokens.Num? ==> l.inputTokens.n >= 0)
    && (l.outputTokens.Num? ==> l.outputTokens.n >= 0)
    && (l.totalTokens.Num? ==> l.totalTokens.n >= 0)
    && (l.elapsed.Num? ==> l.elapsed.n >= 0)
    && (l.started.Num? && l.created.Num? ==> l.started.n >= l.created.n)
  }

  predicate InGeneration(g: Generation, s: Shape) {
    match g
    case StageB => s.NotStarted? || s.InFlight? || s.Success? || s.ProviderFailure? || s.MiscodedFailure?
    case C3 => !s.CancelledInFlight? && !s.CancelledBeforeStart? && !s.MiscodedFailure?
    case C5 => !s.MiscodedFailure?
  }

  /** The only shape a row can have, read off its status, start and code. */
  function ShapeOf(l: Life): Shape {
    if l.status == Text(Created) then NotStarted
    else if l.status == Text(Running) then InFlight
    else if l.status == Text(Succeeded) then Success
    else if l.status == Text(Cancelled) then (if l.started == Null then CancelledBeforeStart else CancelledInFlight)
    else if l.started != Null then
      (if l.code == Text(RecoveryExhausted) then MiscodedFailure else ProviderFailure)
    else if l.code == Null then UncodedFailure
    else ExhaustedRecovery
  }

  lemma ShapesAreDisjoint(s: Shape, nb: TextTest, l: Life)
    requires HasShape(s, nb, l)
    ensures s == ShapeOf(l)
  {
  }

  lemma BoundsMean(l: Life)
    requires WellTyped(l)
    ensures BoundsPass(l) <==> InBounds(l)
  {
  }

  predicate LifecyclePasses(g: Generation, nb: TextTest, l: Life) {
    StatusValue(g, l).Passes() && FinishedOrder(g, l).Passes() && LifecycleShape(g, nb, l).Passes()
  }

  lemma FailedStartedMeans(g: Generation, nb: TextTest, l: Life)
    requires WellTyped(l) && l.status == Text(Failed) && l.started != Null
    ensures LifecyclePasses(g, nb, l) <==> InGeneration(g, ShapeOf(l)) && HasShape(ShapeOf(l), nb, l)
  {
  }

  lemma FailedUnstartedMeans(g: Generation, nb: TextTest, l: Life)
    requires WellTyped(l) && l.status == Text(Failed) && l.started == Null
    ensures LifecyclePasses(g, nb, l) <==> InGeneration(g, ShapeOf(l)) && HasShape(ShapeOf(l), nb, l)
  {
  }

  lemma CancelledMeans(g: Generation, nb: TextTest, l: Life)
    requires WellTyped(l) && l.status == Text(Cancelled)
    ensures LifecyclePasses(g, nb, l) <==> InGeneration(g, ShapeOf(l)) && HasShape(ShapeOf(l), nb, l)
  {
  }

  lemma LifecycleMeans(g: Generation, nb: TextTest, l: Life)
    requires WellTyped(l)
    ensures LifecyclePasses(g, nb, l) <==> InGeneration(g, ShapeOf(l)) && HasShape(ShapeOf(l), nb, l)
  {
    if l.status == Text(Failed) {
      if l.started == Null {
        FailedUnstartedMeans(g, nb, l);
      } else {
        FailedStartedMeans(g, nb, l);
      }
    } else if l.status == Text(Cancelled) {
      CancelledMeans(g, nb, l);
    }
  }

  /** Each generation's CHECKs, read with NULL passing, admit exactly the rows that have one of its
      shapes; a row has at most one shape, so the shapes partition the admitted rows. */
  lemma AdmittedExactly(g: Generation, nb: TextTest, l: Life)
    requires WellTyped(l)
    ensures ChecksPass(g, nb, l) <==> InBounds(l) && exists s :: InGeneration(g, s) && HasShape(s, nb, l)
    ensures forall s, s' | HasShape(s, nb, l) && HasShape(s', nb, l) :: s == s'
  {
    BoundsMean(l);
    LifecycleMeans(g, nb, l);
    forall s | HasShape(s, nb, l) ensures s == ShapeOf(l) {
      ShapesAreDisjoint(s, nb, l);
    }
  }

  /** The code/message pairing CHECK that `jobs` carries and `runs` does not. */
  function ErrorPair(l: Life): Tri { Of(IsNull(l.code) == IsNull(l.message)) }

  /** With the pairing, C5 admits exactly the seven shapes its design names. What it admits without
      it is one more shape, the uncoded failure, and nothing else. */
  lemma PairingLeavesTheSeven(nb: TextTest, l: Life)
    requires WellTyped(l)
    ensures ChecksPass(C5, nb, l) && ErrorPair(l).Passes()
       <==> InBounds(l) && exists s: Shape :: !s.UncodedFailure? && !s.MiscodedFailure? && HasShape(s, nb, l)
    ensures ChecksPass(C5, nb, l) && !ErrorPair(l).Passes()
       <==> InBounds(l) && HasShape(UncodedFailure, nb, l)
  {
    BoundsMean(l);
    LifecycleMeans(C5, nb, l);
    forall s | HasShape(s, nb, l) ensures s == ShapeOf(l) {
      ShapesAreDisjoint(s, nb, l);
    }
  }

  /** The extra shape is not vacuous: C3 and C5 store this row, although the design says that only
      the exhausted code licenses a failed Run with no start. */
  lemma UncodedFailureIsStored(g: Generation, nb: TextTest)
    requires nb(Free("lost"))
    ensures var l := Life(Text(Failed), Num(1), Null, Num(1), Null, Null, Null, Text(Free("lost")),
                          Null, Null, Null, Null);
      WellTyped(l) && (ChecksPass(g, nb, l) <==> g != StageB)
  {
  }

  // ----- rows -----

  predicate RunNullable(c: RunColumn) {
    || c.OutputText? || c.FinishReason? || c.ErrorCode? || c.ErrorMessage? || c.InputTokens?
    || c.OutputTokens? || c.TotalTokens? || c.ElapsedMs? || c.StartedAt? || c.FinishedAt?
  }

  const RUN_COLUMNS: set<Column> := set c: RunColumn :: Run(c)
  const RUN_REQUIRED: set<Column> := set c: RunColumn | !RunNullable(c) :: Run(c)

  function LifeOf(r: Row): Life {
    Life(Get(r, Run(Status)), Get(r, Run(CreatedAt)), Get(r, Run(StartedAt)), Get(r, Run(FinishedAt)),
         Get(r, Run(OutputText)), Get(r, Run(FinishReason)), Get(r, Run(ErrorCode)), Get(r, Run(ErrorMessage)),
         Get(r, Run(InputTokens)), Get(r, Run(OutputTokens)), Get(r, Run(TotalTokens)), Get(r, Run(ElapsedMs)))
  }

  /** All CHECKs of a generation. `bounds` stands for the ones on limits, input and output text:
      arbitrary, but the same expressions over the same columns in every generation. */
  datatype Texts = Texts(nonBlank: TextTest, bounds: Row -> bool)

  predicate RunCheck(g: Generation, t: Texts, r: Row) {
    t.bounds(Restrict(r, RUN_COLUMNS)) && ChecksPass(g, t.nonBlank, LifeOf(r))
  }
}
