/** One Run under durable execution: claims with leases and tokens, the execution-start boundary,
    safe retry, reclamation of expired leases, owner cancellation, tool calls and approvals. Any
    number of Workers act, each on the Attempt it claimed, however stale, and each with its own
    clock: nothing is assumed about the instants the steps carry.

    Each step is one transaction. It commits all its writes or, when a fence matches no row or a
    CHECK fails, none. */
module Execution {
  import Sql

  type Opt<T> = Sql.Option<T>

  /** The states of Runs, Jobs and Attempts. */
  datatype Status = Created | Queued | Claimed | Running | RetryWait | Succeeded | Failed | Expired | Cancelled

  datatype Code = RateLimited | RecoveryExhausted | OutcomeAmbiguous | OtherCode(text: string)
  datatype Disposition = SafeToRetry | DoNotRetry | Ambiguous
  datatype Failure = Failure(code: Opt<Code>, disposition: Disposition)

  datatype Run = Run(
    status: Status, created: int, started: Opt<int>, finished: Opt<int>, elapsed: Opt<int>, code: Opt<Code>, maxToolCalls: nat)

  datatype Lease = Lease(worker: string, token: nat, expiresAt: int)

  /** Created with its Run. Every write stamps `updatedAt`. */
  datatype Job = Job(
    status: Status, claim: Opt<Lease>, availableAt: int, attemptCount: nat, maxAttempts: nat, cancelRequested: bool, updatedAt: int)

  /** An Attempt's tool calls: all that were entered against the budget, those still requested, those
      dispatched and not concluded, and those an approval was asked for, at most once per call. */
  datatype Tools = Tools(entered: nat, requested: nat, running: nat, asked: nat)

  /** `dispatched`: some tool call of this Attempt crossed its own start boundary. */
  datatype Attempt = Attempt(
    status: Status, lease: Lease, claimedAt: int, heartbeatAt: int, startedAt: Opt<int>, finishedAt: Opt<int>,
    tools: Tools, dispatched: bool, failure: Opt<Failure>)

  datatype Kind =
    | RunCreated | RunQueued | AttemptClaimed | AttemptStarted | AttemptFailed | AttemptExpired
    | RetryScheduled | Recovery | CancellationRequested | ToolEvent | ApprovalRequested | ApprovalDecided
    | RunClosed(status: Status)

  datatype Event = Event(sequence: nat, kind: Kind)

  /** `pending` and `approved` count the Run's open approvals. */
  datatype State = State(run: Run, job: Job, attempts: seq<Attempt>, events: seq<Event>, pending: nat, approved: nat)

  function OpenApprovals(s: State): nat { s.pending + s.approved }

  predicate Terminal(s: Status) { s == Succeeded || s == Failed || s == Cancelled }

  // ----- events -----

  /** coalesce(max(sequence), 0) */
  function Base(events: seq<Event>): nat { BaseWithin(events, |events|) }

  function BaseWithin(events: seq<Event>, n: nat): nat
    requires n <= |events|
  {
    if n == 0 then 0
    else
      var rest, last := BaseWithin(events, n - 1), events[n - 1].sequence;
      if rest < last then last else rest
  }

  /** The mark is read once and the batch numbered from it. */
  function Append(events: seq<Event>, batch: seq<Kind>): seq<Event> {
    events + seq(|batch|, i requires 0 <= i < |batch| => Event(Base(events) + 1 + i, batch[i]))
  }

  function Repeat(kind: Kind, n: nat): seq<Kind> { seq(n, i => kind) }

  // ----- steps -----

  /** A Worker acts on the Attempt it claimed; `attempt` is that Attempt's index. */
  datatype Step =
    | Claim(now: int, lease: Lease)
    | Start(now: int, attempt: nat)
    | Renew(now: int, attempt: nat, expiresAt: int)
    | Succeed(now: int, attempt: nat, elapsed: nat)
    | Fail(now: int, attempt: nat, code: Code, disposition: Disposition, elapsed: nat)
    | RecordFailure(now: int, attempt: nat, code: Code, disposition: Disposition, elapsed: nat, dueAt: int)
    | Reclaim(now: int, attempt: nat, backoff: nat)
    | Cancel(now: int)
    | RequestTool(now: int, attempt: nat)
    | RefuseTool(now: int, attempt: nat)
    | DenyTool(now: int, attempt: nat)
    | StartTool(now: int, attempt: nat, consumes: bool)
    | ConcludeTool(now: int, attempt: nat)
    | AskApproval(now: int, attempt: nat)
    | Approve(now: int, attempt: nat)
    | CloseApproval(now: int, wasApproved: bool)

  /** Both copies of the claim are this Attempt's. */
  predicate Owns(s: State, h: nat) {
    && h < |s.attempts| && s.job.claim.Some?
    && s.job.claim.value.worker == s.attempts[h].lease.worker && s.job.claim.value.token == s.attempts[h].lease.token
  }

  /** The finished-order CHECK, and the exhausted code belongs to Runs that never started. */
  predicate RowPasses(r: Run) {
    && (r.finished.Some? ==> r.finished.value >= if r.started.Some? then r.started.value else r.created)
    && (r.started.Some? ==> r.started.value >= r.created && r.code != Sql.Some(RecoveryExhausted))
  }

  /** The timestamp-order CHECK of `jobs`. */
  predicate JobPasses(j: Job, created: int) { j.updatedAt >= created && j.availableAt >= created }

  /** The lease-, start- and finish-order CHECKs of `job_attempts`, and that a closed one is finished. */
  predicate AttemptPasses(a: Attempt) {
    && (a.finishedAt.Some? <==> !Active(a))
    && a.lease.expiresAt > a.claimedAt && a.heartbeatAt >= a.claimedAt
    && (a.startedAt.Some? ==> a.startedAt.value >= a.claimedAt)
    && (a.finishedAt.Some? ==> a.finishedAt.value >= if a.startedAt.Some? then a.startedAt.value else a.claimedAt)
  }

  /** The rows a step writes pass their CHECKs; of the Attempts it writes the newest alone. */
  predicate RowsPass(s: State) {
    RowPasses(s.run) && JobPasses(s.job, s.run.created) && (s.attempts != [] ==> AttemptPasses(s.attempts[|s.attempts| - 1]))
  }

  function Commit(s: State): Opt<State> { if RowsPass(s) then Sql.Some(s) else Sql.None }

  function CloseAttempt(s: State, h: nat, status: Status, now: int, failure: Opt<Failure>): seq<Attempt>
    requires h < |s.attempts|
  {
    s.attempts[h := s.attempts[h].(status := status, finishedAt := Sql.Some(now), failure := failure)]
  }

  function CloseJob(j: Job, status: Status, now: int): Job { j.(status := status, claim := Sql.None, updatedAt := now) }

  function CloseRun(r: Run, status: Status, now: int, elapsed: Opt<int>, code: Opt<Code>): Run {
    r.(status := status, finished := Sql.Some(now), elapsed := elapsed, code := code)
  }

  function ElapsedMs(started: Opt<int>, now: int): int {
    if started.None? || now < started.value then 0 else now - started.value
  }

  /** `_claim_once`, for this Job; the token is fresh. */
  function DoClaim(s: State, now: int, lease: Lease): Opt<State> {
    if ((s.job.status == Queued && s.run.status == Created) || (s.job.status == RetryWait && s.run.status == Running))
      && s.job.availableAt <= now && s.job.attemptCount < s.job.maxAttempts
      && forall i | 0 <= i < |s.attempts| :: s.attempts[i].lease.token != lease.token
    then Commit(s.(
      job := s.job.(status := Claimed, claim := Sql.Some(lease), attemptCount := s.job.attemptCount + 1, updatedAt := now),
      attempts := s.attempts + [Attempt(Claimed, lease, now, now, Sql.None, Sql.None, Tools(0, 0, 0, 0), false, Sql.None)],
      events := Append(s.events, [AttemptClaimed])))
    else Sql.None
  }

  /** `_start_once`: the first start records the instant, a later one finds it recorded. */
  function DoStart(s: State, now: int, h: nat): Opt<State> {
    if Owns(s, h) && s.attempts[h].status == Claimed && s.attempts[h].lease.expiresAt > now
      && s.job.status == Claimed && s.job.claim.value.expiresAt > now && !s.job.cancelRequested
      && ((s.run.status == Created && s.run.started.None?) || (s.run.status == Running && s.run.started.Some?))
    then Commit(s.(
      run := if s.run.status == Created then s.run.(status := Running, started := Sql.Some(now)) else s.run,
      job := s.job.(status := Running, updatedAt := now),
      attempts := s.attempts[h := s.attempts[h].(status := Running, startedAt := Sql.Some(now))],
      events := Append(s.events, [AttemptStarted])))
    else Sql.None
  }

  /** The Attempt is executing under an unexpired lease and still holds the Job. */
  predicate Executing(s: State, h: nat, now: int) {
    Owns(s, h) && s.attempts[h].status == Running && s.attempts[h].lease.expiresAt > now && s.job.status == Running
  }

  function DoRenew(s: State, now: int, h: nat, expiresAt: int): Opt<State> {
    if Executing(s, h, now) && s.job.claim.value.expiresAt > now
    then Commit(s.(
      job := s.job.(claim := Sql.Some(s.job.claim.value.(expiresAt := expiresAt)), updatedAt := now),
      attempts := s.attempts[h := s.attempts[h].(lease := s.attempts[h].lease.(expiresAt := expiresAt), heartbeatAt := now)]))
    else Sql.None
  }

  function DoSucceed(s: State, now: int, h: nat, elapsed: nat): Opt<State> {
    if Executing(s, h, now) && s.run.status == Running
    then Commit(s.(
      run := CloseRun(s.run, Succeeded, now, Sql.Some(elapsed), Sql.None),
      job := CloseJob(s.job, Succeeded, now),
      attempts := CloseAttempt(s, h, Succeeded, now, Sql.None),
      events := Append(s.events, [RunClosed(Succeeded)])))
    else Sql.None
  }

  /** `_fail_attempt_on_connection` and `_close_terminal_on_connection` */
  function DoFail(s: State, now: int, h: nat, code: Code, disposition: Disposition, elapsed: nat): Opt<State> {
    if Executing(s, h, now) && s.job.claim.value.expiresAt > now && s.run.status == Running
    then Commit(s.(
      run := CloseRun(s.run, Failed, now, Sql.Some(elapsed), Sql.Some(code)),
      job := CloseJob(s.job, Failed, now),
      attempts := CloseAttempt(s, h, Failed, now, Sql.Some(Failure(Sql.Some(code), disposition))),
      events := Append(s.events, [AttemptFailed, RunClosed(Failed)])))
    else Sql.None
  }

  /** `_failure_on_connection`: a retry only for a positively safe rate limit, within the budget, and
      for an Attempt that dispatched no tool call. */
  function DoRecordFailure(s: State, now: int, h: nat, code: Code, disposition: Disposition, elapsed: nat, dueAt: int): Opt<State> {
    if Executing(s, h, now) && s.job.claim.value.expiresAt > now && !s.job.cancelRequested then
      if disposition == SafeToRetry && code == RateLimited && !s.attempts[h].dispatched && s.job.attemptCount < s.job.maxAttempts then
        if s.run.status == Running && s.run.started.Some?
        then Commit(s.(
          job := s.job.(status := RetryWait, claim := Sql.None, availableAt := dueAt, updatedAt := now),
          attempts := CloseAttempt(s, h, Failed, now, Sql.Some(Failure(Sql.Some(code), disposition))),
          events := Append(s.events, [AttemptFailed, RetryScheduled])))
        else Sql.None
      else DoFail(s, now, h, code, disposition, elapsed)
    else Sql.None
  }

  /** What the reclamation query pairs: an expired lease and the Attempt that held it. */
  predicate Reclaimable(s: State, h: nat, now: int) {
    && Owns(s, h) && s.job.claim.value.expiresAt <= now && s.attempts[h].lease.expiresAt <= now
    && ((s.job.status == Claimed && s.attempts[h].status == Claimed && !s.attempts[h].startedAt.Some?)
        || (s.job.status == Running && s.attempts[h].status == Running && s.attempts[h].startedAt.Some?))
  }

  /** The three cases of `reclaim_next_expired_claim`. Requeueing does not look at the Run. */
  function DoReclaim(s: State, now: int, h: nat, backoff: nat): Opt<State> {
    if !Reclaimable(s, h, now) then Sql.None
    else if s.job.status == Claimed && s.job.attemptCount < s.job.maxAttempts then
      Commit(s.(
        job := s.job.(status := Queued, claim := Sql.None, availableAt := now + backoff, updatedAt := now),
        attempts := CloseAttempt(s, h, Expired, now, Sql.Some(Failure(Sql.None, SafeToRetry))),
        events := Append(s.events, [AttemptExpired, Recovery])))
    else if s.job.status == Claimed then
      if s.run.status == Created && s.run.started.None?
      then Commit(s.(
        run := CloseRun(s.run, Failed, now, Sql.None, Sql.Some(RecoveryExhausted)),
        job := CloseJob(s.job, Failed, now),
        attempts := CloseAttempt(s, h, Expired, now, Sql.Some(Failure(Sql.None, SafeToRetry))),
        events := Append(s.events, [AttemptExpired, Recovery, RunClosed(Failed)])))
      else Sql.None
    else if s.run.status == Running && s.run.started.Some?
    then Commit(s.(
      run := CloseRun(s.run, Failed, now, Sql.Some(ElapsedMs(s.run.started, now)), Sql.Some(OutcomeAmbiguous)),
      job := CloseJob(s.job, Failed, now),
      attempts := CloseAttempt(s, h, Expired, now, Sql.Some(Failure(Sql.Some(OutcomeAmbiguous), Ambiguous))),
      events := Append(s.events, [AttemptExpired, Recovery] + Repeat(ToolEvent, s.attempts[h].tools.running) + [RunClosed(Failed)])))
    else Sql.None
  }

  predicate Active(a: Attempt) { a.status == Claimed || a.status == Running }

  /** The calls that closing the active Attempt leaves ambiguous, one event each. */
  function Unconcluded(s: State): nat {
    if s.attempts != [] && Active(s.attempts[|s.attempts| - 1]) then s.attempts[|s.attempts| - 1].tools.running else 0
  }

  /** `cancel_run`, by the owner. The last Attempt is the only one that can be active. */
  function DoCancel(s: State, now: int): Opt<State> {
    if s.run.status == Created || s.run.status == Running
    then Commit(s.(
      run := CloseRun(s.run, Cancelled, now, if s.run.started.None? then Sql.None else Sql.Some(ElapsedMs(s.run.started, now)), Sql.None),
      job := CloseJob(s.job, Cancelled, now).(cancelRequested := true),
      attempts := if s.attempts != [] && Active(s.attempts[|s.attempts| - 1])
        then CloseAttempt(s, |s.attempts| - 1, Cancelled, now, Sql.None) else s.attempts,
      events := Append(s.events, [CancellationRequested] + Repeat(ToolEvent, Unconcluded(s)) + [RunClosed(Cancelled)])))
    else Sql.None
  }

  /** Tool calls and approval requests need a live, started, uncancelled Attempt. */
  predicate Authorized(s: State, h: nat, now: int) {
    Executing(s, h, now) && s.attempts[h].startedAt.Some? && !s.job.cancelRequested
  }

  function WithTools(s: State, h: nat, tools: Tools, dispatches: bool): seq<Attempt>
    requires h < |s.attempts|
  {
    s.attempts[h := s.attempts[h].(tools := tools, dispatched := s.attempts[h].dispatched || dispatches)]
  }

  /** The steps of a tool call. A request and a refusal before dispatch are entered against the
      budget; a request is denied or started, and a started call is concluded. */
  function DoTool(s: State, step: Step): Opt<State>
    requires step.RequestTool? || step.RefuseTool? || step.DenyTool? || step.StartTool? || step.ConcludeTool?
  {
    var h := step.attempt;
    if !Authorized(s, h, step.now) then Sql.None
    else
      var t := s.attempts[h].tools;
      if step.RequestTool? && t.entered < s.run.maxToolCalls then
        Sql.Some(s.(attempts := WithTools(s, h, t.(entered := t.entered + 1, requested := t.requested + 1), false),
                    events := Append(s.events, [ToolEvent])))
      else if step.RefuseTool? && t.entered < s.run.maxToolCalls then
        Sql.Some(s.(attempts := WithTools(s, h, t.(entered := t.entered + 1), false), events := Append(s.events, [ToolEvent])))
      else if step.DenyTool? && t.requested > 0 then
        Sql.Some(s.(attempts := WithTools(s, h, t.(requested := t.requested - 1), false), events := Append(s.events, [ToolEvent])))
      else if step.StartTool? && t.requested > 0 && (step.consumes ==> s.approved > 0) then
        Sql.Some(s.(attempts := WithTools(s, h, t.(requested := t.requested - 1, running := t.running + 1), true),
                    approved := if step.consumes then s.approved - 1 else s.approved,
                    events := Append(s.events, [ToolEvent])))
      else if step.ConcludeTool? && t.running > 0 then
        Sql.Some(s.(attempts := WithTools(s, h, t.(running := t.running - 1), false), events := Append(s.events, [ToolEvent])))
      else Sql.None
  }

  /** The steps of an approval. One is asked for at most once per tool call, and approved only while
      its Attempt lives; a denial, cancellation, expiry or reconciliation asks nothing of the Run. */
  function DoApproval(s: State, step: Step): Opt<State>
    requires step.AskApproval? || step.Approve? || step.CloseApproval?
  {
    match step
    case AskApproval(now, h) =>
      if Authorized(s, h, now) && s.attempts[h].tools.asked < s.attempts[h].tools.entered
      then
        var t := s.attempts[h].tools;
        Sql.Some(s.(attempts := WithTools(s, h, t.(asked := t.asked + 1), false), pending := s.pending + 1,
                    events := Append(s.events, [ApprovalRequested])))
      else Sql.None
    case Approve(now, h) =>
      if Authorized(s, h, now) && s.pending > 0
      then Sql.Some(s.(pending := s.pending - 1, approved := s.approved + 1, events := Append(s.events, [ApprovalDecided])))
      else Sql.None
    case CloseApproval(_, wasApproved) =>
      if wasApproved && s.approved > 0 then Sql.Some(s.(approved := s.approved - 1, events := Append(s.events, [ApprovalDecided])))
      else if !wasApproved && s.pending > 0 then Sql.Some(s.(pending := s.pending - 1, events := Append(s.events, [ApprovalDecided])))
      else Sql.None
  }

  function Apply(s: State, step: Step): Opt<State> {
    match step
    case Claim(now, lease) => DoClaim(s, now, lease)
    case Start(now, h) => DoStart(s, now, h)
    case Renew(now, h, expiresAt) => DoRenew(s, now, h, expiresAt)
    case Succeed(now, h, elapsed) => DoSucceed(s, now, h, elapsed)
    case Fail(now, h, code, disposition, elapsed) => DoFail(s, now, h, code, disposition, elapsed)
    case RecordFailure(now, h, code, disposition, elapsed, dueAt) => DoRecordFailure(s, now, h, code, disposition, elapsed, dueAt)
    case Reclaim(now, h, backoff) => DoReclaim(s, now, h, backoff)
    case Cancel(now) => DoCancel(s, now)
    case RequestTool(_, _) => DoTool(s, step)
    case RefuseTool(_, _) => DoTool(s, step)
    case DenyTool(_, _) => DoTool(s, step)
    case StartTool(_, _, _) => DoTool(s, step)
    case ConcludeTool(_, _) => DoTool(s, step)
    case AskApproval(_, _) => DoApproval(s, step)
    case Approve(_, _) => DoApproval(s, step)
    case CloseApproval(_, _) => DoApproval(s, step)
  }

  /** `insert_run_and_job_on_connection` */
  function Submitted(now: int, maxAttempts: nat, maxToolCalls: nat): State {
    State(Run(Created, now, Sql.None, Sql.None, Sql.None, Sql.None, maxToolCalls),
          Job(Queued, Sql.None, now, 0, maxAttempts, false, now), [], Append([], [RunCreated, RunQueued]), 0, 0)
  }

  /** The budgets the CHECKs of `jobs` and `runs` admit. */
  predicate Budgets(maxAttempts: nat, maxToolCalls: nat) { 1 <= maxAttempts <= 10 && maxToolCalls <= 16 }

  /** Every state a submission can reach; a step that does not commit leaves the state as it was. */
  ghost predicate IsRun(states: seq<State>, steps: seq<Step>) {
    && |states| == |steps| + 1
    && (exists now, maxAttempts: nat, maxToolCalls: nat ::
        Budgets(maxAttempts, maxToolCalls) && states[0] == Submitted(now, maxAttempts, maxToolCalls))
    && forall i | 0 <= i < |steps| ::
        states[i + 1] == if Apply(states[i], steps[i]).Some? then Apply(states[i], steps[i]).value else states[i]
  }

  // ----- the invariant -----

  predicate Numbered(events: seq<Event>) { forall i | 0 <= i < |events| :: events[i].sequence == i + 1 }

  /** A closed Attempt that leaves the way open for another: it never started, or it was safely
      declined before any tool call. */
  predicate Replayable(a: Attempt) {
    || (a.status == Expired && !a.startedAt.Some? && !a.dispatched)
    || (a.status == Failed && a.startedAt.Some? && !a.dispatched && a.failure == Sql.Some(Failure(Sql.Some(RateLimited), SafeToRetry)))
  }

  /** The first `n` Attempts are all replayable. */
  predicate AllReplayable(attempts: seq<Attempt>, n: int) {
    forall i | 0 <= i < n && i < |attempts| :: Replayable(attempts[i])
  }

  predicate TokensDiffer(attempts: seq<Attempt>) {
    forall i, j | 0 <= i < j < |attempts| :: attempts[i].lease.token != attempts[j].lease.token
  }

  predicate AnyStarted(attempts: seq<Attempt>) { exists i :: 0 <= i < |attempts| && attempts[i].startedAt.Some? }

  predicate History(s: State) {
    && s.job.attemptCount == |s.attempts| <= s.job.maxAttempts
    && TokensDiffer(s.attempts)
    && AllReplayable(s.attempts, |s.attempts| - 1)
    && (s.run.started.Some? <==> AnyStarted(s.attempts))
  }

  /** Job, Run and last Attempt move together. */
  predicate Lockstep(run: Run, job: Job, attempts: seq<Attempt>) {
    var n := |attempts|;
    match job.status
    case Queued =>
      && job.claim.None? && (run.status == Created || run.status == Running)
      && job.attemptCount < job.maxAttempts && AllReplayable(attempts, n)
    case RetryWait =>
      job.claim.None? && run.status == Running && job.attemptCount < job.maxAttempts && AllReplayable(attempts, n)
    case Claimed =>
      && (run.status == Created || run.status == Running)
      && n > 0 && attempts[n - 1].status == Claimed && !attempts[n - 1].startedAt.Some? && !attempts[n - 1].dispatched
      && job.claim == Sql.Some(attempts[n - 1].lease)
    case Running =>
      && run.status == Running
      && n > 0 && attempts[n - 1].status == Running && attempts[n - 1].startedAt.Some? && job.claim == Sql.Some(attempts[n - 1].lease)
    case Succeeded => run.status == Succeeded && job.claim.None? && n > 0 && attempts[n - 1].status == Succeeded
    case Failed => run.status == Failed && job.claim.None? && n > 0 && (attempts[n - 1].status == Failed || attempts[n - 1].status == Expired)
    case Cancelled => run.status == Cancelled && job.claim.None? && (n > 0 ==> !Active(attempts[n - 1]))
    case _ => false
  }

  predicate RunOk(r: Run, cancelRequested: bool) {
    && RowPasses(r)
    && (cancelRequested <==> r.status == Cancelled)
    && (r.status == Created ==> r.started.None?)
    && (r.status == Running || r.status == Succeeded ==> r.started.Some?)
    && (Terminal(r.status) <==> r.finished.Some?)
    && (r.code.Some? <==> r.status == Failed)
    && (r.elapsed.Some? <==> Terminal(r.status) && r.started.Some?)
    && (r.elapsed.Some? ==> r.elapsed.value >= 0)
    && (r.status == Failed && r.started.None? ==> r.code == Sql.Some(RecoveryExhausted))
  }

  /** The closing event of a terminal Run stands at `at`; only approval decisions follow it. */
  predicate ClosedAt(run: Run, events: seq<Event>, at: nat) {
    && at < |events| && events[at].kind == RunClosed(run.status)
    && (forall i | 0 <= i < at :: !events[i].kind.RunClosed?)
    && (forall i | at < i < |events| :: events[i].kind == ApprovalDecided)
  }

  ghost predicate EventsOk(run: Run, events: seq<Event>) {
    && Numbered(events)
    && (if Terminal(run.status) then exists at: nat :: ClosedAt(run, events, at)
        else forall i | 0 <= i < |events| :: !events[i].kind.RunClosed?)
  }

  /** The rows pass their CHECKs, and the newest claim came after the submission. */
  predicate Timed(s: State) {
    RowsPass(s) && (s.attempts != [] ==> s.attempts[|s.attempts| - 1].claimedAt >= s.run.created)
  }

  ghost predicate Inv(s: State) {
    && History(s) && Lockstep(s.run, s.job, s.attempts) && Timed(s)
    && RunOk(s.run, s.job.cancelRequested) && EventsOk(s.run, s.events)
  }

  // ----- events keep -----

  lemma {:induction false} BaseIsLength(events: seq<Event>, n: nat)
    requires Numbered(events) && n <= |events|
    ensures BaseWithin(events, n) == n
  {
    if n > 0 {
      BaseIsLength(events, n - 1);
    }
  }

  lemma AppendMeans(events: seq<Event>, batch: seq<Kind>)
    requires Numbered(events)
    ensures events <= Append(events, batch) && |Append(events, batch)| == |events| + |batch|
    ensures Numbered(Append(events, batch))
    ensures forall i | 0 <= i < |batch| :: Append(events, batch)[|events| + i].kind == batch[i]
  {
    BaseIsLength(events, |events|);
    var more := Append(events, batch);
    forall i | 0 <= i < |more| ensures more[i].sequence == i + 1 {
      if i < |events| {
        assert more[i] == events[i];
      } else {
        assert more[i] == Event(Base(events) + 1 + (i - |events|), batch[i - |events|]);
      }
    }
  }

  predicate NothingCloses(batch: seq<Kind>) { forall i | 0 <= i < |batch| :: !batch[i].RunClosed? }

  lemma OpenAppend(run: Run, next: Run, events: seq<Event>, batch: seq<Kind>)
    requires EventsOk(run, events) && !Terminal(run.status) && !Terminal(next.status) && NothingCloses(batch)
    ensures EventsOk(next, Append(events, batch))
  {
    AppendMeans(events, batch);
    var more := Append(events, batch);
    forall i | 0 <= i < |more| ensures !more[i].kind.RunClosed? {
      if i < |events| {
        assert more[i] == events[i];
      } else {
        assert more[i].kind == batch[i - |events|];
      }
    }
  }

  lemma ClosingAppend(run: Run, next: Run, events: seq<Event>, batch: seq<Kind>)
    requires EventsOk(run, events) && !Terminal(run.status) && Terminal(next.status) && NothingCloses(batch)
    ensures EventsOk(next, Append(events, batch + [RunClosed(next.status)]))
  {
    var all := batch + [RunClosed(next.status)];
    AppendMeans(events, all);
    var more, at := Append(events, all), |events| + |batch|;
    forall i | 0 <= i < at ensures !more[i].kind.RunClosed? {
      if i < |events| {
        assert more[i] == events[i];
      } else {
        assert more[i].kind == all[i - |events|] == batch[i - |events|];
      }
    }
    assert more[at].kind == all[|batch|];
    assert ClosedAt(next, more, at);
  }

  lemma LateAppend(run: Run, events: seq<Event>)
    requires EventsOk(run, events)
    ensures EventsOk(run, Append(events, [ApprovalDecided]))
  {
    if Terminal(run.status) {
      AppendMeans(events, [ApprovalDecided]);
      var more := Append(events, [ApprovalDecided]);
      var at: nat :| ClosedAt(run, events, at);
      forall i | at < i < |more| ensures more[i].kind == ApprovalDecided {
        if i < |events| {
          assert more[i] == events[i];
        }
      }
      assert ClosedAt(run, more, at);
    } else {
      OpenAppend(run, run, events, [ApprovalDecided]);
    }
  }

  // ----- every step keeps it -----

  /** Fencing: only the newest claim holds the Job. */
  lemma OwnerIsLast(s: State, h: nat)
    requires History(s) && Lockstep(s.run, s.job, s.attempts) && Owns(s, h)
    ensures h == |s.attempts| - 1 && Active(s.attempts[h]) && s.job.status == s.attempts[h].status
    ensures s.job.claim == Sql.Some(s.attempts[h].lease)
  {
  }

  /** Rewriting the last Attempt, under its own token. */
  lemma LastRewritten(attempts: seq<Attempt>, a: Attempt)
    requires attempts != [] && a.lease.token == attempts[|attempts| - 1].lease.token && TokensDiffer(attempts)
    ensures var next := attempts[|attempts| - 1 := a];
      && TokensDiffer(next)
      && (a.startedAt.Some? == attempts[|attempts| - 1].startedAt.Some? ==> (AnyStarted(next) <==> AnyStarted(attempts)))
      && (a.startedAt.Some? ==> AnyStarted(next))
      && (AllReplayable(attempts, |attempts| - 1) ==> AllReplayable(next, |next| - 1))
      && (AllReplayable(attempts, |attempts| - 1) && Replayable(a) ==> AllReplayable(next, |next|))
  {
    var n := |attempts| - 1;
    var next := attempts[n := a];
    assert a.startedAt.Some? ==> next[n].startedAt.Some?;
    if a.startedAt.Some? == attempts[n].startedAt.Some? {
      if AnyStarted(next) {
        var i :| 0 <= i < |next| && next[i].startedAt.Some?;
        assert attempts[i].startedAt.Some?;
      }
      if AnyStarted(attempts) {
        var i :| 0 <= i < |attempts| && attempts[i].startedAt.Some?;
        assert next[i].startedAt.Some?;
      }
    }
  }

  lemma ClaimKeeps(s: State, now: int, lease: Lease)
    requires Inv(s) && DoClaim(s, now, lease).Some?
    ensures Inv(DoClaim(s, now, lease).value)
  {
    var t := DoClaim(s, now, lease).value;
    var n := |s.attempts|;
    if AnyStarted(s.attempts) {
      var i :| 0 <= i < n && s.attempts[i].startedAt.Some?;
      assert t.attempts[i].startedAt.Some?;
    }
    if AnyStarted(t.attempts) {
      var i :| 0 <= i < |t.attempts| && t.attempts[i].startedAt.Some?;
      assert s.attempts[i].startedAt.Some?;
    }
    OpenAppend(s.run, t.run, s.events, [AttemptClaimed]);
  }

  lemma StartKeeps(s: State, now: int, h: nat)
    requires Inv(s) && DoStart(s, now, h).Some?
    ensures Inv(DoStart(s, now, h).value)
  {
    var t := DoStart(s, now, h).value;
    OwnerIsLast(s, h);
    LastRewritten(s.attempts, t.attempts[h]);
    OpenAppend(s.run, t.run, s.events, [AttemptStarted]);
  }

  lemma RenewKeeps(s: State, now: int, h: nat, expiresAt: int)
    requires Inv(s) && DoRenew(s, now, h, expiresAt).Some?
    ensures Inv(DoRenew(s, now, h, expiresAt).value)
  {
    OwnerIsLast(s, h);
    LastRewritten(s.attempts, DoRenew(s, now, h, expiresAt).value.attempts[h]);
  }

  /** The last Attempt closed, with Job and Run closed alike. */
  lemma CloseKeeps(s: State, t: State, h: nat, batch: seq<Kind>)
    requires Inv(s) && Owns(s, h) && !Terminal(s.run.status)
    requires |t.attempts| == |s.attempts| && t.attempts == s.attempts[h := t.attempts[h]]
    requires t.attempts[h].lease == s.attempts[h].lease && t.attempts[h].startedAt.Some? == s.attempts[h].startedAt.Some?
    requires (t.attempts[h].status == Succeeded && t.run.status == Succeeded)
      || ((t.attempts[h].status == Failed || t.attempts[h].status == Expired) && t.run.status == Failed)
    requires t.job == CloseJob(s.job, t.run.status, t.job.updatedAt) && t.run.started == s.run.started && Timed(t)
    requires RunOk(t.run, t.job.cancelRequested) && NothingCloses(batch)
    requires t.events == Append(s.events, batch + [RunClosed(t.run.status)])
    ensures Inv(t)
  {
    OwnerIsLast(s, h);
    LastRewritten(s.attempts, t.attempts[h]);
    ClosingAppend(s.run, t.run, s.events, batch);
  }

  lemma SucceedKeeps(s: State, now: int, h: nat, elapsed: nat)
    requires Inv(s) && DoSucceed(s, now, h, elapsed).Some?
    ensures Inv(DoSucceed(s, now, h, elapsed).value)
  {
    assert [] + [RunClosed(Succeeded)] == [RunClosed(Succeeded)];
    CloseKeeps(s, DoSucceed(s, now, h, elapsed).value, h, []);
  }

  lemma FailKeeps(s: State, now: int, h: nat, code: Code, disposition: Disposition, elapsed: nat)
    requires Inv(s) && DoFail(s, now, h, code, disposition, elapsed).Some?
    ensures Inv(DoFail(s, now, h, code, disposition, elapsed).value)
  {
    assert [AttemptFailed] + [RunClosed(Failed)] == [AttemptFailed, RunClosed(Failed)];
    CloseKeeps(s, DoFail(s, now, h, code, disposition, elapsed).value, h, [AttemptFailed]);
  }

  lemma RecordFailureKeeps(s: State, now: int, h: nat, code: Code, disposition: Disposition, elapsed: nat, dueAt: int)
    requires Inv(s) && DoRecordFailure(s, now, h, code, disposition, elapsed, dueAt).Some?
    ensures Inv(DoRecordFailure(s, now, h, code, disposition, elapsed, dueAt).value)
  {
    var t := DoRecordFailure(s, now, h, code, disposition, elapsed, dueAt).value;
    if t.job.status == RetryWait {
      RetryKeeps(s, t, h, now);
    } else {
      FailKeeps(s, now, h, code, disposition, elapsed);
    }
  }

  lemma RetryKeeps(s: State, t: State, h: nat, now: int)
    requires Inv(s) && Owns(s, h) && s.job.status == Running && s.job.attemptCount < s.job.maxAttempts && !s.attempts[h].dispatched
    requires t.run == s.run && Timed(t)
    requires t.job == s.job.(status := RetryWait, claim := Sql.None, availableAt := t.job.availableAt, updatedAt := now)
    requires t.attempts == CloseAttempt(s, h, Failed, now, Sql.Some(Failure(Sql.Some(RateLimited), SafeToRetry)))
    requires t.events == Append(s.events, [AttemptFailed, RetryScheduled])
    ensures Inv(t)
  {
    OwnerIsLast(s, h);
    LastRewritten(s.attempts, t.attempts[h]);
    OpenAppend(s.run, t.run, s.events, [AttemptFailed, RetryScheduled]);
  }

  lemma RequeueKeeps(s: State, t: State, h: nat, now: int)
    requires Inv(s) && Owns(s, h) && s.job.status == Claimed && s.job.attemptCount < s.job.maxAttempts
    requires t.run == s.run && Timed(t)
    requires t.job == s.job.(status := Queued, claim := Sql.None, availableAt := t.job.availableAt, updatedAt := now)
    requires t.attempts == CloseAttempt(s, h, Expired, now, Sql.Some(Failure(Sql.None, SafeToRetry)))
    requires t.events == Append(s.events, [AttemptExpired, Recovery])
    ensures Inv(t)
  {
    OwnerIsLast(s, h);
    LastRewritten(s.attempts, t.attempts[h]);
    OpenAppend(s.run, t.run, s.events, [AttemptExpired, Recovery]);
  }

  lemma ExhaustedKeeps(s: State, now: int, h: nat, backoff: nat)
    requires Inv(s) && s.job.status == Claimed && s.job.attemptCount >= s.job.maxAttempts && DoReclaim(s, now, h, backoff).Some?
    ensures Inv(DoReclaim(s, now, h, backoff).value)
  {
    var t := DoReclaim(s, now, h, backoff).value;
    assert [AttemptExpired, Recovery] + [RunClosed(Failed)] == [AttemptExpired, Recovery, RunClosed(Failed)];
    CloseKeeps(s, t, h, [AttemptExpired, Recovery]);
  }

  lemma AmbiguousKeeps(s: State, now: int, h: nat, backoff: nat)
    requires Inv(s) && s.job.status != Claimed && DoReclaim(s, now, h, backoff).Some?
    ensures Inv(DoReclaim(s, now, h, backoff).value)
  {
    var t := DoReclaim(s, now, h, backoff).value;
    CloseKeeps(s, t, h, [AttemptExpired, Recovery] + Repeat(ToolEvent, s.attempts[h].tools.running));
  }

  lemma ReclaimKeeps(s: State, now: int, h: nat, backoff: nat)
    requires Inv(s) && DoReclaim(s, now, h, backoff).Some?
    ensures Inv(DoReclaim(s, now, h, backoff).value)
  {
    var t := DoReclaim(s, now, h, backoff).value;
    if t.job.status == Queued {
      RequeueKeeps(s, t, h, now);
    } else if s.job.status == Claimed {
      ExhaustedKeeps(s, now, h, backoff);
    } else {
      AmbiguousKeeps(s, now, h, backoff);
    }
  }

  /** What cancelling does to the Attempts, whatever else it does. */
  lemma CancelledAttempts(s: State, t: State, now: int)
    requires Inv(s) && t.job.attemptCount == s.job.attemptCount && t.job.maxAttempts == s.job.maxAttempts && t.run.started == s.run.started
    requires t.attempts == if s.attempts != [] && Active(s.attempts[|s.attempts| - 1])
      then CloseAttempt(s, |s.attempts| - 1, Cancelled, now, Sql.None) else s.attempts
    ensures History(t) && (t.attempts != [] ==> !Active(t.attempts[|t.attempts| - 1]))
  {
    if s.attempts != [] {
      LastRewritten(s.attempts, t.attempts[|s.attempts| - 1]);
    }
  }

  lemma CancelKeeps(s: State, now: int)
    requires Inv(s) && DoCancel(s, now).Some?
    ensures Inv(DoCancel(s, now).value)
  {
    CancelledKeeps(s, DoCancel(s, now).value, now);
  }

  lemma CancelledKeeps(s: State, t: State, now: int)
    requires Inv(s) && (s.run.status == Created || s.run.status == Running) && RowsPass(t)
    requires t.run == CloseRun(s.run, Cancelled, now, if s.run.started.None? then Sql.None else Sql.Some(ElapsedMs(s.run.started, now)), Sql.None)
    requires t.job == CloseJob(s.job, Cancelled, now).(cancelRequested := true)
    requires t.attempts == if s.attempts != [] && Active(s.attempts[|s.attempts| - 1])
      then CloseAttempt(s, |s.attempts| - 1, Cancelled, now, Sql.None) else s.attempts
    requires t.events == Append(s.events, [CancellationRequested] + Repeat(ToolEvent, Unconcluded(s)) + [RunClosed(Cancelled)])
    ensures Inv(t)
  {
    CancelledAttempts(s, t, now);
    CancelledEvents(s, t);
    CancelledRun(s, t, now);
    assert t.attempts != [] ==> t.attempts[|t.attempts| - 1].claimedAt == s.attempts[|s.attempts| - 1].claimedAt;
  }

  lemma CancelledRun(s: State, t: State, now: int)
    requires Inv(s) && (s.run.status == Created || s.run.status == Running) && RowsPass(t)
    requires t.run == CloseRun(s.run, Cancelled, now, if s.run.started.None? then Sql.None else Sql.Some(ElapsedMs(s.run.started, now)), Sql.None)
    ensures RunOk(t.run, true)
  {
  }

  lemma CancelledEvents(s: State, t: State)
    requires EventsOk(s.run, s.events) && !Terminal(s.run.status) && t.run.status == Cancelled
    requires t.events == Append(s.events, [CancellationRequested] + Repeat(ToolEvent, Unconcluded(s)) + [RunClosed(Cancelled)])
    ensures EventsOk(t.run, t.events)
  {
    ClosingAppend(s.run, t.run, s.events, [CancellationRequested] + Repeat(ToolEvent, Unconcluded(s)));
  }

  predicate IsTool(step: Step) { step.RequestTool? || step.RefuseTool? || step.DenyTool? || step.StartTool? || step.ConcludeTool? }

  /** The newest Attempt's counters moved, and one event was added. */
  lemma CountersKeep(s: State, t: State, h: nat, kind: Kind)
    requires Inv(s) && Owns(s, h) && s.job.status == Running && !kind.RunClosed?
    requires t == s.(attempts := t.attempts, pending := t.pending, approved := t.approved, events := Append(s.events, [kind]))
    requires |t.attempts| == |s.attempts| && t.attempts == s.attempts[h := t.attempts[h]]
    requires t.attempts[h] == s.attempts[h].(tools := t.attempts[h].tools, dispatched := t.attempts[h].dispatched)
    ensures Inv(t)
  {
    OwnerIsLast(s, h);
    LastRewritten(s.attempts, t.attempts[h]);
    OpenAppend(s.run, s.run, s.events, [kind]);
  }

  lemma ToolKeeps(s: State, step: Step)
    requires Inv(s) && IsTool(step) && DoTool(s, step).Some?
    ensures Inv(DoTool(s, step).value)
  {
    CountersKeep(s, DoTool(s, step).value, step.attempt, ToolEvent);
  }

  lemma ApprovalKeeps(s: State, step: Step)
    requires Inv(s) && (step.AskApproval? || step.Approve? || step.CloseApproval?) && DoApproval(s, step).Some?
    ensures Inv(DoApproval(s, step).value)
  {
    if step.AskApproval? {
      CountersKeep(s, DoApproval(s, step).value, step.attempt, ApprovalRequested);
    } else {
      LateAppend(s.run, s.events);
    }
  }

  predicate IsApproval(step: Step) { step.AskApproval? || step.Approve? || step.CloseApproval? }

  /** What the Worker of an Attempt does to it. */
  lemma WorkKeeps(s: State, step: Step)
    requires Inv(s) && Apply(s, step).Some?
    requires step.Start? || step.Renew? || step.Succeed? || step.Fail? || step.RecordFailure?
    ensures Inv(Apply(s, step).value)
  {
    match step
    case Start(now, h) => StartKeeps(s, now, h);
    case Renew(now, h, expiresAt) => RenewKeeps(s, now, h, expiresAt);
    case Succeed(now, h, elapsed) => SucceedKeeps(s, now, h, elapsed);
    case Fail(now, h, code, disposition, elapsed) => FailKeeps(s, now, h, code, disposition, elapsed);
    case RecordFailure(now, h, code, disposition, elapsed, dueAt) =>
      RecordFailureKeeps(s, now, h, code, disposition, elapsed, dueAt);
  }

  lemma CallsKeep(s: State, step: Step)
    requires Inv(s) && Apply(s, step).Some? && (IsTool(step) || IsApproval(step))
    ensures Inv(Apply(s, step).value)
  {
    if IsTool(step) {
      ToolKeeps(s, step);
    } else {
      ApprovalKeeps(s, step);
    }
  }

  lemma StepKeeps(s: State, step: Step)
    requires Inv(s) && Apply(s, step).Some?
    ensures Inv(Apply(s, step).value)
  {
    if step.Claim? {
      ClaimKeeps(s, step.now, step.lease);
    } else if step.Reclaim? {
      ReclaimKeeps(s, step.now, step.attempt, step.backoff);
    } else if step.Cancel? {
      CancelKeeps(s, step.now);
    } else if IsTool(step) || IsApproval(step) {
      CallsKeep(s, step);
    } else {
      WorkKeeps(s, step);
    }
  }

  lemma SubmittedOk(now: int, maxAttempts: nat, maxToolCalls: nat)
    requires maxAttempts > 0
    ensures Inv(Submitted(now, maxAttempts, maxToolCalls))
  {
    var s := Submitted(now, maxAttempts, maxToolCalls);
    AppendMeans([], [RunCreated, RunQueued]);
    forall i | 0 <= i < |s.events| ensures !s.events[i].kind.RunClosed? {
      assert s.events[i].kind == [RunCreated, RunQueued][i];
    }
  }

  lemma {:induction false} InvHolds(states: seq<State>, steps: seq<Step>, n: nat)
    requires IsRun(states, steps) && n <= |steps|
    ensures Inv(states[n])
  {
    if n == 0 {
      var now, maxAttempts: nat, maxToolCalls: nat :|
        Budgets(maxAttempts, maxToolCalls) && states[0] == Submitted(now, maxAttempts, maxToolCalls);
      SubmittedOk(now, maxAttempts, maxToolCalls);
    } else {
      InvHolds(states, steps, n - 1);
      if Apply(states[n - 1], steps[n - 1]).Some? {
        StepKeeps(states[n - 1], steps[n - 1]);
      }
    }
  }

  // ----- for those who build on it -----

  /** The claim of a retry with the budget spent: lost before its start, it can only be rolled back. */
  predicate Unreclaimable(s: State) {
    s.job.status == Claimed && s.run.started.Some? && s.job.attemptCount == s.job.maxAttempts
  }

  lemma {:induction false} FreshToken(attempts: seq<Attempt>) returns (token: nat)
    ensures forall i | 0 <= i < |attempts| :: attempts[i].lease.token < token
  {
    token := 0;
    if attempts != [] {
      var last := attempts[|attempts| - 1].lease.token;
      var rest := FreshToken(attempts[..|attempts| - 1]);
      token := if rest <= last then last + 1 else rest;
      forall i | 0 <= i < |attempts| ensures attempts[i].lease.token < token {
        if i < |attempts| - 1 {
          assert attempts[..|attempts| - 1][i] == attempts[i];
        }
      }
    }
  }

  lemma Extend(states: seq<State>, steps: seq<Step>, step: Step) returns (longer: seq<State>, more: seq<Step>)
    requires IsRun(states, steps) && Apply(states[|steps|], step).Some?
    ensures IsRun(longer, more) && longer == states + [Apply(states[|steps|], step).value] && more == steps + [step]
  {
    longer, more := states + [Apply(states[|steps|], step).value], steps + [step];
    assert longer[0] == states[0];
  }
}
