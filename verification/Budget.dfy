/** How long the log of a Run can grow. Every committed step spends from one account: the events there
    are, and all that the Run's remaining Attempts, tool calls and approvals can still cause. */
module Budget {
  import Sql
  import opened Execution

  /** n times the same amount. */
  function Times(n: nat, amount: nat): nat { if n == 0 then 0 else Times(n - 1, amount) + amount }

  lemma {:induction false} TimesGrows(n: nat, amount: nat, more: nat, larger: nat)
    requires n <= more && amount <= larger
    ensures Times(n, amount) <= Times(more, larger)
  {
    if more > 0 {
      TimesGrows(if n == 0 then 0 else n - 1, amount, more - 1, larger);
    }
  }

  /** The events one Attempt can cause: its claim, its start, two for its end, and for each tool call
      three of its own, the request of an approval, an approval and the closing of it. */
  function PerAttempt(maxToolCalls: nat): nat { 4 + 6 * maxToolCalls }

  /** What the active Attempt can still add. */
  function Outstanding(s: State): int {
    if s.job.status == Claimed then 3 + 6 * s.run.maxToolCalls
    else if s.job.status == Running && s.attempts != [] then
      var t := s.attempts[|s.attempts| - 1].tools;
      2 + 6 * (s.run.maxToolCalls - t.entered) + 3 * (t.entered - t.asked) + 2 * t.requested + t.running
    else 0
  }

  /** The events there are and all that can still come. */
  function Account(s: State): int
    requires |s.attempts| <= s.job.maxAttempts
  {
    |s.events| + Times(s.job.maxAttempts - |s.attempts|, PerAttempt(s.run.maxToolCalls)) + Outstanding(s)
      + 2 * s.pending + s.approved + if Terminal(s.run.status) then 0 else 2
  }

  /** The newest Attempt's calls are within the budget, and it has none before it starts. */
  predicate ToolsOk(s: State) {
    s.attempts != [] ==>
      var t := s.attempts[|s.attempts| - 1].tools;
      t.asked <= t.entered <= s.run.maxToolCalls && (s.job.status == Claimed ==> t == Tools(0, 0, 0, 0))
  }

  /** No committed step adds to the account. */
  ghost predicate Spends(s: State, t: State) {
    && t.job.maxAttempts == s.job.maxAttempts && t.run.maxToolCalls == s.run.maxToolCalls
    && |t.attempts| <= t.job.maxAttempts && |s.attempts| <= s.job.maxAttempts && ToolsOk(t) && Account(t) <= Account(s)
  }

  lemma ClaimSpends(s: State, now: int, lease: Lease)
    requires Inv(s) && ToolsOk(s) && DoClaim(s, now, lease).Some?
    ensures Spends(s, DoClaim(s, now, lease).value)
  {
    AppendMeans(s.events, [AttemptClaimed]);
  }

  lemma StartSpends(s: State, now: int, h: nat)
    requires Inv(s) && ToolsOk(s) && DoStart(s, now, h).Some?
    ensures Spends(s, DoStart(s, now, h).value)
  {
    OwnerIsLast(s, h);
    AppendMeans(s.events, [AttemptStarted]);
  }

  lemma RenewSpends(s: State, now: int, h: nat, expiresAt: int)
    requires Inv(s) && ToolsOk(s) && DoRenew(s, now, h, expiresAt).Some?
    ensures Spends(s, DoRenew(s, now, h, expiresAt).value)
  {
    OwnerIsLast(s, h);
  }

  lemma SucceedSpends(s: State, now: int, h: nat, elapsed: nat)
    requires Inv(s) && ToolsOk(s) && DoSucceed(s, now, h, elapsed).Some?
    ensures Spends(s, DoSucceed(s, now, h, elapsed).value)
  {
    OwnerIsLast(s, h);
    AppendMeans(s.events, [RunClosed(Succeeded)]);
  }

  lemma FailSpends(s: State, now: int, h: nat, code: Code, disposition: Disposition, elapsed: nat)
    requires Inv(s) && ToolsOk(s) && DoFail(s, now, h, code, disposition, elapsed).Some?
    ensures Spends(s, DoFail(s, now, h, code, disposition, elapsed).value)
  {
    OwnerIsLast(s, h);
    AppendMeans(s.events, [AttemptFailed, RunClosed(Failed)]);
  }

  lemma RecordFailureSpends(s: State, now: int, h: nat, code: Code, disposition: Disposition, elapsed: nat, dueAt: int)
    requires Inv(s) && ToolsOk(s) && DoRecordFailure(s, now, h, code, disposition, elapsed, dueAt).Some?
    ensures Spends(s, DoRecordFailure(s, now, h, code, disposition, elapsed, dueAt).value)
  {
    var t := DoRecordFailure(s, now, h, code, disposition, elapsed, dueAt).value;
    if t.job.status == RetryWait {
      OwnerIsLast(s, h);
      RetrySpends(s, t);
    } else {
      FailSpends(s, now, h, code, disposition, elapsed);
    }
  }

  lemma RetrySpends(s: State, t: State)
    requires History(s) && Numbered(s.events) && ToolsOk(s) && s.job.status == Running && t.job.status == RetryWait && t.run == s.run
    requires t.job.maxAttempts == s.job.maxAttempts && |t.attempts| == |s.attempts| && s.attempts != []
    requires t.attempts[|t.attempts| - 1].tools == s.attempts[|s.attempts| - 1].tools
    requires t.events == Append(s.events, [AttemptFailed, RetryScheduled]) && t.pending == s.pending && t.approved == s.approved
    ensures Spends(s, t)
  {
    AppendMeans(s.events, [AttemptFailed, RetryScheduled]);
  }

  lemma WorkSpends(s: State, step: Step)
    requires Inv(s) && ToolsOk(s) && Apply(s, step).Some?
    requires step.Start? || step.Renew? || step.Succeed? || step.Fail? || step.RecordFailure?
    ensures Spends(s, Apply(s, step).value)
  {
    match step
    case Start(now, h) => StartSpends(s, now, h);
    case Renew(now, h, expiresAt) => RenewSpends(s, now, h, expiresAt);
    case Succeed(now, h, elapsed) => SucceedSpends(s, now, h, elapsed);
    case Fail(now, h, code, disposition, elapsed) => FailSpends(s, now, h, code, disposition, elapsed);
    case RecordFailure(now, h, code, disposition, elapsed, dueAt) =>
      RecordFailureSpends(s, now, h, code, disposition, elapsed, dueAt);
  }

  lemma ReclaimSpends(s: State, now: int, h: nat, backoff: nat)
    requires Inv(s) && ToolsOk(s) && DoReclaim(s, now, h, backoff).Some?
    ensures Spends(s, DoReclaim(s, now, h, backoff).value)
  {
    var t := DoReclaim(s, now, h, backoff).value;
    OwnerIsLast(s, h);
    if t.job.status == Queued {
      AppendMeans(s.events, [AttemptExpired, Recovery]);
    } else if s.job.status == Claimed {
      AppendMeans(s.events, [AttemptExpired, Recovery, RunClosed(Failed)]);
    } else {
      AppendMeans(s.events, [AttemptExpired, Recovery] + Repeat(ToolEvent, s.attempts[h].tools.running) + [RunClosed(Failed)]);
    }
    Closing(s, t, h);
  }

  /** Closing the newest Attempt spends what it leaves outstanding. */
  lemma Closing(s: State, t: State, h: nat)
    requires Inv(s) && ToolsOk(s) && Owns(s, h) && !Terminal(s.run.status)
    requires t.job.maxAttempts == s.job.maxAttempts && t.run.maxToolCalls == s.run.maxToolCalls
    requires |t.attempts| == |s.attempts| && t.attempts[h].tools == s.attempts[h].tools
    requires t.job.status == Queued || t.job.status == Failed
    requires t.pending == s.pending && t.approved == s.approved
    requires |t.events| - |s.events| <= 2 + (if s.job.status == Running then s.attempts[h].tools.running else 0) + (if Terminal(t.run.status) then 1 else 0)
    ensures Spends(s, t)
  {
    OwnerIsLast(s, h);
  }

  lemma CancelSpends(s: State, now: int)
    requires Inv(s) && ToolsOk(s) && DoCancel(s, now).Some?
    ensures Spends(s, DoCancel(s, now).value)
  {
    AppendMeans(s.events, [CancellationRequested] + Repeat(ToolEvent, Unconcluded(s)) + [RunClosed(Cancelled)]);
  }

  /** The newest Attempt's counters moved within what they leave outstanding, and one event was added. */
  lemma CountersSpend(s: State, t: State, h: nat, kind: Kind)
    requires History(s) && Lockstep(s.run, s.job, s.attempts) && Numbered(s.events) && ToolsOk(s) && Owns(s, h) && s.job.status == Running
    requires t == s.(attempts := t.attempts, pending := t.pending, approved := t.approved, events := Append(s.events, [kind]))
    requires |t.attempts| == |s.attempts| && t.attempts == s.attempts[h := t.attempts[h]]
    requires var a, b := s.attempts[h].tools, t.attempts[h].tools;
      && b.asked <= b.entered <= s.run.maxToolCalls
      && 1 + 2 * (b.requested - a.requested) + (b.running - a.running) + 2 * (t.pending - s.pending) + (t.approved - s.approved)
         <= 3 * (b.entered - a.entered) + 3 * (b.asked - a.asked)
    ensures Spends(s, t)
  {
    OutstandingMoves(s, t, h);
    AppendMeans(s.events, [kind]);
  }

  lemma OutstandingMoves(s: State, t: State, h: nat)
    requires History(s) && Lockstep(s.run, s.job, s.attempts) && Owns(s, h) && s.job.status == Running
    requires t.run == s.run && t.job == s.job && |t.attempts| == |s.attempts|
    ensures h == |s.attempts| - 1
    ensures var a, b := s.attempts[h].tools, t.attempts[h].tools;
      Outstanding(t) == Outstanding(s) - 3 * (b.entered - a.entered) - 3 * (b.asked - a.asked)
        + 2 * (b.requested - a.requested) + (b.running - a.running)
  {
    OwnerIsLast(s, h);
  }

  lemma ToolSpends(s: State, step: Step)
    requires Inv(s) && ToolsOk(s) && IsTool(step) && DoTool(s, step).Some?
    ensures Spends(s, DoTool(s, step).value)
  {
    OwnerIsLast(s, step.attempt);
    CountersSpend(s, DoTool(s, step).value, step.attempt, ToolEvent);
  }

  lemma DecisionSpends(s: State, t: State)
    requires Inv(s) && ToolsOk(s)
    requires t == s.(pending := t.pending, approved := t.approved, events := Append(s.events, [ApprovalDecided]))
    requires 1 + 2 * (t.pending - s.pending) + (t.approved - s.approved) <= 0
    ensures Spends(s, t)
  {
    AppendMeans(s.events, [ApprovalDecided]);
  }

  lemma ApprovalSpends(s: State, step: Step)
    requires Inv(s) && ToolsOk(s) && IsApproval(step) && DoApproval(s, step).Some?
    ensures Spends(s, DoApproval(s, step).value)
  {
    if step.AskApproval? {
      OwnerIsLast(s, step.attempt);
      CountersSpend(s, DoApproval(s, step).value, step.attempt, ApprovalRequested);
    } else {
      DecisionSpends(s, DoApproval(s, step).value);
    }
  }

  lemma ClaimsSpend(s: State, step: Step)
    requires Inv(s) && ToolsOk(s) && Apply(s, step).Some? && (step.Claim? || step.Reclaim? || step.Cancel?)
    ensures Spends(s, Apply(s, step).value)
  {
    match step
    case Claim(now, lease) => ClaimSpends(s, now, lease);
    case Reclaim(now, h, backoff) => ReclaimSpends(s, now, h, backoff);
    case Cancel(now) => CancelSpends(s, now);
  }

  lemma CallsSpend(s: State, step: Step)
    requires Inv(s) && ToolsOk(s) && Apply(s, step).Some? && (IsTool(step) || IsApproval(step))
    ensures Spends(s, Apply(s, step).value)
  {
    if IsTool(step) {
      ToolSpends(s, step);
    } else {
      ApprovalSpends(s, step);
    }
  }

  lemma StepSpends(s: State, step: Step)
    requires Inv(s) && ToolsOk(s) && Apply(s, step).Some?
    ensures Spends(s, Apply(s, step).value)
  {
    if step.Claim? || step.Reclaim? || step.Cancel? {
      ClaimsSpend(s, step);
    } else if IsTool(step) || IsApproval(step) {
      CallsSpend(s, step);
    } else {
      WorkSpends(s, step);
    }
  }

  lemma SpendsAt(states: seq<State>, steps: seq<Step>, i: nat)
    requires IsRun(states, steps) && i < |steps| && ToolsOk(states[i])
    ensures Spends(states[i], states[i + 1])
  {
    InvHolds(states, steps, i);
    if Apply(states[i], steps[i]).Some? {
      StepSpends(states[i], steps[i]);
    }
  }

  lemma {:induction false} SpendsThrough(states: seq<State>, n: nat)
    requires n < |states| && ToolsOk(states[0]) && |states[0].attempts| <= states[0].job.maxAttempts
    requires forall i | 0 <= i < |states| - 1 && ToolsOk(states[i]) :: Spends(states[i], states[i + 1])
    ensures Spends(states[0], states[n])
  {
    if n > 0 {
      SpendsThrough(states, n - 1);
      assert Spends(states[n - 1], states[(n - 1) + 1]);
    }
  }

  /** The log of a Run is bounded by its budgets: at most four events and what its Attempts can cause.
      Within the budgets that the CHECKs admit that is never more than 1004 events. */
  lemma LogIsBounded(states: seq<State>, steps: seq<Step>, n: nat)
    requires IsRun(states, steps) && n <= |steps|
    ensures |states[n].events| + OpenApprovals(states[n]) <=
      4 + Times(states[n].job.maxAttempts, PerAttempt(states[n].run.maxToolCalls))
    ensures |states[n].events| + OpenApprovals(states[n]) <= 1004
  {
    forall i | 0 <= i < |states| - 1 && ToolsOk(states[i]) ensures Spends(states[i], states[i + 1]) {
      SpendsAt(states, steps, i);
    }
    FirstAccount(states, steps);
    SpendsThrough(states, n);
    TimesGrows(states[0].job.maxAttempts, PerAttempt(states[0].run.maxToolCalls), 10, 100);
    assert Times(10, 100) == 1000;
  }

  lemma FirstAccount(states: seq<State>, steps: seq<Step>)
    requires IsRun(states, steps)
    ensures var s := states[0];
      && s.attempts == [] && Budgets(s.job.maxAttempts, s.run.maxToolCalls)
      && Account(s) == 4 + Times(s.job.maxAttempts, PerAttempt(s.run.maxToolCalls))
  {
    AppendMeans([], [RunCreated, RunQueued]);
  }
}
