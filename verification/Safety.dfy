/** What durable execution guarantees of one Run, over every run of its steps, and where recovery
    stops. */
module Safety {
  import Sql
  import opened Execution

  /** A write on behalf of an Attempt by the Worker that claimed it. */
  predicate ByOwner(step: Step, h: nat) {
    match step
    case Start(_, x) => x == h
    case Renew(_, x, _) => x == h
    case Succeed(_, x, _) => x == h
    case Fail(_, x, _, _, _) => x == h
    case RecordFailure(_, x, _, _, _, _) => x == h
    case RequestTool(_, x) => x == h
    case RefuseTool(_, x) => x == h
    case DenyTool(_, x) => x == h
    case StartTool(_, x, _) => x == h
    case ConcludeTool(_, x) => x == h
    case AskApproval(_, x) => x == h
    case Approve(_, x) => x == h
    case _ => false
  }

  /** A Worker whose claim was superseded, closed or revoked can commit nothing, ever, whatever its
      clock says: at every moment at most one Attempt is active, it is the newest, and only its owner
      can write. */
  lemma StaleClaimsAreFenced(states: seq<State>, steps: seq<Step>, n: nat, h: nat, step: Step)
    requires IsRun(states, steps) && n <= |steps| && h < |states[n].attempts| && ByOwner(step, h)
    ensures forall i | 0 <= i < |states[n].attempts| - 1 :: !Active(states[n].attempts[i])
    ensures Apply(states[n], step).Some? ==> h == |states[n].attempts| - 1 && Active(states[n].attempts[h])
  {
    InvHolds(states, steps, n);
    var s := states[n];
    if Owns(s, h) {
      OwnerIsLast(s, h);
    }
  }

  /** No blind replay: an Attempt that crossed the execution-start boundary is followed by another
      only if it ended in a positively safe rate limit and dispatched no tool call. And all claims
      together stay within the budget. */
  lemma NoBlindReplay(states: seq<State>, steps: seq<Step>, n: nat, i: nat)
    requires IsRun(states, steps) && n <= |steps| && i + 1 < |states[n].attempts|
    ensures |states[n].attempts| <= states[n].job.maxAttempts
    ensures var a := states[n].attempts[i];
      a.startedAt.Some? ==> a.status == Failed && !a.dispatched && a.failure == Sql.Some(Failure(Sql.Some(RateLimited), SafeToRetry))
  {
    InvHolds(states, steps, n);
    assert Replayable(states[n].attempts[i]);
  }

  /** The timeline tells the outcome: its sequences are 1, 2, 3, ...; a closing event is there exactly
      when the Run is terminal, once, with the Run's own status, and only approval decisions follow. */
  lemma TimelineTellsTheOutcome(states: seq<State>, steps: seq<Step>, n: nat, i: nat)
    requires IsRun(states, steps) && n <= |steps| && i < |states[n].events|
    ensures states[n].events[i].sequence == i + 1
    ensures Terminal(states[n].run.status) <==> exists at: nat :: ClosedAt(states[n].run, states[n].events, at)
    ensures states[n].events[i].kind.RunClosed? ==> ClosedAt(states[n].run, states[n].events, i)
  {
    InvHolds(states, steps, n);
    var s := states[n];
    if Terminal(s.run.status) {
      var at: nat :| ClosedAt(s.run, s.events, at);
    }
  }

  lemma AppendsAt(states: seq<State>, steps: seq<Step>, i: nat)
    requires IsRun(states, steps) && i < |steps|
    ensures states[i].events <= states[i + 1].events
  {
    if Apply(states[i], steps[i]).Some? {
      StepAppends(states[i], steps[i]);
    }
  }

  lemma StepAppends(s: State, step: Step)
    requires Apply(s, step).Some?
    ensures s.events <= Apply(s, step).value.events
  {
  }

  lemma {:induction false} AppendsThrough(states: seq<State>, m: nat, n: nat)
    requires m <= n < |states| && forall i | 0 <= i < |states| - 1 :: states[i].events <= states[i + 1].events
    ensures states[m].events <= states[n].events
  {
    if m < n {
      AppendsThrough(states, m, n - 1);
      assert states[n - 1].events <= states[n - 1 + 1].events;
    }
  }

  /** The log only grows. */
  lemma TimelineIsAppendOnly(states: seq<State>, steps: seq<Step>, m: nat, n: nat)
    requires IsRun(states, steps) && m <= n <= |steps|
    ensures states[m].events <= states[n].events
  {
    forall i | 0 <= i < |states| - 1 ensures states[i].events <= states[i + 1].events {
      AppendsAt(states, steps, i);
    }
    AppendsThrough(states, m, n);
  }

  /** Nothing but approvals left open has moved, each into one more event. */
  predicate Frozen(s: State, t: State) {
    t.run == s.run && t.job == s.job && t.attempts == s.attempts && |t.events| + OpenApprovals(t) == |s.events| + OpenApprovals(s)
  }

  lemma TerminalStep(s: State, step: Step)
    requires Inv(s) && Terminal(s.run.status) && Apply(s, step).Some?
    ensures Frozen(s, Apply(s, step).value)
  {
    OnlyDecisions(s, step);
    AppendMeans(s.events, [ApprovalDecided]);
  }

  lemma OnlyDecisions(s: State, step: Step)
    requires Inv(s) && Terminal(s.run.status) && Apply(s, step).Some?
    ensures step.CloseApproval?
  {
  }

  lemma FrozenAt(states: seq<State>, steps: seq<Step>, i: nat)
    requires IsRun(states, steps) && i < |steps| && Terminal(states[i].run.status)
    ensures Frozen(states[i], states[i + 1])
  {
    InvHolds(states, steps, i);
    if Apply(states[i], steps[i]).Some? {
      TerminalStep(states[i], steps[i]);
    }
  }

  lemma {:induction false} FrozenThrough(states: seq<State>, m: nat, n: nat)
    requires m <= n < |states| && Terminal(states[m].run.status)
    requires forall i | 0 <= i < |states| - 1 && Terminal(states[i].run.status) :: Frozen(states[i], states[i + 1])
    ensures Frozen(states[m], states[n])
  {
    if m < n {
      FrozenThrough(states, m, n - 1);
      assert Frozen(states[n - 1], states[n - 1 + 1]);
    }
  }

  /** Terminal is forever: Run, Job and Attempts never change again, and the log can still gain at
      most one decision for each approval left open. */
  lemma TerminalIsForever(states: seq<State>, steps: seq<Step>, m: nat, n: nat)
    requires IsRun(states, steps) && m <= n <= |steps| && Terminal(states[m].run.status)
    ensures Frozen(states[m], states[n])
  {
    forall i | 0 <= i < |states| - 1 && Terminal(states[i].run.status) ensures Frozen(states[i], states[i + 1]) {
      FrozenAt(states, steps, i);
    }
    FrozenThrough(states, m, n);
  }

  // ----- where recovery stops -----

  /** The engine's own steps; cancelling and deciding approvals are the owner's. */
  predicate IsEngine(step: Step) { !step.Cancel? && !step.CloseApproval? }

  /** A queued Job of a Run that has started: neither claimable source admits it. */
  predicate Stranded(s: State) { s.job.status == Queued && s.run.started.Some? }

  lemma StrandedStep(s: State, step: Step)
    requires Inv(s) && Stranded(s) && Apply(s, step).Some?
    ensures !IsEngine(step)
    ensures Stranded(Apply(s, step).value) || (step.Cancel? && Apply(s, step).value.run.status == Cancelled)
  {
  }

  /** Requeueing a lost claim returns the Job to the queue in a claimable state if and only if its Run
      never started. After a retry it strands the Run. */
  lemma RequeueRecoversExactly(s: State, now: int, h: nat, backoff: nat)
    requires Inv(s) && DoReclaim(s, now, h, backoff).Some? && s.job.status == Claimed && s.job.attemptCount < s.job.maxAttempts
    ensures var t := DoReclaim(s, now, h, backoff).value;
      (exists later, lease :: DoClaim(t, later, lease).Some?) <==> s.run.started.None?
  {
    var t := DoReclaim(s, now, h, backoff).value;
    ReclaimKeeps(s, now, h, backoff);
    if s.run.started.None? {
      var token := FreshToken(t.attempts);
      assert DoClaim(t, t.job.availableAt, Lease("", token, t.job.availableAt + 1)).Some?;
    }
  }

  lemma StrandedAt(states: seq<State>, steps: seq<Step>, i: nat)
    requires IsRun(states, steps) && i < |steps|
    ensures Stranded(states[i]) ==> Stranded(states[i + 1]) || (steps[i].Cancel? && states[i + 1].run.status == Cancelled)
    ensures states[i].run.status == Cancelled ==> states[i + 1].run.status == Cancelled
  {
    InvHolds(states, steps, i);
    if Stranded(states[i]) && Apply(states[i], steps[i]).Some? {
      StrandedStep(states[i], steps[i]);
    }
    if states[i].run.status == Cancelled {
      FrozenAt(states, steps, i);
    }
  }

  lemma {:induction false} StrandedThrough(states: seq<State>, steps: seq<Step>, m: nat, n: nat)
    requires |states| == |steps| + 1 && m <= n <= |steps| && Stranded(states[m])
    requires forall i | 0 <= i < |steps| ::
      && (Stranded(states[i]) ==> Stranded(states[i + 1]) || (steps[i].Cancel? && states[i + 1].run.status == Cancelled))
      && (states[i].run.status == Cancelled ==> states[i + 1].run.status == Cancelled)
    ensures Stranded(states[n]) || states[n].run.status == Cancelled
    ensures (forall i | m <= i < n :: !steps[i].Cancel?) ==> Stranded(states[n])
  {
    if m < n {
      StrandedThrough(states, steps, m, n - 1);
      assert n - 1 < |steps| && (Stranded(states[n - 1]) || states[n - 1].run.status == Cancelled);
    }
  }

  /** A stranded Run stays stranded, out of every Worker's reach, until its owner cancels it. */
  lemma StrandedForever(states: seq<State>, steps: seq<Step>, m: nat, n: nat)
    requires IsRun(states, steps) && m <= n <= |steps| && Stranded(states[m])
    ensures Stranded(states[n]) || states[n].run.status == Cancelled
    ensures (forall i | m <= i < n :: !steps[i].Cancel?) ==> Stranded(states[n])
  {
    forall i | 0 <= i < |steps|
      ensures Stranded(states[i]) ==> Stranded(states[i + 1]) || (steps[i].Cancel? && states[i + 1].run.status == Cancelled)
      ensures states[i].run.status == Cancelled ==> states[i + 1].run.status == Cancelled
    {
      StrandedAt(states, steps, i);
    }
    StrandedThrough(states, steps, m, n);
  }

  lemma StartHappens() returns (states: seq<State>, steps: seq<Step>)
    ensures IsRun(states, steps)
    ensures var s := states[|steps|];
      && s.job == Job(Running, Sql.Some(Lease("first", 1, 10)), 0, 1, 3, false, 1)
      && s.attempts == [Attempt(Running, Lease("first", 1, 10), 0, 0, Sql.Some(1), Sql.None, Tools(0, 0, 0, 0), false, Sql.None)]
      && s.run == Run(Running, 0, Sql.Some(1), Sql.None, Sql.None, Sql.None, 16)
      && s.pending == 0 && s.approved == 0 && |s.events| == 4
  {
    states, steps := ClaimHappens();
    InvHolds(states, steps, |steps|);
    AppendMeans(states[|steps|].events, [AttemptStarted]);
    states, steps := Extend(states, steps, Start(1, 0));
  }

  lemma ClaimHappens() returns (states: seq<State>, steps: seq<Step>)
    ensures IsRun(states, steps)
    ensures var s := states[|steps|];
      && s.job == Job(Claimed, Sql.Some(Lease("first", 1, 10)), 0, 1, 3, false, 0)
      && s.attempts == [Attempt(Claimed, Lease("first", 1, 10), 0, 0, Sql.None, Sql.None, Tools(0, 0, 0, 0), false, Sql.None)]
      && s.run == Run(Created, 0, Sql.None, Sql.None, Sql.None, Sql.None, 16)
      && s.pending == 0 && s.approved == 0 && |s.events| == 3
  {
    assert Budgets(3, 16);
    states, steps := [Submitted(0, 3, 16)], [];
    SubmittedOk(0, 3, 16);
    AppendMeans([], [RunCreated, RunQueued]);
    AppendMeans(states[0].events, [AttemptClaimed]);
    states, steps := Extend(states, steps, Claim(0, Lease("first", 1, 10)));
  }

  lemma RetryHappens() returns (states: seq<State>, steps: seq<Step>)
    ensures IsRun(states, steps)
    ensures var s := states[|steps|];
      && s.job == Job(RetryWait, Sql.None, 30, 1, 3, false, 2) && s.run.status == Running && s.run.started.Some? && s.run.created == 0
      && RowPasses(s.run) && |s.attempts| == 1 && s.attempts[0].lease.token == 1
  {
    states, steps := StartHappens();
    states, steps := Extend(states, steps, RecordFailure(2, 0, RateLimited, SafeToRetry, 1, 30));
  }

  /** A stranding run: a rate limit schedules a retry, and the Worker that claims it is lost before it
      starts. */
  lemma StrandingHappens() returns (states: seq<State>, steps: seq<Step>)
    ensures IsRun(states, steps) && Stranded(states[|steps|])
  {
    states, steps := RetryHappens();
    states, steps := Extend(states, steps, Claim(30, Lease("second", 2, 40)));
    states, steps := Extend(states, steps, Reclaim(40, 1, 5));
  }
}
