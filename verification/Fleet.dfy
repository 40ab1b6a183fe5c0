/** All Runs together: Workers poll one queue, and one reclaimer query serves every expired claim,
    oldest first. Each Run follows `Execution`; which Run a poll claims is decided by `Queue`, and
    which one a reclamation pass touches by the order of leases. */
module Fleet {
  import Sql
  import E = Execution
  import Q = Queue

  /** A Job with its Run; a Job's id is its position. */
  datatype Entry = Entry(agent: nat, provider: string, state: E.State)

  /** `attempts` and `markers` are what the queue keeps beside the Jobs. */
  datatype System = System(entries: seq<Entry>, attempts: seq<nat>, markers: map<nat, Q.Marker>)

  // ----- what the claim query reads of an entry -----

  function JobStatus(s: E.Status): Q.JobStatus {
    match s
    case Queued => Q.Queued
    case Claimed => Q.Claimed
    case Running => Q.Running
    case RetryWait => Q.RetryWait
    case _ => Q.Closed
  }

  function RunStatus(s: E.Status): Q.RunStatus {
    match s
    case Created => Q.Created
    case Running => Q.Started
    case _ => Q.Finished
  }

  function View(e: Entry): Q.Job {
    var j := e.state.job;
    Q.Job(e.agent, e.provider, JobStatus(j.status), RunStatus(e.state.run.status), j.availableAt, j.attemptCount, j.maxAttempts,
          if j.claim.Some? then Sql.Some(j.claim.value.expiresAt) else Sql.None)
  }

  function Jobs(f: System): seq<Q.Job> { seq(|f.entries|, i requires 0 <= i < |f.entries| => View(f.entries[i])) }

  function Database(f: System): Q.Db { Q.Db(Jobs(f), f.attempts, Sql.Some(f.markers)) }

  // ----- what the reclamation query reads -----

  /** The Job and this Attempt of it are consistently claimed, or consistently running. */
  predicate Pairs(s: E.State, h: nat)
    requires h < |s.attempts|
  {
    || (s.job.status == E.Claimed && s.attempts[h].status == E.Claimed && !s.attempts[h].startedAt.Some?)
    || (s.job.status == E.Running && s.attempts[h].status == E.Running && s.attempts[h].startedAt.Some?)
  }

  /** WHERE lease_expires_at <= now, joined with a consistent Attempt. */
  predicate Due(s: E.State, now: int) {
    s.job.claim.Some? && s.job.claim.value.expiresAt <= now && exists h: nat :: h < |s.attempts| && Pairs(s, h)
  }

  function Expiry(f: System, i: nat): int
    requires i < |f.entries| && f.entries[i].state.job.claim.Some?
  {
    f.entries[i].state.job.claim.value.expiresAt
  }

  predicate Holds(f: System, i: nat) { i < |f.entries| && f.entries[i].state.job.claim.Some? }

  /** ORDER BY lease_expires_at, id */
  predicate NotAfter(f: System, i: nat, k: nat)
    requires Holds(f, i) && Holds(f, k)
  {
    Expiry(f, i) < Expiry(f, k) || (Expiry(f, i) == Expiry(f, k) && i <= k)
  }

  /** LIMIT 1: the claim that a pass selects. */
  predicate Head(f: System, now: int, i: nat) {
    && i < |f.entries| && Due(f.entries[i].state, now)
    && forall k: nat | k < |f.entries| && Due(f.entries[k].state, now) :: NotAfter(f, i, k)
  }

  // ----- steps -----

  datatype Step =
    | Submit(now: int, maxAttempts: nat, maxToolCalls: nat, agent: nat, provider: string)
    | Poll(poll: Q.Poll, worker: string, token: nat, job: nat)
    | Pass(now: int, job: nat, backoff: nat)
    | Act(job: nat, step: E.Step)

  function Clock(step: Step): int {
    match step
    case Submit(now, _, _, _, _) => now
    case Poll(w, _, _, _) => w.now
    case Pass(now, _, _) => now
    case Act(_, s) => s.now
  }

  predicate IsFresh(s: E.State, token: nat) { forall i | 0 <= i < |s.attempts| :: s.attempts[i].lease.token != token }

  /** A poll claims what the queue chooses, a pass touches the head, and a lease ends after the
      instant that grants it. */
  predicate Enabled(f: System, policy: Q.Policy, step: Step) {
    match step
    case Submit(_, maxAttempts, maxToolCalls, _, _) => E.Budgets(maxAttempts, maxToolCalls)
    case Poll(w, _, token, i) =>
      && i < |f.entries| && Q.Chosen(Jobs(f), f.markers, w, policy, i)
      && w.leaseExpiresAt > w.now && IsFresh(f.entries[i].state, token)
    case Pass(now, i, _) => Head(f, now, i)
    case Act(i, s) => i < |f.entries| && !s.Claim? && !s.Reclaim? && (s.Renew? ==> s.expiresAt > s.now)
  }

  function LastAttempt(s: E.State): nat { if s.attempts == [] then 0 else |s.attempts| - 1 }

  /** The transaction a step attempts on entry i, if any. */
  function Attempted(f: System, step: Step, i: nat): Sql.Option<E.Step> {
    match step
    case Submit(_, _, _, _, _) => Sql.None
    case Poll(w, worker, token, job) =>
      if job == i then Sql.Some(E.Claim(w.now, E.Lease(worker, token, w.leaseExpiresAt))) else Sql.None
    case Pass(now, job, backoff) =>
      if job == i && i < |f.entries| then Sql.Some(E.Reclaim(now, LastAttempt(f.entries[i].state), backoff)) else Sql.None
    case Act(job, s) => if job == i then Sql.Some(s) else Sql.None
  }

  /** Committed, or rolled back. */
  function Settled(s: E.State, step: Sql.Option<E.Step>): E.State {
    if step.Some? && E.Apply(s, step.value).Some? then E.Apply(s, step.value).value else s
  }

  function After(f: System, policy: Q.Policy, step: Step): System
    requires Enabled(f, policy, step)
  {
    var entries := seq(|f.entries|, i requires 0 <= i < |f.entries| =>
      f.entries[i].(state := Settled(f.entries[i].state, Attempted(f, step, i))));
    match step
    case Submit(now, maxAttempts, maxToolCalls, agent, provider) =>
      f.(entries := entries + [Entry(agent, provider, E.Submitted(now, maxAttempts, maxToolCalls))])
    case Poll(_, _, _, job) =>
      System(entries, f.attempts + [job], f.markers[f.entries[job].agent := Sql.Some(|f.attempts| + 1)])
    case _ => f.(entries := entries)
  }

  ghost predicate IsRun(states: seq<System>, steps: seq<Step>, policy: Q.Policy) {
    && |states| == |steps| + 1
    && states[0] == System([], [], map[])
    && forall i | 0 <= i < |steps| :: Enabled(states[i], policy, steps[i]) && states[i + 1] == After(states[i], policy, steps[i])
  }

  // ----- every Run keeps its own invariant -----

  ghost predicate Inv(f: System) { forall i | 0 <= i < |f.entries| :: E.Inv(f.entries[i].state) }

  lemma SettledKeeps(s: E.State, step: Sql.Option<E.Step>)
    requires E.Inv(s)
    ensures E.Inv(Settled(s, step))
  {
    if step.Some? && E.Apply(s, step.value).Some? {
      E.StepKeeps(s, step.value);
    }
  }

  /** What a step does to one entry. */
  lemma AfterAt(f: System, policy: Q.Policy, step: Step, i: nat)
    requires Enabled(f, policy, step) && i < |f.entries|
    ensures i < |After(f, policy, step).entries| && |After(f, policy, step).entries| <= |f.entries| + 1
    ensures After(f, policy, step).entries[i] == f.entries[i].(state := Settled(f.entries[i].state, Attempted(f, step, i)))
  {
  }

  lemma StepKeeps(f: System, policy: Q.Policy, step: Step)
    requires Inv(f) && Enabled(f, policy, step)
    ensures Inv(After(f, policy, step))
  {
    var g := After(f, policy, step);
    forall i | 0 <= i < |g.entries| ensures E.Inv(g.entries[i].state) {
      if i < |f.entries| {
        AfterAt(f, policy, step, i);
        SettledKeeps(f.entries[i].state, Attempted(f, step, i));
      } else {
        E.SubmittedOk(step.now, step.maxAttempts, step.maxToolCalls);
      }
    }
  }

  lemma {:induction false} InvHolds(states: seq<System>, steps: seq<Step>, policy: Q.Policy, n: nat)
    requires IsRun(states, steps, policy) && n <= |steps|
    ensures Inv(states[n])
  {
    if n > 0 {
      InvHolds(states, steps, policy, n - 1);
      StepKeeps(states[n - 1], policy, steps[n - 1]);
    }
  }

  // ----- the system is a queue -----

  /** A step of the queue between what two states show of it. */
  ghost predicate Simulates(f: System, g: System, policy: Q.Policy, polls: bool, q: Q.Step) {
    Q.Enabled(Database(f), policy, q) && Database(g) == Q.Next(Database(f), policy, q) && (q.Claim? <==> polls)
  }

  /** Seen through the queue's columns, every step is a step of the queue: a poll is its claim, and
      nothing else claims or moves a Job. */
  lemma StepIsQueueStep(f: System, policy: Q.Policy, step: Step) returns (q: Q.Step)
    requires Inv(f) && Enabled(f, policy, step)
    ensures Simulates(f, After(f, policy, step), policy, step.Poll?, q)
  {
    match step
    case Submit(_, _, _, _, _) => q := SubmitStep(f, policy, step);
    case Poll(_, _, _, _) => q := PollStep(f, policy, step);
    case Pass(_, i, _) => q := TouchStep(f, policy, step, i);
    case Act(i, _) => q := TouchStep(f, policy, step, i);
  }

  lemma SubmitStep(f: System, policy: Q.Policy, step: Step) returns (q: Q.Step)
    requires Enabled(f, policy, step) && step.Submit?
    ensures Simulates(f, After(f, policy, step), policy, false, q)
  {
    var g := After(f, policy, step);
    q := Q.Submit(View(g.entries[|f.entries|]));
    assert Jobs(g) == Jobs(f) + [q.job];
  }

  lemma PollStep(f: System, policy: Q.Policy, step: Step) returns (q: Q.Step)
    requires Inv(f) && Enabled(f, policy, step) && step.Poll?
    ensures Simulates(f, After(f, policy, step), policy, true, q)
  {
    q := Q.Claim(step.poll, step.job);
    PolledView(f, policy, step);
    assert Jobs(After(f, policy, step)) == Jobs(f)[step.job := View(After(f, policy, step).entries[step.job])];
  }

  lemma PolledView(f: System, policy: Q.Policy, step: Step)
    requires Inv(f) && Enabled(f, policy, step) && step.Poll?
    ensures View(After(f, policy, step).entries[step.job]) == Q.AfterClaim(Database(f), step.poll, step.job).jobs[step.job]
  {
    AfterAt(f, policy, step, step.job);
    PollClaims(f, policy, step.poll, step.worker, step.token, step.job);
  }

  lemma TouchStep(f: System, policy: Q.Policy, step: Step, i: nat) returns (q: Q.Step)
    requires Enabled(f, policy, step) && i < |f.entries| && (step.Pass? || step.Act?) && step.job == i
    ensures Simulates(f, After(f, policy, step), policy, false, q)
  {
    var g := After(f, policy, step);
    q := Q.Touch(i, View(g.entries[i]));
    assert Jobs(g) == Jobs(f)[i := q.row];
  }

  lemma SimulatedAt(states: seq<System>, steps: seq<Step>, policy: Q.Policy, i: nat) returns (q: Q.Step)
    requires IsRun(states, steps, policy) && i < |steps|
    ensures Simulates(states[i], states[i + 1], policy, steps[i].Poll?, q)
  {
    InvHolds(states, steps, policy, i);
    q := StepIsQueueStep(states[i], policy, steps[i]);
  }

  lemma {:induction false} Simulation(states: seq<System>, steps: seq<Step>, policy: Q.Policy, n: nat) returns (qs: seq<Q.Step>)
    requires IsRun(states, steps, policy) && n <= |steps|
    ensures |qs| == n && forall i | 0 <= i < n :: Simulates(states[i], states[i + 1], policy, steps[i].Poll?, qs[i])
  {
    if n == 0 {
      qs := [];
    } else {
      var front := Simulation(states, steps, policy, n - 1);
      var q := SimulatedAt(states, steps, policy, n - 1);
      qs := front + [q];
    }
  }

  /** The queue's own history: an empty database, its table, and then what each state shows of it. */
  function Databases(states: seq<System>): seq<Q.Db> {
    [Q.Db([], [], Sql.None)] + seq(|states|, i requires 0 <= i < |states| => Database(states[i]))
  }

  /** So every run of the system is, through those columns, a run of the queue, and what holds of all
      its runs, the bounded bypass above all, holds of the system. */
  lemma RunIsQueueRun(states: seq<System>, steps: seq<Step>, policy: Q.Policy) returns (qs: seq<Q.Step>)
    requires IsRun(states, steps, policy)
    ensures Q.IsRun(Databases(states), [Q.CreateTable(map[])] + qs, policy) && |qs| == |steps|
    ensures forall i | 0 <= i < |steps| :: qs[i].Claim? <==> steps[i].Poll?
  {
    qs := Simulation(states, steps, policy, |steps|);
    var dbs, all := Databases(states), [Q.CreateTable(map[])] + qs;
    assert Jobs(states[0]) == [];
    forall i | 0 <= i < |steps| ensures qs[i].Claim? <==> steps[i].Poll? {
      assert Simulates(states[i], states[i + 1], policy, steps[i].Poll?, qs[i]);
    }
    forall i | 0 <= i < |all| ensures Q.Enabled(dbs[i], policy, all[i]) && dbs[i + 1] == Q.Next(dbs[i], policy, all[i]) {
      if i > 0 {
        assert Simulates(states[i - 1], states[(i - 1) + 1], policy, steps[i - 1].Poll?, qs[i - 1]);
      }
    }
  }

  /** The queue's choice always commits. */
  lemma PollClaims(f: System, policy: Q.Policy, w: Q.Poll, worker: string, token: nat, i: nat)
    requires Inv(f) && Enabled(f, policy, Poll(w, worker, token, i))
    ensures E.DoClaim(f.entries[i].state, w.now, E.Lease(worker, token, w.leaseExpiresAt)).Some?
  {
    assert E.Inv(f.entries[i].state) && Q.Claimable(View(f.entries[i]), w);
    ReadyClaims(f.entries[i].state, w.now, E.Lease(worker, token, w.leaseExpiresAt));
  }

  lemma ReadyClaims(s: E.State, now: int, lease: E.Lease)
    requires E.Inv(s) && Ready(s) && s.job.availableAt <= now && lease.expiresAt > now && IsFresh(s, lease.token)
    ensures E.DoClaim(s, now, lease).Some?
  {
  }

  // ----- what a pass does -----

  /** Only the newest Attempt can be paired, so the join adds nothing to an expired lease. */
  lemma DueMeans(s: E.State, now: int)
    requires E.Inv(s)
    ensures Due(s, now) <==> s.job.claim.Some? && s.job.claim.value.expiresAt <= now
    ensures Due(s, now) ==> s.attempts != [] && E.Reclaimable(s, LastAttempt(s), now)
  {
    if s.job.claim.Some? {
      assert Pairs(s, |s.attempts| - 1);
    }
  }

  /** The rows that a pass writes pass their CHECKs at this clock: the Job's, the closed Attempt's, and
      the Run's unless the Job is requeued. */
  predicate Closes(s: E.State, now: int)
    requires s.attempts != []
  {
    var a := s.attempts[|s.attempts| - 1];
    && now >= s.run.created
    && now >= (if a.startedAt.Some? then a.startedAt.value else a.claimedAt)
    && ((s.job.status == E.Claimed && s.job.attemptCount < s.job.maxAttempts)
        || now >= if s.run.started.Some? then s.run.started.value else s.run.created)
  }

  lemma ReclaimCommitsExactly(s: E.State, now: int, backoff: nat)
    requires E.Inv(s) && Due(s, now)
    ensures s.attempts != []
    ensures E.DoReclaim(s, now, LastAttempt(s), backoff).Some? <==> !E.Unreclaimable(s) && Closes(s, now)
  {
    DueMeans(s, now);
  }

  /** A pass commits if and only if the head can be reclaimed and the rows it writes pass; otherwise
      it changes nothing at all, whatever else is due. */
  lemma PassCommitsExactly(f: System, policy: Q.Policy, now: int, i: nat, backoff: nat)
    requires Inv(f) && Head(f, now, i)
    ensures f.entries[i].state.attempts != []
    ensures E.DoReclaim(f.entries[i].state, now, LastAttempt(f.entries[i].state), backoff).Some?
       <==> !E.Unreclaimable(f.entries[i].state) && Closes(f.entries[i].state, now)
    ensures E.Unreclaimable(f.entries[i].state) || !Closes(f.entries[i].state, now) ==>
      After(f, policy, Pass(now, i, backoff)) == f
  {
    ReclaimCommitsExactly(f.entries[i].state, now, backoff);
    var g := After(f, policy, Pass(now, i, backoff));
    if E.Unreclaimable(f.entries[i].state) || !Closes(f.entries[i].state, now) {
      assert g.entries == f.entries;
    }
  }

  // ----- the loop of the reclaimer -----

  /** The query: the due claim that is first by lease and id. */
  method SelectExpired(f: System, now: int) returns (head: Sql.Option<nat>)
    ensures head.None? <==> forall i: nat | i < |f.entries| :: !Due(f.entries[i].state, now)
    ensures head.Some? ==> Head(f, now, head.value)
  {
    head := Sql.None;
    for i := 0 to |f.entries|
      invariant head.None? <==> forall k: nat | k < i :: !Due(f.entries[k].state, now)
      invariant head.Some? ==> head.value < i && Due(f.entries[head.value].state, now)
      invariant head.Some? ==> forall k: nat | k < i && Due(f.entries[k].state, now) :: NotAfter(f, head.value, k)
    {
      if Due(f.entries[i].state, now) && (head.None? || !NotAfter(f, head.value, i)) {
        head := Sql.Some(i);
      }
    }
  }

  /** No claim is due any more, or the head cannot be reclaimed at this clock. */
  ghost predicate Drained(f: System, now: int) {
    forall i: nat | Head(f, now, i) ::
      E.Unreclaimable(f.entries[i].state) || f.entries[i].state.attempts == [] || !Closes(f.entries[i].state, now)
  }

  /** `reclaim_until_drained`: it stops at its limit, or at the first pass that brings nothing, and
      then what is left is not all reclaimed: the queue of expired claims is empty or jammed. */
  method ReclaimUntilDrained(f: System, policy: Q.Policy, now: int, backoff: nat, limit: nat) returns (g: System, reclaimed: nat)
    requires Inv(f)
    ensures Inv(g) && reclaimed <= limit
    ensures reclaimed < limit ==> Drained(g, now)
    ensures reclaimed == 0 ==> g == f
    ensures Drained(f, now) ==> reclaimed == 0
  {
    g, reclaimed := f, 0;
    while reclaimed < limit
      invariant Inv(g) && reclaimed <= limit && (reclaimed == 0 ==> g == f) && (Drained(f, now) ==> reclaimed == 0)
      decreases limit - reclaimed
    {
      var head := SelectExpired(g, now);
      if head.None? {
        return;
      }
      var i := head.value;
      HeadIsUnique(g, now, i);
      PassCommitsExactly(g, policy, now, i, backoff);
      if E.DoReclaim(g.entries[i].state, now, LastAttempt(g.entries[i].state), backoff).None? {
        return;
      }
      StepKeeps(g, policy, Pass(now, i, backoff));
      g := After(g, policy, Pass(now, i, backoff));
      reclaimed := reclaimed + 1;
    }
  }

  lemma HeadIsUnique(f: System, now: int, i: nat)
    requires Head(f, now, i)
    ensures forall k: nat | Head(f, now, k) :: k == i
  {
  }

  // ----- a jam -----

  /** Entry u cannot be reclaimed, its lease has expired by `from`, and no lease comes before it. */
  ghost predicate Jams(f: System, u: nat, from: int) {
    && Holds(f, u) && E.Unreclaimable(f.entries[u].state) && Expiry(f, u) <= from
    && forall k: nat | Holds(f, k) :: NotAfter(f, u, k)
  }

  lemma HeadJams(f: System, u: nat, from: int)
    requires Inv(f)
    ensures Jams(f, u, from) <==> Head(f, from, u) && E.Unreclaimable(f.entries[u].state)
    ensures Jams(f, u, from) ==> forall now: int | now >= from :: Head(f, now, u)
  {
    forall k: nat, now: int | k < |f.entries|
      ensures Due(f.entries[k].state, now) <==> Holds(f, k) && Expiry(f, k) <= now
    {
      DueMeans(f.entries[k].state, now);
    }
  }

  /** Once the lease has expired, and but for cancelling and reclaiming, nothing moves the Run. */
  lemma ExpiredIsInert(s: E.State, step: E.Step)
    requires E.Inv(s) && s.job.claim.Some? && s.job.claim.value.expiresAt <= step.now
    requires !step.Cancel? && !step.Reclaim? && E.Apply(s, step).Some?
    ensures E.Apply(s, step).value.job == s.job && E.Apply(s, step).value.run == s.run
  {
    if !step.Claim? && !E.IsTool(step) && !E.IsApproval(step) {
      ExpiredWorkFails(s, step);
    }
  }

  lemma ExpiredWorkFails(s: E.State, step: E.Step)
    requires E.Inv(s) && s.job.claim.Some? && s.job.claim.value.expiresAt <= step.now
    requires step.Start? || step.Renew? || step.Succeed? || step.Fail? || step.RecordFailure?
    ensures E.Apply(s, step).None?
  {
    if E.Owns(s, step.attempt) {
      E.OwnerIsLast(s, step.attempt);
    }
  }

  /** A lease that a step grants or extends ends after the clock of the step. */
  lemma LeasesEndLater(s: E.State, step: E.Step)
    requires E.Inv(s) && E.Apply(s, step).Some? && E.Apply(s, step).value.job.claim.Some?
    requires step.Claim? ==> step.lease.expiresAt > step.now
    requires step.Renew? ==> step.expiresAt > step.now
    ensures var later := E.Apply(s, step).value.job.claim.value.expiresAt;
      later > step.now || (s.job.claim.Some? && later == s.job.claim.value.expiresAt)
  {
  }

  predicate Cancels(step: Step, i: nat) { step.Act? && step.job == i && step.step.Cancel? }

  lemma AttemptedMeans(f: System, policy: Q.Policy, step: Step, i: nat)
    requires Enabled(f, policy, step) && Attempted(f, step, i).Some?
    ensures var e := Attempted(f, step, i).value;
      && e.now == Clock(step)
      && (e.Claim? ==> e.lease.expiresAt > e.now) && (e.Renew? ==> e.expiresAt > e.now)
      && (e.Reclaim? ==> Head(f, e.now, i)) && (e.Cancel? ==> Cancels(step, i))
  {
  }

  /** An unreclaimable claim past its lease: whatever is attempted on it but a cancellation fails. */
  lemma UnreclaimableStays(s: E.State, step: Sql.Option<E.Step>)
    requires E.Inv(s) && E.Unreclaimable(s)
    requires step.Some? ==> s.job.claim.value.expiresAt <= step.value.now && !step.value.Cancel?
    ensures Settled(s, step).job == s.job && Settled(s, step).run == s.run
  {
    if step.Some? && !step.value.Reclaim? && E.Apply(s, step.value).Some? {
      ExpiredIsInert(s, step.value);
    }
  }

  /** A claim other than u's is where it was, or later than this clock. */
  lemma ClaimMovesBack(f: System, policy: Q.Policy, step: Step, k: nat)
    requires Inv(f) && Enabled(f, policy, step) && Holds(After(f, policy, step), k)
    ensures Expiry(After(f, policy, step), k) > Clock(step)
      || (Holds(f, k) && Expiry(After(f, policy, step), k) == Expiry(f, k))
  {
    if k < |f.entries| {
      AfterAt(f, policy, step, k);
      var s, e := f.entries[k].state, Attempted(f, step, k);
      if e.Some? && E.Apply(s, e.value).Some? {
        AttemptedMeans(f, policy, step, k);
        LeasesEndLater(s, e.value);
      }
    }
  }

  /** A jam lasts until the owner of the jammed Run cancels it, and no pass does anything meanwhile. */
  lemma JamStep(f: System, policy: Q.Policy, step: Step, u: nat, from: int)
    requires Inv(f) && Jams(f, u, from) && Enabled(f, policy, step) && Clock(step) >= from && !Cancels(step, u)
    ensures Jams(After(f, policy, step), u, from)
    ensures step.Pass? ==> After(f, policy, step) == f
  {
    var g := After(f, policy, step);
    AfterAt(f, policy, step, u);
    if Attempted(f, step, u).Some? {
      AttemptedMeans(f, policy, step, u);
    }
    UnreclaimableStays(f.entries[u].state, Attempted(f, step, u));
    forall k: nat | Holds(g, k) ensures NotAfter(g, u, k) {
      ClaimMovesBack(f, policy, step, k);
    }
    if step.Pass? {
      HeadJams(f, u, from);
      HeadIsUnique(f, step.now, u);
      PassCommitsExactly(f, policy, step.now, u, step.backoff);
    }
  }

  lemma JamAt(states: seq<System>, steps: seq<Step>, policy: Q.Policy, i: nat, u: nat, from: int)
    requires IsRun(states, steps, policy) && i < |steps| && Jams(states[i], u, from)
    requires Clock(steps[i]) >= from && !Cancels(steps[i], u)
    ensures Jams(states[i + 1], u, from) && (steps[i].Pass? ==> states[i + 1] == states[i])
  {
    InvHolds(states, steps, policy, i);
    JamStep(states[i], policy, steps[i], u, from);
  }

  lemma {:induction false} JamThrough(states: seq<System>, m: nat, n: nat, u: nat, from: int)
    requires m <= n < |states| && Jams(states[m], u, from)
    requires forall i | m <= i < n && Jams(states[i], u, from) :: Jams(states[i + 1], u, from)
    ensures Jams(states[n], u, from)
  {
    if m < n {
      JamThrough(states, m, n - 1, u, from);
      assert Jams(states[(n - 1) + 1], u, from);
    }
  }

  /** An unreclaimable head stays the head, and no other claim of any Run is reclaimed, until its owner
      cancels it, provided no clock is behind the instant at which it was found. */
  lemma JamLasts(states: seq<System>, steps: seq<Step>, policy: Q.Policy, m: nat, n: nat, u: nat, now: int)
    requires IsRun(states, steps, policy) && m <= n <= |steps|
    requires Head(states[m], now, u) && E.Unreclaimable(states[m].entries[u].state)
    requires forall i | m <= i < n :: Clock(steps[i]) >= now && !Cancels(steps[i], u)
    ensures u < |states[n].entries| && E.Unreclaimable(states[n].entries[u].state)
    ensures forall later: int | later >= now :: Head(states[n], later, u)
    ensures n < |steps| && steps[n].Pass? && Clock(steps[n]) >= now ==> states[n + 1] == states[n]
  {
    InvHolds(states, steps, policy, m);
    HeadJams(states[m], u, now);
    forall i | m <= i < n && Jams(states[i], u, now) ensures Jams(states[i + 1], u, now) {
      JamAt(states, steps, policy, i, u, now);
    }
    JamThrough(states, m, n, u, now);
    InvHolds(states, steps, policy, n);
    HeadJams(states[n], u, now);
    if n < |steps| && steps[n].Pass? && Clock(steps[n]) >= now {
      JamAt(states, steps, policy, n, u, now);
    }
  }

  // ----- which Runs the engine can still finish -----

  /** A started Run that waits for, or holds, the claim of a retry: requeued, it is stranded; claimed,
      it must start within its lease. */
  predicate Retried(s: E.State) { s.run.started.Some? && (s.job.status == E.Queued || s.job.status == E.Claimed) }

  predicate LostBy(s: E.State, from: int) { Retried(s) && (s.job.claim.Some? ==> s.job.claim.value.expiresAt <= from) }

  /** By this instant its retry is lost, or its own lease has run out and its claim is at or behind one
      that cannot be reclaimed. */
  ghost predicate DoomedBy(f: System, r: nat, from: int)
    requires r < |f.entries|
  {
    || LostBy(f.entries[r].state, from)
    || (Holds(f, r) && Expiry(f, r) <= from
        && exists u: nat :: Holds(f, u) && E.Unreclaimable(f.entries[u].state) && NotAfter(f, u, r))
  }

  predicate IsOver(f: System, r: nat) { r < |f.entries| && E.Terminal(f.entries[r].state.run.status) }

  /** Some n steps, none at a clock before `from` and none a cancellation, bring Run r to its end. */
  ghost predicate FinishesIn(f: System, policy: Q.Policy, r: nat, from: int, n: nat)
    decreases n
  {
    || IsOver(f, r)
    || (n > 0 && exists step: Step ::
        Enabled(f, policy, step) && Clock(step) >= from && (forall i: nat :: !Cancels(step, i))
        && FinishesIn(After(f, policy, step), policy, r, from, n - 1))
  }

  ghost predicate CanFinish(f: System, policy: Q.Policy, r: nat, from: int) { exists n: nat :: FinishesIn(f, policy, r, from, n) }

  // ----- a doomed Run is never finished -----

  lemma LostStays(s: E.State, step: Sql.Option<E.Step>, from: int)
    requires E.Inv(s) && LostBy(s, from) && (step.Some? ==> step.value.now >= from && !step.value.Cancel?)
    ensures LostBy(Settled(s, step), from)
  {
    if step.Some? && E.Apply(s, step.value).Some? && s.job.claim.Some? && !step.value.Reclaim? {
      ExpiredIsInert(s, step.value);
    }
  }

  lemma {:induction false} LostNeverEnds(f: System, policy: Q.Policy, r: nat, from: int, n: nat)
    requires Inv(f) && r < |f.entries| && LostBy(f.entries[r].state, from)
    ensures !FinishesIn(f, policy, r, from, n)
    decreases n
  {
    assert E.Inv(f.entries[r].state);
    if n > 0 {
      forall step: Step | Enabled(f, policy, step) && Clock(step) >= from && forall i: nat :: !Cancels(step, i)
        ensures !FinishesIn(After(f, policy, step), policy, r, from, n - 1)
      {
        LostEntryStays(f, policy, step, r, from);
        StepKeeps(f, policy, step);
        LostNeverEnds(After(f, policy, step), policy, r, from, n - 1);
      }
    }
  }

  lemma LostEntryStays(f: System, policy: Q.Policy, step: Step, r: nat, from: int)
    requires Inv(f) && r < |f.entries| && LostBy(f.entries[r].state, from)
    requires Enabled(f, policy, step) && Clock(step) >= from && !Cancels(step, r)
    ensures r < |After(f, policy, step).entries| && LostBy(After(f, policy, step).entries[r].state, from)
  {
    AfterAt(f, policy, step, r);
    if Attempted(f, step, r).Some? {
      AttemptedMeans(f, policy, step, r);
    }
    LostStays(f.entries[r].state, Attempted(f, step, r), from);
  }

  /** r's claim waits behind u's, both past their leases. */
  predicate Waits(f: System, r: nat, u: nat, from: int) {
    && Holds(f, r) && Holds(f, u) && Expiry(f, r) <= from && Expiry(f, u) <= from
    && E.Unreclaimable(f.entries[u].state) && NotAfter(f, u, r)
  }

  /** A pass cannot select r, so nothing touches its Job. */
  lemma WaitingStays(f: System, policy: Q.Policy, step: Step, r: nat, u: nat, from: int)
    requires Inv(f) && Waits(f, r, u, from)
    requires Enabled(f, policy, step) && Clock(step) >= from && !Cancels(step, r) && !Cancels(step, u)
    ensures Waits(After(f, policy, step), r, u, from)
  {
    AfterAt(f, policy, step, r);
    AfterAt(f, policy, step, u);
    JobStays(f, policy, step, u, u, from);
    JobStays(f, policy, step, r, u, from);
  }

  lemma JobStays(f: System, policy: Q.Policy, step: Step, r: nat, u: nat, from: int)
    requires Inv(f) && Waits(f, r, u, from)
    requires Enabled(f, policy, step) && Clock(step) >= from && !Cancels(step, r)
    ensures Settled(f.entries[r].state, Attempted(f, step, r)).job == f.entries[r].state.job
    ensures Settled(f.entries[r].state, Attempted(f, step, r)).run == f.entries[r].state.run
  {
    var s, e := f.entries[r].state, Attempted(f, step, r);
    if e.Some? && E.Apply(s, e.value).Some? {
      AttemptedMeans(f, policy, step, r);
      if e.value.Reclaim? {
        DueMeans(f.entries[u].state, e.value.now);
        assert r == u;
        UnreclaimableStays(s, e);
      } else {
        ExpiredIsInert(s, e.value);
      }
    }
  }

  lemma {:induction false} WaitingNeverEnds(f: System, policy: Q.Policy, r: nat, u: nat, from: int, n: nat)
    requires Inv(f) && Waits(f, r, u, from)
    ensures !FinishesIn(f, policy, r, from, n)
    decreases n
  {
    assert E.Inv(f.entries[r].state);
    if n > 0 {
      forall step: Step | Enabled(f, policy, step) && Clock(step) >= from && forall i: nat :: !Cancels(step, i)
        ensures !FinishesIn(After(f, policy, step), policy, r, from, n - 1)
      {
        WaitingStays(f, policy, step, r, u, from);
        StepKeeps(f, policy, step);
        WaitingNeverEnds(After(f, policy, step), policy, r, u, from, n - 1);
      }
    }
  }

  lemma DoomedCannotFinish(f: System, policy: Q.Policy, r: nat, from: int)
    requires Inv(f) && r < |f.entries| && DoomedBy(f, r, from)
    ensures !CanFinish(f, policy, r, from)
  {
    if LostBy(f.entries[r].state, from) {
      forall n: nat ensures !FinishesIn(f, policy, r, from, n) {
        LostNeverEnds(f, policy, r, from, n);
      }
    } else {
      var u: nat :| Holds(f, u) && E.Unreclaimable(f.entries[u].state) && NotAfter(f, u, r);
      forall n: nat ensures !FinishesIn(f, policy, r, from, n) {
        WaitingNeverEnds(f, policy, r, u, from, n);
      }
    }
  }

  // ----- any other Run can be -----

  lemma OneStepMore(f: System, policy: Q.Policy, r: nat, from: int, step: Step, n: nat)
    requires Enabled(f, policy, step) && Clock(step) >= from && forall i: nat :: !Cancels(step, i)
    requires FinishesIn(After(f, policy, step), policy, r, from, n)
    ensures FinishesIn(f, policy, r, from, n + 1)
  {
  }

  /** By this instant everything recorded of the state has passed. */
  predicate IsPast(s: E.State, now: int) {
    && s.run.created <= now && (s.run.started.Some? ==> s.run.started.value <= now)
    && s.job.availableAt <= now && (s.job.claim.Some? ==> s.job.claim.value.expiresAt <= now)
    && (s.attempts != [] ==>
        var a := s.attempts[|s.attempts| - 1]; a.claimedAt <= now && (a.startedAt.Some? ==> a.startedAt.value <= now))
  }

  ghost predicate PastBy(entries: seq<Entry>, n: nat, now: int) {
    forall i | 0 <= i < n && i < |entries| :: IsPast(entries[i].state, now)
  }

  function Max(a: int, b: int): int { if a < b then b else a }

  function OrElse(a: Sql.Option<int>, b: int): int { if a.Some? then a.value else b }

  /** The latest instant recorded of the state, or `from` if that is later. */
  function Latest(s: E.State, from: int): (now: int)
    ensures now >= from && IsPast(s, now)
  {
    var past := Max(Max(from, s.run.created), Max(s.job.availableAt, OrElse(s.run.started, from)));
    var held := if s.job.claim.Some? then Max(past, s.job.claim.value.expiresAt) else past;
    if s.attempts == [] then held
    else
      var a := s.attempts[|s.attempts| - 1];
      Max(Max(held, a.claimedAt), OrElse(a.startedAt, from))
  }

  lemma {:induction false} Horizon(entries: seq<Entry>, n: nat, from: int) returns (now: int)
    requires n <= |entries|
    ensures now >= from && PastBy(entries, n, now)
  {
    now := from;
    if n > 0 {
      var before := Horizon(entries, n - 1, from);
      now := Latest(entries[n - 1].state, before);
    }
  }

  /** A running Run can renew a lease it still holds and succeed, however late its start was recorded. */
  lemma RunningSucceeds(s: E.State, from: int) returns (renew: E.Step, succeed: E.Step)
    requires E.Inv(s) && s.job.status == E.Running && s.job.claim.value.expiresAt > from
    ensures renew.Renew? && renew.expiresAt > renew.now >= from && E.Apply(s, renew).Some?
    ensures succeed.Succeed? && succeed.now >= from && E.Apply(E.Apply(s, renew).value, succeed).Some?
    ensures E.Apply(E.Apply(s, renew).value, succeed).value.run.status == E.Succeeded
  {
    var h := LastAttempt(s);
    var now := Max(from, s.attempts[h].claimedAt);
    var end := Latest(s, now);
    renew := E.Renew(now, h, end + 1);
    succeed := E.Succeed(end, h, 0);
  }

  lemma RunningFinishes(f: System, policy: Q.Policy, r: nat, from: int)
    requires Inv(f) && r < |f.entries| && f.entries[r].state.job.status == E.Running
    requires Holds(f, r) && Expiry(f, r) > from
    ensures FinishesIn(f, policy, r, from, 2)
  {
    var renew, succeed := RunningSucceeds(f.entries[r].state, from);
    AfterAt(f, policy, Act(r, renew), r);
    var g := After(f, policy, Act(r, renew));
    AfterAt(g, policy, Act(r, succeed), r);
    assert FinishesIn(After(g, policy, Act(r, succeed)), policy, r, from, 0);
    OneStepMore(g, policy, r, from, Act(r, succeed), 0);
    OneStepMore(f, policy, r, from, Act(r, renew), 1);
  }

  lemma ClaimedStarts(s: E.State, from: int) returns (start: E.Step)
    requires E.Inv(s) && s.job.status == E.Claimed && s.job.claim.value.expiresAt > from
    ensures start.Start? && start.now >= from && E.Apply(s, start).Some?
    ensures E.Apply(s, start).value.job.status == E.Running && E.Apply(s, start).value.job.claim == s.job.claim
  {
    start := E.Start(Max(from, s.attempts[LastAttempt(s)].claimedAt), LastAttempt(s));
  }

  /** A Run that holds a live lease can finish under it. */
  lemma LiveFinishes(f: System, policy: Q.Policy, r: nat, from: int) returns (n: nat)
    requires Inv(f) && Holds(f, r) && Expiry(f, r) > from
    ensures FinishesIn(f, policy, r, from, n)
  {
    assert E.Inv(f.entries[r].state);
    if f.entries[r].state.job.status == E.Running {
      RunningFinishes(f, policy, r, from);
      n := 2;
    } else {
      var start := ClaimedStarts(f.entries[r].state, from);
      AfterAt(f, policy, Act(r, start), r);
      StepKeeps(f, policy, Act(r, start));
      RunningFinishes(After(f, policy, Act(r, start)), policy, r, from);
      OneStepMore(f, policy, r, from, Act(r, start), 2);
      n := 3;
    }
  }

  /** Waiting to be claimed, in a state that one of the claimable sources admits. */
  predicate Ready(s: E.State) {
    (s.job.status == E.Queued && s.run.status == E.Created) || (s.job.status == E.RetryWait && s.run.status == E.Running)
  }

  function Waiting(f: System): set<nat> {
    set i: nat | i < |f.entries| && (f.entries[i].state.job.status == E.Queued || f.entries[i].state.job.status == E.RetryWait)
  }

  /** A poll for r's provider at a quiet moment: something is claimed, and everything else stays. */
  lemma QuietPoll(f: System, policy: Q.Policy, r: nat, now: int) returns (step: Step)
    requires Inv(f) && Q.Positive(policy) && r < |f.entries| && Ready(f.entries[r].state) && PastBy(f.entries, |f.entries|, now)
    ensures step.Poll? && Enabled(f, policy, step) && Clock(step) == now && step.poll.leaseExpiresAt == now + 1
  {
    var w := Q.Poll({f.entries[r].provider}, 1, now, now + 1);
    forall i | 0 <= i < |Jobs(f)| ensures !Q.Live(Jobs(f)[i], now) {
      assert Jobs(f)[i] == View(f.entries[i]) && IsPast(f.entries[i].state, now);
    }
    Q.IdleHasRoom(Jobs(f), w, policy);
    assert IsPast(f.entries[r].state, now);
    assert E.Inv(f.entries[r].state);
    assert Q.Claimable(Jobs(f)[r], w);
    var j := Q.SomethingIsChosen(Jobs(f), f.markers, w, policy, r);
    var token := E.FreshToken(f.entries[j].state.attempts);
    step := Poll(w, "", token, j);
  }

  lemma PolledEntry(f: System, policy: Q.Policy, step: Step)
    requires Inv(f) && step.Poll? && Enabled(f, policy, step)
    ensures var s, t := f.entries[step.job].state, After(f, policy, step).entries[step.job].state;
      && Ready(s) && t.run == s.run && t.job.status == E.Claimed
      && t.job.claim == Sql.Some(E.Lease(step.worker, step.token, step.poll.leaseExpiresAt))
  {
    AfterAt(f, policy, step, step.job);
    PollClaims(f, policy, step.poll, step.worker, step.token, step.job);
  }

  lemma OthersStay(f: System, policy: Q.Policy, step: Step, i: nat)
    requires Enabled(f, policy, step) && (step.Poll? || step.Pass? || step.Act?) && i < |f.entries| && i != step.job
    ensures |After(f, policy, step).entries| == |f.entries| && After(f, policy, step).entries[i] == f.entries[i]
  {
  }

  lemma WaitingShrinks(f: System, policy: Q.Policy, step: Step)
    requires Inv(f) && step.Poll? && Enabled(f, policy, step)
    ensures |Waiting(After(f, policy, step))| < |Waiting(f)|
  {
    PolledEntry(f, policy, step);
    AllOthersStay(f, policy, step);
    OneFewer(f, After(f, policy, step), step.job);
  }

  lemma AllOthersStay(f: System, policy: Q.Policy, step: Step)
    requires Enabled(f, policy, step) && (step.Poll? || step.Pass? || step.Act?)
    ensures |After(f, policy, step).entries| == |f.entries|
    ensures forall i: nat | i < |f.entries| && i != step.job :: After(f, policy, step).entries[i] == f.entries[i]
  {
  }

  lemma OneFewer(f: System, g: System, j: nat)
    requires |g.entries| == |f.entries| && j < |f.entries| && Ready(f.entries[j].state) && g.entries[j].state.job.status == E.Claimed
    requires forall i: nat | i < |f.entries| && i != j :: g.entries[i] == f.entries[i]
    ensures |Waiting(g)| < |Waiting(f)|
  {
    assert j in Waiting(f);
    assert Waiting(g) == Waiting(f) - {j};
  }

  /** A ready Run is claimed after at most as many polls as Runs wait, then starts and succeeds. */
  lemma {:induction false} ReadyFinishes(f: System, policy: Q.Policy, r: nat, from: int) returns (n: nat)
    requires Inv(f) && Q.Positive(policy) && r < |f.entries| && Ready(f.entries[r].state)
    ensures FinishesIn(f, policy, r, from, n)
    decreases |Waiting(f)|
  {
    var now := Horizon(f.entries, |f.entries|, from);
    var step := QuietPoll(f, policy, r, now);
    var g := After(f, policy, step);
    StepKeeps(f, policy, step);
    if step.job == r {
      PolledEntry(f, policy, step);
      var rest := LiveFinishes(g, policy, r, from);
      OneStepMore(f, policy, r, from, step, rest);
      n := rest + 1;
    } else {
      OthersStay(f, policy, step, r);
      WaitingShrinks(f, policy, step);
      var rest := ReadyFinishes(g, policy, r, from);
      OneStepMore(f, policy, r, from, step, rest);
      n := rest + 1;
    }
  }

  function Held(f: System): set<nat> { set i: nat | i < |f.entries| && f.entries[i].state.job.claim.Some? }

  /** The first due claim among the first n entries. */
  lemma {:induction false} FirstDue(f: System, now: int, i: nat, n: nat) returns (head: nat)
    requires i < n <= |f.entries| && Due(f.entries[i].state, now)
    ensures head < n && Due(f.entries[head].state, now)
    ensures forall k: nat | k < n && Due(f.entries[k].state, now) :: NotAfter(f, head, k)
    decreases n
  {
    var last := n - 1;
    if i == last && forall k: nat | k < last :: !Due(f.entries[k].state, now) {
      head := last;
    } else {
      var earlier: nat := i;
      if i == last {
        earlier :| earlier < last && Due(f.entries[earlier].state, now);
      }
      head := FirstDue(f, now, earlier, last);
      if Due(f.entries[last].state, now) && !NotAfter(f, head, last) {
        head := last;
      }
    }
  }

  /** What a pass that commits leaves of the head. */
  lemma PassedEntry(f: System, policy: Q.Policy, now: int, i: nat)
    requires Inv(f) && Head(f, now, i) && !E.Unreclaimable(f.entries[i].state) && PastBy(f.entries, |f.entries|, now)
    ensures var s, t := f.entries[i].state, After(f, policy, Pass(now, i, 0)).entries[i].state;
      && t.job.claim.None?
      && (E.Terminal(t.run.status) || (t.job.status == E.Queued && t.run == s.run && s.job.status == E.Claimed))
  {
    var step := Pass(now, i, 0);
    AfterAt(f, policy, step, i);
    assert IsPast(f.entries[i].state, now);
    ReclaimCommitsExactly(f.entries[i].state, now, 0);
    Reclaimed(f.entries[i].state, now, LastAttempt(f.entries[i].state));
  }

  lemma Reclaimed(s: E.State, now: int, h: nat)
    requires E.DoReclaim(s, now, h, 0).Some?
    ensures var t := E.DoReclaim(s, now, h, 0).value;
      && t.job.claim.None?
      && (E.Terminal(t.run.status) || (t.job.status == E.Queued && t.run == s.run && s.job.status == E.Claimed))
  {
  }

  lemma HeldShrinks(f: System, policy: Q.Policy, now: int, i: nat)
    requires Inv(f) && Head(f, now, i) && !E.Unreclaimable(f.entries[i].state) && PastBy(f.entries, |f.entries|, now)
    ensures |Held(After(f, policy, Pass(now, i, 0)))| < |Held(f)|
  {
    var step := Pass(now, i, 0);
    var g := After(f, policy, step);
    PassedEntry(f, policy, now, i);
    forall k: nat | k < |f.entries| && k != i ensures |g.entries| == |f.entries| && g.entries[k] == f.entries[k] {
      OthersStay(f, policy, step, k);
    }
    assert i in Held(f);
    assert Held(g) == Held(f) - {i};
  }

  /** Nothing unreclaimable stands before r. */
  ghost predicate Unobstructed(f: System, r: nat)
    requires Holds(f, r)
  {
    forall u: nat | Holds(f, u) && NotAfter(f, u, r) :: !E.Unreclaimable(f.entries[u].state)
  }

  lemma StaysUnobstructed(f: System, policy: Q.Policy, now: int, i: nat, r: nat)
    requires Inv(f) && Head(f, now, i) && !E.Unreclaimable(f.entries[i].state) && PastBy(f.entries, |f.entries|, now)
    requires Holds(f, r) && r != i && Unobstructed(f, r)
    ensures var g := After(f, policy, Pass(now, i, 0));
      Holds(g, r) && g.entries[r] == f.entries[r] && Unobstructed(g, r)
  {
    var step := Pass(now, i, 0);
    var g := After(f, policy, step);
    PassedEntry(f, policy, now, i);
    forall k: nat | k < |f.entries| && k != i ensures |g.entries| == |f.entries| && g.entries[k] == f.entries[k] {
      OthersStay(f, policy, step, k);
    }
  }

  /** A claimed or running Run is reclaimed after those before it, and closed or claimed anew. */
  lemma {:induction false} HeldFinishes(f: System, policy: Q.Policy, r: nat, from: int) returns (n: nat)
    requires Inv(f) && Q.Positive(policy) && Holds(f, r) && !Retried(f.entries[r].state) && Unobstructed(f, r)
    ensures FinishesIn(f, policy, r, from, n)
    decreases |Held(f)|
  {
    var now := Horizon(f.entries, |f.entries|, from);
    assert IsPast(f.entries[r].state, now);
    DueMeans(f.entries[r].state, now);
    var i := FirstDue(f, now, r, |f.entries|);
    var step := Pass(now, i, 0);
    var g := After(f, policy, step);
    StepKeeps(f, policy, step);
    var rest := 0;
    if i == r {
      PassedEntry(f, policy, now, r);
      if !IsOver(g, r) {
        assert E.Inv(f.entries[r].state);
        rest := ReadyFinishes(g, policy, r, from);
      }
    } else {
      HeldShrinks(f, policy, now, i);
      StaysUnobstructed(f, policy, now, i, r);
      rest := HeldFinishes(g, policy, r, from);
    }
    OneStepMore(f, policy, r, from, step, rest);
    n := rest + 1;
  }

  /** In every reachable state, and from any instant on, an unfinished Run can be brought to its end by
      Workers and reclaimers alone, if and only if by that instant neither its retry is lost nor its
      expired claim at or behind one that cannot be reclaimed. */
  lemma FinishesExactly(states: seq<System>, steps: seq<Step>, policy: Q.Policy, n: nat, r: nat, from: int)
    requires IsRun(states, steps, policy) && Q.Positive(policy) && n <= |steps|
    requires r < |states[n].entries| && !IsOver(states[n], r)
    ensures CanFinish(states[n], policy, r, from) <==> !DoomedBy(states[n], r, from)
  {
    InvHolds(states, steps, policy, n);
    var f := states[n];
    if DoomedBy(f, r, from) {
      DoomedCannotFinish(f, policy, r, from);
    } else {
      var k := UndoomedFinishes(f, policy, r, from);
    }
  }

  lemma UndoomedFinishes(f: System, policy: Q.Policy, r: nat, from: int) returns (n: nat)
    requires Inv(f) && Q.Positive(policy) && r < |f.entries| && !IsOver(f, r) && !DoomedBy(f, r, from)
    ensures FinishesIn(f, policy, r, from, n)
  {
    assert E.Inv(f.entries[r].state);
    if Holds(f, r) && Expiry(f, r) > from {
      n := LiveFinishes(f, policy, r, from);
    } else if Holds(f, r) {
      n := HeldFinishes(f, policy, r, from);
    } else {
      n := ReadyFinishes(f, policy, r, from);
    }
  }

  // ----- a jam that happens -----

  lemma Extend(states: seq<System>, steps: seq<Step>, policy: Q.Policy, step: Step) returns (longer: seq<System>, more: seq<Step>)
    requires IsRun(states, steps, policy) && Enabled(states[|steps|], policy, step)
    ensures IsRun(longer, more, policy) && longer == states + [After(states[|steps|], policy, step)] && more == steps + [step]
  {
    longer, more := states + [After(states[|steps|], policy, step)], steps + [step];
    forall i | 0 <= i < |more| ensures Enabled(longer[i], policy, more[i]) && longer[i + 1] == After(longer[i], policy, more[i]) {
      if i < |steps| {
        assert longer[i] == states[i] && longer[i + 1] == states[i + 1] && more[i] == steps[i];
      }
    }
  }

  /** A poll that finds one ready Job and no live lease. */
  lemma OnlyChoice(f: System, policy: Q.Policy, j: nat, now: int, token: nat) returns (step: Step)
    requires Q.Positive(policy) && j < |f.entries| && Ready(f.entries[j].state) && IsFresh(f.entries[j].state, token)
    requires var job := f.entries[j].state.job; job.availableAt <= now && job.attemptCount < job.maxAttempts
    requires forall k: nat | k < |f.entries| && k != j :: !Ready(f.entries[k].state)
    requires forall k: nat | Holds(f, k) :: Expiry(f, k) <= now
    ensures step == Poll(Q.Poll({f.entries[j].provider}, 1, now, now + 10), "", token, j) && Enabled(f, policy, step)
  {
    var w := Q.Poll({f.entries[j].provider}, 1, now, now + 10);
    forall i | 0 <= i < |Jobs(f)| ensures !Q.Live(Jobs(f)[i], now) {
      assert Jobs(f)[i] == View(f.entries[i]);
      assert Holds(f, i) ==> Expiry(f, i) <= now;
    }
    Q.IdleHasRoom(Jobs(f), w, policy);
    assert Q.Claimable(Jobs(f)[j], w);
    var chosen := Q.SomethingIsChosen(Jobs(f), f.markers, w, policy, j);
    assert Q.Claimable(View(f.entries[chosen]), w);
    step := Poll(w, "", token, j);
  }

  /** One Run, claimed once and running. */
  lemma FirstRuns(policy: Q.Policy) returns (states: seq<System>, steps: seq<Step>)
    requires Q.Positive(policy)
    ensures IsRun(states, steps, policy) && |states[|steps|].entries| == 1
    ensures var s := states[|steps|].entries[0].state; var lease := E.Lease("", 1, 10);
      && s.job == E.Job(E.Running, Sql.Some(lease), 0, 1, 2, false, 1)
      && s.attempts == [E.Attempt(E.Running, lease, 0, 0, Sql.Some(1), Sql.None, E.Tools(0, 0, 0, 0), false, Sql.None)]
      && s.run == E.Run(E.Running, 0, Sql.Some(1), Sql.None, Sql.None, Sql.None, 0)
  {
    states, steps := FirstClaimed(policy);
    states, steps := Extend(states, steps, policy, Act(0, E.Start(1, 0)));
  }

  lemma FirstClaimed(policy: Q.Policy) returns (states: seq<System>, steps: seq<Step>)
    requires Q.Positive(policy)
    ensures IsRun(states, steps, policy) && |states[|steps|].entries| == 1
    ensures var s := states[|steps|].entries[0].state; var lease := E.Lease("", 1, 10);
      && s.job == E.Job(E.Claimed, Sql.Some(lease), 0, 1, 2, false, 0)
      && s.attempts == [E.Attempt(E.Claimed, lease, 0, 0, Sql.None, Sql.None, E.Tools(0, 0, 0, 0), false, Sql.None)]
      && s.run == E.Run(E.Created, 0, Sql.None, Sql.None, Sql.None, Sql.None, 0)
  {
    states, steps := FirstSubmitted(policy);
    var step := OnlyChoice(states[|steps|], policy, 0, 0, 1);
    AfterAt(states[|steps|], policy, step, 0);
    states, steps := Extend(states, steps, policy, step);
  }

  lemma FirstSubmitted(policy: Q.Policy) returns (states: seq<System>, steps: seq<Step>)
    ensures IsRun(states, steps, policy) && states[|steps|].entries == [Entry(0, "", E.Submitted(0, 2, 0))]
  {
    assert E.Budgets(2, 0);
    states, steps := Extend([System([], [], map[])], [], policy, Submit(0, 2, 0, 0, ""));
  }

  lemma FirstRetries(policy: Q.Policy) returns (states: seq<System>, steps: seq<Step>)
    requires Q.Positive(policy)
    ensures IsRun(states, steps, policy) && |states[|steps|].entries| == 1
    ensures var s := states[|steps|].entries[0].state;
      && s.job == E.Job(E.RetryWait, Sql.None, 3, 1, 2, false, 2) && |s.attempts| == 1 && s.attempts[0].lease.token == 1
      && s.run == E.Run(E.Running, 0, Sql.Some(1), Sql.None, Sql.None, Sql.None, 0)
  {
    states, steps := FirstRuns(policy);
    states, steps := Extend(states, steps, policy, Act(0, E.RecordFailure(2, 0, E.RateLimited, E.SafeToRetry, 0, 3)));
  }

  /** Rate-limited, and its retry claimed with the last of its budget. */
  lemma FirstJams(policy: Q.Policy) returns (states: seq<System>, steps: seq<Step>)
    requires Q.Positive(policy)
    ensures IsRun(states, steps, policy) && |states[|steps|].entries| == 1
    ensures var s := states[|steps|].entries[0].state;
      s.job == E.Job(E.Claimed, Sql.Some(E.Lease("", 2, 20)), 3, 2, 2, false, 10) && E.Unreclaimable(s)
  {
    states, steps := FirstRetries(policy);
    var step := OnlyChoice(states[|steps|], policy, 0, 10, 2);
    InvHolds(states, steps, policy, |steps|);
    PollClaims(states[|steps|], policy, step.poll, "", 2, 0);
    states, steps := Extend(states, steps, policy, step);
  }

  /** Two Runs: the first one's claim is lost after its retry with the budget spent, and the second, a
      first claim lost before its start, which alone would be requeued, is never reclaimed. */
  lemma JamHappens(policy: Q.Policy) returns (states: seq<System>, steps: seq<Step>)
    requires Q.Positive(policy)
    ensures IsRun(states, steps, policy) && |states[|steps|].entries| == 2
    ensures var f := states[|steps|];
      && Head(f, 30, 0) && E.Unreclaimable(f.entries[0].state)
      && Due(f.entries[1].state, 30) && !E.Unreclaimable(f.entries[1].state) && !Retried(f.entries[1].state)
      && DoomedBy(f, 1, 30)
  {
    states, steps := SecondClaimed(policy);
    InvHolds(states, steps, policy, |steps|);
    JamShown(states[|steps|]);
  }

  lemma SecondSubmitted(policy: Q.Policy) returns (states: seq<System>, steps: seq<Step>)
    requires Q.Positive(policy)
    ensures IsRun(states, steps, policy) && |states[|steps|].entries| == 2
    ensures var s := states[|steps|].entries[0].state;
      s.job == E.Job(E.Claimed, Sql.Some(E.Lease("", 2, 20)), 3, 2, 2, false, 10) && E.Unreclaimable(s)
    ensures states[|steps|].entries[1].state == E.Submitted(10, 2, 0)
  {
    states, steps := FirstJams(policy);
    states, steps := Extend(states, steps, policy, Submit(10, 2, 0, 0, ""));
  }

  lemma SecondClaimed(policy: Q.Policy) returns (states: seq<System>, steps: seq<Step>)
    requires Q.Positive(policy)
    ensures IsRun(states, steps, policy) && |states[|steps|].entries| == 2
    ensures TwoClaims(states[|steps|])
  {
    states, steps := SecondSubmitted(policy);
    var f := states[|steps|];
    var step := OnlyChoice(f, policy, 1, 20, 1);
    InvHolds(states, steps, policy, |steps|);
    SecondPolled(f, policy, step);
    states, steps := Extend(states, steps, policy, step);
  }

  lemma SecondPolled(f: System, policy: Q.Policy, step: Step)
    requires Inv(f) && |f.entries| == 2 && Enabled(f, policy, step) && step.Poll? && step.job == 1 && step.poll.leaseExpiresAt == 30
    requires Holds(f, 0) && Expiry(f, 0) == 20 && E.Unreclaimable(f.entries[0].state) && f.entries[1].state.run.started.None?
    ensures TwoClaims(After(f, policy, step))
  {
    PolledEntry(f, policy, step);
    OthersStay(f, policy, step, 0);
  }

  /** The first claim cannot be reclaimed, and the second, later one is of a Run that never started. */
  predicate TwoClaims(f: System) {
    && |f.entries| == 2 && Holds(f, 0) && Holds(f, 1) && Expiry(f, 0) == 20 && Expiry(f, 1) == 30
    && E.Unreclaimable(f.entries[0].state) && f.entries[1].state.run.started.None?
  }

  lemma JamShown(f: System)
    requires Inv(f) && TwoClaims(f)
    ensures Head(f, 30, 0) && Due(f.entries[1].state, 30) && DoomedBy(f, 1, 30)
    ensures !E.Unreclaimable(f.entries[1].state) && !Retried(f.entries[1].state)
  {
    DueMeans(f.entries[0].state, 30);
    DueMeans(f.entries[1].state, 30);
    assert NotAfter(f, 0, 1);
  }
}
