/** The claim queue: which Job a Worker may claim under the concurrency caps, the per-partition
    marker that orders partitions, its recomputation by migration 0006, and the fairness it gives. */
module Queue {
  import Sql

  type Marker = Sql.Option<nat>

  datatype JobStatus = Queued | Claimed | Running | RetryWait | Closed
  datatype RunStatus = Created | Started | Finished

  /** A Job with the status of its Run. A Job's id is its position; `provider` was copied at
      submission, so Jobs of one Agent may differ in it. */
  datatype Job = Job(
    agent: nat, provider: string, status: JobStatus, run: RunStatus,
    availableAt: int, attemptCount: nat, maxAttempts: nat, leaseExpiresAt: Sql.Option<int>)

  datatype Policy = Policy(globalLimit: nat, agentLimit: nat, providerLimit: nat)

  /** One poll: the Worker's capabilities and budget, and its clock. */
  datatype Poll = Poll(providers: set<string>, maxActive: nat, now: int, leaseExpiresAt: int)

  /** `attempts[k]` is the Job of the Attempt with AUTOINCREMENT id k + 1. `markers` is the table
      `queue_partitions`, absent below revision 0006. */
  datatype Db = Db(jobs: seq<Job>, attempts: seq<nat>, markers: Sql.Option<map<nat, Marker>>)

  // ----- eligibility -----

  /** A live lease occupies concurrency; an expired one does not. */
  predicate Live(j: Job, now: int) {
    (j.status == Claimed || j.status == Running) && j.leaseExpiresAt.Some? && j.leaseExpiresAt.value > now
  }

  function Count(jobs: seq<Job>, n: nat, f: Job -> bool): nat
    requires n <= |jobs|
  {
    if n == 0 then 0 else Count(jobs, n - 1, f) + if f(jobs[n - 1]) then 1 else 0
  }

  function OfAgent(agent: nat, now: int): Job -> bool { (j: Job) => Live(j, now) && j.agent == agent }
  function OfProvider(provider: string, now: int): Job -> bool { (j: Job) => Live(j, now) && j.provider == provider }
  function OfAny(now: int): Job -> bool { (j: Job) => Live(j, now) }

  function Min(a: nat, b: nat): nat { if a <= b then a else b }

  /** The three caps leave room for one more lease like this Job's. */
  predicate HasRoom(jobs: seq<Job>, w: Poll, policy: Policy, agent: nat, provider: string) {
    && Count(jobs, |jobs|, OfAny(w.now)) < Min(policy.globalLimit, w.maxActive)
    && Count(jobs, |jobs|, OfAgent(agent, w.now)) < policy.agentLimit
    && Count(jobs, |jobs|, OfProvider(provider, w.now)) < policy.providerLimit
  }

  predicate Claimable(j: Job, w: Poll) {
    && ((j.status == Queued && j.run == Created) || (j.status == RetryWait && j.run == Started))
    && j.availableAt <= w.now && j.attemptCount < j.maxAttempts && j.provider in w.providers
  }

  /** Oldest due first, the smaller id breaking ties. */
  predicate Precedes(jobs: seq<Job>, i: nat, k: nat)
    requires i < |jobs| && k < |jobs|
  {
    jobs[i].availableAt < jobs[k].availableAt || (jobs[i].availableAt == jobs[k].availableAt && i <= k)
  }

  /** row_number() = 1 within the Agent's partition. */
  predicate IsHead(jobs: seq<Job>, w: Poll, i: nat)
    requires i < |jobs|
  {
    && Claimable(jobs[i], w)
    && forall k: nat | k < |jobs| && Claimable(jobs[k], w) && jobs[k].agent == jobs[i].agent :: Precedes(jobs, i, k)
  }

  predicate Candidate(jobs: seq<Job>, w: Poll, policy: Policy, i: nat)
    requires i < |jobs|
  {
    IsHead(jobs, w, i) && HasRoom(jobs, w, policy, jobs[i].agent, jobs[i].provider)
  }

  /** This partition could be served by this poll. */
  ghost predicate Eligible(jobs: seq<Job>, w: Poll, policy: Policy, agent: nat) {
    exists i: nat :: i < |jobs| && Candidate(jobs, w, policy, i) && jobs[i].agent == agent
  }

  // ----- the choice -----

  /** An absent row and a NULL marker both mean never served. */
  function MarkerOf(markers: map<nat, Marker>, agent: nat): Marker {
    if agent in markers then markers[agent] else Sql.None
  }

  /** ORDER BY last_served_attempt_id ASC NULLS FIRST, agent_instance_id ASC */
  predicate NoLater(m: Marker, a: nat, n: Marker, b: nat) {
    if m.None? then n.Some? || a <= b
    else n.Some? && (m.value < n.value || (m.value == n.value && a <= b))
  }

  predicate Chosen(jobs: seq<Job>, markers: map<nat, Marker>, w: Poll, policy: Policy, i: nat)
    requires i < |jobs|
  {
    && Candidate(jobs, w, policy, i)
    && forall k: nat | k < |jobs| && Candidate(jobs, w, policy, k) ::
        NoLater(MarkerOf(markers, jobs[i].agent), jobs[i].agent, MarkerOf(markers, jobs[k].agent), jobs[k].agent)
  }

  predicate IsClaim(db: Db, w: Poll, policy: Policy, i: nat) {
    db.markers.Some? && i < |db.jobs| && Chosen(db.jobs, db.markers.value, w, policy, i)
  }

  /** The claim's writes: the Job, its Attempt, and the partition's marker. */
  function AfterClaim(db: Db, w: Poll, i: nat): Db
    requires i < |db.jobs| && db.markers.Some?
  {
    var j := db.jobs[i];
    var id := |db.attempts| + 1;
    Db(db.jobs[i := j.(status := Claimed, leaseExpiresAt := Sql.Some(w.leaseExpiresAt), attemptCount := j.attemptCount + 1)],
       db.attempts + [i], Sql.Some(db.markers.value[j.agent := Sql.Some(id)]))
  }

  // ----- `_claim_once` -----

  /** Live leases in total, by Agent and by provider. */
  method CountLive(jobs: seq<Job>, now: int) returns (total: nat, agents: map<nat, nat>, providers: map<string, nat>)
    ensures total == Count(jobs, |jobs|, OfAny(now))
    ensures forall a :: (if a in agents then agents[a] else 0) == Count(jobs, |jobs|, OfAgent(a, now))
    ensures forall p :: (if p in providers then providers[p] else 0) == Count(jobs, |jobs|, OfProvider(p, now))
  {
    total, agents, providers := 0, map[], map[];
    for i := 0 to |jobs|
      invariant total == Count(jobs, i, OfAny(now))
      invariant forall a :: (if a in agents then agents[a] else 0) == Count(jobs, i, OfAgent(a, now))
      invariant forall p :: (if p in providers then providers[p] else 0) == Count(jobs, i, OfProvider(p, now))
    {
      var j := jobs[i];
      if Live(j, now) {
        total := total + 1;
        agents := agents[j.agent := (if j.agent in agents then agents[j.agent] else 0) + 1];
        providers := providers[j.provider := (if j.provider in providers then providers[j.provider] else 0) + 1];
      }
    }
  }

  predicate IsHeads(jobs: seq<Job>, w: Poll, n: nat, heads: map<nat, nat>)
    requires n <= |jobs|
  {
    && (forall a | a in heads :: heads[a] < n && Claimable(jobs[heads[a]], w) && jobs[heads[a]].agent == a)
    && (forall k: nat | k < n && Claimable(jobs[k], w) :: jobs[k].agent in heads && Precedes(jobs, heads[jobs[k].agent], k))
  }

  /** The head Job of every partition. */
  method RankHeads(jobs: seq<Job>, w: Poll) returns (heads: map<nat, nat>)
    ensures IsHeads(jobs, w, |jobs|, heads)
  {
    heads := map[];
    for i := 0 to |jobs|
      invariant IsHeads(jobs, w, i, heads)
    {
      var a := jobs[i].agent;
      if Claimable(jobs[i], w) && (a !in heads || !Precedes(jobs, heads[a], i)) {
        heads := heads[a := i];
      }
    }
  }

  /** The first head in marker order among those the exclusions leave. */
  method FirstByMarker(jobs: seq<Job>, heads: map<nat, nat>, open: set<nat>, markers: map<nat, Marker>) returns (first: Sql.Option<nat>)
    requires open <= heads.Keys && forall a | a in heads :: heads[a] < |jobs| && jobs[heads[a]].agent == a
    ensures first.None? <==> open == {}
    ensures first.Some? ==> first.value < |jobs| && jobs[first.value].agent in open && heads[jobs[first.value].agent] == first.value
    ensures first.Some? ==> var a := jobs[first.value].agent;
      forall b | b in open :: NoLater(MarkerOf(markers, a), a, MarkerOf(markers, b), b)
  {
    if open == {} {
      return Sql.None;
    }
    ghost var some := Sql.ElementOf(open);
    var best :| best in open;
    var rest := open - {best};
    while rest != {}
      invariant rest <= open && best in open
      invariant forall b | b in open && b !in rest :: NoLater(MarkerOf(markers, best), best, MarkerOf(markers, b), b)
      decreases rest
    {
      some := Sql.ElementOf(rest);
      var a :| a in rest;
      if !NoLater(MarkerOf(markers, best), best, MarkerOf(markers, a), a) {
        best := a;
      }
      rest := rest - {a};
    }
    return Sql.Some(heads[best]);
  }

  /** The candidate query of a poll: nothing exactly when no partition is eligible, otherwise the
      head of the least recently served eligible partition. */
  method Select(jobs: seq<Job>, markers: map<nat, Marker>, w: Poll, policy: Policy) returns (choice: Sql.Option<nat>)
    ensures choice.None? <==> forall a :: !Eligible(jobs, w, policy, a)
    ensures choice.Some? ==> choice.value < |jobs| && Chosen(jobs, markers, w, policy, choice.value)
  {
    var total, agents, providers := CountLive(jobs, w.now);
    if total >= Min(policy.globalLimit, w.maxActive) {
      return Sql.None;
    }
    var heads := RankHeads(jobs, w);
    var open := set a | a in heads
      && (if a in agents then agents[a] else 0) < policy.agentLimit
      && (var p := jobs[heads[a]].provider; (if p in providers then providers[p] else 0) < policy.providerLimit);
    OpenAreCandidates(jobs, w, policy, heads, open);
    choice := FirstByMarker(jobs, heads, open, markers);
    if choice.Some? {
      assert Eligible(jobs, w, policy, jobs[choice.value].agent);
    }
  }

  class Store {
    var db: Db
    const policy: Policy

    constructor (policy: Policy)
      ensures this.policy == policy && db == Db([], [], Sql.None)
    {
      this.policy := policy;
      db := Db([], [], Sql.None);
    }

    /** `_claim_once`, with the writes of a claim. */
    method ClaimOnce(w: Poll) returns (claimed: Sql.Option<nat>)
      requires db.markers.Some?
      modifies this
      ensures claimed.None? <==> forall a :: !Eligible(old(db.jobs), w, policy, a)
      ensures claimed.None? ==> db == old(db)
      ensures claimed.Some? ==> IsClaim(old(db), w, policy, claimed.value) && db == AfterClaim(old(db), w, claimed.value)
    {
      claimed := Select(db.jobs, db.markers.value, w, policy);
      if claimed.Some? {
        db := AfterClaim(db, w, claimed.value);
      }
    }

    /** `upgrade`: create the table and fill it by BACKFILL. */
    method Upgrade()
      requires db.markers.None? && AttemptsHaveJobs(db)
      modifies this
      ensures db.markers.Some? && db == old(db).(markers := db.markers)
      ensures IsBackfill(db.jobs, db.attempts, db.markers.value)
    {
      var table := Backfill(db.jobs, db.attempts);
      db := db.(markers := Sql.Some(table));
    }
  }

  /** The oldest due claimable Job of an Agent among the first n. */
  lemma {:induction false} FirstOfAgent(jobs: seq<Job>, w: Poll, i: nat, n: nat) returns (head: nat)
    requires i < n <= |jobs| && Claimable(jobs[i], w)
    ensures head < n && Claimable(jobs[head], w) && jobs[head].agent == jobs[i].agent
    ensures forall k: nat | k < n && Claimable(jobs[k], w) && jobs[k].agent == jobs[i].agent :: Precedes(jobs, head, k)
    decreases n
  {
    var last := n - 1;
    if i == last && forall k: nat | k < last :: !(Claimable(jobs[k], w) && jobs[k].agent == jobs[i].agent) {
      head := last;
    } else {
      var earlier: nat := i;
      if i == last {
        earlier :| earlier < last && Claimable(jobs[earlier], w) && jobs[earlier].agent == jobs[i].agent;
      }
      head := FirstOfAgent(jobs, w, earlier, last);
      if Claimable(jobs[last], w) && jobs[last].agent == jobs[i].agent && !Precedes(jobs, head, last) {
        head := last;
      }
    }
  }

  /** The least recently served partition's candidate among the first n. */
  lemma {:induction false} FirstCandidate(jobs: seq<Job>, markers: map<nat, Marker>, w: Poll, policy: Policy, i: nat, n: nat) returns (first: nat)
    requires i < n <= |jobs| && Candidate(jobs, w, policy, i)
    ensures first < n && Candidate(jobs, w, policy, first)
    ensures forall k: nat | k < n && Candidate(jobs, w, policy, k) ::
      NoLater(MarkerOf(markers, jobs[first].agent), jobs[first].agent, MarkerOf(markers, jobs[k].agent), jobs[k].agent)
    decreases n
  {
    var last := n - 1;
    if i == last && forall k: nat | k < last :: !Candidate(jobs, w, policy, k) {
      first := last;
    } else {
      var earlier: nat := i;
      if i == last {
        earlier :| earlier < last && Candidate(jobs, w, policy, earlier);
      }
      first := FirstCandidate(jobs, markers, w, policy, earlier, last);
      var a, b := jobs[first].agent, jobs[last].agent;
      if Candidate(jobs, w, policy, last) && !NoLater(MarkerOf(markers, a), a, MarkerOf(markers, b), b) {
        first := last;
      }
    }
  }

  /** A poll that finds room everywhere chooses something as soon as something is claimable. */
  lemma SomethingIsChosen(jobs: seq<Job>, markers: map<nat, Marker>, w: Poll, policy: Policy, i: nat) returns (chosen: nat)
    requires i < |jobs| && Claimable(jobs[i], w) && forall a, p :: HasRoom(jobs, w, policy, a, p)
    ensures chosen < |jobs| && Chosen(jobs, markers, w, policy, chosen)
  {
    var head := FirstOfAgent(jobs, w, i, |jobs|);
    assert Candidate(jobs, w, policy, head);
    chosen := FirstCandidate(jobs, markers, w, policy, head, |jobs|);
  }

  predicate Positive(policy: Policy) { policy.globalLimit > 0 && policy.agentLimit > 0 && policy.providerLimit > 0 }

  lemma {:induction false} CountNone(jobs: seq<Job>, n: nat, f: Job -> bool)
    requires n <= |jobs| && forall i | 0 <= i < |jobs| :: !f(jobs[i])
    ensures Count(jobs, n, f) == 0
  {
    if n > 0 {
      CountNone(jobs, n - 1, f);
    }
  }

  /** With no live lease there is room for every Agent and provider. */
  lemma IdleHasRoom(jobs: seq<Job>, w: Poll, policy: Policy)
    requires Positive(policy) && w.maxActive > 0 && forall i | 0 <= i < |jobs| :: !Live(jobs[i], w.now)
    ensures forall a, p :: HasRoom(jobs, w, policy, a, p)
  {
    forall a, p ensures HasRoom(jobs, w, policy, a, p) {
      CountNone(jobs, |jobs|, OfAny(w.now));
      CountNone(jobs, |jobs|, OfAgent(a, w.now));
      CountNone(jobs, |jobs|, OfProvider(p, w.now));
    }
  }

  lemma OpenAreCandidates(jobs: seq<Job>, w: Poll, policy: Policy, heads: map<nat, nat>, open: set<nat>)
    requires IsHeads(jobs, w, |jobs|, heads) && Count(jobs, |jobs|, OfAny(w.now)) < Min(policy.globalLimit, w.maxActive)
    requires forall a :: a in open <==>
      && a in heads && Count(jobs, |jobs|, OfAgent(a, w.now)) < policy.agentLimit
      && Count(jobs, |jobs|, OfProvider(jobs[heads[a]].provider, w.now)) < policy.providerLimit
    ensures forall i: nat | i < |jobs| :: Candidate(jobs, w, policy, i) <==> jobs[i].agent in open && heads[jobs[i].agent] == i
  {
  }

  // ----- BACKFILL -----

  predicate AttemptsHaveJobs(db: Db) { forall k | 0 <= k < |db.attempts| :: db.attempts[k] < |db.jobs| }

  predicate IsAttemptOf(jobs: seq<Job>, attempts: seq<nat>, agent: nat, id: nat) {
    0 < id <= |attempts| && attempts[id - 1] < |jobs| && jobs[attempts[id - 1]].agent == agent
  }

  /** MAX(job_attempts.id) over the partition, NULL over nothing. */
  ghost predicate IsMarker(jobs: seq<Job>, attempts: seq<nat>, agent: nat, m: Marker) {
    && (m.Some? ==> IsAttemptOf(jobs, attempts, agent, m.value))
    && forall id: nat | IsAttemptOf(jobs, attempts, agent, id) :: m.Some? && id <= m.value
  }

  ghost predicate IsBackfill(jobs: seq<Job>, attempts: seq<nat>, table: map<nat, Marker>) {
    && (forall a :: a in table <==> exists i: nat :: i < |jobs| && jobs[i].agent == a)
    && (forall a | a in table :: IsMarker(jobs, attempts, a, table[a]))
  }

  lemma MarkerExtends(jobs: seq<Job>, attempts: seq<nat>, i: nat, a: nat, m: Marker)
    requires i < |jobs| && IsMarker(jobs, attempts, a, m)
    ensures IsMarker(jobs, attempts + [i], a, if a == jobs[i].agent then Sql.Some(|attempts| + 1) else m)
  {
    var more := attempts + [i];
    assert forall id: nat | id <= |attempts| :: IsAttemptOf(jobs, more, a, id) <==> IsAttemptOf(jobs, attempts, a, id);
  }

  method Backfill(jobs: seq<Job>, attempts: seq<nat>) returns (table: map<nat, Marker>)
    requires forall k | 0 <= k < |attempts| :: attempts[k] < |jobs|
    ensures IsBackfill(jobs, attempts, table)
  {
    table := map[];
    for i := 0 to |jobs|
      invariant forall a :: a in table <==> exists x: nat :: x < i && jobs[x].agent == a
      invariant forall a | a in table :: table[a] == Sql.None
    {
      table := table[jobs[i].agent := Sql.None];
    }
    for k := 0 to |attempts|
      invariant forall a :: a in table <==> exists x: nat :: x < |jobs| && jobs[x].agent == a
      invariant forall a | a in table :: IsMarker(jobs, attempts[..k], a, table[a])
    {
      var i := attempts[k];
      forall a | a in table
        ensures IsMarker(jobs, attempts[..k] + [i], a, if a == jobs[i].agent then Sql.Some(k + 1) else table[a])
      {
        MarkerExtends(jobs, attempts[..k], i, a, table[a]);
      }
      assert attempts[..k + 1] == attempts[..k] + [i];
      table := table[jobs[i].agent := Sql.Some(k + 1)];
    }
    assert attempts[..|attempts|] == attempts;
  }

  // ----- the caps -----

  lemma {:induction false} CountAfter(jobs: seq<Job>, n: nat, f: Job -> bool, i: nat, j: Job)
    requires n <= |jobs| && i < |jobs|
    ensures Count(jobs[i := j], n, f) <= Count(jobs, n, f) + 1
    ensures n <= i ==> Count(jobs[i := j], n, f) == Count(jobs, n, f)
  {
    if n > 0 {
      CountAfter(jobs, n - 1, f, i, j);
    }
  }

  /** A claim leaves no more live leases than any of the three caps allows. */
  lemma ClaimKeepsCaps(db: Db, w: Poll, policy: Policy, i: nat)
    requires IsClaim(db, w, policy, i)
    ensures var jobs := AfterClaim(db, w, i).jobs;
      && Count(jobs, |jobs|, OfAny(w.now)) <= Min(policy.globalLimit, w.maxActive)
      && Count(jobs, |jobs|, OfAgent(jobs[i].agent, w.now)) <= policy.agentLimit
      && Count(jobs, |jobs|, OfProvider(jobs[i].provider, w.now)) <= policy.providerLimit
  {
    var j := AfterClaim(db, w, i).jobs[i];
    CountAfter(db.jobs, |db.jobs|, OfAny(w.now), i, j);
    CountAfter(db.jobs, |db.jobs|, OfAgent(j.agent, w.now), i, j);
    CountAfter(db.jobs, |db.jobs|, OfProvider(j.provider, w.now), i, j);
  }

  // ----- every run -----

  /** `Touch` is any other write to a Job; none moves it to another Agent. `OldClaim` is a claim made
      below revision 0006, where there is no marker to write. */
  datatype Step =
    | Submit(job: Job)
    | Claim(poll: Poll, job_: nat)
    | OldClaim(job_: nat)
    | Touch(job_: nat, row: Job)
    | DropTable
    | CreateTable(table: map<nat, Marker>)

  ghost predicate Enabled(db: Db, policy: Policy, step: Step) {
    match step
    case Submit(_) => true
    case Claim(w, i) => IsClaim(db, w, policy, i)
    case OldClaim(i) => db.markers.None? && i < |db.jobs|
    case Touch(i, row) => i < |db.jobs| && row.agent == db.jobs[i].agent
    case DropTable => db.markers.Some?
    case CreateTable(table) => db.markers.None? && IsBackfill(db.jobs, db.attempts, table)
  }

  ghost function Next(db: Db, policy: Policy, step: Step): Db
    requires Enabled(db, policy, step)
  {
    match step
    case Submit(job) => db.(jobs := db.jobs + [job])
    case Claim(w, i) => AfterClaim(db, w, i)
    case OldClaim(i) => db.(attempts := db.attempts + [i])
    case Touch(i, row) => db.(jobs := db.jobs[i := row])
    case DropTable => db.(markers := Sql.None)
    case CreateTable(table) => db.(markers := Sql.Some(table))
  }

  ghost predicate IsRun(states: seq<Db>, steps: seq<Step>, policy: Policy) {
    && |states| == |steps| + 1
    && states[0] == Db([], [], Sql.None)
    && forall i | 0 <= i < |steps| :: Enabled(states[i], policy, steps[i]) && states[i + 1] == Next(states[i], policy, steps[i])
  }

  /** The maintained table says what BACKFILL would compute now. */
  ghost predicate Faithful(db: Db) {
    && AttemptsHaveJobs(db)
    && (db.markers.Some? ==> forall a :: IsMarker(db.jobs, db.attempts, a, MarkerOf(db.markers.value, a)))
  }

  ghost predicate SameAgents(jobs: seq<Job>, later: seq<Job>) {
    |jobs| <= |later| && forall i | 0 <= i < |jobs| :: later[i].agent == jobs[i].agent
  }

  lemma SameAgentsSameMarkers(jobs: seq<Job>, later: seq<Job>, attempts: seq<nat>, a: nat, m: Marker)
    requires SameAgents(jobs, later) && forall k | 0 <= k < |attempts| :: attempts[k] < |jobs|
    requires IsMarker(jobs, attempts, a, m)
    ensures IsMarker(later, attempts, a, m)
  {
    assert forall id: nat :: IsAttemptOf(later, attempts, a, id) <==> IsAttemptOf(jobs, attempts, a, id);
  }

  lemma ClaimKeepsFaithful(db: Db, w: Poll, i: nat)
    requires Faithful(db) && db.markers.Some? && i < |db.jobs|
    ensures Faithful(AfterClaim(db, w, i))
  {
    var next := AfterClaim(db, w, i);
    forall a ensures IsMarker(next.jobs, next.attempts, a, MarkerOf(next.markers.value, a)) {
      MarkerExtends(db.jobs, db.attempts, i, a, MarkerOf(db.markers.value, a));
      SameAgentsSameMarkers(db.jobs, next.jobs, next.attempts, a, MarkerOf(next.markers.value, a));
    }
  }

  lemma JobsKeepFaithful(db: Db, jobs: seq<Job>)
    requires Faithful(db) && SameAgents(db.jobs, jobs)
    ensures Faithful(db.(jobs := jobs))
  {
    if db.markers.Some? {
      forall a ensures IsMarker(jobs, db.attempts, a, MarkerOf(db.markers.value, a)) {
        SameAgentsSameMarkers(db.jobs, jobs, db.attempts, a, MarkerOf(db.markers.value, a));
      }
    }
  }

  lemma BackfillIsFaithful(db: Db, table: map<nat, Marker>)
    requires AttemptsHaveJobs(db) && IsBackfill(db.jobs, db.attempts, table)
    ensures Faithful(db.(markers := Sql.Some(table)))
  {
  }

  lemma StepKeepsFaithful(db: Db, policy: Policy, step: Step)
    requires Faithful(db) && Enabled(db, policy, step)
    ensures Faithful(Next(db, policy, step))
  {
    match step
    case Submit(job) => JobsKeepFaithful(db, db.jobs + [job]);
    case Claim(w, i) => ClaimKeepsFaithful(db, w, i);
    case OldClaim(_) =>
    case Touch(i, row) => JobsKeepFaithful(db, db.jobs[i := row]);
    case DropTable =>
    case CreateTable(table) => BackfillIsFaithful(db, table);
  }

  /** At every moment of every run the maintained table is faithful. */
  lemma {:induction false} MarkersAreDerived(states: seq<Db>, steps: seq<Step>, policy: Policy, n: nat)
    requires IsRun(states, steps, policy) && n <= |steps|
    ensures Faithful(states[n])
  {
    if n > 0 {
      MarkersAreDerived(states, steps, policy, n - 1);
      StepKeepsFaithful(states[n - 1], policy, steps[n - 1]);
    }
  }

  lemma MarkersAgree(jobs: seq<Job>, attempts: seq<nat>, agent: nat, m: Marker, n: Marker)
    requires IsMarker(jobs, attempts, agent, m) && IsMarker(jobs, attempts, agent, n)
    ensures m == n
  {
  }

  /** Dropping the table at any point and upgrading again loses no scheduling fact: every partition
      has the marker it had, so every poll of every Worker chooses the same Job. */
  lemma ReupgradeChoosesTheSame(states: seq<Db>, steps: seq<Step>, policy: Policy, n: nat, rebuilt: map<nat, Marker>)
    requires IsRun(states, steps, policy) && n <= |steps| && states[n].markers.Some?
    requires IsBackfill(states[n].jobs, states[n].attempts, rebuilt)
    ensures forall a :: MarkerOf(rebuilt, a) == MarkerOf(states[n].markers.value, a)
    ensures forall w, i: nat | i < |states[n].jobs| ::
      Chosen(states[n].jobs, rebuilt, w, policy, i) <==> Chosen(states[n].jobs, states[n].markers.value, w, policy, i)
  {
    MarkersAreDerived(states, steps, policy, n);
    var db := states[n];
    BackfillIsFaithful(db, rebuilt);
    forall a ensures MarkerOf(rebuilt, a) == MarkerOf(db.markers.value, a) {
      assert IsMarker(db.jobs, db.attempts, a, MarkerOf(db.(markers := Sql.Some(rebuilt)).markers.value, a));
      MarkersAgree(db.jobs, db.attempts, a, MarkerOf(rebuilt, a), MarkerOf(db.markers.value, a));
    }
  }

  // ----- bounded bypass -----

  /** The partition a step serves. */
  function Served(db: Db, step: Step): Sql.Option<nat> {
    if (step.Claim? || step.OldClaim?) && step.job_ < |db.jobs| then Sql.Some(db.jobs[step.job_].agent) else Sql.None
  }

  /** Partition p goes unserved from state m to state n. */
  predicate Unserved(states: seq<Db>, steps: seq<Step>, p: nat, m: nat, n: nat)
    requires |states| == |steps| + 1
  {
    forall i | m <= i < n && i < |steps| :: Served(states[i], steps[i]) != Sql.Some(p)
  }

  /** Claim i serves another partition although p was eligible for the claiming Worker. */
  ghost predicate Bypasses(states: seq<Db>, steps: seq<Step>, policy: Policy, p: nat, i: nat)
    requires |states| == |steps| + 1 && i < |steps|
  {
    steps[i].Claim? && Served(states[i], steps[i]) != Sql.Some(p) && Eligible(states[i].jobs, steps[i].poll, policy, p)
  }

  /** Jobs keep their Agents and Attempts are only added; p gains none while unserved. */
  lemma {:induction false} HistoryGrows(states: seq<Db>, steps: seq<Step>, policy: Policy, p: nat, m: nat, n: nat)
    requires IsRun(states, steps, policy) && m <= n <= |steps|
    ensures SameAgents(states[m].jobs, states[n].jobs) && states[m].attempts <= states[n].attempts
    ensures Unserved(states, steps, p, m, n) ==>
      forall id: nat | IsAttemptOf(states[n].jobs, states[n].attempts, p, id) :: id <= |states[m].attempts|
  {
    if m < n {
      HistoryGrows(states, steps, policy, p, m, n - 1);
      StepGrows(states[n - 1], policy, steps[n - 1], p);
      MarkersAreDerived(states, steps, policy, n - 1);
    }
  }

  lemma StepGrows(db: Db, policy: Policy, step: Step, p: nat)
    requires Enabled(db, policy, step)
    ensures var next := Next(db, policy, step);
      && SameAgents(db.jobs, next.jobs) && db.attempts <= next.attempts
      && (AttemptsHaveJobs(db) && Served(db, step) != Sql.Some(p) ==>
          forall id: nat | IsAttemptOf(next.jobs, next.attempts, p, id) :: IsAttemptOf(db.jobs, db.attempts, p, id))
  {
  }

  /** Once q has been served while p was not, p's marker lies strictly before q's. */
  lemma ServedFallsBehind(states: seq<Db>, steps: seq<Step>, policy: Policy, p: nat, i: nat, k: nat)
    requires IsRun(states, steps, policy) && i < k < |steps| && steps[i].Claim? && states[k].markers.Some?
    requires Unserved(states, steps, p, i, k)
    ensures var mp, mq := MarkerOf(states[k].markers.value, p), MarkerOf(states[k].markers.value, Served(states[i], steps[i]).value);
      mq.Some? && (mp.Some? ==> mp.value < mq.value)
  {
    var q, id := Served(states[i], steps[i]).value, |states[i].attempts| + 1;
    assert IsAttemptOf(states[i + 1].jobs, states[i + 1].attempts, q, id);
    HistoryGrows(states, steps, policy, p, i + 1, k);
    AttemptStays(states[i + 1], states[k], q, id);
    HistoryGrows(states, steps, policy, p, i, k);
    MarkersAreDerived(states, steps, policy, k);
    var markers := states[k].markers.value;
    assert IsMarker(states[k].jobs, states[k].attempts, q, MarkerOf(markers, q));
    assert IsMarker(states[k].jobs, states[k].attempts, p, MarkerOf(markers, p));
  }

  lemma AttemptStays(db: Db, later: Db, q: nat, id: nat)
    requires SameAgents(db.jobs, later.jobs) && db.attempts <= later.attempts && IsAttemptOf(db.jobs, db.attempts, q, id)
    ensures IsAttemptOf(later.jobs, later.attempts, q, id)
  {
  }

  /** While p goes unserved, no partition overtakes it twice. */
  lemma OvertakesOnce(states: seq<Db>, steps: seq<Step>, policy: Policy, p: nat, i: nat, k: nat)
    requires IsRun(states, steps, policy) && i < k < |steps| && Unserved(states, steps, p, i, k + 1)
    requires Bypasses(states, steps, policy, p, i) && Bypasses(states, steps, policy, p, k)
    ensures Served(states[i], steps[i]) != Served(states[k], steps[k])
  {
    var db, w := states[k], steps[k].poll;
    ServedFallsBehind(states, steps, policy, p, i, k);
    var head: nat :| head < |db.jobs| && Candidate(db.jobs, w, policy, head) && db.jobs[head].agent == p;
    var q := db.jobs[steps[k].job_].agent;
    assert NoLater(MarkerOf(db.markers.value, q), q, MarkerOf(db.markers.value, p), p);
  }

  /** What each step from m up to n serves when it bypasses p, and nothing otherwise. */
  ghost function Overtaking(states: seq<Db>, steps: seq<Step>, policy: Policy, p: nat, m: nat, n: nat): seq<Sql.Option<nat>>
    requires |states| == |steps| + 1 && m <= n <= |steps|
  {
    seq(n - m, x requires 0 <= x < n - m =>
      if Bypasses(states, steps, policy, p, m + x) then Served(states[m + x], steps[m + x]) else Sql.None)
  }

  function Size(s: seq<Sql.Option<nat>>): nat {
    if s == [] then 0 else Size(s[..|s| - 1]) + if s[|s| - 1].Some? then 1 else 0
  }

  lemma {:induction false} DistinctAreFew(s: seq<Sql.Option<nat>>, all: set<nat>)
    requires forall i | 0 <= i < |s| && s[i].Some? :: s[i].value in all
    requires forall i, k | 0 <= i < k < |s| && s[i].Some? && s[k].Some? :: s[i] != s[k]
    ensures Size(s) <= |all|
  {
    if s != [] {
      var last := s[|s| - 1];
      var rest := if last.Some? then all - {last.value} else all;
      DistinctAreFew(s[..|s| - 1], rest);
      assert last.Some? ==> |rest| == |all| - 1;
    }
  }

  function Partitions(jobs: seq<Job>): set<nat> { set i | 0 <= i < |jobs| :: jobs[i].agent }

  lemma PartitionsGrow(jobs: seq<Job>, later: seq<Job>)
    requires SameAgents(jobs, later)
    ensures Partitions(jobs) <= Partitions(later)
  {
  }

  lemma ServesAPartition(states: seq<Db>, steps: seq<Step>, policy: Policy, p: nat, i: nat, n: nat)
    requires IsRun(states, steps, policy) && i < n <= |steps| && Bypasses(states, steps, policy, p, i)
    ensures var served := Served(states[i], steps[i]);
      served.Some? && served.value != p && served.value in Partitions(states[n].jobs)
  {
    HistoryGrows(states, steps, policy, p, i, n);
    PartitionsGrow(states[i].jobs, states[n].jobs);
  }

  /** Bounded bypass: while p goes unserved, the claims made although p was eligible for the claiming
      Worker are at most as many as the other partitions, however many claims Workers blind to p
      make meanwhile, and across any drop and re-creation of the table. */
  lemma BoundedBypass(states: seq<Db>, steps: seq<Step>, policy: Policy, p: nat, m: nat, n: nat)
    requires IsRun(states, steps, policy) && m <= n <= |steps| && Unserved(states, steps, p, m, n)
    ensures Size(Overtaking(states, steps, policy, p, m, n)) <= |Partitions(states[n].jobs) - {p}|
  {
    var s, others := Overtaking(states, steps, policy, p, m, n), Partitions(states[n].jobs) - {p};
    forall x | 0 <= x < |s| && s[x].Some? ensures s[x].value in others {
      ServesAPartition(states, steps, policy, p, m + x, n);
    }
    OvertakersDiffer(states, steps, policy, p, m, n);
    DistinctAreFew(s, others);
  }

  lemma OvertakersDiffer(states: seq<Db>, steps: seq<Step>, policy: Policy, p: nat, m: nat, n: nat)
    requires IsRun(states, steps, policy) && m <= n <= |steps| && Unserved(states, steps, p, m, n)
    ensures var s := Overtaking(states, steps, policy, p, m, n);
      forall x, y | 0 <= x < y < |s| && s[x].Some? && s[y].Some? :: s[x] != s[y]
  {
    var s := Overtaking(states, steps, policy, p, m, n);
    forall x, y | 0 <= x < y < |s| && s[x].Some? && s[y].Some? ensures s[x] != s[y] {
      TwoDiffer(states, steps, policy, p, m, n, x, y);
    }
  }

  lemma TwoDiffer(states: seq<Db>, steps: seq<Step>, policy: Policy, p: nat, m: nat, n: nat, x: nat, y: nat)
    requires IsRun(states, steps, policy) && m <= n <= |steps| && Unserved(states, steps, p, m, n) && x < y < n - m
    ensures var s := Overtaking(states, steps, policy, p, m, n);
      s[x].Some? && s[y].Some? ==> s[x] != s[y]
  {
    if Bypasses(states, steps, policy, p, m + x) && Bypasses(states, steps, policy, p, m + y) {
      UnservedWithin(states, steps, p, m, n, m + x, m + y + 1);
      OvertakesOnce(states, steps, policy, p, m + x, m + y);
    }
  }

  lemma UnservedWithin(states: seq<Db>, steps: seq<Step>, p: nat, m: nat, n: nat, x: nat, y: nat)
    requires |states| == |steps| + 1 && Unserved(states, steps, p, m, n) && m <= x <= y <= n
    ensures Unserved(states, steps, p, x, y)
  {
  }

  function ClaimCount(steps: seq<Step>): nat {
    if steps == [] then 0 else ClaimCount(steps[..|steps| - 1]) + if steps[|steps| - 1].Claim? then 1 else 0
  }

  lemma {:induction false} SizeCounts(s: seq<Sql.Option<nat>>, steps: seq<Step>)
    requires |s| == |steps| && forall x | 0 <= x < |s| :: s[x].Some? <==> steps[x].Claim?
    ensures Size(s) == ClaimCount(steps)
  {
    if s != [] {
      SizeCounts(s[..|s| - 1], steps[..|steps| - 1]);
    }
  }

  /** A continuously eligible partition is served: over any stretch in which every claim could have
      served it, whatever else happens between the claims, it is served before the claims outnumber
      the other partitions. */
  lemma EligiblePartitionIsServed(states: seq<Db>, steps: seq<Step>, policy: Policy, p: nat, m: nat, n: nat)
    requires IsRun(states, steps, policy) && m <= n <= |steps|
    requires forall i | m <= i < n && steps[i].Claim? :: Eligible(states[i].jobs, steps[i].poll, policy, p)
    requires ClaimCount(steps[m..n]) > |Partitions(states[n].jobs) - {p}|
    ensures exists i :: m <= i < n && Served(states[i], steps[i]) == Sql.Some(p)
  {
    if Unserved(states, steps, p, m, n) {
      BoundedBypass(states, steps, policy, p, m, n);
      EveryClaimBypasses(states, steps, policy, p, m, n);
      assert false;
    }
  }

  lemma EveryClaimBypasses(states: seq<Db>, steps: seq<Step>, policy: Policy, p: nat, m: nat, n: nat)
    requires IsRun(states, steps, policy) && m <= n <= |steps| && Unserved(states, steps, p, m, n)
    requires forall i | m <= i < n && steps[i].Claim? :: Eligible(states[i].jobs, steps[i].poll, policy, p)
    ensures Size(Overtaking(states, steps, policy, p, m, n)) == ClaimCount(steps[m..n])
  {
    var s := Overtaking(states, steps, policy, p, m, n);
    forall x | 0 <= x < |s| ensures s[x].Some? <==> steps[m..n][x].Claim? {
      assert Bypasses(states, steps, policy, p, m + x) <==> steps[m + x].Claim?;
    }
    SizeCounts(s, steps[m..n]);
  }
}
