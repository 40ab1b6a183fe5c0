/** Capability grants and the cutoff each Run snapshots at submission, over any run of granting,
    revoking, reconfirming, submitting, and moving between revisions 0006 and 0007. */
module Grants {
  import opened Sql

  datatype Agent = Agent(owner: nat, enabled: bool)
  datatype Connection = Connection(owner: nat, enabled: bool)
  datatype Definition = Definition(isMcp: bool, sourceId: Option<nat>, available: bool, fingerprint: string)

  /** UNIQUE(agent_instance_id, tool_definition_id): a pair has at most one grant. */
  datatype Pair = Pair(agent: nat, tool: nat)
  datatype Grant = Grant(id: nat, fingerprint: string)
  datatype Budget = Budget(agent: nat, maxToolCalls: nat, cutoff: nat)

  /** `issued` is the AUTOINCREMENT counter of `agent_tool_grants`, dropped with the table.
      `otherState` stands for everything else the 0007 preflight refuses on: invocations, tool
      events, token accounting and the other loop limits. */
  datatype Db = Db(
    stageD: bool,
    agents: map<nat, Agent>, definitions: map<nat, Definition>, connections: map<nat, Connection>,
    grants: map<Pair, Grant>, issued: nat,
    runs: map<nat, Budget>, otherState: bool)

  datatype Refusal = NotFound | ConnectionNotFound | OwnershipMismatch | AlreadyExists

  // ----- the repository's operations -----

  /** What granting and reconfirming both verify before they write. */
  function Refused(db: Db, owner: nat, p: Pair): Option<Refusal> {
    if p.agent !in db.agents || db.agents[p.agent].owner != owner then Some(NotFound)
    else if p.tool !in db.definitions then Some(NotFound)
    else
      var d := db.definitions[p.tool];
      if !d.isMcp then None
      else if d.sourceId.None? then Some(NotFound)
      else if d.sourceId.value !in db.connections then Some(ConnectionNotFound)
      else
        var c := db.connections[d.sourceId.value];
        if c.owner != owner then Some(OwnershipMismatch)
        else if !c.enabled then Some(ConnectionNotFound)
        else None
  }

  /** INSERT with the next AUTOINCREMENT id and the definition's fingerprint of this moment. */
  function Insert(db: Db, p: Pair): Db
    requires p.tool in db.definitions
  {
    db.(grants := db.grants[p := Grant(db.issued + 1, db.definitions[p.tool].fingerprint)], issued := db.issued + 1)
  }

  /** `grant_tool`: a grant of the current fingerprint is returned as it is, another one refuses. */
  function GrantTool(db: Db, owner: nat, p: Pair): (Db, Option<Refusal>) {
    var refused := Refused(db, owner, p);
    if refused.Some? then (db, refused)
    else if p in db.grants then
      (db, if db.grants[p].fingerprint == db.definitions[p.tool].fingerprint then None else Some(AlreadyExists))
    else (Insert(db, p), None)
  }

  /** `revoke_tool`: idempotent, and silent about an Agent that is not the caller's. */
  function RevokeTool(db: Db, owner: nat, p: Pair): Db {
    if p.agent in db.agents && db.agents[p.agent].owner == owner then db.(grants := db.grants - {p}) else db
  }

  /** `reconfirm_tool`: delete and insert under a new id. */
  function ReconfirmTool(db: Db, owner: nat, p: Pair): (Db, Option<Refusal>) {
    var refused := Refused(db, owner, p);
    if refused.Some? then (db, refused) else (Insert(db.(grants := db.grants - {p}), p), None)
  }

  /** After either succeeds the pair holds a grant of the definition as it is now, no other pair has
      changed, and granting again changes nothing; reconfirming succeeds whenever granting does and
      also where granting refuses a drifted grant; a refusal writes nothing. */
  lemma GrantsMean(db: Db, owner: nat, p: Pair)
    ensures var (granted, no) := GrantTool(db, owner, p);
      var (confirmed, never) := ReconfirmTool(db, owner, p);
      && (no.Some? ==> granted == db) && (never.Some? ==> confirmed == db)
      && (no.None? ==> never.None?) && (never.None? && no.Some? ==> no.value.AlreadyExists? && p in db.grants)
      && (no.None? ==> IsReview(db, granted, p) && GrantTool(granted, owner, p) == (granted, None))
      && (never.None? ==> IsReview(db, confirmed, p) && confirmed.grants[p].id == db.issued + 1)
    ensures p !in RevokeTool(db, owner, p).grants || (p.agent in db.agents ==> db.agents[p.agent].owner != owner)
  {
  }

  predicate IsReview(db: Db, after: Db, p: Pair) {
    && p in after.grants && p.tool in db.definitions
    && after.grants[p].fingerprint == db.definitions[p.tool].fingerprint
    && after.grants - {p} == db.grants - {p}
  }

  ghost predicate IsHighest(grants: map<Pair, Grant>, agent: nat, highest: nat) {
    && (forall p | p in grants && p.agent == agent :: grants[p].id <= highest)
    && (highest == 0 || exists p :: p in grants && p.agent == agent && grants[p].id == highest)
  }

  lemma {:induction false} HighestExists(grants: map<Pair, Grant>, agent: nat) returns (highest: nat)
    ensures IsHighest(grants, agent, highest)
    decreases grants.Keys
  {
    highest := 0;
    if p :| p in grants && p.agent == agent && grants[p].id > 0 {
      var rest := HighestExists(grants - {p}, agent);
      if rest < grants[p].id {
        highest := grants[p].id;
      } else {
        highest := rest;
        assert rest > 0;
        var q :| q in grants - {p} && q.agent == agent && (grants - {p})[q].id == rest;
        assert grants[q].id == rest;
      }
      assert forall x | x in grants :: x == p || x in grants - {p};
    }
  }

  /** coalesce(max(id), 0) over the Agent's grants */
  ghost function Highest(grants: map<Pair, Grant>, agent: nat): (highest: nat)
    ensures IsHighest(grants, agent, highest)
  {
    assert exists h :: IsHighest(grants, agent, h) by {
      var h := HighestExists(grants, agent);
    }
    var h :| IsHighest(grants, agent, h);
    h
  }

  /** `grant_cutoff_on_connection`; before 0007 a Run has no tool limits, and the upgrade fills in zeros. */
  ghost function Submitted(db: Db, agent: nat, maxToolCalls: nat): Budget {
    if !db.stageD then Budget(agent, 0, 0)
    else Budget(agent, maxToolCalls, if maxToolCalls == 0 then 0 else Highest(db.grants, agent))
  }

  /** `refuse_if_stage_d_state_exists`, as far as this model sees it. */
  predicate Preflight(db: Db) {
    && db.connections == map[] && db.definitions == map[] && db.grants == map[] && !db.otherState
    && forall r | r in db.runs :: db.runs[r].maxToolCalls == 0 && db.runs[r].cutoff == 0
  }

  // ----- the call-time decision -----

  datatype Decision = Allowed | NotGranted | GrantAfterRunCutoff | DefinitionUnavailable
    | DefinitionChanged | ConnectionDisabled | OwnerMismatch

  /** `evaluate_permission_on_connection`, check by check. */
  function Evaluate(db: Db, run: nat, tool: nat): Decision {
    if run !in db.runs then NotGranted
    else
      var r := db.runs[run];
      var p := Pair(r.agent, tool);
      if p !in db.grants then NotGranted
      else if db.grants[p].id > r.cutoff then GrantAfterRunCutoff
      else if tool !in db.definitions || !db.definitions[tool].available then DefinitionUnavailable
      else
        var d := db.definitions[tool];
        if db.grants[p].fingerprint != d.fingerprint then DefinitionChanged
        else if !d.isMcp then Allowed
        else if d.sourceId.None? then DefinitionUnavailable
        else if d.sourceId.value !in db.connections || !db.connections[d.sourceId.value].enabled then ConnectionDisabled
        else if r.agent !in db.agents then NotGranted
        else if db.connections[d.sourceId.value].owner != db.agents[r.agent].owner then OwnerMismatch
        else Allowed
  }

  // ----- runs of the system -----

  datatype Op =
    | GrantOp(owner: nat, pair: Pair)
    | RevokeOp(owner: nat, pair: Pair)
    | ReconfirmOp(owner: nat, pair: Pair)
    | SubmitOp(owner: nat, agent: nat, run: nat, maxToolCalls: nat)
    | ToolWork(state: bool)
    | Curate(agents: map<nat, Agent>, definitions: map<nat, Definition>, connections: map<nat, Connection>)
    | Downgrade
    | Upgrade

  /** The database with its history: when each grant present was inserted, and each Run submitted. */
  datatype System = System(db: Db, now: nat, born: map<Pair, nat>, submitted: map<nat, nat>)

  predicate Enabled(db: Db, op: Op) {
    match op
    case GrantOp(_, _) => db.stageD
    case RevokeOp(_, _) => db.stageD
    case ReconfirmOp(_, _) => db.stageD
    case SubmitOp(owner, agent, run, _) =>
      run !in db.runs && agent in db.agents && db.agents[agent] == Agent(owner, true)
    case ToolWork(_) => db.stageD
    case Curate(_, definitions, connections) => db.stageD || (definitions == map[] && connections == map[])
    case Downgrade => db.stageD && Preflight(db)
    case Upgrade => !db.stageD
  }

  ghost function Next(db: Db, op: Op): Db
    requires Enabled(db, op)
  {
    match op
    case GrantOp(owner, p) => GrantTool(db, owner, p).0
    case RevokeOp(owner, p) => RevokeTool(db, owner, p)
    case ReconfirmOp(owner, p) => ReconfirmTool(db, owner, p).0
    case SubmitOp(_, agent, run, tools) => db.(runs := db.runs[run := Submitted(db, agent, tools)])
    case ToolWork(state) => db.(otherState := state)
    case Curate(agents, definitions, connections) =>
      db.(agents := agents, definitions := definitions, connections := connections)
    case Downgrade => db.(stageD := false, issued := 0)
    case Upgrade => db.(stageD := true)
  }

  /** A pair's birth is the moment its present row was inserted. */
  ghost function Advance(s: System, op: Op): System
    requires Enabled(s.db, op)
  {
    var db := Next(s.db, op);
    System(db, s.now + 1,
      map p | p in db.grants :: if p in s.db.grants && p in s.born && db.grants[p] == s.db.grants[p] then s.born[p] else s.now,
      if op.SubmitOp? then s.submitted[op.run := s.now] else s.submitted)
  }

  ghost predicate IsRun(states: seq<System>, ops: seq<Op>) {
    && |states| == |ops| + 1
    && states[0] == System(Db(false, map[], map[], map[], map[], 0, map[], false), 0, map[], map[])
    && forall i | 0 <= i < |ops| :: Enabled(states[i].db, ops[i]) && states[i + 1] == Advance(states[i], ops[i])
  }

  /** A grant is within a Run's cutoff exactly when the Run has a tool budget and the grant's row is
      older than the Run. */
  predicate Dated(s: System, p: Pair, run: nat)
    requires p in s.db.grants && run in s.db.runs && p in s.born && run in s.submitted
  {
    var r := s.db.runs[run];
    p.agent == r.agent ==> (s.db.grants[p].id <= r.cutoff <==> r.maxToolCalls > 0 && s.born[p] < s.submitted[run])
  }

  ghost predicate Inv(s: System) {
    && s.born.Keys == s.db.grants.Keys && s.submitted.Keys == s.db.runs.Keys
    && (!s.db.stageD ==> s.db.grants == map[] && s.db.issued == 0)
    && (forall p | p in s.db.grants :: 0 < s.db.grants[p].id <= s.db.issued && s.born[p] < s.now)
    && (forall r | r in s.db.runs :: s.db.runs[r].cutoff <= s.db.issued && s.submitted[r] < s.now)
    && (forall p, r | p in s.db.grants && r in s.db.runs :: Dated(s, p, r))
  }

  /** Grants may only vanish, or appear under a fresh id. */
  ghost predicate GrantsChange(s: System, t: System) {
    && t.born.Keys == t.db.grants.Keys && t.now == s.now + 1
    && (t.db.grants != map[] ==> s.db.issued <= t.db.issued)
    && (!t.db.stageD ==> t.db.grants == map[] && t.db.issued == 0)
    && forall p | p in t.db.grants ::
        || (p in s.db.grants && p in s.born && t.db.grants[p] == s.db.grants[p] && t.born[p] == s.born[p])
        || (t.db.grants[p].id == t.db.issued == s.db.issued + 1 && t.born[p] == s.now && t.db.runs == s.db.runs)
  }

  /** Runs stay as submitted, under the counter; a new one covers the grants its Agent holds. */
  ghost predicate RunsChange(s: System, t: System) {
    && t.submitted.Keys == t.db.runs.Keys
    && (forall r | r in s.db.runs :: r in t.db.runs && t.db.runs[r] == s.db.runs[r] && t.db.runs[r].cutoff <= t.db.issued)
    && (forall r | r in s.submitted :: r in t.submitted && t.submitted[r] == s.submitted[r])
    && (forall r | r in t.db.runs && r !in s.db.runs :: t.submitted[r] == s.now && Covers(t, t.db.runs[r]))
  }

  ghost predicate Covers(t: System, r: Budget) {
    && r.cutoff <= t.db.issued
    && (r.maxToolCalls == 0 ==> r.cutoff == 0)
    && (r.maxToolCalls > 0 ==> forall p | p in t.db.grants && p.agent == r.agent :: t.db.grants[p].id <= r.cutoff)
  }

  lemma GrantsStep(s: System, op: Op)
    requires Inv(s) && Enabled(s.db, op)
    ensures GrantsChange(s, Advance(s, op))
  {
  }

  lemma SubmitStep(s: System, op: Op)
    requires Inv(s) && Enabled(s.db, op) && op.SubmitOp?
    ensures RunsChange(s, Advance(s, op))
  {
  }

  lemma RunsStep(s: System, op: Op)
    requires Inv(s) && Enabled(s.db, op)
    ensures RunsChange(s, Advance(s, op))
  {
    if op.SubmitOp? {
      SubmitStep(s, op);
    } else {
      var t := Advance(s, op);
      assert t.db.runs == s.db.runs && t.submitted == s.submitted;
      RunsStay(s, t);
    }
  }

  lemma RunsStay(s: System, t: System)
    requires Inv(s) && t.db.runs == s.db.runs && t.submitted == s.submitted
    requires s.db.issued <= t.db.issued || forall r | r in s.db.runs :: s.db.runs[r].cutoff == 0
    ensures RunsChange(s, t)
  {
  }

  lemma ChangeKeeps(s: System, t: System)
    requires Inv(s) && GrantsChange(s, t) && RunsChange(s, t)
    ensures Inv(t)
  {
    forall p, r | p in t.db.grants && r in t.db.runs ensures Dated(t, p, r) {
      if p in s.db.grants && r in s.db.runs {
        assert Dated(s, p, r);
      }
    }
  }

  lemma StepKeeps(s: System, op: Op)
    requires Inv(s) && Enabled(s.db, op)
    ensures Inv(Advance(s, op))
  {
    GrantsStep(s, op);
    RunsStep(s, op);
    ChangeKeeps(s, Advance(s, op));
  }

  lemma {:induction false} InvHolds(states: seq<System>, ops: seq<Op>, n: nat)
    requires IsRun(states, ops) && n <= |ops|
    ensures Inv(states[n])
  {
    if n > 0 {
      InvHolds(states, ops, n - 1);
      StepKeeps(states[n - 1], ops[n - 1]);
    }
  }

  // ----- what it is for -----

  /** The live conditions on the definition, its connection and the owners, without the grant ids. */
  predicate SourceOk(db: Db, agent: nat, tool: nat) {
    && tool in db.definitions && db.definitions[tool].available
    && (db.definitions[tool].isMcp ==>
        && db.definitions[tool].sourceId.Some?
        && var c := db.definitions[tool].sourceId.value;
           c in db.connections && db.connections[c].enabled
           && agent in db.agents && db.agents[agent].owner == db.connections[c].owner)
  }

  /** At every moment of every run, a call is allowed exactly when the Run was submitted with a tool
      budget, its Agent holds a grant whose row is older than the Run and which reviewed the
      definition as it is now, and the source is usable. No id appears on the right. */
  lemma AllowedExactly(states: seq<System>, ops: seq<Op>, n: nat, run: nat, tool: nat)
    requires IsRun(states, ops) && n <= |ops|
    ensures var s := states[n];
      Evaluate(s.db, run, tool).Allowed? <==>
        && run in s.db.runs && run in s.submitted && s.db.runs[run].maxToolCalls > 0
        && var p := Pair(s.db.runs[run].agent, tool);
           && p in s.db.grants && p in s.born && s.born[p] < s.submitted[run]
           && SourceOk(s.db, p.agent, tool)
           && s.db.grants[p].fingerprint == s.db.definitions[tool].fingerprint
  {
    InvHolds(states, ops, n);
    var s := states[n];
    if run in s.db.runs && Pair(s.db.runs[run].agent, tool) in s.db.grants {
      assert Dated(s, Pair(s.db.runs[run].agent, tool), run);
    }
  }

  /** The Run's Agent holds a grant of the tool within the Run's cutoff. */
  predicate Reaches(db: Db, run: nat, tool: nat) {
    run in db.runs && var p := Pair(db.runs[run].agent, tool); p in db.grants && db.grants[p].id <= db.runs[run].cutoff
  }

  /** A submitted Run never gains a capability: what it cannot reach now it can never call, whatever
      is granted, reconfirmed, downgraded or upgraded later. */
  lemma {:induction false} NeverGains(states: seq<System>, ops: seq<Op>, m: nat, n: nat, run: nat, tool: nat)
    requires IsRun(states, ops) && m <= n <= |ops|
    requires run in states[m].db.runs && !Reaches(states[m].db, run, tool)
    ensures run in states[n].db.runs && !Reaches(states[n].db, run, tool)
    ensures !Evaluate(states[n].db, run, tool).Allowed?
  {
    if m < n {
      NeverGains(states, ops, m, n - 1, run, tool);
      InvHolds(states, ops, n - 1);
      GrantsStep(states[n - 1], ops[n - 1]);
      RunsStep(states[n - 1], ops[n - 1]);
      StepNeverGains(states[n - 1], states[n], run, tool);
    }
  }

  lemma StepNeverGains(s: System, t: System, run: nat, tool: nat)
    requires Inv(s) && GrantsChange(s, t) && RunsChange(s, t)
    requires run in s.db.runs && !Reaches(s.db, run, tool)
    ensures run in t.db.runs && !Reaches(t.db, run, tool)
  {
  }

  /** Every tool the Run reaches was granted before it, so its set of capabilities only shrinks. */
  lemma CapabilitiesShrink(states: seq<System>, ops: seq<Op>, m: nat, n: nat, run: nat)
    requires IsRun(states, ops) && m <= n <= |ops| && run in states[m].db.runs
    ensures forall tool :: Reaches(states[n].db, run, tool) ==> Reaches(states[m].db, run, tool)
  {
    forall tool | Reaches(states[n].db, run, tool) ensures Reaches(states[m].db, run, tool) {
      if !Reaches(states[m].db, run, tool) {
        NeverGains(states, ops, m, n, run, tool);
      }
    }
  }

  /** The first grant of a recreated table, whose ids start over. */
  function FirstGrant(db: Db, p: Pair, fingerprint: string): Db {
    db.(grants := map[p := Grant(1, fingerprint)], issued := 1)
  }

  /** Restarting the ids is safe exactly because the preflight forces every surviving cutoff to 0:
      over an emptied table, no first grant reaches an older Run if and only if all cutoffs are 0. */
  lemma RestartIsSafeExactly(db: Db)
    ensures (forall p, run, fingerprint :: run in db.runs ==> !Reaches(FirstGrant(db, p, fingerprint), run, p.tool))
       <==> (forall run | run in db.runs :: db.runs[run].cutoff == 0)
  {
    if run :| run in db.runs && db.runs[run].cutoff > 0 {
      assert Reaches(FirstGrant(db, Pair(db.runs[run].agent, 0), ""), run, Pair(db.runs[run].agent, 0).tool);
    }
  }
}
