/** How the execution protocol meets its neighbours: the rows it writes and the CHECKs on `runs`, and
    the events it appends and the timeline a client replicates. */
module Links {
  import Sql
  import E = Execution
  import C = RunChecks
  import T = Timeline
  import R = Replication
  import B = Budget
  import S = Safety

  // ----- rows -----

  function StatusWord(s: E.Status): Sql.Word {
    match s
    case Created => Sql.Created
    case Running => Sql.Running
    case Succeeded => Sql.Succeeded
    case Failed => Sql.Failed
    case Cancelled => Sql.Cancelled
    case _ => Sql.Free("")
  }

  function CodeWord(c: E.Code): Sql.Word {
    match c
    case RecoveryExhausted => Sql.RecoveryExhausted
    case RateLimited => Sql.Free("model_rate_limited")
    case OutcomeAmbiguous => Sql.Free("execution_outcome_ambiguous")
    case OtherCode(text) => Sql.Free(text)
  }

  function Instant(t: Sql.Option<int>): Sql.Value { if t.Some? then Sql.Num(t.value) else Sql.Null }

  predicate Usage(v: Sql.Value) { v == Sql.Null || (v.Num? && v.n >= 0) }

  /** The columns a transaction writes beside those the protocol branches on: output and finish reason
      on success, a nonblank message with every failure, token usage where a Worker reported it. */
  predicate Written(r: E.Run, nb: C.TextTest, l: C.Life) {
    && l.status == Sql.Text(StatusWord(r.status)) && l.created == Sql.Num(r.created)
    && l.started == Instant(r.started) && l.finished == Instant(r.finished) && l.elapsed == Instant(r.elapsed)
    && l.code == (if r.code.Some? then Sql.Text(CodeWord(r.code.value)) else Sql.Null)
    && (if r.status == E.Succeeded then l.output.Text? && nb(l.output.w) else l.output == Sql.Null && l.reason == Sql.Null)
    && (if r.status == E.Failed then l.message.Text? && nb(l.message.w) else l.message == Sql.Null)
    && Usage(l.inputTokens) && Usage(l.outputTokens) && Usage(l.totalTokens)
    && (!(r.status == E.Succeeded || (r.status == E.Failed && r.started.Some?)) ==>
        l.inputTokens == Sql.Null && l.outputTokens == Sql.Null && l.totalTokens == Sql.Null)
  }

  /** The CHECKs of revision 0005 leave room for an eighth shape; the protocol never writes it. Every
      row of every reachable state has one of the seven, and every CHECK passes on it. */
  lemma OnlyTheSeven(states: seq<E.State>, steps: seq<E.Step>, n: nat, nb: C.TextTest, l: C.Life)
    requires E.IsRun(states, steps) && n <= |steps| && Written(states[n].run, nb, l)
    ensures C.ChecksPass(C.C5, nb, l) && C.HasShape(C.ShapeOf(l), nb, l)
    ensures !C.ShapeOf(l).UncodedFailure? && !C.ShapeOf(l).MiscodedFailure?
  {
    E.InvHolds(states, steps, n);
    ShapeOfRow(states[n], nb, l);
    C.AdmittedExactly(C.C5, nb, l);
  }

  lemma ShapeOfRow(s: E.State, nb: C.TextTest, l: C.Life)
    requires E.Inv(s) && Written(s.run, nb, l)
    ensures C.WellTyped(l) && C.InBounds(l) && C.HasShape(C.ShapeOf(l), nb, l)
    ensures !C.ShapeOf(l).UncodedFailure? && !C.ShapeOf(l).MiscodedFailure?
  {
  }

  // ----- events -----

  /** The log the server publishes, whatever the rendering of an event. */
  function LogOf(events: seq<E.Event>, body: E.Kind -> string): seq<T.RunEvent> {
    seq(|events|, i requires 0 <= i < |events| => T.RunEvent(events[i].sequence, body(events[i].kind)))
  }

  /** What replication assumes of the server, the protocol provides: at every moment the log is
      strictly ascending and positive, and it only grows. */
  lemma ProtocolServesALog(states: seq<E.State>, steps: seq<E.Step>, m: nat, n: nat, body: E.Kind -> string)
    requires E.IsRun(states, steps) && m <= n <= |steps|
    ensures T.IsLog(LogOf(states[n].events, body))
    ensures LogOf(states[m].events, body) <= LogOf(states[n].events, body)
  {
    E.InvHolds(states, steps, n);
    S.TimelineIsAppendOnly(states, steps, m, n);
  }

  /** After one open approval is closed. */
  function Decided(s: E.State, now: int): Sql.Option<E.State> { E.Apply(s, E.CloseApproval(now, s.approved > 0)) }

  /** The log of a terminal Run holds its closing event, and grows by at most one entry for each
      approval that was open: with none open it is final, and with one open it can still grow. */
  lemma TerminalLogIsAlmostFinal(states: seq<E.State>, steps: seq<E.Step>, m: nat, n: nat, body: E.Kind -> string)
    requires E.IsRun(states, steps) && m <= n <= |steps| && E.Terminal(states[m].run.status)
    ensures exists at: nat :: E.ClosedAt(states[m].run, states[m].events, at)
    ensures |LogOf(states[n].events, body)| <= |LogOf(states[m].events, body)| + E.OpenApprovals(states[m])
    ensures E.OpenApprovals(states[m]) == 0 ==> LogOf(states[n].events, body) == LogOf(states[m].events, body)
    ensures E.OpenApprovals(states[m]) > 0 ==> forall now ::
      Decided(states[m], now).Some? && |LogOf(Decided(states[m], now).value.events, body)| == |LogOf(states[m].events, body)| + 1
  {
    E.InvHolds(states, steps, m);
    S.TimelineIsAppendOnly(states, steps, m, n);
    S.TerminalIsForever(states, steps, m, n);
  }

  // ----- the client of a terminal Run -----

  /** No hook is mounted anew, sees the Run live again or comes back online, and the cache stays. */
  predicate Undisturbed(acts: seq<R.Step>, from: nat) { forall i | from <= i < |acts| :: R.IsQuiet(acts[i]) }

  /** The protocol and an undisturbed client go on, and the client's server holds the protocol's log. */
  ghost predicate Continues(
    states: seq<E.State>, steps: seq<E.Step>, clients: seq<R.System>, acts: seq<R.Step>,
    states': seq<E.State>, steps': seq<E.Step>, clients': seq<R.System>, acts': seq<R.Step>,
    limit: nat, body: E.Kind -> string)
    requires limit > 0
  {
    && E.IsRun(states', steps') && states <= states' && steps <= steps'
    && R.IsRun(clients', acts', limit) && clients <= clients' && acts <= acts' && Undisturbed(acts', |acts|)
    && clients'[|acts'|].log == LogOf(states'[|steps'|].events, body)
  }

  /** A client that is caught up with a terminal Run. */
  ghost predicate CaughtUp(
    states: seq<E.State>, steps: seq<E.Step>, clients: seq<R.System>, acts: seq<R.Step>, limit: nat, body: E.Kind -> string)
    requires limit > 0
  {
    && E.IsRun(states, steps) && E.Terminal(states[|steps|].run.status)
    && R.IsRun(clients, acts, limit) && R.RemovesOnlySafely(clients, acts, |acts|)
    && var c := clients[|acts|];
      c.observed && c.drains == map[] && c.log == LogOf(states[|steps|].events, body) && R.Applied(c) == c.log
  }

  lemma LogStays(
    states: seq<E.State>, steps: seq<E.Step>, clients: seq<R.System>, acts: seq<R.Step>,
    states': seq<E.State>, steps': seq<E.Step>, clients': seq<R.System>, acts': seq<R.Step>,
    limit: nat, body: E.Kind -> string)
    requires limit > 0 && CaughtUp(states, steps, clients, acts, limit, body) && E.OpenApprovals(states[|steps|]) == 0
    requires Continues(states, steps, clients, acts, states', steps', clients', acts', limit, body)
    ensures R.Applied(clients'[|acts'|]) == clients'[|acts'|].log
  {
    assert states'[|steps|] == states[|steps|] && clients'[|acts|] == clients[|acts|];
    TerminalLogIsAlmostFinal(states', steps', |steps|, |steps'|, body);
    forall i | 0 <= i < |acts'| && acts'[i].RemoveCache? ensures R.RemovalIsSafe(clients'[i]) {
      assert i < |acts|;
      assert acts'[i] == acts[i] && clients'[i] == clients[i];
    }
    R.QuietIsFrozen(clients', acts', limit, |acts|, |acts'|);
  }

  lemma LogGrows(
    states: seq<E.State>, steps: seq<E.Step>, clients: seq<R.System>, acts: seq<R.Step>, limit: nat, body: E.Kind -> string)
    returns (states': seq<E.State>, steps': seq<E.Step>, clients': seq<R.System>, acts': seq<R.Step>)
    requires limit > 0 && CaughtUp(states, steps, clients, acts, limit, body) && E.OpenApprovals(states[|steps|]) > 0
    ensures Continues(states, steps, clients, acts, states', steps', clients', acts', limit, body)
    ensures R.Applied(clients'[|acts'|]) != clients'[|acts'|].log
  {
    var c := clients[|acts|];
    states', steps' := E.Extend(states, steps, E.CloseApproval(0, states[|steps|].approved > 0));
    var longer := LogOf(states'[|steps'|].events, body);
    assert states'[|steps|] == states[|steps|];
    ProtocolServesALog(states', steps', |steps|, |steps'|, body);
    TerminalLogIsAlmostFinal(states, steps, |steps|, |steps|, body);
    var batch := longer[|c.log|..];
    assert c.log + batch == longer;
    clients', acts' := R.Extend(clients, acts, limit, R.Append(batch));
  }

  /** A client caught up with a terminal Run keeps showing the whole log, in every continuation of the
      protocol and of its own undisturbed life, if and only if no approval was left open. */
  lemma StaysWholeExactly(
    states: seq<E.State>, steps: seq<E.Step>, clients: seq<R.System>, acts: seq<R.Step>, limit: nat, body: E.Kind -> string)
    requires limit > 0 && CaughtUp(states, steps, clients, acts, limit, body)
    ensures E.OpenApprovals(states[|steps|]) == 0 <==>
      forall states', steps', clients': seq<R.System>, acts' |
        Continues(states, steps, clients, acts, states', steps', clients', acts', limit, body) ::
        R.Applied(clients'[|acts'|]) == clients'[|acts'|].log
  {
    if E.OpenApprovals(states[|steps|]) == 0 {
      forall states', steps', clients': seq<R.System>, acts' |
        Continues(states, steps, clients, acts, states', steps', clients', acts', limit, body)
        ensures R.Applied(clients'[|acts'|]) == clients'[|acts'|].log
      {
        LogStays(states, steps, clients, acts, states', steps', clients', acts', limit, body);
      }
    } else {
      var states', steps', clients', acts' := LogGrows(states, steps, clients, acts, limit, body);
    }
  }

  lemma AskedAndCancelled() returns (states: seq<E.State>, steps: seq<E.Step>)
    ensures E.IsRun(states, steps) && states[|steps|].run.status == E.Cancelled
    ensures E.OpenApprovals(states[|steps|]) == 1 && |states[|steps|].events| == 8
  {
    states, steps := Asked();
    E.InvHolds(states, steps, |steps|);
    E.AppendMeans(states[|steps|].events, [E.CancellationRequested] + E.Repeat(E.ToolEvent, 0) + [E.RunClosed(E.Cancelled)]);
    states, steps := E.Extend(states, steps, E.Cancel(2));
  }

  lemma Asked() returns (states: seq<E.State>, steps: seq<E.Step>)
    ensures E.IsRun(states, steps) && states[|steps|].run.status == E.Running
    ensures E.Apply(states[|steps|], E.Cancel(2)).Some? && E.Unconcluded(states[|steps|]) == 0
    ensures E.OpenApprovals(states[|steps|]) == 1 && |states[|steps|].events| == 6
  {
    states, steps := S.StartHappens();
    E.InvHolds(states, steps, |steps|);
    E.AppendMeans(states[|steps|].events, [E.ToolEvent]);
    states, steps := E.Extend(states, steps, E.RequestTool(1, 0));
    E.InvHolds(states, steps, |steps|);
    E.AppendMeans(states[|steps|].events, [E.ApprovalRequested]);
    states, steps := E.Extend(states, steps, E.AskApproval(1, 0));
  }

  /** It happens: a Run is cancelled while an approval is open, and a client mounts, reads its eight
      events and is caught up. */
  lemma LateDecisionHappens(limit: nat, body: E.Kind -> string)
    returns (states: seq<E.State>, steps: seq<E.Step>, clients: seq<R.System>, acts: seq<R.Step>)
    requires limit > 8
    ensures CaughtUp(states, steps, clients, acts, limit, body) && E.OpenApprovals(states[|steps|]) > 0
  {
    states, steps := AskedAndCancelled();
    ProtocolServesALog(states, steps, |steps|, |steps|, body);
    TerminalLogIsAlmostFinal(states, steps, |steps|, |steps|, body);
    clients, acts := R.CatchesUp(LogOf(states[|steps|].events, body), limit);
  }

  // ----- the page bound and the budgets -----

  /** A page size at which fifty pages hold every log the budgets allow; the client's is 50. */
  predicate Roomy(limit: nat) { 50 * limit > 1004 }

  /** On the logs this protocol writes, at roomy pages, a drain never gives up: whatever is appended
      while it reads, one of its fifty pages is short. */
  lemma DrainsEnd(states: seq<E.State>, steps: seq<E.Step>, at: seq<nat>, start: int, limit: nat, body: E.Kind -> string)
    requires E.IsRun(states, steps) && Roomy(limit)
    requires |at| == R.MAX_DRAIN_PAGES && forall k | 0 <= k < |at| :: at[k] < |states|
    ensures var logs := seq(|at|, k requires 0 <= k < |at| => LogOf(states[at[k]].events, body));
      exists k :: 0 <= k < R.MAX_DRAIN_PAGES && !R.PageFull(logs, k, start, limit)
  {
    var logs := seq(|at|, k requires 0 <= k < |at| => LogOf(states[at[k]].events, body));
    B.LogIsBounded(states, steps, at[49]);
    R.CapacityIs(50, limit);
    assert !R.PageFull(logs, 49, start, limit);
  }

  /** So the page bound caps nothing there: a client of such a Run is never fifty pages behind, and can
      always gain more by itself until it shows the whole log. */
  lemma ClientCanCatchUp(
    states: seq<E.State>, steps: seq<E.Step>, clients: seq<R.System>, acts: seq<R.Step>, n: nat, m: nat, limit: nat, body: E.Kind -> string)
    requires Roomy(limit) && E.IsRun(states, steps) && n <= |steps|
    requires R.IsRun(clients, acts, limit) && m <= |acts| && R.RemovesOnlySafely(clients, acts, m)
    requires clients[m].log == LogOf(states[n].events, body)
    ensures !R.Overflowed(clients[m], limit)
    ensures R.CanGain(clients[m], limit) <==> R.Applied(clients[m]) != clients[m].log
  {
    B.LogIsBounded(states, steps, n);
    R.CapacityIs(50, limit);
    R.InvHolds(clients, acts, limit, m);
    R.UnreadIsRest(clients[m]);
    R.GainsExactly(clients, acts, limit, m);
  }
}
