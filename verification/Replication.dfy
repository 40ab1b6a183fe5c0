/** A client replicating one Run's append-only log through keyset pages: `drainRunEvents` alone,
    and then any interleaving of appends, overlapping drains, completions, aborts, cache removal
    and the observation that the Run is terminal.

    The cache write of a drain is one atomic step: `setQueryData` with an updater, followed by the
    library storing the value that updater returned. */
module Replication {
  import opened Sql
  import opened Timeline

  const MAX_DRAIN_PAGES: nat := 50

  // ----- one drain -----

  /** How many events so many full pages hold. */
  function Capacity(pages: nat, limit: nat): nat { if pages == 0 then 0 else Capacity(pages - 1, limit) + limit }

  lemma {:induction false} CapacityIs(pages: nat, limit: nat)
    ensures Capacity(pages, limit) == pages * limit
  {
    if pages > 0 {
      CapacityIs(pages - 1, limit);
    }
  }

  lemma {:induction false} CapacityGrows(few: nat, many: nat, limit: nat)
    requires few <= many
    ensures Capacity(few, limit) <= Capacity(many, limit)
  {
    if few < many {
      CapacityGrows(few, many - 1, limit);
    }
  }

  /** The log as the server holds it when each request of a drain is answered. */
  predicate Growing(logs: seq<seq<RunEvent>>) {
    && |logs| == MAX_DRAIN_PAGES
    && (forall k | 0 <= k < |logs| :: IsLog(logs[k]))
    && (forall k | 0 < k < |logs| :: logs[k - 1] <= logs[k])
  }

  /** Request k finds more than k full pages after the starting cursor, so its page is full. */
  predicate PageFull(logs: seq<seq<RunEvent>>, k: nat, start: int, limit: nat)
    requires k < |logs|
  {
    |Unread(logs[k], start)| >= Capacity(k + 1, limit)
  }

  function CursorAfter(start: int, items: seq<RunEvent>): int {
    if items == [] then start else items[|items| - 1].sequence
  }

  /** What the requests from `page` on add to the items collected so far, and the last request. */
  function DrainFrom(logs: seq<seq<RunEvent>>, page: nat, cursor: int, items: seq<RunEvent>, limit: nat)
    : (Option<seq<RunEvent>>, nat)
    requires limit > 0 && page <= |logs|
    decreases |logs| - page
  {
    if page == |logs| then (None, page)
    else
      var response := PageItems(logs[page], cursor, limit);
      var next := Continuation(response, limit);
      if next.None? then (Some(items + response), page + 1)
      else DrainFrom(logs, page + 1, next.value, items + response, limit)
  }

  /** `drainRunEvents` from the cursor it captured, up to its cache write. It gives up exactly when
      all fifty pages were full. Otherwise it returns everything after the cursor that the server
      held when it answered the last request. */
  method DrainRunEvents(start: int, logs: seq<seq<RunEvent>>, limit: nat)
    returns (collected: Option<seq<RunEvent>>, requests: nat)
    requires limit > 0 && Growing(logs)
    ensures 1 <= requests <= MAX_DRAIN_PAGES
    ensures forall k | 0 <= k < requests - 1 :: PageFull(logs, k, start, limit)
    ensures collected.None? <==> forall k | 0 <= k < MAX_DRAIN_PAGES :: PageFull(logs, k, start, limit)
    ensures collected.Some? ==>
      !PageFull(logs, requests - 1, start, limit) && collected.value == Unread(logs[requests - 1], start)
  {
    DrainMeans(logs, 0, start, [], limit);
    var items: seq<RunEvent> := [];
    var cursor := start;
    var page := 0;
    while page < MAX_DRAIN_PAGES
      invariant 0 <= page <= MAX_DRAIN_PAGES
      invariant DrainFrom(logs, page, cursor, items, limit) == DrainFrom(logs, 0, start, [], limit)
    {
      var response := PageItems(logs[page], cursor, limit);
      items := items + response;
      var next := Continuation(response, limit);
      if next.None? {
        return Some(items), page + 1;
      }
      cursor := next.value;
      page := page + 1;
    }
    return None, MAX_DRAIN_PAGES;
  }

  /** What a drain from request `page` on comes to. */
  ghost predicate DrainsTo(
    logs: seq<seq<RunEvent>>, page: nat, start: int, limit: nat, collected: Option<seq<RunEvent>>, requests: nat)
  {
    && page <= requests <= |logs| && (page < |logs| ==> page < requests)
    && (forall k | page <= k < requests - 1 :: PageFull(logs, k, start, limit))
    && (collected.None? <==> forall k | page <= k < |logs| :: PageFull(logs, k, start, limit))
    && (collected.Some? ==> page < requests && !PageFull(logs, requests - 1, start, limit))
    && (collected.Some? ==> page < requests && collected.value == Unread(logs[requests - 1], start))
  }

  lemma {:induction false} DrainMeans(logs: seq<seq<RunEvent>>, page: nat, start: int, items: seq<RunEvent>, limit: nat)
    requires limit > 0 && Growing(logs) && page <= |logs| && |items| == Capacity(page, limit)
    requires page > 0 ==> items <= Unread(logs[page - 1], start)
    ensures var drained := DrainFrom(logs, page, CursorAfter(start, items), items, limit);
      DrainsTo(logs, page, start, limit, drained.0, drained.1)
    decreases |logs| - page
  {
    if page < |logs| {
      if PageFull(logs, page, start, limit) {
        var more := FullPage(logs, page, start, items, limit);
        DrainMeans(logs, page + 1, start, more, limit);
        var drained := DrainFrom(logs, page + 1, CursorAfter(start, more), more, limit);
        DrainsOneMore(logs, page, start, limit, drained.0, drained.1);
      } else {
        LastPage(logs, page, start, items, limit);
        DrainsHere(logs, page, start, limit);
      }
    }
  }

  lemma DrainsOneMore(
    logs: seq<seq<RunEvent>>, page: nat, start: int, limit: nat, collected: Option<seq<RunEvent>>, requests: nat)
    requires page < |logs| && PageFull(logs, page, start, limit) && DrainsTo(logs, page + 1, start, limit, collected, requests)
    ensures DrainsTo(logs, page, start, limit, collected, requests)
  {
  }

  lemma DrainsHere(logs: seq<seq<RunEvent>>, page: nat, start: int, limit: nat)
    requires page < |logs| && !PageFull(logs, page, start, limit)
    ensures DrainsTo(logs, page, start, limit, Some(Unread(logs[page], start)), page + 1)
  {
  }

  lemma FullPage(logs: seq<seq<RunEvent>>, page: nat, start: int, items: seq<RunEvent>, limit: nat)
    returns (more: seq<RunEvent>)
    requires limit > 0 && Growing(logs) && page < |logs| && |items| == Capacity(page, limit)
    requires page > 0 ==> items <= Unread(logs[page - 1], start)
    requires PageFull(logs, page, start, limit)
    ensures |more| == Capacity(page + 1, limit) && more <= Unread(logs[page], start)
    ensures DrainFrom(logs, page, CursorAfter(start, items), items, limit)
         == DrainFrom(logs, page + 1, CursorAfter(start, more), more, limit)
  {
    NextPage(logs, page, start, items, limit);
    more := items + PageItems(logs[page], CursorAfter(start, items), limit);
  }

  lemma LastPage(logs: seq<seq<RunEvent>>, page: nat, start: int, items: seq<RunEvent>, limit: nat)
    requires limit > 0 && Growing(logs) && page < |logs| && |items| == Capacity(page, limit)
    requires page > 0 ==> items <= Unread(logs[page - 1], start)
    requires !PageFull(logs, page, start, limit)
    ensures DrainFrom(logs, page, CursorAfter(start, items), items, limit)
         == (Some(Unread(logs[page], start)), page + 1)
  {
    NextPage(logs, page, start, items, limit);
  }

  /** One more page after having collected a prefix of what was unread. */
  lemma PageContinues(log: seq<RunEvent>, start: int, items: seq<RunEvent>, limit: nat)
    requires IsLog(log) && limit > 0 && items <= Unread(log, start)
    ensures var more := PageItems(log, CursorAfter(start, items), limit);
      && items + more <= Unread(log, start)
      && |more| <= limit
      && (|more| == limit <==> |Unread(log, start)| >= |items| + limit)
      && (|more| < limit ==> items + more == Unread(log, start))
  {
    var all := Unread(log, start);
    var cursor := CursorAfter(start, items);
    if items != [] {
      assert items[|items| - 1] == all[|items| - 1];
      Resume(log, start, |items|);
    }
    assert Unread(log, cursor) == all[|items|..];
  }

  lemma NextPage(logs: seq<seq<RunEvent>>, page: nat, start: int, items: seq<RunEvent>, limit: nat)
    requires limit > 0 && Growing(logs) && page < |logs| && |items| == Capacity(page, limit)
    requires page > 0 ==> items <= Unread(logs[page - 1], start)
    ensures var more := PageItems(logs[page], CursorAfter(start, items), limit);
      && items + more <= Unread(logs[page], start)
      && |more| <= limit
      && (|more| == limit <==> PageFull(logs, page, start, limit))
      && (|more| < limit ==> items + more == Unread(logs[page], start))
      && (|more| == limit ==> CursorAfter(start, items + more) == more[|more| - 1].sequence)
  {
    if page > 0 {
      UnreadGrows(logs[page - 1], logs[page], start);
    }
    PageContinues(logs[page], start, items, limit);
  }

  /** Against a log nobody appends to, a drain gives up exactly when fifty full pages are unread.
      So the page bound is a cap on coverage as well as a guard against an endless server. */
  lemma QuiescentDrain(logs: seq<seq<RunEvent>>, log: seq<RunEvent>, start: int, limit: nat)
    requires limit > 0 && IsLog(log) && |logs| == MAX_DRAIN_PAGES && forall k | 0 <= k < |logs| :: logs[k] == log
    ensures (forall k | 0 <= k < MAX_DRAIN_PAGES :: PageFull(logs, k, start, limit))
       <==> |Unread(log, start)| >= MAX_DRAIN_PAGES * limit
  {
    CapacityIs(MAX_DRAIN_PAGES, limit);
    if |Unread(log, start)| >= MAX_DRAIN_PAGES * limit {
      forall k | 0 <= k < MAX_DRAIN_PAGES ensures PageFull(logs, k, start, limit) {
        CapacityGrows(k + 1, MAX_DRAIN_PAGES, limit);
      }
    } else {
      assert !PageFull(logs, MAX_DRAIN_PAGES - 1, start, limit);
    }
  }

  /** What lies after a cached prefix of a log is the rest of that log, and merging it completes it. */
  lemma RestCompletes(log: seq<RunEvent>, applied: seq<RunEvent>)
    requires IsLog(log) && applied <= log
    ensures Merge(applied, Unread(log, LastApplied(applied))) == log
  {
    var k := |applied|;
    assert applied == log[..k] && log[k..|log|] == log[k..] && log[..|log|] == log;
    UptoIs(log, LastApplied(applied), k);
    MergeExtendsPrefix(log, k, k, |log|);
  }

  /** The cache entry of one Run's timeline. */
  class Entry {
    var data: Option<seq<RunEvent>>

    constructor ()
      ensures data == None
    {
      data := None;
    }

    function Timeline(): seq<RunEvent>
      reads this
    {
      if data.Some? then data.value else []
    }

    /** A drain nothing else interleaves with: it leaves the whole log as the server held it at the
        last request, or gives up on fifty full pages and leaves the entry alone. */
    method Drain(logs: seq<seq<RunEvent>>, limit: nat) returns (ok: bool, requests: nat)
      requires limit > 0 && Growing(logs) && Timeline() <= logs[0]
      modifies this
      ensures 1 <= requests <= MAX_DRAIN_PAGES
      ensures ok <==> exists k :: 0 <= k < MAX_DRAIN_PAGES && !PageFull(logs, k, LastApplied(old(Timeline())), limit)
      ensures data == if ok then Some(logs[requests - 1]) else old(data)
    {
      var cursor := LastApplied(Timeline());
      var collected;
      collected, requests := DrainRunEvents(cursor, logs, limit);
      if collected.None? {
        return false, requests;
      }
      GrownSince(logs, requests - 1);
      RestCompletes(logs[requests - 1], Timeline());
      var merged := MergeRunEvents(Timeline(), collected.value);
      MergeIs(Timeline(), collected.value, merged);
      data := Some(merged);
      return true, requests;
    }
  }

  lemma {:induction false} GrownSince(logs: seq<seq<RunEvent>>, k: nat)
    requires Growing(logs) && k < |logs|
    ensures logs[0] <= logs[k]
  {
    if k > 0 {
      GrownSince(logs, k - 1);
    }
  }

  // ----- the system -----

  /** A drain in flight. `seen` is how much of the log existed when its last page was read; `final`
      marks the fetch issued on observing a terminal Run, or on mounting one already terminal. */
  datatype Drain = Drain(start: int, collected: seq<RunEvent>, pages: nat, done: bool, seen: nat, final: bool)

  /** `terminal` is the length of the log at the commit that made the Run terminal. `observed` and
      `awaiting` are the hook's `isTerminal` argument and its `awaitingTerminalDrain` ref. The last
      two are history: a final drain has been applied to this cache; the latest one was lost. */
  datatype System = System(
    log: seq<RunEvent>, terminal: Option<nat>,
    cache: Option<seq<RunEvent>>, drains: map<nat, Drain>,
    observed: bool, awaiting: bool, caughtUp: bool, lost: bool)

  const INITIAL := System([], None, None, map[], false, true, false, false)

  function Applied(s: System): seq<RunEvent> { if s.cache.Some? then s.cache.value else [] }

  function Cursor(s: System): int { LastApplied(Applied(s)) }

  datatype Step =
    | Append(batch: seq<RunEvent>)
    | Terminate(batch: seq<RunEvent>)
    | Mount(id: nat, isTerminal: bool)
    | Render(id: nat, isTerminal: bool)
    | Poll(id: nat)
    | Reconnect(id: nat)
    | ReadPage(id: nat)
    | Complete(id: nat)
    | Abort(id: nat)
    | RemoveCache

  /** A hook sees a terminal status only after it was committed; the interval runs only while the
      hook has not, while regaining the network refetches whatever the status; a drain that has read
      fifty pages can only throw. */
  predicate Enabled(s: System, step: Step) {
    match step
    case Append(batch) => IsLog(s.log + batch)
    case Terminate(batch) => s.terminal.None? && batch != [] && IsLog(s.log + batch)
    case Mount(id, isTerminal) => id !in s.drains && (isTerminal ==> s.terminal.Some?)
    case Render(id, isTerminal) => id !in s.drains && (isTerminal ==> s.terminal.Some?)
    case Poll(id) => id !in s.drains && !s.observed
    case Reconnect(id) => id !in s.drains
    case ReadPage(id) => id in s.drains && !s.drains[id].done && s.drains[id].pages < MAX_DRAIN_PAGES
    case Complete(id) => id in s.drains && s.drains[id].done
    case Abort(id) => id in s.drains
    case RemoveCache => true
  }

  /** The steps that may start a drain, and those whose drain is the final one. */
  predicate IsFetch(step: Step) { step.Mount? || step.Render? || step.Poll? || step.Reconnect? }

  predicate AsksFinal(step: Step) { (step.Mount? || step.Render?) && step.isTerminal }

  /** The drain after its next page response. */
  function PageRead(log: seq<RunEvent>, d: Drain, limit: nat): Drain
    requires limit > 0
  {
    var response := PageItems(log, CursorAfter(d.start, d.collected), limit);
    var more := d.(collected := d.collected + response, pages := d.pages + 1);
    if Continuation(response, limit).None? then more.(done := true, seen := |log|) else more
  }

  function Open(s: System, id: nat, final: bool): System {
    s.(drains := s.drains[id := Drain(Cursor(s), [], 0, false, 0, final)], lost := s.lost && !final)
  }

  ghost function Next(s: System, step: Step, limit: nat): System
    requires limit > 0 && Enabled(s, step)
  {
    match step
    case Append(batch) => s.(log := s.log + batch)
    case Terminate(batch) => s.(log := s.log + batch, terminal := Some(|s.log + batch|))
    // `useQuery` fetches on mount; the effect refetches only if the ref says so, and it does not yet
    case Mount(id, isTerminal) => Open(s, id, isTerminal).(observed := isTerminal, awaiting := !isTerminal)
    case Render(id, isTerminal) =>
      if !isTerminal then s.(observed := false, awaiting := true)
      else if !s.awaiting then s.(observed := true)
      else Open(s, id, true).(observed := true, awaiting := false)
    case Poll(id) => Open(s, id, false)
    case Reconnect(id) => Open(s, id, false)
    case ReadPage(id) => s.(drains := s.drains[id := PageRead(s.log, s.drains[id], limit)])
    case Complete(id) =>
      var d := s.drains[id];
      s.(cache := Some(Merge(Applied(s), d.collected)), drains := s.drains - {id}, caughtUp := s.caughtUp || d.final)
    case Abort(id) => s.(drains := s.drains - {id}, lost := s.lost || s.drains[id].final)
    case RemoveCache => s.(cache := None, caughtUp := false, lost := true)
  }

  /** Logout may remove the cache entry while drains are in flight; this is when that is harmless. */
  predicate RemovalIsSafe(s: System) { forall id | id in s.drains :: s.drains[id].start == 0 }

  // ----- the invariant -----

  /** What a drain in flight has collected is a stretch of the log that the cache reaches. */
  predicate DrainOk(log: seq<RunEvent>, terminal: Option<nat>, cursor: int, d: Drain, limit: nat) {
    && 0 <= d.start <= cursor
    && (d.start > 0 ==> log != [] && log[0].sequence <= d.start)
    && d.collected <= Unread(log, d.start)
    && (!d.done ==> |d.collected| == Capacity(d.pages, limit))
    && (d.done ==> d.seen <= |log| && d.collected == Unread(log[..d.seen], d.start))
    && (d.final ==> terminal.Some? && (d.done ==> terminal.value <= d.seen))
  }

  predicate DrainsOk(s: System, limit: nat) {
    forall id | id in s.drains :: DrainOk(s.log, s.terminal, Cursor(s), s.drains[id], limit)
  }

  /** The cached timeline is exactly the log up to its last sequence: a prefix of it. */
  predicate CacheOk(s: System) {
    && IsLog(s.log)
    && Applied(s) <= s.log
    && (s.terminal.Some? ==> s.terminal.value <= |s.log|)
    && (s.caughtUp ==> s.terminal.Some? && s.terminal.value <= |Applied(s)|)
  }

  ghost predicate FinalInFlight(s: System) { exists id :: id in s.drains && s.drains[id].final }

  /** The hook never lets a terminal Run go unfetched. */
  ghost predicate HookOk(s: System) {
    && (s.observed ==> !s.awaiting)
    && (!s.awaiting ==> FinalInFlight(s) || s.caughtUp || s.lost)
  }

  ghost predicate Inv(s: System, limit: nat) { CacheOk(s) && DrainsOk(s, limit) && HookOk(s) }

  /** The prefix reading: no entry of the log at or before the cursor is missing, none is foreign,
      none is repeated. */
  lemma PrefixMeansExact(s: System)
    requires CacheOk(s)
    ensures Ascending(Applied(s))
    ensures forall e :: e in Applied(s) <==> e in s.log && e.sequence <= Cursor(s)
  {
  }

  // ----- every step keeps it -----

  lemma DrainGrows(s: System, t: System, d: Drain, limit: nat)
    requires DrainOk(s.log, s.terminal, Cursor(s), d, limit) && IsLog(t.log) && s.log <= t.log
    requires Cursor(s) <= Cursor(t) || d.start == 0 <= Cursor(t)
    requires s.terminal.Some? ==> t.terminal == s.terminal
    ensures DrainOk(t.log, t.terminal, Cursor(t), d, limit)
  {
    UnreadGrows(s.log, t.log, d.start);
    if d.done {
      SeenStays(s.log, t.log, d.seen);
    }
  }

  lemma SeenStays(log: seq<RunEvent>, longer: seq<RunEvent>, seen: nat)
    requires log <= longer && seen <= |log|
    ensures log[..seen] == longer[..seen]
  {
  }

  /** Drains in flight stay sound while the log grows and the cursor does not fall below them. */
  lemma DrainsGrow(s: System, t: System, limit: nat)
    requires DrainsOk(s, limit) && IsLog(t.log) && s.log <= t.log
    requires Cursor(s) <= Cursor(t) || (RemovalIsSafe(s) && 0 <= Cursor(t))
    requires s.terminal.Some? ==> t.terminal == s.terminal
    requires forall id | id in t.drains :: id in s.drains && t.drains[id] == s.drains[id]
    ensures DrainsOk(t, limit)
  {
    forall id | id in t.drains ensures DrainOk(t.log, t.terminal, Cursor(t), t.drains[id], limit) {
      DrainGrows(s, t, s.drains[id], limit);
    }
  }

  lemma OpenKeeps(s: System, id: nat, final: bool, limit: nat)
    requires CacheOk(s) && DrainsOk(s, limit) && id !in s.drains && (final ==> s.terminal.Some?)
    ensures DrainsOk(Open(s, id, final), limit)
    ensures final ==> FinalInFlight(Open(s, id, final))
    ensures FinalInFlight(s) ==> FinalInFlight(Open(s, id, final))
  {
    var t := Open(s, id, final);
    CursorIsNatural(s);
    assert final ==> id in t.drains && t.drains[id].final;
    if FinalInFlight(s) {
      var x :| x in s.drains && s.drains[x].final;
      assert x in t.drains && t.drains[x].final;
    }
  }

  lemma ReadKeeps(log: seq<RunEvent>, terminal: Option<nat>, cursor: int, d: Drain, limit: nat)
    requires limit > 0 && IsLog(log) && DrainOk(log, terminal, cursor, d, limit) && !d.done
    requires terminal.Some? ==> terminal.value <= |log|
    ensures DrainOk(log, terminal, cursor, PageRead(log, d, limit), limit)
  {
    ReadMeans(log, d, limit);
    assert log[..|log|] == log;
  }

  lemma ReadMeans(log: seq<RunEvent>, d: Drain, limit: nat)
    requires limit > 0 && IsLog(log) && !d.done && d.collected <= Unread(log, d.start)
    requires |d.collected| == Capacity(d.pages, limit)
    ensures var r := PageRead(log, d, limit);
      && r.start == d.start && r.final == d.final && r.collected <= Unread(log, d.start)
      && (r.done ==> r.collected == Unread(log, d.start) && r.seen == |log|)
      && (!r.done ==> |r.collected| == Capacity(r.pages, limit))
  {
    PageContinues(log, d.start, d.collected, limit);
  }

  lemma ReadStepKeeps(s: System, id: nat, limit: nat)
    requires limit > 0 && CacheOk(s) && DrainsOk(s, limit) && Enabled(s, ReadPage(id))
    ensures CacheOk(Next(s, ReadPage(id), limit)) && DrainsOk(Next(s, ReadPage(id), limit), limit)
  {
    var d := PageRead(s.log, s.drains[id], limit);
    ReadKeeps(s.log, s.terminal, Cursor(s), s.drains[id], limit);
    Replaced(s, id, d, limit);
    assert Next(s, ReadPage(id), limit) == s.(drains := s.drains[id := d]);
  }

  lemma Replaced(s: System, id: nat, d: Drain, limit: nat)
    requires CacheOk(s) && DrainsOk(s, limit) && DrainOk(s.log, s.terminal, Cursor(s), d, limit)
    ensures CacheOk(s.(drains := s.drains[id := d])) && DrainsOk(s.(drains := s.drains[id := d]), limit)
  {
  }

  /** A drain started inside the cached prefix. */
  lemma StartIsReached(log: seq<RunEvent>, k: nat, seen: nat, start: int)
    requires IsLog(log) && k <= |log| && seen <= |log| && start <= LastApplied(log[..k])
    ensures Upto(log[..seen], start) <= k
  {
    UptoSplits(log[..seen], start);
    if k < seen {
      assert log[..seen][k] == log[k];
      assert start < log[k].sequence;
    }
  }

  /** What applying a finished drain leaves in the cache: the longer of what was there and what the
      drain saw, both as prefixes of the log. */
  lemma CompletionExtends(s: System, d: Drain, limit: nat)
    requires CacheOk(s) && DrainOk(s.log, s.terminal, Cursor(s), d, limit) && d.done
    ensures var n := if |Applied(s)| < d.seen then d.seen else |Applied(s)|;
      Merge(Applied(s), d.collected) == s.log[..n]
  {
    var log, k := s.log, |Applied(s)|;
    var i := Upto(log[..d.seen], d.start);
    assert Applied(s) == log[..k];
    assert d.collected == log[i..d.seen];
    StartIsReached(log, k, d.seen, d.start);
    MergeExtendsPrefix(log, k, i, d.seen);
  }

  lemma LastGrows(log: seq<RunEvent>, j: nat, k: nat)
    requires IsLog(log) && j <= k <= |log|
    ensures 0 <= LastApplied(log[..j]) <= LastApplied(log[..k])
  {
  }

  lemma CompleteKeeps(s: System, id: nat, limit: nat)
    requires limit > 0 && CacheOk(s) && DrainsOk(s, limit) && Enabled(s, Complete(id))
    ensures var t := Next(s, Complete(id), limit);
      && CacheOk(t) && DrainsOk(t, limit)
      && Applied(s) <= Applied(t) && Cursor(s) <= Cursor(t)
      && s.drains[id].seen <= |Applied(t)|
  {
    var t := Next(s, Complete(id), limit);
    CompletionExtends(s, s.drains[id], limit);
    PrefixesNest(s.log, |Applied(s)|, |Applied(t)|);
    assert Applied(s) == s.log[..|Applied(s)|];
    DrainsGrow(s, t, limit);
  }

  lemma PrefixesNest(log: seq<RunEvent>, j: nat, k: nat)
    requires IsLog(log) && j <= k <= |log|
    ensures log[..j] <= log[..k] <= log && LastApplied(log[..j]) <= LastApplied(log[..k])
  {
    LastGrows(log, j, k);
  }

  /** A step that leaves cache and cursor alone, and drains in flight as they were. */
  lemma ServerKeeps(s: System, step: Step, limit: nat)
    requires limit > 0 && CacheOk(s) && DrainsOk(s, limit) && Enabled(s, step)
    requires step.Append? || step.Terminate? || step.Abort? || (step.RemoveCache? && RemovalIsSafe(s))
    ensures CacheOk(Next(s, step, limit)) && DrainsOk(Next(s, step, limit), limit)
  {
    DrainsGrow(s, Next(s, step, limit), limit);
  }

  lemma FetchKeeps(s: System, step: Step, limit: nat)
    requires limit > 0 && CacheOk(s) && DrainsOk(s, limit) && Enabled(s, step)
    requires IsFetch(step)
    ensures CacheOk(Next(s, step, limit)) && DrainsOk(Next(s, step, limit), limit)
  {
    var fetched := Open(s, step.id, AsksFinal(step));
    OpenKeeps(s, step.id, AsksFinal(step), limit);
    Fetched(s, step, limit);
    SameParts(s, fetched, Next(s, step, limit), limit);
  }

  /** A fetch opens at most its drain. */
  lemma Fetched(s: System, step: Step, limit: nat)
    requires limit > 0 && Enabled(s, step) && IsFetch(step)
    ensures var t := Next(s, step, limit); var fetched := Open(s, step.id, AsksFinal(step));
      && t.log == s.log == fetched.log && t.terminal == s.terminal == fetched.terminal
      && t.cache == s.cache == fetched.cache && t.caughtUp == s.caughtUp == fetched.caughtUp
      && (t.drains == s.drains || t.drains == fetched.drains)
      && (step.Poll? || step.Reconnect? ==> t == fetched)
  {
  }

  /** The hook's own flags matter to neither. */
  lemma SameParts(s: System, fetched: System, t: System, limit: nat)
    requires CacheOk(s) && DrainsOk(s, limit) && DrainsOk(fetched, limit)
    requires t.log == s.log == fetched.log && t.terminal == s.terminal == fetched.terminal
    requires t.cache == s.cache == fetched.cache && t.caughtUp == s.caughtUp
    requires t.drains == s.drains || t.drains == fetched.drains
    ensures CacheOk(t) && DrainsOk(t, limit)
  {
  }

  /** The cached timeline and the drains, over one step. Unless the step removes the cache, nothing
      cached is lost and the cursor does not move back. */
  lemma StepKeepsCache(s: System, step: Step, limit: nat)
    requires limit > 0 && CacheOk(s) && DrainsOk(s, limit) && Enabled(s, step)
    requires step.RemoveCache? ==> RemovalIsSafe(s)
    ensures var t := Next(s, step, limit);
      && CacheOk(t) && DrainsOk(t, limit)
      && (!step.RemoveCache? ==> Applied(s) <= Applied(t) && Cursor(s) <= Cursor(t))
  {
    match step
    case Append(_) => ServerKeeps(s, step, limit);
    case Terminate(_) => ServerKeeps(s, step, limit);
    case Mount(_, _) => FetchKeeps(s, step, limit);
    case Render(_, _) => FetchKeeps(s, step, limit);
    case Poll(_) => FetchKeeps(s, step, limit);
    case Reconnect(_) => FetchKeeps(s, step, limit);
    case ReadPage(id) => ReadStepKeeps(s, id, limit);
    case Complete(id) => CompleteKeeps(s, id, limit);
    case Abort(_) => ServerKeeps(s, step, limit);
    case RemoveCache => ServerKeeps(s, step, limit);
  }

  lemma FinalStays(s: System, t: System, id: nat)
    requires HookOk(s) && t.awaiting == s.awaiting && t.observed == s.observed
    requires forall x | x in s.drains && x != id :: x in t.drains && t.drains[x].final == s.drains[x].final
    requires id in s.drains && s.drains[id].final ==> t.caughtUp || t.lost || (id in t.drains && t.drains[id].final)
    requires (s.caughtUp ==> t.caughtUp || t.lost) && (s.lost ==> t.lost)
    ensures HookOk(t)
  {
  }

  lemma HookShown(s: System, step: Step, limit: nat)
    requires limit > 0 && HookOk(s) && Enabled(s, step) && (step.Mount? || step.Render?)
    ensures HookOk(Next(s, step, limit))
  {
    var t := Next(s, step, limit);
    if step.isTerminal && (step.Mount? || s.awaiting) {
      assert step.id in t.drains && t.drains[step.id].final;
    } else if step.isTerminal && FinalInFlight(s) {
      var x :| x in s.drains && s.drains[x].final;
      assert x in t.drains && t.drains[x].final;
    }
  }

  /** The hook over one step. */
  lemma StepKeepsHook(s: System, step: Step, limit: nat)
    requires limit > 0 && HookOk(s) && Enabled(s, step)
    ensures HookOk(Next(s, step, limit))
  {
    var t := Next(s, step, limit);
    match step
    case Append(_) => FinalStays(s, t, 0);
    case Terminate(_) => FinalStays(s, t, 0);
    case Mount(_, _) => HookShown(s, step, limit);
    case Render(_, _) => HookShown(s, step, limit);
    case Poll(id) => FinalStays(s, t, id);
    case Reconnect(id) => FinalStays(s, t, id);
    case ReadPage(id) => FinalStays(s, t, id);
    case Complete(id) => FinalStays(s, t, id);
    case Abort(id) => FinalStays(s, t, id);
    case RemoveCache => FinalStays(s, t, 0);
  }

  // ----- every run -----

  /** Any schedule of the steps, from an empty log and an empty cache. */
  ghost predicate IsRun(states: seq<System>, steps: seq<Step>, limit: nat)
    requires limit > 0
  {
    && |states| == |steps| + 1
    && states[0] == INITIAL
    && forall i | 0 <= i < |steps| :: Enabled(states[i], steps[i]) && states[i + 1] == Next(states[i], steps[i], limit)
  }

  /** Every removal among the first n steps was harmless. */
  predicate RemovesOnlySafely(states: seq<System>, steps: seq<Step>, n: nat)
    requires |states| == |steps| + 1 && n <= |steps|
  {
    forall i | 0 <= i < n && steps[i].RemoveCache? :: RemovalIsSafe(states[i])
  }

  lemma {:induction false} InvHolds(states: seq<System>, steps: seq<Step>, limit: nat, n: nat)
    requires limit > 0 && IsRun(states, steps, limit) && n <= |steps| && RemovesOnlySafely(states, steps, n)
    ensures Inv(states[n], limit)
  {
    if n > 0 {
      InvHolds(states, steps, limit, n - 1);
      StepKeepsCache(states[n - 1], steps[n - 1], limit);
      StepKeepsHook(states[n - 1], steps[n - 1], limit);
    }
  }

  /** Under every schedule the cached timeline is strictly ascending and is exactly the entries of
      the log up to its cursor. */
  lemma CacheIsExact(states: seq<System>, steps: seq<Step>, limit: nat, n: nat)
    requires limit > 0 && IsRun(states, steps, limit) && n <= |steps| && RemovesOnlySafely(states, steps, n)
    ensures Ascending(Applied(states[n]))
    ensures forall e :: e in Applied(states[n]) <==> e in states[n].log && e.sequence <= Cursor(states[n])
  {
    InvHolds(states, steps, limit, n);
    PrefixMeansExact(states[n]);
  }

  /** Between removals the cursor never decreases and no cached entry is dropped or changed. */
  lemma {:induction false} CursorNeverFalls(states: seq<System>, steps: seq<Step>, limit: nat, m: nat, n: nat)
    requires limit > 0 && IsRun(states, steps, limit) && m <= n <= |steps| && RemovesOnlySafely(states, steps, n)
    requires forall i | m <= i < n :: !steps[i].RemoveCache?
    ensures Cursor(states[m]) <= Cursor(states[n]) && Applied(states[m]) <= Applied(states[n])
  {
    if m < n {
      CursorNeverFalls(states, steps, limit, m, n - 1);
      InvHolds(states, steps, limit, n - 1);
      StepKeepsCache(states[n - 1], steps[n - 1], limit);
    }
  }

  /** A drain that completes leaves in the cache everything the server had committed when its last
      page was read. */
  lemma CompletionCovers(states: seq<System>, steps: seq<Step>, limit: nat, n: nat)
    requires limit > 0 && IsRun(states, steps, limit) && n < |steps| && RemovesOnlySafely(states, steps, n)
    requires steps[n].Complete?
    ensures var d := states[n].drains[steps[n].id];
      d.seen <= |states[n].log| && states[n].log[..d.seen] <= Applied(states[n + 1])
  {
    InvHolds(states, steps, limit, n);
    CompleteKeeps(states[n], steps[n].id, limit);
    var a, d := Applied(states[n + 1]), states[n].drains[steps[n].id];
    assert states[n + 1].log == states[n].log;
    assert a == states[n].log[..|a|];
  }

  /** Terminal catch-up. Once the hook has seen the Run terminal, no drain is in flight, and its
      final fetch was neither lost nor discarded with the cache, the cache holds every event up to
      and including the terminal commit; and it is the whole log if nothing was appended since. */
  lemma TerminalCatchUp(states: seq<System>, steps: seq<Step>, limit: nat, n: nat)
    requires limit > 0 && IsRun(states, steps, limit) && n <= |steps| && RemovesOnlySafely(states, steps, n)
    requires states[n].observed && states[n].drains == map[] && !states[n].lost
    ensures var s := states[n];
      && s.terminal.Some? && s.terminal.value <= |s.log|
      && s.log[..s.terminal.value] <= Applied(s)
      && (s.terminal.value == |s.log| ==> Applied(s) == s.log)
  {
    InvHolds(states, steps, limit, n);
    var s := states[n];
    assert Applied(s) == s.log[..|Applied(s)|];
  }

  // ----- where the guarantees stop -----

  /** No new mount, no live status, no removal of the cache and no return of the network. */
  predicate IsQuiet(step: Step) {
    !step.Mount? && !step.Reconnect? && !step.RemoveCache? && (step.Render? ==> step.isTerminal)
  }

  /** Once a hook has seen the Run terminal and nothing is in flight, nothing is fetched any more
      until it is mounted again, sees the Run live, comes back online, or loses its cache. */
  lemma {:induction false} QuietIsFrozen(states: seq<System>, steps: seq<Step>, limit: nat, m: nat, n: nat)
    requires limit > 0 && IsRun(states, steps, limit) && m <= n <= |steps| && RemovesOnlySafely(states, steps, n)
    requires states[m].observed && states[m].drains == map[]
    requires forall i | m <= i < n :: IsQuiet(steps[i])
    ensures states[n].observed && states[n].drains == map[] && Applied(states[n]) == Applied(states[m])
    ensures states[m].log <= states[n].log
  {
    if m < n {
      QuietIsFrozen(states, steps, limit, m, n - 1);
      InvHolds(states, steps, limit, n - 1);
      QuietStep(states[n - 1], steps[n - 1], limit);
    }
  }

  lemma QuietStep(s: System, step: Step, limit: nat)
    requires limit > 0 && HookOk(s) && Enabled(s, step) && s.observed && s.drains == map[]
    requires IsQuiet(step)
    ensures var t := Next(s, step, limit);
      t.observed && t.drains == map[] && t.cache == s.cache && s.log <= t.log
  {
  }

  /** So the caught-up timeline is the whole log exactly as long as nothing is appended after it: an
      event that follows the terminal one, such as a late approval decision, is not shown. */
  lemma LateEventsAreMissed(states: seq<System>, steps: seq<Step>, limit: nat, m: nat, n: nat)
    requires limit > 0 && IsRun(states, steps, limit) && m <= n <= |steps| && RemovesOnlySafely(states, steps, n)
    requires states[m].observed && states[m].drains == map[] && Applied(states[m]) == states[m].log
    requires forall i | m <= i < n :: IsQuiet(steps[i])
    ensures Applied(states[n]) == states[n].log <==> states[n].log == states[m].log
  {
    QuietIsFrozen(states, steps, limit, m, n);
  }

  /** The cache is fifty full pages behind, and no drain that started earlier can still finish. */
  predicate Overflowed(s: System, limit: nat) {
    && |Unread(s.log, Cursor(s))| >= Capacity(MAX_DRAIN_PAGES, limit)
    && forall id | id in s.drains :: !s.drains[id].done
  }

  lemma EarlierHasMore(log: seq<RunEvent>, start: int, cursor: int)
    requires Ascending(log) && start <= cursor
    ensures |Unread(log, start)| >= |Unread(log, cursor)|
  {
    UptoSplits(log, start);
    UptoSplits(log, cursor);
    var i := Upto(log, start);
    if i > 0 {
      assert log[i - 1].sequence <= cursor;
    }
  }

  /** A drain that can only throw: fifty full pages lie after the cursor it started from. */
  predicate Hopeless(log: seq<RunEvent>, d: Drain, limit: nat) {
    && !d.done && d.collected <= Unread(log, d.start) && |d.collected| == Capacity(d.pages, limit)
    && |Unread(log, d.start)| >= Capacity(MAX_DRAIN_PAGES, limit)
  }

  predicate Swamped(s: System, limit: nat) {
    && IsLog(s.log) && Cursor(s) >= 0
    && |Unread(s.log, Cursor(s))| >= Capacity(MAX_DRAIN_PAGES, limit)
    && forall id | id in s.drains :: Hopeless(s.log, s.drains[id], limit)
  }

  lemma OverflowSwamps(s: System, limit: nat)
    requires CacheOk(s) && DrainsOk(s, limit) && Overflowed(s, limit)
    ensures Swamped(s, limit)
  {
    CursorIsNatural(s);
    forall id | id in s.drains ensures Hopeless(s.log, s.drains[id], limit) {
      EarlierHasMore(s.log, s.drains[id].start, Cursor(s));
    }
  }

  lemma HopelessReads(log: seq<RunEvent>, d: Drain, limit: nat)
    requires limit > 0 && IsLog(log) && Hopeless(log, d, limit) && d.pages < MAX_DRAIN_PAGES
    ensures Hopeless(log, PageRead(log, d, limit), limit)
  {
    CapacityGrows(d.pages + 1, MAX_DRAIN_PAGES, limit);
    ReadsOn(log, d, limit);
    ReadMeans(log, d, limit);
  }

  lemma ReadsOn(log: seq<RunEvent>, d: Drain, limit: nat)
    requires limit > 0 && IsLog(log) && !d.done && d.collected <= Unread(log, d.start)
    requires |d.collected| == Capacity(d.pages, limit) && |Unread(log, d.start)| >= Capacity(d.pages + 1, limit)
    ensures !PageRead(log, d, limit).done
  {
    PageContinues(log, d.start, d.collected, limit);
  }

  lemma HopelessGrows(log: seq<RunEvent>, longer: seq<RunEvent>, d: Drain, limit: nat)
    requires IsLog(longer) && log <= longer && Hopeless(log, d, limit)
    ensures Hopeless(longer, d, limit)
  {
    UnreadGrows(log, longer, d.start);
  }

  lemma SwampGrows(s: System, step: Step, limit: nat)
    requires limit > 0 && Swamped(s, limit) && Enabled(s, step) && (step.Append? || step.Terminate?)
    ensures Swamped(Next(s, step, limit), limit)
  {
    UnreadGrows(s.log, s.log + step.batch, Cursor(s));
    forall id | id in s.drains ensures Hopeless(s.log + step.batch, s.drains[id], limit) {
      HopelessGrows(s.log, s.log + step.batch, s.drains[id], limit);
    }
  }

  /** Whatever the step, a removal of any kind included, nothing new reaches the cache. */
  lemma SwampStep(s: System, step: Step, limit: nat)
    requires limit > 0 && Swamped(s, limit) && Enabled(s, step)
    ensures Swamped(Next(s, step, limit), limit)
    ensures Next(s, step, limit).cache == s.cache || Next(s, step, limit).cache == None
  {
    if step.Append? || step.Terminate? {
      SwampGrows(s, step, limit);
    } else if step.ReadPage? {
      SwampReads(s, step.id, limit);
    } else if step.RemoveCache? {
      EarlierHasMore(s.log, 0, Cursor(s));
    } else if IsFetch(step) {
      SwampFetches(s, step, limit);
    }
  }

  lemma SwampReads(s: System, id: nat, limit: nat)
    requires limit > 0 && Swamped(s, limit) && Enabled(s, ReadPage(id))
    ensures Swamped(Next(s, ReadPage(id), limit), limit)
  {
    var d := PageRead(s.log, s.drains[id], limit);
    HopelessReads(s.log, s.drains[id], limit);
    SwampJoined(s, id, d, limit);
    assert Next(s, ReadPage(id), limit) == s.(drains := s.drains[id := d]);
  }

  lemma SwampJoined(s: System, id: nat, d: Drain, limit: nat)
    requires Swamped(s, limit) && Hopeless(s.log, d, limit)
    ensures Swamped(s.(drains := s.drains[id := d]), limit)
  {
  }

  lemma SwampFetches(s: System, step: Step, limit: nat)
    requires limit > 0 && Swamped(s, limit) && Enabled(s, step) && IsFetch(step)
    ensures Swamped(Next(s, step, limit), limit) && Next(s, step, limit).cache == s.cache
  {
    var d := Drain(Cursor(s), [], 0, false, 0, AsksFinal(step));
    SwampJoined(s, step.id, d, limit);
    Fetched(s, step, limit);
  }

  lemma SwampAt(states: seq<System>, steps: seq<Step>, limit: nat, i: nat)
    requires limit > 0 && IsRun(states, steps, limit) && i < |steps| && Swamped(states[i], limit)
    ensures Swamped(states[i + 1], limit)
    ensures Applied(states[i + 1]) == Applied(states[i]) || Applied(states[i + 1]) == []
  {
    SwampStep(states[i], steps[i], limit);
  }

  lemma {:induction false} SwampThrough(states: seq<System>, limit: nat, m: nat, n: nat)
    requires m <= n < |states| && Swamped(states[m], limit)
    requires forall i | 0 <= i < |states| - 1 && Swamped(states[i], limit) ::
      Swamped(states[i + 1], limit) && (Applied(states[i + 1]) == Applied(states[i]) || Applied(states[i + 1]) == [])
    ensures Swamped(states[n], limit) && (Applied(states[n]) == Applied(states[m]) || Applied(states[n]) == [])
  {
    if m < n {
      SwampThrough(states, limit, m, n - 1);
      assert Swamped(states[(n - 1) + 1], limit);
    }
  }

  lemma CursorIsNatural(s: System)
    requires CacheOk(s)
    ensures Cursor(s) >= 0 && (Cursor(s) > 0 ==> s.log != [] && s.log[0].sequence <= Cursor(s))
  {
  }

  /** A client fifty full pages behind never catches up: no schedule of polls, mounts, page reads and
      removals, safe or not, puts another event into the cache. */
  lemma OverflowIsPermanent(states: seq<System>, steps: seq<Step>, limit: nat, m: nat, n: nat)
    requires limit > 0 && IsRun(states, steps, limit) && m <= n <= |steps| && RemovesOnlySafely(states, steps, m)
    requires Overflowed(states[m], limit)
    ensures Swamped(states[n], limit)
    ensures Applied(states[n]) == Applied(states[m]) || Applied(states[n]) == []
  {
    InvHolds(states, steps, limit, m);
    OverflowSwamps(states[m], limit);
    forall i | 0 <= i < |states| - 1 && Swamped(states[i], limit)
      ensures Swamped(states[i + 1], limit) && (Applied(states[i + 1]) == Applied(states[i]) || Applied(states[i + 1]) == [])
    {
      SwampAt(states, steps, limit, i);
    }
    SwampThrough(states, limit, m, n);
  }

  /** An overflow is one long outage away: a log of fifty full pages and a client that has read none. */
  lemma OverflowHappens(limit: nat) returns (states: seq<System>, steps: seq<Step>)
    requires limit > 0
    ensures IsRun(states, steps, limit) && Overflowed(states[|steps|], limit)
  {
    var n := Capacity(MAX_DRAIN_PAGES, limit);
    var batch := seq(n, i requires 0 <= i < n => RunEvent(i + 1, ""));
    assert [] + batch == batch;
    states, steps := Extend([INITIAL], [], limit, Append(batch));
    UptoIs(batch, 0, 0);
  }

  // ----- what a client can still gain -----

  /** What the client does by itself, the log and the cache entry staying. */
  predicate ByClient(step: Step) { !step.Append? && !step.Terminate? && !step.RemoveCache? }

  /** Some n steps of the client bring the cache beyond k events. */
  ghost predicate GainsIn(s: System, limit: nat, k: nat, n: nat)
    requires limit > 0
    decreases n
  {
    || |Applied(s)| > k
    || (n > 0 && exists step: Step :: ByClient(step) && Enabled(s, step) && GainsIn(Next(s, step, limit), limit, k, n - 1))
  }

  ghost predicate CanGain(s: System, limit: nat)
    requires limit > 0
  {
    exists n: nat :: GainsIn(s, limit, |Applied(s)|, n)
  }

  /** Something is unread that fits into one drain, or a finished drain brings something new. */
  predicate Promising(s: System, limit: nat) {
    || 0 < |Unread(s.log, Cursor(s))| < Capacity(MAX_DRAIN_PAGES, limit)
    || exists id | id in s.drains :: s.drains[id].done && s.drains[id].seen > |Applied(s)|
  }

  /** What is unread is what the cached prefix leaves. */
  lemma UnreadIsRest(s: System)
    requires CacheOk(s)
    ensures Unread(s.log, Cursor(s)) == s.log[|Applied(s)|..]
  {
    UptoIs(s.log, Cursor(s), |Applied(s)|);
  }

  lemma HopelessRead(s: System, id: nat, limit: nat)
    requires limit > 0 && CacheOk(s) && DrainsOk(s, limit) && !Promising(s, limit) && Enabled(s, ReadPage(id))
    ensures var d := PageRead(s.log, s.drains[id], limit); d.done ==> d.seen <= |Applied(s)|
  {
    var d := s.drains[id];
    UnreadIsRest(s);
    if |Unread(s.log, Cursor(s))| > 0 {
      EarlierHasMore(s.log, d.start, Cursor(s));
      CapacityGrows(d.pages + 1, MAX_DRAIN_PAGES, limit);
      ReadsOn(s.log, d, limit);
    } else {
      ReadMeans(s.log, d, limit);
    }
  }

  /** Without promise no step of the client brings anything, and none makes a promise. */
  lemma UnpromisingStep(s: System, step: Step, limit: nat)
    requires limit > 0 && CacheOk(s) && DrainsOk(s, limit) && !Promising(s, limit) && ByClient(step) && Enabled(s, step)
    ensures Applied(Next(s, step, limit)) == Applied(s) && !Promising(Next(s, step, limit), limit)
  {
    if step.ReadPage? {
      UnpromisingRead(s, step.id, limit);
    } else if step.Complete? {
      UnpromisingCompletion(s, step.id, limit);
    } else if step.Abort? {
      UnpromisingParts(s, Next(s, step, limit), limit);
    } else {
      UnpromisingFetch(s, step, limit);
    }
  }

  lemma UnpromisingRead(s: System, id: nat, limit: nat)
    requires limit > 0 && CacheOk(s) && DrainsOk(s, limit) && !Promising(s, limit) && Enabled(s, ReadPage(id))
    ensures var t := Next(s, ReadPage(id), limit); Applied(t) == Applied(s) && !Promising(t, limit)
  {
    var d := PageRead(s.log, s.drains[id], limit);
    HopelessRead(s, id, limit);
    UnpromisingParts(s, s.(drains := s.drains[id := d]), limit);
    assert Next(s, ReadPage(id), limit) == s.(drains := s.drains[id := d]);
  }

  lemma UnpromisingCompletion(s: System, id: nat, limit: nat)
    requires limit > 0 && CacheOk(s) && DrainsOk(s, limit) && !Promising(s, limit) && Enabled(s, Complete(id))
    ensures var t := Next(s, Complete(id), limit); Applied(t) == Applied(s) && !Promising(t, limit)
  {
    var t := Next(s, Complete(id), limit);
    assert s.drains[id].seen <= |Applied(s)|;
    CompletionExtends(s, s.drains[id], limit);
    assert Applied(s) == s.log[..|Applied(s)|];
    UnpromisingParts(s, t, limit);
  }

  lemma UnpromisingFetch(s: System, step: Step, limit: nat)
    requires limit > 0 && !Promising(s, limit) && Enabled(s, step) && IsFetch(step)
    ensures var t := Next(s, step, limit); Applied(t) == Applied(s) && !Promising(t, limit)
  {
    Fetched(s, step, limit);
    UnpromisingParts(s, Next(s, step, limit), limit);
  }

  lemma UnpromisingParts(s: System, t: System, limit: nat)
    requires !Promising(s, limit) && t.log == s.log && Applied(t) == Applied(s)
    requires forall id | id in t.drains && t.drains[id].done ::
      (id in s.drains && t.drains[id] == s.drains[id]) || t.drains[id].seen <= |Applied(s)|
    ensures !Promising(t, limit)
  {
  }

  lemma {:induction false} NothingIsGained(s: System, limit: nat, n: nat)
    requires limit > 0 && CacheOk(s) && DrainsOk(s, limit) && !Promising(s, limit)
    ensures !GainsIn(s, limit, |Applied(s)|, n)
    decreases n
  {
    if n > 0 {
      forall step: Step | ByClient(step) && Enabled(s, step)
        ensures !GainsIn(Next(s, step, limit), limit, |Applied(s)|, n - 1)
      {
        UnpromisingStep(s, step, limit);
        StepKeepsCache(s, step, limit);
        NothingIsGained(Next(s, step, limit), limit, n - 1);
      }
    }
  }

  lemma OneMoreStep(s: System, step: Step, limit: nat, k: nat, n: nat)
    requires limit > 0 && ByClient(step) && Enabled(s, step) && GainsIn(Next(s, step, limit), limit, k, n)
    ensures GainsIn(s, limit, k, n + 1)
  {
  }

  lemma CompletionGains(s: System, id: nat, limit: nat, k: nat)
    requires limit > 0 && CacheOk(s) && DrainsOk(s, limit) && id in s.drains && s.drains[id].done && s.drains[id].seen > k
    ensures GainsIn(s, limit, k, 1)
  {
    CompleteKeeps(s, id, limit);
    assert GainsIn(Next(s, Complete(id), limit), limit, k, 0);
    OneMoreStep(s, Complete(id), limit, k, 0);
  }

  /** A drain with less than fifty full pages before it reads to the end, and brings all of the log. */
  lemma {:induction false} ReadingGains(s: System, id: nat, limit: nat, k: nat) returns (n: nat)
    requires limit > 0 && CacheOk(s) && DrainsOk(s, limit) && id in s.drains && !s.drains[id].done && k < |s.log|
    requires |Unread(s.log, s.drains[id].start)| < Capacity(MAX_DRAIN_PAGES, limit)
    ensures GainsIn(s, limit, k, n)
    decreases MAX_DRAIN_PAGES - s.drains[id].pages
  {
    var d := s.drains[id];
    if d.pages >= MAX_DRAIN_PAGES {
      CapacityGrows(MAX_DRAIN_PAGES, d.pages, limit);
      assert false;
    }
    var t := Next(s, ReadPage(id), limit);
    ReadStepKeeps(s, id, limit);
    ReadMeans(s.log, d, limit);
    var rest := 1;
    if t.drains[id].done {
      CompletionGains(t, id, limit, k);
    } else {
      rest := ReadingGains(t, id, limit, k);
    }
    OneMoreStep(s, ReadPage(id), limit, k, rest);
    n := rest + 1;
  }

  lemma {:induction false} FreshId(keys: set<nat>) returns (id: nat)
    ensures forall k | k in keys :: k < id
  {
    id := 0;
    if keys != {} {
      var k := ElementOf(keys);
      var rest := FreshId(keys - {k});
      id := if rest <= k then k + 1 else rest;
      assert forall x | x in keys :: x == k || x in keys - {k};
    }
  }

  lemma FetchingGains(s: System, limit: nat) returns (n: nat)
    requires limit > 0 && CacheOk(s) && DrainsOk(s, limit) && 0 < |Unread(s.log, Cursor(s))| < Capacity(MAX_DRAIN_PAGES, limit)
    ensures GainsIn(s, limit, |Applied(s)|, n)
  {
    UnreadIsRest(s);
    var id := FreshId(s.drains.Keys);
    FetchKeeps(s, Reconnect(id), limit);
    var rest := ReadingGains(Next(s, Reconnect(id), limit), id, limit, |Applied(s)|);
    OneMoreStep(s, Reconnect(id), limit, |Applied(s)|, rest);
    n := rest + 1;
  }

  /** In every reachable state the client can gain an event by itself if and only if fewer than fifty
      full pages, and at least one event, are unread, or a finished drain brings something new. */
  lemma GainsExactly(states: seq<System>, steps: seq<Step>, limit: nat, n: nat)
    requires limit > 0 && IsRun(states, steps, limit) && n <= |steps| && RemovesOnlySafely(states, steps, n)
    ensures CanGain(states[n], limit) <==> Promising(states[n], limit)
  {
    InvHolds(states, steps, limit, n);
    var s := states[n];
    if !Promising(s, limit) {
      forall k: nat ensures !GainsIn(s, limit, |Applied(s)|, k) {
        NothingIsGained(s, limit, k);
      }
    } else if id :| id in s.drains && s.drains[id].done && s.drains[id].seen > |Applied(s)| {
      CompletionGains(s, id, limit, |Applied(s)|);
    } else {
      var k := FetchingGains(s, limit);
    }
  }

  /** Merging a stretch of a log into a prefix of it leaves a prefix exactly when the stretch is
      empty or the prefix reaches it. */
  lemma PrefixExactly(log: seq<RunEvent>, k: nat, i: nat, j: nat)
    requires Ascending(log) && k <= |log| && i <= j <= |log|
    ensures Merge(log[..k], log[i..j]) <= log <==> i <= k || i == j
  {
    if i <= k {
      MergeExtendsPrefix(log, k, i, j);
    } else if i < j {
      GapStays(log, k, i, j);
    }
  }

  lemma GapStays(log: seq<RunEvent>, k: nat, i: nat, j: nat)
    requires Ascending(log) && k < i < j <= |log|
    ensures !(Merge(log[..k], log[i..j]) <= log)
  {
    var merged := Merge(log[..k], log[i..j]);
    assert log[0..k] == log[..k];
    SliceMap(log, 0, k);
    SliceMap(log, i, j);
    MergeIsUnion(log[..k], log[i..j]);
    assert log[k].sequence !in ToMap(merged) && log[i].sequence in ToMap(merged);
    ToMapFinds(merged);
    var x :| 0 <= x < |merged| && merged[x].sequence == log[i].sequence;
    assert k < |merged| ==> merged[k].sequence != log[k].sequence;
    SameIndex(log, merged, x, i);
  }

  lemma SameIndex(log: seq<RunEvent>, s: seq<RunEvent>, x: nat, i: nat)
    requires Ascending(log) && x < |s| && i < |log| && s[x].sequence == log[i].sequence
    ensures s <= log ==> x == i
  {
  }

  /** A finished drain applied right after the cache was removed leaves a timeline without gaps
      exactly when it started from cursor 0 or brought nothing. */
  lemma RemovalExactly(s: System, id: nat, limit: nat)
    requires limit > 0 && CacheOk(s) && DrainsOk(s, limit) && id in s.drains && s.drains[id].done
    ensures var t := Next(Next(s, RemoveCache, limit), Complete(id), limit);
      Applied(t) <= t.log <==> s.drains[id].start == 0 || s.drains[id].collected == []
  {
    AppliedToNothing(s.log, s.terminal, Cursor(s), s.drains[id], limit);
    assert Next(Next(s, RemoveCache, limit), Complete(id), limit).cache == Some(Merge([], s.drains[id].collected));
  }

  lemma AppliedToNothing(log: seq<RunEvent>, terminal: Option<nat>, cursor: int, d: Drain, limit: nat)
    requires IsLog(log) && DrainOk(log, terminal, cursor, d, limit) && d.done
    ensures Merge([], d.collected) <= log <==> d.start == 0 || d.collected == []
  {
    var i := Upto(log[..d.seen], d.start);
    assert d.collected == log[i..d.seen] && log[..0] == [];
    PrefixExactly(log, 0, i, d.seen);
    if d.seen > 0 {
      StartsAtNothing(log, d.seen, d.start);
    }
  }

  lemma StartsAtNothing(log: seq<RunEvent>, seen: nat, start: int)
    requires IsLog(log) && 0 < seen <= |log| && (start == 0 || log[0].sequence <= start)
    ensures Upto(log[..seen], start) == 0 <==> start == 0
  {
    assert log[..seen][0] == log[0];
    UptoSplits(log[..seen], start);
  }

  lemma Extend(states: seq<System>, steps: seq<Step>, limit: nat, step: Step) returns (longer: seq<System>, more: seq<Step>)
    requires limit > 0 && IsRun(states, steps, limit) && Enabled(states[|steps|], step)
    ensures IsRun(longer, more, limit) && longer == states + [Next(states[|steps|], step, limit)] && more == steps + [step]
  {
    longer, more := states + [Next(states[|steps|], step, limit)], steps + [step];
    forall i | 0 <= i < |more| ensures Enabled(longer[i], more[i]) && longer[i + 1] == Next(longer[i], more[i], limit) {
      if i < |steps| {
        assert longer[i] == states[i] && longer[i + 1] == states[i + 1] && more[i] == steps[i];
      }
    }
  }

  /** A poll that finds less than a page, up to its cache write. */
  lemma Fetch(states: seq<System>, steps: seq<Step>, limit: nat) returns (longer: seq<System>, more: seq<Step>)
    requires limit > 0 && IsRun(states, steps, limit)
    requires var s := states[|steps|]; !s.observed && s.drains == map[] && |Unread(s.log, Cursor(s))| < limit
    ensures IsRun(longer, more, limit)
    ensures var s := states[|steps|];
      longer[|more|] == s.(drains := map[0 := Drain(Cursor(s), Unread(s.log, Cursor(s)), 1, true, |s.log|, false)])
  {
    var s := states[|steps|];
    var polled := Polled(s, limit);
    ReadOnce(s, limit);
    longer, more := Extend(states, steps, limit, Poll(0));
    longer, more := Extend(longer, more, limit, ReadPage(0));
  }

  lemma Polled(s: System, limit: nat) returns (t: System)
    requires limit > 0 && !s.observed && s.drains == map[]
    ensures Enabled(s, Poll(0)) && t == Next(s, Poll(0), limit)
    ensures t == s.(drains := map[0 := Drain(Cursor(s), [], 0, false, 0, false)])
  {
    t := Next(s, Poll(0), limit);
  }

  lemma ReadOnce(s: System, limit: nat)
    requires limit > 0 && |Unread(s.log, Cursor(s))| < limit
    ensures var t := s.(drains := map[0 := Drain(Cursor(s), [], 0, false, 0, false)]);
      && Enabled(t, ReadPage(0))
      && Next(t, ReadPage(0), limit) == s.(drains := map[0 := Drain(Cursor(s), Unread(s.log, Cursor(s)), 1, true, |s.log|, false)])
  {
    var d := Drain(Cursor(s), [], 0, false, 0, false);
    var t, r := s.(drains := map[0 := d]), PageRead(s.log, d, limit);
    ShortPage(s.log, Cursor(s), limit, false);
    assert Next(t, ReadPage(0), limit) == t.(drains := t.drains[0 := r]);
    assert map[0 := d][0 := r] == map[0 := r];
  }

  lemma ShortPage(log: seq<RunEvent>, cursor: int, limit: nat, last: bool)
    requires |Unread(log, cursor)| < limit
    ensures PageRead(log, Drain(cursor, [], 0, false, 0, last), limit) == Drain(cursor, Unread(log, cursor), 1, true, |log|, last)
  {
    assert [] + Unread(log, cursor) == Unread(log, cursor);
  }

  lemma MergeIntoNothing(e: RunEvent)
    ensures Merge([], [e]) == [e]
  {
    assert [] + [e] == [e];
    assert IsMerge([], [e], [e]);
    MergeIs([], [e], [e]);
  }

  lemma OneCached(a: RunEvent, limit: nat) returns (states: seq<System>, steps: seq<Step>)
    requires limit > 1 && a.sequence == 1
    ensures IsRun(states, steps, limit) && states[|steps|] == INITIAL.(log := [a], cache := Some([a]))
  {
    states, steps := OneFetched(a, limit);
    AppliedAlone(states[|steps|], a, limit);
    states, steps := Extend(states, steps, limit, Complete(0));
  }

  /** The only drain in flight brings one event to an empty cache. */
  lemma AppliedAlone(s: System, e: RunEvent, limit: nat)
    requires limit > 0 && s.drains.Keys == {0} && s.drains[0].done && !s.drains[0].final
    requires s.cache == None && s.drains[0].collected == [e]
    ensures Enabled(s, Complete(0)) && Next(s, Complete(0), limit) == s.(cache := Some([e]), drains := map[])
  {
    MergeIntoNothing(e);
    assert s.drains - {0} == map[];
  }

  lemma OneFetched(a: RunEvent, limit: nat) returns (states: seq<System>, steps: seq<Step>)
    requires limit > 1 && a.sequence == 1
    ensures IsRun(states, steps, limit)
    ensures states[|steps|] == INITIAL.(log := [a], drains := map[0 := Drain(0, [a], 1, true, 1, false)])
  {
    states, steps := OneLogged(a, limit);
    UptoIs([a], 0, 0);
    assert Unread([a], 0) == [a];
    states, steps := Fetch(states, steps, limit);
  }

  lemma OneLogged(a: RunEvent, limit: nat) returns (states: seq<System>, steps: seq<Step>)
    requires limit > 0 && a.sequence == 1
    ensures IsRun(states, steps, limit) && states[|steps|] == INITIAL.(log := [a])
  {
    assert [] + [a] == [a];
    states, steps := Extend([INITIAL], [], limit, Append([a]));
  }

  lemma SecondInFlight(a: RunEvent, b: RunEvent, limit: nat) returns (states: seq<System>, steps: seq<Step>)
    requires limit > 1 && a.sequence == 1 && b.sequence == 2
    ensures IsRun(states, steps, limit)
    ensures states[|steps|] == INITIAL.(log := [a, b], cache := Some([a]), drains := map[0 := Drain(1, [b], 1, true, 2, false)])
  {
    states, steps := OneCached(a, limit);
    states, steps := Extend(states, steps, limit, Append([b]));
    assert [a] + [b] == [a, b];
    UptoIs([a, b], 1, 1);
    assert [a, b][1..] == [b];
    states, steps := Fetch(states, steps, limit);
  }

  /** A run that loses history: the first event is cached, the second is in flight from cursor 1, and
      logout removes the cache before it is applied. */
  lemma RemovalCanLoseHistory(a: RunEvent, b: RunEvent, limit: nat) returns (states: seq<System>, steps: seq<Step>)
    requires limit > 1 && a.sequence == 1 && b.sequence == 2
    ensures IsRun(states, steps, limit)
    ensures states[|steps|].log == [a, b] && Applied(states[|steps|]) == [b]
  {
    states, steps := SecondInFlight(a, b, limit);
    states, steps := Extend(states, steps, limit, RemoveCache);
    AppliedAlone(states[|steps|], b, limit);
    states, steps := Extend(states, steps, limit, Complete(0));
  }

  /** A hook mounted on a terminal Run reads a log of less than a page and is caught up. */
  lemma CatchesUp(log: seq<RunEvent>, limit: nat) returns (states: seq<System>, steps: seq<Step>)
    requires IsLog(log) && 0 < |log| < limit
    ensures IsRun(states, steps, limit) && RemovesOnlySafely(states, steps, |steps|)
    ensures var s := states[|steps|]; s.observed && s.drains == map[] && s.log == log && Applied(s) == log
  {
    states, steps := ReadOnTerminal(log, limit);
    ReadApplies(states[|steps|], log, limit);
    states, steps := Extend(states, steps, limit, Complete(0));
  }

  lemma ReadOnTerminal(log: seq<RunEvent>, limit: nat) returns (states: seq<System>, steps: seq<Step>)
    requires IsLog(log) && 0 < |log| < limit
    ensures IsRun(states, steps, limit) && steps == [Terminate(log), Mount(0, true), ReadPage(0)]
    ensures var s := states[|steps|];
      && s.observed && s.log == log && s.cache == None
      && s.drains.Keys == {0} && s.drains[0] == Drain(0, log, 1, true, |log|, true)
  {
    states, steps := MountedOnTerminal(log, limit);
    MountedReads(states[|steps|], log, limit);
    states, steps := Extend(states, steps, limit, ReadPage(0));
  }

  lemma MountedOnTerminal(log: seq<RunEvent>, limit: nat) returns (states: seq<System>, steps: seq<Step>)
    requires IsLog(log) && 0 < |log| && limit > 0
    ensures IsRun(states, steps, limit) && steps == [Terminate(log), Mount(0, true)]
    ensures var s := states[|steps|];
      && s.observed && s.log == log && s.cache == None
      && s.drains.Keys == {0} && s.drains[0] == Drain(0, [], 0, false, 0, true)
  {
    assert [] + log == log;
    states, steps := Extend([INITIAL], [], limit, Terminate(log));
    states, steps := Extend(states, steps, limit, Mount(0, true));
  }

  lemma MountedReads(s: System, log: seq<RunEvent>, limit: nat)
    requires IsLog(log) && |log| < limit && s.log == log
    requires s.drains.Keys == {0} && s.drains[0] == Drain(0, [], 0, false, 0, true)
    ensures Enabled(s, ReadPage(0))
    ensures Next(s, ReadPage(0), limit) == s.(drains := s.drains[0 := Drain(0, log, 1, true, |log|, true)])
  {
    UptoIs(log, 0, 0);
    assert Unread(log, 0) == log;
    ShortPage(log, 0, limit, true);
  }

  lemma ReadApplies(s: System, log: seq<RunEvent>, limit: nat)
    requires limit > 0 && IsLog(log) && s.log == log && s.cache == None
    requires s.drains.Keys == {0} && s.drains[0] == Drain(0, log, 1, true, |log|, true)
    ensures Enabled(s, Complete(0))
    ensures Next(s, Complete(0), limit) == s.(cache := Some(log), drains := map[], caughtUp := true)
  {
    UptoIs(log, 0, 0);
    assert Unread(log, LastApplied([])) == log;
    RestCompletes(log, []);
    assert s.drains - {0} == map[];
  }
}
