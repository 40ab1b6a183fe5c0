/** One Run's event timeline: the server's keyset pages, the client's merge, and one drain. */
module Timeline {
  import opened Sql

  /** `body` is every published field but the sequence. */
  datatype RunEvent = RunEvent(sequence: int, body: string)

  predicate Ascending(s: seq<RunEvent>) {
    forall i, j | 0 <= i < j < |s| :: s[i].sequence < s[j].sequence
  }

  /** A Run's rows in `run_events`, by sequence: unique per Run, positive, and not assumed contiguous. */
  predicate IsLog(s: seq<RunEvent>) {
    Ascending(s) && forall i | 0 <= i < |s| :: s[i].sequence > 0
  }

  /** `lastAppliedSequence` */
  function LastApplied(events: seq<RunEvent>): int {
    if |events| == 0 then 0 else events[|events| - 1].sequence
  }

  // ----- the server's page -----

  /** How many entries lie at or before the cursor. */
  function Upto(log: seq<RunEvent>, cursor: int): (n: nat)
    ensures n <= |log|
  {
    UptoWithin(log, cursor, |log|)
  }

  function UptoWithin(log: seq<RunEvent>, cursor: int, bound: nat): (n: nat)
    requires bound <= |log|
    ensures n <= bound
  {
    if bound == 0 || log[bound - 1].sequence <= cursor then bound else UptoWithin(log, cursor, bound - 1)
  }

  /** Everything strictly after the cursor. */
  function Unread(log: seq<RunEvent>, cursor: int): seq<RunEvent> { log[Upto(log, cursor)..] }

  /** WHERE sequence > after ORDER BY sequence LIMIT limit */
  function PageItems(log: seq<RunEvent>, after: int, limit: nat): seq<RunEvent> {
    var rest := Unread(log, after);
    if |rest| <= limit then rest else rest[..limit]
  }

  /** `next_after_sequence`: a full page continues, whether or not anything is left. */
  function Continuation(items: seq<RunEvent>, limit: nat): Option<int>
    requires limit > 0
  {
    if |items| == limit then Some(items[|items| - 1].sequence) else None
  }

  /** The cursor splits an ascending log exactly. */
  lemma UptoSplits(log: seq<RunEvent>, cursor: int)
    requires Ascending(log)
    ensures forall i | 0 <= i < |log| :: log[i].sequence <= cursor <==> i < Upto(log, cursor)
  {
    UptoWithinSplits(log, cursor, |log|);
  }

  lemma {:induction false} UptoWithinSplits(log: seq<RunEvent>, cursor: int, bound: nat)
    requires Ascending(log) && bound <= |log|
    ensures forall i | 0 <= i < bound :: log[i].sequence <= cursor <==> i < UptoWithin(log, cursor, bound)
  {
    if bound > 0 && log[bound - 1].sequence > cursor {
      UptoWithinSplits(log, cursor, bound - 1);
    }
  }

  lemma UptoIs(log: seq<RunEvent>, cursor: int, n: nat)
    requires Ascending(log) && n <= |log|
    requires n > 0 ==> log[n - 1].sequence <= cursor
    requires n < |log| ==> cursor < log[n].sequence
    ensures Upto(log, cursor) == n
  {
    UptoSplits(log, cursor);
  }

  /** Reading on from the n-th unread entry leaves exactly the entries after it. */
  lemma Resume(log: seq<RunEvent>, cursor: int, n: nat)
    requires Ascending(log) && 0 < n <= |Unread(log, cursor)|
    ensures Unread(log, Unread(log, cursor)[n - 1].sequence) == Unread(log, cursor)[n..]
  {
    var k := Upto(log, cursor);
    assert Unread(log, cursor)[n - 1] == log[k + n - 1];
    UptoIs(log, log[k + n - 1].sequence, k + n);
  }

  /** Appending only ever extends what is unread. */
  lemma UnreadGrows(log: seq<RunEvent>, longer: seq<RunEvent>, cursor: int)
    requires Ascending(longer) && log <= longer
    ensures Unread(log, cursor) <= Unread(longer, cursor)
  {
    var n := Upto(log, cursor);
    UptoGrows(log, longer, cursor);
    if n < |log| {
      assert log[n..] == longer[n..][..|log| - n];
    }
  }

  lemma UptoGrows(log: seq<RunEvent>, longer: seq<RunEvent>, cursor: int)
    requires Ascending(longer) && log <= longer
    ensures Upto(log, cursor) < |log| ==> Upto(longer, cursor) == Upto(log, cursor)
  {
    assert log == longer[..|log|];
    var n := Upto(log, cursor);
    UptoSplits(log, cursor);
    if n < |log| {
      assert log[n] == longer[n] && (n > 0 ==> log[n - 1] == longer[n - 1]);
      UptoIs(longer, cursor, n);
    }
  }

  // ----- the merge -----

  /** Keyed by sequence, the later occurrence winning. */
  function ToMap(s: seq<RunEvent>): map<int, RunEvent> {
    if s == [] then map[] else map[s[0].sequence := s[0]] + ToMap(s[1..])
  }

  lemma {:induction false} ToMapFinds(s: seq<RunEvent>)
    requires Ascending(s)
    ensures forall i | 0 <= i < |s| :: s[i].sequence in ToMap(s) && ToMap(s)[s[i].sequence] == s[i]
    ensures forall k | k in ToMap(s) :: exists i :: 0 <= i < |s| && s[i].sequence == k
  {
    if s != [] {
      ToMapFinds(s[1..]);
      forall i | 0 <= i < |s| ensures s[i].sequence in ToMap(s) && ToMap(s)[s[i].sequence] == s[i] {
        if i > 0 {
          assert s[1..][i - 1] == s[i];
        }
      }
      forall k | k in ToMap(s) ensures exists i :: 0 <= i < |s| && s[i].sequence == k {
        if k in ToMap(s[1..]) {
          var i :| 0 <= i < |s[1..]| && s[1..][i].sequence == k;
          assert s[i + 1].sequence == k;
        } else {
          assert s[0].sequence == k;
        }
      }
    }
  }

  /** An ascending list is determined by its contents. */
  lemma {:induction false} AscendingIsDetermined(s: seq<RunEvent>, t: seq<RunEvent>)
    requires Ascending(s) && Ascending(t) && ToMap(s) == ToMap(t)
    ensures s == t
  {
    ToMapFinds(s);
    ToMapFinds(t);
    if s != [] {
      assert s[0].sequence in ToMap(t);
    }
    if t != [] {
      assert t[0].sequence in ToMap(s);
      assert s[0] == t[0];
      HeadRemoved(s);
      HeadRemoved(t);
      AscendingIsDetermined(s[1..], t[1..]);
    }
  }

  lemma HeadRemoved(s: seq<RunEvent>)
    requires Ascending(s) && s != []
    ensures ToMap(s[1..]) == ToMap(s) - {s[0].sequence}
  {
    ToMapFinds(s[1..]);
    assert s[0].sequence !in ToMap(s[1..]);
  }

  predicate Keyed(m: map<int, RunEvent>) { forall k | k in m :: m[k].sequence == k }

  lemma {:induction false} ToMapIsKeyed(s: seq<RunEvent>)
    ensures Keyed(ToMap(s))
  {
    if s != [] {
      ToMapIsKeyed(s[1..]);
    }
  }

  lemma {:induction false} ToMapAppends(s: seq<RunEvent>, e: RunEvent)
    ensures ToMap(s + [e]) == ToMap(s)[e.sequence := e]
  {
    if s != [] {
      ToMapAppends(s[1..], e);
      assert (s + [e])[1..] == s[1..] + [e];
    }
  }

  // ----- `mergeRunEvents`, as it runs -----

  /** The least key of a nonempty map. */
  method LeastKey(m: map<int, RunEvent>) returns (least: int)
    requires m != map[]
    ensures least in m && forall k | k in m :: least <= k
  {
    ghost var some := ElementOf(m.Keys);
    least :| least in m;
    var rest := m.Keys - {least};
    while rest != {}
      invariant rest <= m.Keys && least in m
      invariant forall k | k in m && k !in rest :: least <= k
      decreases rest
    {
      some := ElementOf(rest);
      var k :| k in rest;
      if k < least {
        least := k;
      }
      rest := rest - {k};
    }
  }

  /** `s` lists the part of `m` that `rest` leaves, all of it before `rest`. */
  predicate IsFront(s: seq<RunEvent>, rest: map<int, RunEvent>, m: map<int, RunEvent>) {
    && Keyed(rest) && Ascending(s) && ToMap(s) == m - rest.Keys && rest == m - ToMap(s).Keys
    && forall i, k | 0 <= i < |s| && k in rest :: s[i].sequence < k
  }

  lemma FrontGrows(s: seq<RunEvent>, rest: map<int, RunEvent>, m: map<int, RunEvent>, k: int)
    requires IsFront(s, rest, m) && k in rest && forall x | x in rest :: k <= x
    ensures IsFront(s + [rest[k]], rest - {k}, m)
  {
    ToMapAppends(s, rest[k]);
    assert ToMap(s + [rest[k]]) == m - (rest - {k}).Keys;
  }

  /** `[...values].sort(...)`: the values of the Map by ascending sequence. */
  method SortValues(m: map<int, RunEvent>) returns (s: seq<RunEvent>)
    requires Keyed(m)
    ensures Ascending(s) && ToMap(s) == m
  {
    s := [];
    var rest := m;
    while rest != map[]
      invariant IsFront(s, rest, m)
      decreases rest.Keys
    {
      var k := LeastKey(rest);
      FrontGrows(s, rest, m, k);
      s := s + [rest[k]];
      rest := rest - {k};
    }
  }

  /** The result of a merge: nothing in, nothing changed; otherwise the union keyed by sequence, an
      incoming event replacing an applied one, in ascending order. */
  ghost predicate IsMerge(applied: seq<RunEvent>, incoming: seq<RunEvent>, merged: seq<RunEvent>) {
    if incoming == [] then merged == applied
    else Ascending(merged) && ToMap(merged) == ToMap(applied) + ToMap(incoming)
  }

  method MergeRunEvents(applied: seq<RunEvent>, incoming: seq<RunEvent>) returns (merged: seq<RunEvent>)
    ensures IsMerge(applied, incoming, merged)
  {
    if |incoming| == 0 {
      return applied;
    }
    var bySequence := SetAll(map[], applied);
    bySequence := SetAll(bySequence, incoming);
    ToMapIsKeyed(applied);
    ToMapIsKeyed(incoming);
    merged := SortValues(bySequence);
  }

  lemma UpdateRight(x: map<int, RunEvent>, y: map<int, RunEvent>, e: RunEvent)
    ensures (x + y)[e.sequence := e] == x + y[e.sequence := e]
  {
  }

  /** `for (const event of events) bySequence.set(event.sequence, event)` */
  method SetAll(before: map<int, RunEvent>, events: seq<RunEvent>) returns (bySequence: map<int, RunEvent>)
    ensures bySequence == before + ToMap(events)
  {
    bySequence := before;
    for i := 0 to |events|
      invariant bySequence == before + ToMap(events[..i])
    {
      ToMapAppends(events[..i], events[i]);
      assert events[..i + 1] == events[..i] + [events[i]];
      UpdateRight(before, ToMap(events[..i]), events[i]);
      bySequence := bySequence[events[i].sequence := events[i]];
    }
    assert events[..|events|] == events;
  }

  // ----- the merge as a value -----

  lemma {:induction false} Least(keys: set<int>) returns (least: int)
    requires keys != {}
    ensures least in keys && forall k | k in keys :: least <= k
  {
    var first := ElementOf(keys);
    least := first;
    if k :| k in keys && k < first {
      assert k in keys - {first};
      least := Least(keys - {first});
      assert forall x | x in keys :: x == first || x in keys - {first};
    }
  }

  lemma {:induction false} Listed(m: map<int, RunEvent>) returns (s: seq<RunEvent>)
    requires Keyed(m)
    ensures Ascending(s) && ToMap(s) == m
    decreases m.Keys
  {
    if m == map[] {
      s := [];
    } else {
      var k := Least(m.Keys);
      var rest := Listed(m - {k});
      Prepended(m[k], rest, m);
      s := [m[k]] + rest;
    }
  }

  lemma Prepended(e: RunEvent, rest: seq<RunEvent>, m: map<int, RunEvent>)
    requires Ascending(rest) && ToMap(rest) == m - {e.sequence}
    requires e.sequence in m && m[e.sequence] == e && forall k | k in m :: e.sequence <= k
    ensures Ascending([e] + rest) && ToMap([e] + rest) == m
  {
    AllLater(e, rest, m);
    PrependedMap(e, rest);
    assert map[e.sequence := e] + (m - {e.sequence}) == m;
  }

  lemma AllLater(e: RunEvent, rest: seq<RunEvent>, m: map<int, RunEvent>)
    requires Ascending(rest) && ToMap(rest) == m - {e.sequence} && forall k | k in m :: e.sequence <= k
    ensures Ascending([e] + rest)
  {
    ToMapFinds(rest);
    forall i | 0 <= i < |rest| ensures e.sequence < rest[i].sequence {
      assert rest[i].sequence in m - {e.sequence};
    }
  }

  lemma PrependedMap(e: RunEvent, rest: seq<RunEvent>)
    ensures ToMap([e] + rest) == map[e.sequence := e] + ToMap(rest)
  {
    assert ([e] + rest)[1..] == rest;
  }

  ghost function Merge(applied: seq<RunEvent>, incoming: seq<RunEvent>): (merged: seq<RunEvent>)
    ensures IsMerge(applied, incoming, merged)
  {
    ToMapIsKeyed(applied);
    ToMapIsKeyed(incoming);
    assert exists s :: IsMerge(applied, incoming, s) by {
      var s := Listed(ToMap(applied) + ToMap(incoming));
      assert IsMerge(applied, incoming, if incoming == [] then applied else s);
    }
    var merged :| IsMerge(applied, incoming, merged);
    merged
  }

  lemma MergeIs(applied: seq<RunEvent>, incoming: seq<RunEvent>, merged: seq<RunEvent>)
    requires IsMerge(applied, incoming, merged)
    ensures merged == Merge(applied, incoming)
  {
    if incoming != [] {
      AscendingIsDetermined(merged, Merge(applied, incoming));
    }
  }

  predicate Agree(a: seq<RunEvent>, b: seq<RunEvent>) {
    forall k | k in ToMap(a) && k in ToMap(b) :: ToMap(a)[k] == ToMap(b)[k]
  }

  lemma MergeIsUnion(a: seq<RunEvent>, b: seq<RunEvent>)
    requires Ascending(a)
    ensures Ascending(Merge(a, b)) && ToMap(Merge(a, b)) == ToMap(a) + ToMap(b)
  {
  }

  /** On ordered timelines the merge is idempotent and associative, and commutative exactly when
      the two agree wherever both have an entry: responses may be applied in any order. */
  lemma MergeLaws(a: seq<RunEvent>, b: seq<RunEvent>, c: seq<RunEvent>)
    requires Ascending(a) && Ascending(b) && Ascending(c)
    ensures Merge(a, a) == a
    ensures Merge(Merge(a, b), c) == Merge(a, Merge(b, c))
    ensures Merge(a, b) == Merge(b, a) <==> Agree(a, b)
  {
    MergeIsUnion(a, a);
    AscendingIsDetermined(Merge(a, a), a);
    Associates(a, b, c);
    Commutes(a, b);
  }

  lemma Associates(a: seq<RunEvent>, b: seq<RunEvent>, c: seq<RunEvent>)
    requires Ascending(a) && Ascending(b)
    ensures Merge(Merge(a, b), c) == Merge(a, Merge(b, c))
  {
    var ab, bc := Merge(a, b), Merge(b, c);
    MergeIsUnion(a, b);
    MergeIsUnion(b, c);
    MergeIsUnion(ab, c);
    MergeIsUnion(a, bc);
    UnionAssociates(ToMap(a), ToMap(b), ToMap(c));
    AscendingIsDetermined(Merge(ab, c), Merge(a, bc));
  }

  lemma UnionAssociates(x: map<int, RunEvent>, y: map<int, RunEvent>, z: map<int, RunEvent>)
    ensures (x + y) + z == x + (y + z)
  {
  }

  lemma UnionCommutes(x: map<int, RunEvent>, y: map<int, RunEvent>)
    ensures x + y == y + x <==> forall k | k in x && k in y :: x[k] == y[k]
  {
    if x + y == y + x {
      forall k | k in x && k in y ensures x[k] == y[k] {
        assert (x + y)[k] == (y + x)[k];
      }
    }
    if forall k | k in x && k in y :: x[k] == y[k] {
      assert (x + y).Keys == (y + x).Keys;
      assert forall k | k in x + y :: (x + y)[k] == (y + x)[k];
    }
  }

  lemma Commutes(a: seq<RunEvent>, b: seq<RunEvent>)
    requires Ascending(a) && Ascending(b)
    ensures Merge(a, b) == Merge(b, a) <==> Agree(a, b)
  {
    MergeIsUnion(a, b);
    MergeIsUnion(b, a);
    UnionCommutes(ToMap(a), ToMap(b));
    if Agree(a, b) {
      AscendingIsDetermined(Merge(a, b), Merge(b, a));
    }
  }

  /** Merging a stretch of a log into a prefix that reaches it gives the longer prefix. */
  lemma MergeExtendsPrefix(log: seq<RunEvent>, k: nat, i: nat, j: nat)
    requires Ascending(log) && i <= k <= |log| && i <= j <= |log|
    ensures Merge(log[..k], log[i..j]) == log[..if k < j then j else k]
  {
    var m := if k < j then j else k;
    SliceUnion(log, k, i, j);
    MergeIsUnion(log[..k], log[i..j]);
    AscendingIsDetermined(Merge(log[..k], log[i..j]), log[..m]);
  }

  lemma {:induction false} ToMapConcat(s: seq<RunEvent>, t: seq<RunEvent>)
    ensures ToMap(s + t) == ToMap(s) + ToMap(t)
  {
    if s == [] {
      assert s + t == t;
    } else {
      ToMapConcat(s[1..], t);
      assert (s + t)[1..] == s[1..] + t;
      UnionAssociates(map[s[0].sequence := s[0]], ToMap(s[1..]), ToMap(t));
    }
  }

  /** A stretch inside the prefix adds nothing. */
  lemma InnerSlice(log: seq<RunEvent>, k: nat, i: nat, j: nat)
    requires Ascending(log) && i <= j <= k <= |log|
    ensures ToMap(log[..k]) + ToMap(log[i..j]) == ToMap(log[..k])
  {
    assert log[0..k] == log[..k];
    SliceMap(log, 0, k);
    SliceMap(log, i, j);
    var inner, all := ToMap(log[i..j]), ToMap(log[..k]);
    forall x | x in inner ensures x in all && all[x] == inner[x] {
      var y :| i <= y < j && log[y].sequence == x;
    }
  }

  lemma SliceUnion(log: seq<RunEvent>, k: nat, i: nat, j: nat)
    requires Ascending(log) && i <= k <= |log| && i <= j <= |log|
    ensures ToMap(log[..k]) + ToMap(log[i..j]) == ToMap(log[..if k < j then j else k])
  {
    if j <= k {
      InnerSlice(log, k, i, j);
    } else {
      InnerSlice(log, k, i, k);
      Absorbs(log[..k], log[i..k], log[k..j]);
      SlicesJoin(log, i, k, j);
    }
  }

  lemma SlicesJoin(log: seq<RunEvent>, i: nat, k: nat, j: nat)
    requires i <= k <= j <= |log|
    ensures log[i..k] + log[k..j] == log[i..j] && log[..k] + log[k..j] == log[..j]
  {
  }

  lemma Absorbs(s: seq<RunEvent>, inner: seq<RunEvent>, more: seq<RunEvent>)
    requires ToMap(s) + ToMap(inner) == ToMap(s)
    ensures ToMap(s) + ToMap(inner + more) == ToMap(s + more)
  {
    ToMapConcat(inner, more);
    ToMapConcat(s, more);
    UnionAssociates(ToMap(s), ToMap(inner), ToMap(more));
  }

  lemma SliceMap(log: seq<RunEvent>, i: nat, j: nat)
    requires Ascending(log) && i <= j <= |log|
    ensures Ascending(log[i..j])
    ensures forall x | i <= x < j :: log[x].sequence in ToMap(log[i..j]) && ToMap(log[i..j])[log[x].sequence] == log[x]
    ensures forall k | k in ToMap(log[i..j]) :: exists x :: i <= x < j && log[x].sequence == k
  {
    SliceHas(log, i, j);
    SliceHasOnly(log, i, j);
  }

  lemma SliceHas(log: seq<RunEvent>, i: nat, j: nat)
    requires Ascending(log) && i <= j <= |log|
    ensures forall x | i <= x < j :: log[x].sequence in ToMap(log[i..j]) && ToMap(log[i..j])[log[x].sequence] == log[x]
  {
    var s := log[i..j];
    ToMapFinds(s);
    forall x | i <= x < j ensures log[x].sequence in ToMap(s) && ToMap(s)[log[x].sequence] == log[x] {
      assert s[x - i] == log[x];
    }
  }

  lemma SliceHasOnly(log: seq<RunEvent>, i: nat, j: nat)
    requires Ascending(log) && i <= j <= |log|
    ensures forall k | k in ToMap(log[i..j]) :: exists x :: i <= x < j && log[x].sequence == k
  {
    var s := log[i..j];
    ToMapFinds(s);
    forall k | k in ToMap(s) ensures exists x :: i <= x < j && log[x].sequence == k {
      var y :| 0 <= y < |s| && s[y].sequence == k;
      assert log[y + i].sequence == k;
    }
  }
}
