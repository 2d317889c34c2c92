/// Whole runs of the access manager: what an observer who sees every result and every channel entry,
/// but not the queues, can rely on.

module LockRuns {
  import opened Common
  import opened Protocol
  import opened LockSpec

  // A call of a public operation, or the server emptying the channel.
  datatype Event = Call(op: Op) | Collect

  // The accesses requested and the accesses granted since the key was created, each in order.
  datatype KeyLog = KeyLog(arrivals: seq<Req>, grants: seq<Req>)

  datatype Trace = Trace(manager: Manager, logs: map<KeyId, KeyLog>, queued: nat, sent: nat)

  // A new manager, with nothing observed yet.
  predicate Starts(t: Trace) {
    t == Trace(Manager(map[], []), map[], 0, 0)
  }

  function Asked(gs: seq<Grant>): (reqs: seq<Req>)
    ensures |reqs| == |gs|
  {
    seq(|gs|, i requires 0 <= i < |gs| => Req(gs[i].proc, gs[i].kind))
  }

  function Extend(logs: map<KeyId, KeyLog>, key: KeyId, arrived: seq<Req>, granted: seq<Req>): map<KeyId, KeyLog> {
    if key in logs then logs[key := KeyLog(logs[key].arrivals + arrived, logs[key].grants + granted)] else logs
  }

  // Updates the log from the result of the call and the new channel entries.
  function Record(logs: map<KeyId, KeyLog>, op: Op, outcome: Outcome, entries: seq<Grant>): map<KeyId, KeyLog> {
    match outcome
    case Refused(_) => logs
    case Granted => Extend(logs, op.key, [Req(op.proc, op.kind)], [Req(op.proc, op.kind)])
    case Queued => Extend(logs, op.key, [Req(op.proc, op.kind)], [])
    case Done =>
      if op.kind.Create? then logs[op.key := KeyLog([], [])]
      else if op.kind.Delete? then logs - {op.key}
      else Extend(logs, op.key, [], Asked(entries))
  }

  lemma ChannelOnlyGrows(m: Manager, op: Op)
    ensures m.channel <= Apply(m, op).0.channel
  {
  }

  function Next(t: Trace, e: Event): Trace {
    match e
    case Collect => t.(manager := t.manager.(channel := []))
    case Call(op) =>
      var (m, outcome) := Apply(t.manager, op);
      ChannelOnlyGrows(t.manager, op);
      var entries := m.channel[|t.manager.channel|..];
      Trace(m, Record(t.logs, op, outcome, entries),
            t.queued + (if outcome.Queued? then 1 else 0), t.sent + |entries|)
  }

  function Run(t: Trace, events: seq<Event>): Trace
    decreases |events|
  {
    if events == [] then t else Run(Next(t, events[0]), events[1..])
  }

  // The sum of a weight over all locks.
  ghost function Total(keys: map<KeyId, Lock>, weight: Lock -> nat): nat
    decreases |keys|
  {
    if keys == map[] then 0
    else
      var k :| k in keys;
      weight(keys[k]) + Total(keys - {k}, weight)
  }

  lemma {:induction false} TotalRemove(keys: map<KeyId, Lock>, weight: Lock -> nat, k: KeyId)
    requires k in keys
    ensures Total(keys, weight) == weight(keys[k]) + Total(keys - {k}, weight)
    decreases |keys|
  {
    var x :| x in keys && Total(keys, weight) == weight(keys[x]) + Total(keys - {x}, weight);
    if x != k {
      TotalRemove(keys - {x}, weight, k);
      TotalRemove(keys - {k}, weight, x);
      assert keys - {x} - {k} == keys - {k} - {x};
    }
  }

  lemma TotalUpdate(keys: map<KeyId, Lock>, weight: Lock -> nat, k: KeyId, v: Lock)
    ensures Total(keys[k := v], weight) + (if k in keys then weight(keys[k]) else 0) == Total(keys, weight) + weight(v)
  {
    TotalRemove(keys[k := v], weight, k);
    assert keys[k := v] - {k} == keys - {k};
    if k in keys {
      TotalRemove(keys, weight, k);
    } else {
      assert keys - {k} == keys;
    }
  }

  function QueueLength(v: Lock): nat {
    |v.pending|
  }

  // The sum of the queue lengths.
  ghost function Waiting(keys: map<KeyId, Lock>): nat {
    Total(keys, QueueLength)
  }

  // Grants are a prefix of the arrivals and the queue is the rest, key by key: nobody is overtaken,
  // nobody is lost and nobody is served twice.
  ghost predicate FirstInFirstOut(t: Trace) {
    && t.logs.Keys == t.manager.keys.Keys
    && forall k :: k in t.logs ==> t.logs[k].grants + t.manager.keys[k].pending == t.logs[k].arrivals
  }

  ghost predicate RunInv(t: Trace) {
    && ManagerInv(t.manager)
    && FirstInFirstOut(t)
    && t.queued == t.sent + Waiting(t.manager.keys)
  }

  lemma AskedGrants(reqs: seq<Req>, key: KeyId, holder: ProcId)
    ensures Asked(Grants(reqs, key, holder)) == reqs
  {
  }

  // One key moves: a arrives, g is granted, and the queue accounts for both.
  lemma Advance(t: Trace, t': Trace, key: KeyId, a: seq<Req>, g: seq<Req>)
    requires RunInv(t) && ManagerInv(t'.manager)
    requires key in t.manager.keys && key in t'.manager.keys
    requires t'.manager.keys == t.manager.keys[key := t'.manager.keys[key]]
    requires t'.logs == t.logs[key := KeyLog(t.logs[key].arrivals + a, t.logs[key].grants + g)]
    requires t.manager.keys[key].pending + a == g + t'.manager.keys[key].pending
    requires t'.queued - t.queued + |t.manager.keys[key].pending| == t'.sent - t.sent + |t'.manager.keys[key].pending|
    ensures RunInv(t')
  {
    var v, w, log := t.manager.keys[key], t'.manager.keys[key], t.logs[key];
    TotalUpdate(t.manager.keys, QueueLength, key, w);
    assert (log.grants + g) + w.pending == log.grants + (g + w.pending);
    assert log.grants + (v.pending + a) == log.arrivals + a;
  }

  // What a read or write request does to the trace.
  lemma NextAccess(t: Trace, op: Op)
    requires op.key in t.manager.keys && IsAccess(op.kind) && LockInv(t.manager.keys[op.key]) && op.key in t.logs
    ensures var v := t.manager.keys[op.key];
            var log := t.logs[op.key];
            var r := Req(op.proc, op.kind);
            var now := v.pending == [] && Compatible(v, op.kind);
            var t' := Next(t, Call(op));
            && t'.manager.keys == t.manager.keys[op.key := if now then Admit(v, r) else Enqueue(v, r)]
            && t'.logs == t.logs[op.key := KeyLog(log.arrivals + [r], log.grants + (if now then [r] else []))]
            && t'.queued == t.queued + (if now then 0 else 1) && t'.sent == t.sent
  {
    SettleAfterEnqueue(t.manager.keys[op.key], Req(op.proc, op.kind));
    assert t.manager.channel[|t.manager.channel|..] == [];
  }

  lemma AccessStep(t: Trace, op: Op)
    requires RunInv(t) && op.key in t.manager.keys && IsAccess(op.kind)
    ensures RunInv(Next(t, Call(op)))
  {
    ApplyKeepsInv(t.manager, op);
    NextAccess(t, op);
    var v := t.manager.keys[op.key];
    var r := Req(op.proc, op.kind);
    Advance(t, Next(t, Call(op)), op.key, [r], if v.pending == [] && Compatible(v, op.kind) then [r] else []);
  }

  // What a release does to the trace.
  lemma NextRelease(t: Trace, op: Op)
    requires op.key in t.manager.keys && op.kind.Release? && HeldBy(t.manager.keys[op.key], op.proc)
    requires Exclusive(t.manager.keys[op.key]) && op.key in t.logs
    ensures var v := t.manager.keys[op.key];
            var log := t.logs[op.key];
            var (w, admitted) := Settle(Drop(v, op.proc));
            var t' := Next(t, Call(op));
            && t'.manager.keys == t.manager.keys[op.key := w]
            && t'.logs == t.logs[op.key := KeyLog(log.arrivals, log.grants + admitted)]
            && t'.queued == t.queued && t'.sent == t.sent + |admitted|
  {
    ApplyRelease(t.manager, op);
    var v := t.manager.keys[op.key];
    var admitted := Settle(Drop(v, op.proc)).1;
    var entries := Grants(admitted, op.key, v.creator);
    assert (t.manager.channel + entries)[|t.manager.channel|..] == entries;
    AskedGrants(admitted, op.key, v.creator);
    assert t.logs[op.key].arrivals + [] == t.logs[op.key].arrivals;
  }

  lemma ReleaseStep(t: Trace, op: Op)
    requires RunInv(t) && op.key in t.manager.keys && op.kind.Release? && HeldBy(t.manager.keys[op.key], op.proc)
    ensures RunInv(Next(t, Call(op)))
  {
    ApplyKeepsInv(t.manager, op);
    NextRelease(t, op);
    var admitted := Settle(Drop(t.manager.keys[op.key], op.proc)).1;
    assert t.logs[op.key].arrivals + [] == t.logs[op.key].arrivals;
    Advance(t, Next(t, Call(op)), op.key, [], admitted);
  }

  lemma StepKeepsInv(t: Trace, e: Event)
    requires RunInv(t)
    ensures RunInv(Next(t, e))
  {
    if e.Call? {
      var op := e.op;
      RefusalChangesNothing(t.manager, op);
      if Apply(t.manager, op).1.Refused? {
        assert t.manager.channel[|t.manager.channel|..] == [];
      } else if op.kind.Create? {
        TotalUpdate(t.manager.keys, QueueLength, op.key, Lock([], {}, None, op.proc));
        assert t.manager.channel[|t.manager.channel|..] == [];
      } else if op.kind.Delete? {
        TotalRemove(t.manager.keys, QueueLength, op.key);
        assert t.manager.channel[|t.manager.channel|..] == [];
      } else if op.kind.Release? {
        ReleaseStep(t, op);
      } else {
        AccessStep(t, op);
      }
    }
  }

  lemma {:induction false} RunKeepsInv(t: Trace, events: seq<Event>)
    requires RunInv(t)
    ensures RunInv(Run(t, events))
    decreases |events|
  {
    if events != [] {
      StepKeepsInv(t, events[0]);
      RunKeepsInv(Next(t, events[0]), events[1..]);
    }
  }

  lemma StartInv(t: Trace)
    requires Starts(t)
    ensures RunInv(t)
  {
    assert Waiting(map[]) == 0;
  }

  lemma EveryRunInv(t: Trace, events: seq<Event>)
    requires Starts(t)
    ensures RunInv(Run(t, events))
  {
    StartInv(t);
    RunKeepsInv(t, events);
  }

  // In every run from the empty manager, over all keys and through deletions and re-creations: the lock
  // invariant, no overtaking, and as many queued results as grants sent plus requests still waiting.
  lemma WholeRun(t: Trace, events: seq<Event>)
    requires Starts(t)
    ensures ManagerInv(Run(t, events).manager)
    ensures FirstInFirstOut(Run(t, events))
    ensures Run(t, events).queued == Run(t, events).sent + Waiting(Run(t, events).manager.keys)
  {
    EveryRunInv(t, events);
  }

  lemma DeleteFindsNobody(m: Manager, op: Op)
    requires ManagerInv(m) && op.kind.Delete? && Apply(m, op).1.Done?
    ensures op.key in m.keys && m.keys[op.key].pending == []
  {
    assert LockInv(m.keys[op.key]);
  }

  // Deleting never discards a waiter.
  lemma DeleteLosesNobody(t: Trace, events: seq<Event>, op: Op)
    requires Starts(t) && op.kind.Delete?
    requires Apply(Run(t, events).manager, op).1.Done?
    ensures op.key in Run(t, events).manager.keys && Run(t, events).manager.keys[op.key].pending == []
  {
    EveryRunInv(t, events);
    DeleteFindsNobody(Run(t, events).manager, op);
  }

  // ---------------------------------------------------------------------------------- starvation

  function Holders(v: Lock): nat {
    |v.readers| + (if v.writer.Some? then 1 else 0)
  }

  // The n-th access requested since the key was created still waits.
  predicate Waits(t: Trace, key: KeyId, n: nat) {
    key in t.logs && |t.logs[key].grants| <= n < |t.logs[key].arrivals|
  }

  predicate Served(t: Trace, key: KeyId, n: nat) {
    key in t.logs && n < |t.logs[key].grants|
  }

  // Current holders plus the requests ahead in the queue.
  function Distance(t: Trace, key: KeyId, n: nat): nat
    requires Waits(t, key, n) && key in t.manager.keys
  {
    Holders(t.manager.keys[key]) + (n - |t.logs[key].grants|)
  }

  predicate Releases(t: Trace, e: Event, key: KeyId) {
    e.Call? && e.op.kind.Release? && e.op.key == key && Apply(t.manager, e.op).1.Done?
  }

  function ReleaseCount(t: Trace, events: seq<Event>, key: KeyId): nat
    decreases |events|
  {
    if events == [] then 0
    else (if Releases(t, events[0], key) then 1 else 0) + ReleaseCount(Next(t, events[0]), events[1..], key)
  }

  lemma {:induction false} SettleCost(v: Lock)
    ensures Holders(Settle(v).0) <= Holders(v) + |Settle(v).1|
    decreases |v.pending|
  {
    if v.pending != [] && Compatible(v, v.pending[0].kind) {
      SettleCost(Admit(v, v.pending[0]).(pending := v.pending[1..]));
    }
  }

  lemma DropCost(v: Lock, p: ProcId)
    requires LockInv(v) && HeldBy(v, p)
    ensures Holders(Drop(v, p)) == Holders(v) - 1
  {
  }

  lemma ReleaseShortens(t: Trace, op: Op, n: nat)
    requires RunInv(t) && Waits(t, op.key, n) && op.kind.Release? && HeldBy(t.manager.keys[op.key], op.proc)
    ensures var t' := Next(t, Call(op));
            || Served(t', op.key, n)
            || (Waits(t', op.key, n) && op.key in t'.manager.keys &&
                Distance(t', op.key, n) < Distance(t, op.key, n))
  {
    var v := t.manager.keys[op.key];
    NextRelease(t, op);
    DropCost(v, op.proc);
    SettleCost(Drop(v, op.proc));
  }

  // While a request waits its distance never grows, and every release on the key shortens it.
  lemma StepShortens(t: Trace, e: Event, key: KeyId, n: nat)
    requires RunInv(t) && Waits(t, key, n)
    ensures var t' := Next(t, e);
            || Served(t', key, n)
            || (Waits(t', key, n) && key in t'.manager.keys &&
                Distance(t', key, n) + (if Releases(t, e, key) then 1 else 0) <= Distance(t, key, n))
  {
    if e.Call? && e.op.key == key {
      var op := e.op;
      var v := t.manager.keys[key];
      assert v.pending != [];
      if op.kind.Release? && HeldBy(v, op.proc) {
        ReleaseShortens(t, op, n);
      } else if IsAccess(op.kind) {
        NextAccess(t, op);
      }
    }
  }

  lemma {:induction false} EventuallyServed(t: Trace, events: seq<Event>, key: KeyId, n: nat)
    requires RunInv(t) && Waits(t, key, n)
    requires ReleaseCount(t, events, key) >= Distance(t, key, n)
    ensures exists j :: 0 <= j <= |events| && Served(Run(t, events[..j]), key, n)
    decreases |events|
  {
    assert t.manager.keys[key].pending != [];
    assert Holders(t.manager.keys[key]) > 0 by {
      if t.manager.keys[key].writer.None? {
        var r :| r in t.manager.keys[key].readers;
        assert |t.manager.keys[key].readers| > 0;
      }
    }
    var t' := Next(t, events[0]);
    StepKeepsInv(t, events[0]);
    StepShortens(t, events[0], key, n);
    if Served(t', key, n) {
      assert events[..1] == [events[0]];
      assert Run(t', []) == t';
      assert Served(Run(t, events[..1]), key, n);
    } else {
      EventuallyServed(t', events[1..], key, n);
      var j :| 0 <= j <= |events[1..]| && Served(Run(t', events[1..][..j]), key, n);
      assert events[..j + 1][1..] == events[1..][..j];
      assert Served(Run(t, events[..j + 1]), key, n);
    }
  }

  // No starvation, with a bound: a request with h holders and i requests ahead of it is granted within h + i
  // successful releases on its key, whatever else is interleaved.
  lemma NoStarvation(t: Trace, past: seq<Event>, future: seq<Event>, key: KeyId, n: nat)
    requires Starts(t)
    requires Waits(Run(t, past), key, n) && key in Run(t, past).manager.keys
    requires ReleaseCount(Run(t, past), future, key) >= Distance(Run(t, past), key, n)
    ensures exists j :: 0 <= j <= |future| && Served(Run(Run(t, past), future[..j]), key, n)
  {
    EveryRunInv(t, past);
    EventuallyServed(Run(t, past), future, key, n);
  }

  // ---------------------------------------------------------------------------------- the bound is exact

  // n processes in line, of which the first h asked to read and the others to write.
  function Line(h: nat, n: nat): (reqs: seq<Req>)
    ensures |reqs| == n
  {
    seq(n, i requires 0 <= i < n => Req(i, if i < h then Read else Write))
  }

  function Span(a: nat, b: nat): (s: set<ProcId>)
    ensures forall x :: x in s <==> a <= x < b
    decreases b - a
  {
    if a >= b then {} else {a} + Span(a + 1, b)
  }

  lemma {:induction false} SpanSize(a: nat, b: nat)
    requires a <= b
    ensures |Span(a, b)| == b - a
    decreases b - a
  {
    if a < b {
      SpanSize(a + 1, b);
      assert Span(a, b) == {a} + Span(a + 1, b);
    } else {
      assert Span(a, b) == {};
    }
  }

  // How many of the line hold or held the key after j releases.
  function Front(h: nat, n: nat, j: nat): (g: nat)
    requires h > 0 && (j == 0 || j < n)
    ensures g <= n
  {
    if j >= h then j + 1 else if n < h then n else h
  }

  // The line after j releases: the readers that have not gone yet, or the one writer whose turn it is.
  function Lane(h: nat, n: nat, j: nat): Lock
    requires h > 0 && (j == 0 || j < n)
  {
    Lock(Line(h, n)[Front(h, n, j)..], if j < h then Span(j, Front(h, n, j)) else {},
         if j < h then None else Some(j), 0)
  }

  lemma LaneInv(h: nat, n: nat, j: nat)
    requires h > 0 && (j == 0 || j < n)
    ensures LockInv(Lane(h, n, j))
  {
    var v := Lane(h, n, j);
    if j < h && v.pending != [] {
      assert j in v.readers;
    }
  }

  lemma LineGrows(h: nat, n: nat)
    ensures Line(h, n) + [Req(n, if n < h then Read else Write)] == Line(h, n + 1)
  {
  }

  lemma ReaderJoins(h: nat, n: nat)
    requires n < h
    ensures Lane(h, n, 0).pending == [] && Compatible(Lane(h, n, 0), Read)
    ensures Admit(Lane(h, n, 0), Req(n, Read)) == Lane(h, n + 1, 0)
    ensures Line(h, n)[..Front(h, n, 0)] + [Req(n, Read)] == Line(h, n + 1)[..Front(h, n + 1, 0)]
  {
    LineGrows(h, n);
    assert Span(0, n) + {n} == Span(0, n + 1);
    assert Line(h, n + 1)[..n + 1] == Line(h, n + 1);
  }

  lemma WriterJoins(h: nat, n: nat)
    requires 0 < h <= n
    ensures !Compatible(Lane(h, n, 0), Write) && Enqueue(Lane(h, n, 0), Req(n, Write)) == Lane(h, n + 1, 0)
    ensures Line(h, n)[..Front(h, n, 0)] == Line(h, n + 1)[..Front(h, n + 1, 0)]
  {
    LineGrows(h, n);
    assert 0 in Span(0, h);
    assert Line(h, n)[h..] + [Req(n, Write)] == Line(h, n + 1)[h..];
    assert (Line(h, n) + [Req(n, Write)])[..h] == Line(h, n)[..h];
  }

  lemma ReaderLeaves(h: nat, n: nat, j: nat)
    requires j + 1 < h < n
    ensures HeldBy(Lane(h, n, j), j) && Settle(Drop(Lane(h, n, j), j)) == (Lane(h, n, j + 1), [])
  {
    LaneInv(h, n, j);
    assert Span(j, h) - {j} == Span(j + 1, h);
    assert j + 1 in Span(j + 1, h);
    SettleAfterDropStillHeld(Lane(h, n, j), j);
  }

  lemma LastLeaves(h: nat, n: nat, j: nat)
    requires 0 < h <= j + 1 < n
    ensures HeldBy(Lane(h, n, j), j) && Drop(Lane(h, n, j), j) == Lock(Line(h, n)[j + 1..], {}, None, 0)
  {
    if j < h {
      assert Span(j, h) - {j} == {};
    }
  }

  lemma SliceStep(line: seq<Req>, k: nat)
    requires k < |line|
    ensures line[k..] != [] && line[k..][0] == line[k] && line[k..][1..] == line[k + 1..]
    ensures line[..k] + [line[k]] == line[..k + 1]
  {
  }

  lemma HandOver(line: seq<Req>, k: nat, rest: seq<Req>)
    requires k < |line| && line[k].kind.Write? && rest == line[k..]
    ensures Settle(Lock(rest, {}, None, 0)) == (Lock(line[k + 1..], {}, Some(line[k].proc), 0), [line[k]])
  {
    SliceStep(line, k);
    DrainWrite(Lock(rest, {}, None, 0));
  }

  ghost predicate Crowd(t: Trace, h: nat, n: nat, j: nat) {
    && h > 0 && (j == 0 || j < n)
    && t.manager.keys == map[0 := Lane(h, n, j)]
    && t.logs == map[0 := KeyLog(Line(h, n), Line(h, n)[..Front(h, n, j)])]
  }

  lemma JoinCrowd(t: Trace, h: nat, n: nat)
    requires Crowd(t, h, n, 0)
    ensures Crowd(Next(t, Call(Op(n, if n < h then Read else Write, 0))), h, n + 1, 0)
  {
    LaneInv(h, n, 0);
    NextAccess(t, Op(n, if n < h then Read else Write, 0));
    LineGrows(h, n);
    if n < h {
      ReaderJoins(h, n);
    } else {
      WriterJoins(h, n);
      assert Line(h, n)[..Front(h, n, 0)] + [] == Line(h, n)[..Front(h, n, 0)];
    }
  }

  lemma OnlyEntry<T>(key: KeyId, x: T, y: T)
    ensures map[key := x][key := y] == map[key := y]
  {
  }

  // A release on the only key.
  lemma ReleaseOnly(t: Trace, v: Lock, log: KeyLog, p: ProcId, w: Lock, admitted: seq<Req>)
    requires t.manager.keys == map[0 := v] && t.logs == map[0 := log] && LockInv(v) && HeldBy(v, p)
    requires Settle(Drop(v, p)) == (w, admitted)
    ensures Next(t, Call(Op(p, Release, 0))).manager.keys == map[0 := w]
    ensures Next(t, Call(Op(p, Release, 0))).logs == map[0 := KeyLog(log.arrivals, log.grants + admitted)]
    ensures Releases(t, Call(Op(p, Release, 0)), 0)
  {
    NextRelease(t, Op(p, Release, 0));
    OnlyEntry(0, v, w);
    OnlyEntry(0, log, KeyLog(log.arrivals, log.grants + admitted));
  }

  lemma ReaderLeavesCrowd(t: Trace, h: nat, n: nat, j: nat)
    requires Crowd(t, h, n, j) && j + 1 < h < n
    ensures Crowd(Next(t, Call(Op(j, Release, 0))), h, n, j + 1) && Releases(t, Call(Op(j, Release, 0)), 0)
  {
    var line := Line(h, n);
    LaneInv(h, n, j);
    ReaderLeaves(h, n, j);
    assert line[..h] + [] == line[..h];
    ReleaseOnly(t, Lane(h, n, j), KeyLog(line, line[..h]), j, Lane(h, n, j + 1), []);
  }

  lemma WriterLane(h: nat, n: nat, k: nat)
    requires 0 < h <= k < n
    ensures Lane(h, n, k) == Lock(Line(h, n)[k + 1..], {}, Some(k), 0) && Line(h, n)[k] == Req(k, Write)
  {
  }

  lemma LastLeavesLane(h: nat, n: nat, j: nat)
    requires 0 < h <= j + 1 < n
    ensures HeldBy(Lane(h, n, j), j)
    ensures Settle(Drop(Lane(h, n, j), j)) == (Lane(h, n, j + 1), [Line(h, n)[j + 1]])
  {
    var line := Line(h, n);
    WriterLane(h, n, j + 1);
    LastLeaves(h, n, j);
    HandOver(line, j + 1, line[j + 1..]);
  }

  lemma LastLeavesCrowd(t: Trace, h: nat, n: nat, j: nat)
    requires Crowd(t, h, n, j) && 0 < h <= j + 1 < n
    ensures Crowd(Next(t, Call(Op(j, Release, 0))), h, n, j + 1) && Releases(t, Call(Op(j, Release, 0)), 0)
  {
    var line := Line(h, n);
    LaneInv(h, n, j);
    LastLeavesLane(h, n, j);
    SliceStep(line, j + 1);
    ReleaseOnly(t, Lane(h, n, j), KeyLog(line, line[..j + 1]), j, Lane(h, n, j + 1), [line[j + 1]]);
  }

  lemma LeaveCrowd(t: Trace, h: nat, n: nat, j: nat)
    requires Crowd(t, h, n, j) && j + 1 < n && h < n
    ensures Crowd(Next(t, Call(Op(j, Release, 0))), h, n, j + 1) && Releases(t, Call(Op(j, Release, 0)), 0)
  {
    if j + 1 < h {
      ReaderLeavesCrowd(t, h, n, j);
    } else {
      LastLeavesCrowd(t, h, n, j);
    }
  }

  lemma {:induction false} RunAppend(t: Trace, events: seq<Event>, e: Event, key: KeyId)
    ensures Run(t, events + [e]) == Next(Run(t, events), e)
    ensures ReleaseCount(t, events + [e], key) ==
              ReleaseCount(t, events, key) + (if Releases(Run(t, events), e, key) then 1 else 0)
    decreases |events|
  {
    if events == [] {
      assert [] + [e] == [e] && [e][1..] == [];
    } else {
      RunAppend(Next(t, events[0]), events[1..], e, key);
      assert (events + [e])[1..] == events[1..] + [e];
    }
  }

  lemma NobodyYet(t: Trace, h: nat) returns (past: seq<Event>)
    requires Starts(t) && h > 0
    ensures Crowd(Run(t, past), h, 0, 0)
  {
    past := [Call(Op(0, Create, 0))];
    assert past[1..] == [];
    assert Run(t, past) == Next(t, past[0]);
    assert Line(h, 0) == [] && Span(0, 0) == {};
  }

  lemma {:induction false} Gather(t: Trace, h: nat, n: nat) returns (past: seq<Event>)
    requires Starts(t) && h > 0
    ensures Crowd(Run(t, past), h, n, 0)
    decreases n
  {
    if n == 0 {
      past := NobodyYet(t, h);
    } else {
      past := Gather(t, h, n - 1);
      var e := Call(Op(n - 1, if n - 1 < h then Read else Write, 0));
      JoinCrowd(Run(t, past), h, n - 1);
      RunAppend(t, past, e, 0);
      past := past + [e];
    }
  }

  lemma {:induction false} Disperse(t: Trace, h: nat, n: nat, j: nat) returns (future: seq<Event>)
    requires Crowd(t, h, n, 0) && j < n && h < n
    ensures Crowd(Run(t, future), h, n, j) && ReleaseCount(t, future, 0) == j
    decreases j
  {
    if j == 0 {
      future := [];
    } else {
      var before := Disperse(t, h, n, j - 1);
      var e := Call(Op(j - 1, Release, 0));
      LeaveCrowd(Run(t, before), h, n, j - 1);
      RunAppend(t, before, e, 0);
      future := before + [e];
    }
  }

  // The starvation bound cannot be lowered: for any number of holders and any number of requests ahead there is a
  // run in which a request still waits when all but one of the h + i releases have happened.
  lemma BoundIsExact(t: Trace, h: nat, i: nat) returns (past: seq<Event>, future: seq<Event>)
    requires Starts(t) && h > 0
    ensures var s := Run(t, past);
            && Waits(s, 0, h + i) && 0 in s.manager.keys && Holders(s.manager.keys[0]) == h
            && Distance(s, 0, h + i) == h + i
            && ReleaseCount(s, future, 0) == h + i - 1
            && Waits(Run(s, future), 0, h + i)
  {
    SpanSize(0, h);
    past := Gather(t, h, h + i + 1);
    future := Disperse(Run(t, past), h, h + i + 1, h + i - 1);
  }
}
