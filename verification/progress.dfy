/// Progress in the running system: a queued call is granted within a bounded number of releases of its key.

module Progress {
  import opened Common
  import opened Protocol
  import opened LockSpec
  import opened ServerSpec
  import opened Delivery
  import opened RegistrySystem
  import opened RegistryTheorems
  import opened Deadlock
  import opened RunBuilding
  import LockRuns

  // The entries in front of p's first one.
  function Ahead(p: ProcId, reqs: seq<Req>): nat {
    if reqs == [] || reqs[0].proc == p then 0 else 1 + Ahead(p, reqs[1..])
  }

  lemma {:induction false} AheadInFront(p: ProcId, a: seq<Req>, b: seq<Req>)
    requires Mine(p, a) != []
    ensures Ahead(p, a + b) == Ahead(p, a)
  {
    if a[0].proc != p {
      AheadInFront(p, a[1..], b);
      assert (a + b)[1..] == a[1..] + b;
    }
  }

  lemma {:induction false} AheadBehind(p: ProcId, a: seq<Req>, b: seq<Req>)
    requires Mine(p, a) == []
    ensures Ahead(p, a + b) == |a| + Ahead(p, b)
  {
    if a == [] {
      assert a + b == b;
    } else {
      AheadBehind(p, a[1..], b);
      assert (a + b)[1..] == a[1..] + b;
    }
  }

  // Holders of the key plus requests in front of p's.
  function DistanceOf(v: Lock, p: ProcId): nat {
    LockRuns.Holders(v) + Ahead(p, v.pending)
  }

  lemma ReleaseNears(m: Manager, op: Op, p: ProcId)
    requires ManagerInv(m) && op.kind.Release? && HeldAt(m.keys, op.proc, op.key)
    requires Mine(p, Admitted(m, op)) == []
    ensures op.key in Apply(m, op).0.keys
    ensures DistanceOf(Apply(m, op).0.keys[op.key], p) < DistanceOf(m.keys[op.key], p)
  {
    var v := m.keys[op.key];
    var d := Drop(v, op.proc);
    assert LockInv(v);
    ApplyRelease(m, op);
    LockRuns.DropCost(v, op.proc);
    LockRuns.SettleCost(d);
    AheadBehind(p, Settle(d).1, Settle(d).0.pending);
  }

  predicate ReleasesKey(m: Manager, op: Op, key: KeyId) {
    op.kind.Release? && op.key == key && HeldAt(m.keys, op.proc, key)
  }

  // While p waits for the key, its distance never grows, and every release of the key shortens it.
  lemma RequestNears(m: Manager, op: Op, p: ProcId, key: KeyId)
    requires ManagerInv(m) && key in m.keys && Mine(p, m.keys[key].pending) != [] && Mine(p, Admitted(m, op)) == []
    ensures key in Apply(m, op).0.keys
    ensures DistanceOf(Apply(m, op).0.keys[key], p) + (if ReleasesKey(m, op, key) then 1 else 0) <=
              DistanceOf(m.keys[key], p)
  {
    var v := m.keys[key];
    assert LockInv(v);
    if op.key != key {
      OtherKeysKept(m, op, key);
    } else if ReleasesKey(m, op, key) {
      ReleaseNears(m, op, p);
    } else if IsAccess(op.kind) {
      var r := Req(op.proc, op.kind);
      SettleAfterEnqueue(v, r);
      AheadInFront(p, v.pending, [r]);
    }
  }

  // ---------------------------------------------------------------------------------- in the system

  ghost function ReleasedBy(s: System, step: Step, key: KeyId): nat
    requires Enabled(s, step)
  {
    if step.Serve? && AsOp(s.up[step.p][0]).Some? && ReleasesKey(s.server.manager, AsOp(s.up[step.p][0]).value, key)
    then 1 else 0
  }

  // The successful releases of the key that the registry handles in a run.
  ghost function ReleasesIn(s: System, steps: seq<Step>, t: System, key: KeyId): nat
    requires Reaches(s, steps, t)
    decreases |steps|
  {
    if steps == [] then 0
    else ReleasedBy(s, steps[0], key) + ReleasesIn(Next(s, steps[0]), steps[1..], t, key)
  }

  lemma ServeNears(s: System, p: ProcId, pick: ProcId, q: ProcId, kind: RequestType, key: KeyId)
    requires SystemInv(s) && Enabled(s, Serve(p, pick))
    requires q in s.clients && WaitsFor(s.server.manager.keys, q, kind, key)
    ensures var t := AfterServe(s, p, pick);
            || HasGrant(t, q, kind, key)
            || (WaitsFor(t.server.manager.keys, q, kind, key) &&
                DistanceOf(t.server.manager.keys[key], q) + ReleasedBy(s, Serve(p, pick), key) <=
                  DistanceOf(s.server.manager.keys[key], q))
  {
    QueuedPhase(s, q, kind, key);
    var op := Sender(s, p);
    assert AsOp(s.up[p][0]) == Some(op);
    Served(s, p, pick, op);
    WaiterServed(s, p, pick, op, q, kind, key);
    if Mine(q, Admitted(s.server.manager, op)) == [] {
      RequestNears(s.server.manager, op, q, key);
    }
  }

  // No other step touches the locks.
  lemma LocksLeftAlone(s: System, step: Step)
    requires Enabled(s, step) && !step.Serve?
    ensures Next(s, step).server.manager == s.server.manager && s.clients.Keys <= Next(s, step).clients.Keys
  {
  }

  lemma StepNears(s: System, step: Step, q: ProcId, kind: RequestType, key: KeyId)
    requires SystemInv(s) && Enabled(s, step)
    requires q in s.clients && WaitsFor(s.server.manager.keys, q, kind, key)
    ensures var t := Next(s, step);
            || HasGrant(t, q, kind, key)
            || (q in t.clients && WaitsFor(t.server.manager.keys, q, kind, key) &&
                DistanceOf(t.server.manager.keys[key], q) + ReleasedBy(s, step, key) <=
                  DistanceOf(s.server.manager.keys[key], q))
  {
    if step.Serve? {
      ServeNears(s, step.p, step.pick, q, kind, key);
    } else {
      LocksLeftAlone(s, step);
    }
  }

  lemma PrefixReaches(s: System, steps: seq<Step>, j: nat, u: System)
    requires steps != [] && j < |steps| && Enabled(s, steps[0]) && Reaches(Next(s, steps[0]), steps[1..][..j], u)
    ensures Reaches(s, steps[..j + 1], u)
  {
    assert steps[..j + 1][0] == steps[0] && steps[..j + 1][1..] == steps[1..][..j];
  }

  // q waits, at most this far from its grant.
  ghost predicate WaitsWithin(s: System, q: ProcId, kind: RequestType, key: KeyId, distance: nat) {
    && q in s.clients && WaitsFor(s.server.manager.keys, q, kind, key)
    && 0 < DistanceOf(s.server.manager.keys[key], q) <= distance
  }

  lemma Nears(s: System, step: Step, q: ProcId, kind: RequestType, key: KeyId, distance: nat)
    requires SystemInv(s) && Enabled(s, step) && WaitsWithin(s, q, kind, key, distance)
    ensures || HasGrant(Next(s, step), q, kind, key)
            || (ReleasedBy(s, step, key) <= distance
                && WaitsWithin(Next(s, step), q, kind, key, distance - ReleasedBy(s, step, key)))
  {
    StepNears(s, step, q, kind, key);
    if WaitsFor(Next(s, step).server.manager.keys, q, kind, key) {
      StepKeepsInv(s, step);
      WaitersKeyHeld(Next(s, step), q, kind, key);
    }
  }

  // A run, continuing one from the start, that holds enough releases for q.
  ghost predicate LongEnoughFor(s0: System, past: seq<Step>, s: System, steps: seq<Step>, t: System, q: ProcId,
                                kind: RequestType, key: KeyId, distance: nat)
  {
    && Init(s0) && Reaches(s0, past, s) && Reaches(s, steps, t) && WaitsWithin(s, q, kind, key, distance)
    && ReleasesIn(s, steps, t, key) >= distance
  }

  lemma Onward(s0: System, past: seq<Step>, s: System, steps: seq<Step>, t: System, q: ProcId, kind: RequestType,
               key: KeyId, distance: nat)
    returns (left: nat)
    requires LongEnoughFor(s0, past, s, steps, t, q, kind, key, distance)
    ensures steps != [] && Enabled(s, steps[0])
    ensures || HasGrant(Next(s, steps[0]), q, kind, key)
            || LongEnoughFor(s0, past + [steps[0]], Next(s, steps[0]), steps[1..], t, q, kind, key, left)
  {
    left := 0;
    assert SystemInv(s) by {
      InitHolds(s0);
      RunKeepsInv(s0, past, s);
    }
    Nears(s, steps[0], q, kind, key, distance);
    if !HasGrant(Next(s, steps[0]), q, kind, key) {
      left := distance - ReleasedBy(s, steps[0], key);
      OneStep(s, steps[0]);
      ReachesConcat(s0, past, s, [steps[0]], Next(s, steps[0]));
    }
  }

  lemma {:induction false} NearerAndNearer(s0: System, past: seq<Step>, s: System, steps: seq<Step>, t: System,
                                           q: ProcId, kind: RequestType, key: KeyId, distance: nat)
    returns (j: nat, u: System)
    requires LongEnoughFor(s0, past, s, steps, t, q, kind, key, distance)
    ensures j <= |steps| && Reaches(s, steps[..j], u) && HasGrant(u, q, kind, key)
    decreases |steps|
  {
    var left := Onward(s0, past, s, steps, t, q, kind, key, distance);
    if HasGrant(Next(s, steps[0]), q, kind, key) {
      j, u := 0, Next(s, steps[0]);
    } else {
      j, u := NearerAndNearer(s0, past + [steps[0]], Next(s, steps[0]), steps[1..], t, q, kind, key, left);
    }
    PrefixReaches(s, steps, j, u);
    j := j + 1;
  }

  lemma WaitersKeyHeld(s: System, q: ProcId, kind: RequestType, key: KeyId)
    requires SystemInv(s) && WaitsFor(s.server.manager.keys, q, kind, key)
    ensures DistanceOf(s.server.manager.keys[key], q) > 0
  {
    var v := s.server.manager.keys[key];
    assert LockInv(v) && v.pending != [];
    if v.writer.None? {
      var r :| r in v.readers;
      assert |v.readers| > 0;
    }
  }

  // Progress: in every run, a call that waits in the queue of a key with h holders and i requests ahead has its
  // grant on the way by the time the registry has handled h + i releases of the key, whatever else happens.
  lemma GrantedWithin(s0: System, past: seq<Step>, s: System, steps: seq<Step>, t: System,
                      q: ProcId, kind: RequestType, key: KeyId)
    returns (j: nat, u: System)
    requires Init(s0) && Reaches(s0, past, s) && Reaches(s, steps, t)
    requires q in s.clients && WaitsFor(s.server.manager.keys, q, kind, key)
    requires ReleasesIn(s, steps, t, key) >= DistanceOf(s.server.manager.keys[key], q)
    ensures j <= |steps| && Reaches(s, steps[..j], u) && HasGrant(u, q, kind, key)
  {
    InitHolds(s0);
    RunKeepsInv(s0, past, s);
    WaitersKeyHeld(s, q, kind, key);
    j, u := NearerAndNearer(s0, past, s, steps, t, q, kind, key, DistanceOf(s.server.manager.keys[key], q));
  }
}
