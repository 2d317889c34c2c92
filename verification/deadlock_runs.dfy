/// Runs that end in a deadlock: a client that waits for itself, and two clients that wait for one another.

module DeadlockRuns {
  import opened Protocol
  import opened LockSpec
  import opened ClientProtocol
  import opened RegistrySystem
  import opened RegistryTheorems
  import opened RunBuilding
  import opened Deadlock
  import opened Grantable

  // Client 1 holds key 7, for reading or for writing, and asks to write it: it waits for itself, for ever.
  lemma SelfWait(s0: System, mode: RequestType) returns (steps: seq<Step>, t: System)
    requires Init(s0) && IsAccess(mode)
    ensures Reaches(s0, steps, t) && 1 in t.clients
    ensures t.clients[1].held == map[7 := mode] && WaitsFor(t.server.manager.keys, 1, Write, 7)
    ensures !CanBeGranted(t, 1, Write, 7)
  {
    var a, u := Arrive(s0, [], s0, "a");
    var b, v := Hold(s0, a, u, 1, mode, 7);
    WriteQueues(v.server.manager, 1, 7, 1, mode);
    steps, t := Call(s0, b, v, Op(1, Write, 7));
    MineAlone(1, 1, Write);
    UpgradeNeverGranted(s0, steps, t, 1, Write, 7);
  }

  // Client 1 holds key 7 and client 2 holds key 8.
  ghost predicate OneEach(s: System) {
    && s.clients.Keys == {1, 2} && s.clients[1].status.Idle? && s.clients[2].status.Idle?
    && s.clients[1].held == map[7 := Write] && s.clients[2].held == map[8 := Write]
    && s.server.manager == Manager(map[7 := HeldLock(1, Write, []), 8 := HeldLock(2, Write, [])], [])
  }

  lemma HoldOneEach(s0: System) returns (steps: seq<Step>, t: System)
    requires Init(s0)
    ensures Reaches(s0, steps, t) && OneEach(t)
  {
    var a, u := HoldOne(s0);
    steps, t := Hold(s0, a, u, 2, Write, 8);
  }

  // Each has asked for the other's key.
  ghost predicate Crossed(s: System) {
    && s.clients.Keys == {1, 2}
    && s.clients[1].status == Asked(Write, 8) && s.clients[2].status == Asked(Write, 7)
    && s.clients[1].held == map[7 := Write] && s.clients[2].held == map[8 := Write]
    && s.server.manager.keys == map[7 := HeldLock(1, Write, [Req(2, Write)]), 8 := HeldLock(2, Write, [Req(1, Write)])]
  }

  // Client 1 has asked for key 8.
  ghost predicate HalfCrossed(s: System) {
    && s.clients.Keys == {1, 2} && s.clients[2].status.Idle?
    && s.clients[1].status == Asked(Write, 8)
    && s.clients[1].held == map[7 := Write] && s.clients[2].held == map[8 := Write]
    && s.server.manager == Manager(map[7 := HeldLock(1, Write, []), 8 := HeldLock(2, Write, [Req(1, Write)])], [])
  }

  lemma FirstAsks(s0: System, past: seq<Step>, s: System) returns (steps: seq<Step>, t: System)
    requires Init(s0) && Reaches(s0, past, s) && OneEach(s)
    ensures Reaches(s0, steps, t) && HalfCrossed(t)
  {
    WriteQueues(s.server.manager, 1, 8, 2, Write);
    steps, t := Call(s0, past, s, Op(1, Write, 8));
  }

  lemma SecondAsks(s0: System, past: seq<Step>, s: System) returns (steps: seq<Step>, t: System)
    requires Init(s0) && Reaches(s0, past, s) && HalfCrossed(s)
    ensures Reaches(s0, steps, t) && Crossed(t)
  {
    WriteQueues(s.server.manager, 2, 7, 1, Write);
    steps, t := Call(s0, past, s, Op(2, Write, 7));
  }

  lemma Cross(s0: System) returns (steps: seq<Step>, t: System)
    requires Init(s0)
    ensures Reaches(s0, steps, t) && Crossed(t)
  {
    var a, u := HoldOneEach(s0);
    var b, v := FirstAsks(s0, a, u);
    steps, t := SecondAsks(s0, b, v);
  }

  lemma CrossedWait(s: System)
    requires Crossed(s)
    ensures WaitsFor(s.server.manager.keys, 1, Write, 8) && WaitsFor(s.server.manager.keys, 2, Write, 7)
  {
    MineAlone(1, 1, Write);
    MineAlone(1, 2, Write);
    MineAlone(2, 1, Write);
    MineAlone(2, 2, Write);
  }

  lemma CrossedKnot(s: System)
    requires Shape(s) && Crossed(s)
    ensures Knot(s, map[1 := 2, 2 := 1])
  {
    CrossedWait(s);
    assert 1 in s.up && 2 in s.up;
  }

  // A circle: each of two clients waits for the key that the other holds, and neither is ever granted.
  lemma CircularWait(s0: System) returns (steps: seq<Step>, t: System)
    requires Init(s0)
    ensures Reaches(s0, steps, t) && Crossed(t)
    ensures Knot(t, map[1 := 2, 2 := 1])
    ensures WaitsFor(t.server.manager.keys, 1, Write, 8) && !CanBeGranted(t, 1, Write, 8)
    ensures WaitsFor(t.server.manager.keys, 2, Write, 7) && !CanBeGranted(t, 2, Write, 7)
  {
    steps, t := Cross(s0);
    CrossedWait(t);
    assert Shape(t) by {
      InitHolds(s0);
      RunKeepsInv(s0, steps, t);
    }
    CrossedKnot(t);
    var knot := map[1 := 2, 2 := 1];
    assert 1 in knot && 2 in knot;
    InKnotNever(s0, steps, t, knot, 1, Write, 8);
    InKnotNever(s0, steps, t, knot, 2, Write, 7);
  }
}
