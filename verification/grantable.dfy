/// The other half: a queued request that belongs to no knot can be granted, because some holder is free to go.

module Grantable {
  import opened Common
  import opened Protocol
  import opened LockSpec
  import opened ServerSpec
  import opened ClientProtocol
  import opened Delivery
  import opened RegistrySystem
  import opened ServeStep
  import opened RegistryTheorems
  import opened Deadlock
  import opened RunBuilding
  import LockRuns

  // ---------------------------------------------------------------------------------- what is left to do

  function Weight(v: Lock): nat {
    2 * |v.pending| + LockRuns.Holders(v)
  }

  function Busy(up: map<ProcId, seq<Message>>): set<ProcId> {
    set p | p in up && up[p] != []
  }

  ghost function Load(s: System): nat {
    LockRuns.Total(s.server.manager.keys, Weight) + 2 * |Busy(s.up)|
  }

  lemma SettleLightens(v: Lock)
    ensures Weight(Settle(v).0) <= Weight(v)
  {
    LockRuns.SettleCost(v);
    assert |v.pending| == |Settle(v).1| + |Settle(v).0.pending|;
  }

  lemma ReleaseLightens(m: Manager, op: Op)
    requires ManagerInv(m) && op.kind.Release? && HeldAt(m.keys, op.proc, op.key)
    ensures LockRuns.Total(Apply(m, op).0.keys, Weight) < LockRuns.Total(m.keys, Weight)
  {
    var v := m.keys[op.key];
    assert LockInv(v);
    LockRuns.DropCost(v, op.proc);
    SettleLightens(Drop(v, op.proc));
    ApplyRelease(m, op);
    LockRuns.TotalUpdate(m.keys, Weight, op.key, Settle(Drop(v, op.proc)).0);
  }

  lemma AdmitCost(v: Lock, r: Req)
    ensures Weight(Admit(v, r)) <= Weight(v) + 1
  {
  }

  // A request that is not queued adds at most one holder.
  lemma RequestCost(m: Manager, op: Op)
    requires ManagerInv(m) && !WouldQueue(m.keys, op.kind, op.key)
    ensures LockRuns.Total(Apply(m, op).0.keys, Weight) <= LockRuns.Total(m.keys, Weight) + 1
  {
    if op.kind.Create? {
      LockRuns.TotalUpdate(m.keys, Weight, op.key, Lock([], {}, None, op.proc));
    } else if op.key in m.keys {
      var v := m.keys[op.key];
      if op.kind.Delete? {
        LockRuns.TotalRemove(m.keys, Weight, op.key);
      } else if op.kind.Release? {
        if HeldBy(v, op.proc) {
          ReleaseLightens(m, op);
        }
      } else {
        var r := Req(op.proc, op.kind);
        SettleAfterEnqueue(v, r);
        AdmitCost(v, r);
        LockRuns.TotalUpdate(m.keys, Weight, op.key, Admit(v, r));
      }
    }
  }

  // ---------------------------------------------------------------------------------- a holder that is free

  ghost predicate NoKnot(s: System, p: ProcId) {
    forall knot: map<ProcId, ProcId> :: Knot(s, knot) ==> p !in knot
  }

  ghost function SomeHolder(v: Lock): ProcId
    requires Held(v)
    ensures HeldBy(v, SomeHolder(v))
  {
    if v.writer.Some? then v.writer.value else var r :| r in v.readers; r
  }

  // The key of a blocked client is held, by clients.
  lemma BlockedKeyHeld(s: System, d: ProcId)
    requires SystemInv(s) && Blocked(s, d)
    ensures var key := s.clients[d].status.key;
            key in s.server.manager.keys && Held(s.server.manager.keys[key])
            && SomeHolder(s.server.manager.keys[key]) in s.clients
  {
    var v := s.server.manager.keys[s.clients[d].status.key];
    assert LockInv(v) && Known(v, s.clients.Keys);
  }

  // Each blocked client is mapped to a holder of its key.
  ghost function Behind(s: System, d: ProcId): ProcId {
    if d in s.clients && (s.clients[d].status.Asked? || s.clients[d].status.Waiting?)
       && s.clients[d].status.key in s.server.manager.keys && Held(s.server.manager.keys[s.clients[d].status.key])
    then SomeHolder(s.server.manager.keys[s.clients[d].status.key])
    else 0
  }

  ghost predicate AllHoldersBlocked(s: System) {
    forall b, key :: b in s.clients && HeldAt(s.server.manager.keys, b, key) ==> Blocked(s, b)
  }

  lemma BehindBlocked(s: System, d: ProcId)
    requires SystemInv(s) && Blocked(s, d) && AllHoldersBlocked(s)
    ensures Behind(s, d) in s.clients && Blocked(s, Behind(s, d))
    ensures HeldAt(s.server.manager.keys, Behind(s, d), s.clients[d].status.key)
  {
    BlockedKeyHeld(s, d);
    assert HeldAt(s.server.manager.keys, Behind(s, d), s.clients[d].status.key);
  }

  ghost function EverybodyBlocked(s: System): map<ProcId, ProcId> {
    map d | d in s.clients && Blocked(s, d) :: Behind(s, d)
  }

  lemma BlockedHoldersKnot(s: System)
    requires SystemInv(s) && AllHoldersBlocked(s)
    ensures Knot(s, EverybodyBlocked(s))
  {
    var knot := EverybodyBlocked(s);
    forall d | d in knot
      ensures Blocked(s, d) && knot[d] in knot && HeldAt(s.server.manager.keys, knot[d], s.clients[d].status.key)
    {
      BehindBlocked(s, d);
    }
  }

  lemma FreeHolder(s: System, p: ProcId) returns (b: ProcId, key: KeyId)
    requires SystemInv(s) && Blocked(s, p) && NoKnot(s, p)
    ensures b in s.clients && HeldAt(s.server.manager.keys, b, key) && !Blocked(s, b)
  {
    if AllHoldersBlocked(s) {
      BlockedHoldersKnot(s);
      assert false;
    }
    b, key :| b in s.clients && HeldAt(s.server.manager.keys, b, key) && !Blocked(s, b);
  }

  // ---------------------------------------------------------------------------------- steps that tie no knot

  // Steps of one client that leave the locks alone and it unblocked.
  lemma QuietTiesNothing(s: System, t: System, b: ProcId, knot: map<ProcId, ProcId>)
    requires Knot(t, knot) && !Blocked(t, b)
    requires t.server.manager.keys == s.server.manager.keys
    requires forall q :: q in t.clients && q != b ==> q in s.clients && t.clients[q] == s.clients[q]
    requires forall q :: q in t.up && q != b ==> q in s.up && t.up[q] == s.up[q]
    ensures Knot(s, knot)
  {
    forall d | d in knot
      ensures Blocked(s, d) && knot[d] in knot && HeldAt(s.server.manager.keys, knot[d], s.clients[d].status.key)
    {
      var key := MemberOfKnot(t, knot, d);
    }
  }

  // Serving an unblocked client leaves it unblocked.
  lemma ServedIsFree(s: System, b: ProcId, pick: ProcId, op: Op)
    requires SystemInv(s) && b in s.clients && op.proc == b && s.up[b] == [Registry(Request(b, op.kind, op.key))]
    requires s.clients[b].status == Asked(op.kind, op.key) && Absent(s.server.manager.keys, b) && !Blocked(s, b)
    ensures !Blocked(AfterServe(s, b, pick), b)
  {
    Served(s, b, pick, op);
    QueuedExactly(s.server.manager, op);
    RequesterShare(s.server.manager, op);
    AbsentButKept(s.server.manager, op, b);
  }

  // Whoever still waits after that waited before, for the same access.
  lemma WaitedBefore(s: System, op: Op, d: ProcId, kind: RequestType, key: KeyId)
    requires SystemInv(s) && d in s.clients && d != op.proc
    requires WaitsFor(Apply(s.server.manager, op).0.keys, d, kind, key)
    ensures !Absent(s.server.manager.keys, d)
    ensures Blocked(s, d) && s.up[d] == []
  {
    var keys := s.server.manager.keys;
    if Absent(keys, d) {
      AbsentKept(s.server.manager, op, d);
      assert false;
    }
    assert PhaseOk(d, s.clients[d], s.up[d], s.server.streams[d], keys);
    PhaseWaits(d, s.clients[d], s.up[d], s.server.streams[d], keys);
    QueuedPhase(s, d, s.clients[d].status.kind, s.clients[d].status.key);
  }

  // Whoever is announced waited in the queue.
  lemma AnnouncedWaited(s: System, op: Op, e: ProcId)
    requires SystemInv(s) && e in s.clients && e != op.proc && Mine(e, Admitted(s.server.manager, op)) != []
    ensures s.up[e] == [] && (s.clients[e].status.Asked? || s.clients[e].status.Waiting?)
    ensures WaitsFor(s.server.manager.keys, e, s.clients[e].status.kind, s.clients[e].status.key)
  {
    var keys := s.server.manager.keys;
    if Absent(keys, e) {
      AbsentKept(s.server.manager, op, e);
      assert false;
    }
    assert PhaseOk(e, s.clients[e], s.up[e], s.server.streams[e], keys);
    PhaseWaits(e, s.clients[e], s.up[e], s.server.streams[e], keys);
    QueuedPhase(s, e, s.clients[e].status.kind, s.clients[e].status.key);
  }

  lemma AnnouncedLeaves(s: System, op: Op, e: ProcId)
    requires SystemInv(s) && e in s.clients && e != op.proc && Mine(e, Admitted(s.server.manager, op)) != []
    ensures e in s.up && s.up[e] == [] && Absent(Apply(s.server.manager, op).0.keys, e)
  {
    AnnouncedWaited(s, op, e);
    Announcement(s.server.manager, op, e, s.clients[e].status.kind, s.clients[e].status.key);
  }

  lemma AbsentIsFree(s: System, e: ProcId)
    requires e in s.up && s.up[e] == [] && Absent(s.server.manager.keys, e)
    ensures !Blocked(s, e)
  {
  }

  // Whoever was announced is not blocked any more.
  lemma AnnouncedIsFree(s: System, b: ProcId, pick: ProcId, op: Op, e: ProcId)
    requires SystemInv(s) && b in s.clients && op.proc == b && s.up[b] == [Registry(Request(b, op.kind, op.key))]
    requires e in s.clients && e != b && Mine(e, Admitted(s.server.manager, op)) != []
    ensures !Blocked(AfterServe(s, b, pick), e)
  {
    AnnouncedLeaves(s, op, e);
    Served(s, b, pick, op);
    AbsentIsFree(AfterServe(s, b, pick), e);
  }

  // Two members of a knot after an unblocked client was served were tied like that before.
  lemma TiedBefore(s: System, b: ProcId, pick: ProcId, op: Op, d: ProcId, e: ProcId, key: KeyId)
    requires SystemInv(s) && b in s.clients && op.proc == b && s.up[b] == [Registry(Request(b, op.kind, op.key))]
    requires s.clients[b].status == Asked(op.kind, op.key) && Absent(s.server.manager.keys, b) && !Blocked(s, b)
    requires Blocked(AfterServe(s, b, pick), d) && s.clients[d].status.key == key
    requires Blocked(AfterServe(s, b, pick), e) && HeldAt(AfterServe(s, b, pick).server.manager.keys, e, key)
    ensures Blocked(s, d) && HeldAt(s.server.manager.keys, e, key)
  {
    Served(s, b, pick, op);
    ServedIsFree(s, b, pick, op);
    var m, kind := s.server.manager, s.clients[d].status.kind;
    HolderOrigin(m, op, e, key);
    if Mine(e, Admitted(m, op)) != [] {
      AnnouncedIsFree(s, b, pick, op, e);
    }
    if WaitsFor(Apply(m, op).0.keys, d, kind, key) {
      WaitedBefore(s, op, d, kind, key);
    } else {
      QueuedBefore(m, op, e, kind, key);
    }
  }

  lemma ServingTiesNothing(s: System, b: ProcId, pick: ProcId, op: Op, knot: map<ProcId, ProcId>)
    requires SystemInv(s) && b in s.clients && op.proc == b && s.up[b] == [Registry(Request(b, op.kind, op.key))]
    requires s.clients[b].status == Asked(op.kind, op.key) && Absent(s.server.manager.keys, b) && !Blocked(s, b)
    requires Knot(AfterServe(s, b, pick), knot)
    ensures Knot(s, knot)
  {
    forall d | d in knot
      ensures Blocked(s, d) && knot[d] in knot && HeldAt(s.server.manager.keys, knot[d], s.clients[d].status.key)
    {
      var key := MemberOfKnot(AfterServe(s, b, pick), knot, d);
      TiedBefore(s, b, pick, op, d, knot[d], key);
    }
  }

  // ---------------------------------------------------------------------------------- a free holder lets go

  // Everybody but b is left alone.
  ghost predicate OnlyMoves(s: System, t: System, b: ProcId) {
    && t.clients.Keys == s.clients.Keys && t.up.Keys == s.up.Keys && t.server.streams.Keys == s.server.streams.Keys
    && (forall q :: q in t.clients && q != b ==> t.clients[q] == s.clients[q])
    && (forall q :: q in t.up && q != b ==> t.up[q] == s.up[q])
    && (forall q :: q in t.server.streams && q != b ==> t.server.streams[q] == s.server.streams[q])
    && t.server.manager == s.server.manager
  }

  lemma StepThen(s: System, step: Step, steps: seq<Step>, t: System)
    requires Enabled(s, step) && Reaches(Next(s, step), steps, t)
    ensures Reaches(s, [step] + steps, t)
  {
    assert ([step] + steps)[1..] == steps;
  }

  // A call that waits in no queue and has nothing in flight has an answer to take.
  lemma HasAnswer(s: System, b: ProcId)
    requires SystemInv(s) && b in s.clients && s.up[b] == [] && Absent(s.server.manager.keys, b)
    requires !s.clients[b].status.Idle?
    ensures Enabled(s, Take(b))
  {
    assert PhaseOk(b, s.clients[b], s.up[b], s.server.streams[b], s.server.manager.keys);
  }

  lemma TakeMovesOnly(s: System, b: ProcId)
    requires Enabled(s, Take(b))
    ensures OnlyMoves(s, AfterTake(s, b), b) && AfterTake(s, b).up == s.up
    ensures |AfterTake(s, b).server.streams[b]| < |s.server.streams[b]|
  {
  }

  lemma OnlyMovesOn(s: System, t: System, u: System, b: ProcId)
    requires OnlyMoves(s, t, b) && OnlyMoves(t, u, b)
    ensures OnlyMoves(s, u, b)
  {
  }

  // A client that waits in no queue and has nothing in flight takes its answers and is done.
  lemma {:induction false} GoIdle(s: System, b: ProcId) returns (steps: seq<Step>, t: System)
    requires SystemInv(s) && b in s.clients && s.up[b] == [] && Absent(s.server.manager.keys, b)
    ensures Reaches(s, steps, t) && SystemInv(t) && OnlyMoves(s, t, b)
    ensures t.clients[b].status.Idle? && t.up == s.up
    decreases |s.server.streams[b]|
  {
    if s.clients[b].status.Idle? {
      steps, t := [], s;
    } else {
      HasAnswer(s, b);
      TakeMovesOnly(s, b);
      TakeKeepsInv(s, b);
      steps, t := GoIdle(AfterTake(s, b), b);
      OnlyMovesOn(s, AfterTake(s, b), t, b);
      StepThen(s, Take(b), steps, t);
      steps := [Take(b)] + steps;
    }
  }

  lemma FreeIsAbsent(s: System, b: ProcId)
    requires SystemInv(s) && b in s.clients && !Blocked(s, b)
    ensures Absent(s.server.manager.keys, b)
  {
    var keys := s.server.manager.keys;
    assert PhaseOk(b, s.clients[b], s.up[b], s.server.streams[b], keys);
    if !Absent(keys, b) {
      PhaseWaits(b, s.clients[b], s.up[b], s.server.streams[b], keys);
    }
  }

  // A request in flight that would not be queued.
  ghost predicate FreeRequest(s: System, op: Op) {
    && op.proc in s.clients && op.proc in s.up && s.up[op.proc] == [Registry(Request(op.proc, op.kind, op.key))]
    && s.clients[op.proc].status == Asked(op.kind, op.key) && Absent(s.server.manager.keys, op.proc)
    && !Blocked(s, op.proc)
  }

  // The holder reported by an immediate read can be the reader itself.
  lemma CanServe(s: System, op: Op)
    requires SystemInv(s) && FreeRequest(s, op)
    ensures Enabled(s, Serve(op.proc, op.proc)) && SystemInv(AfterServe(s, op.proc, op.proc))
  {
    var m := s.server.manager;
    assert AsOp(s.up[op.proc][0]) == Some(op);
    MayReportItself(m, op);
    ServeKeepsInv(s, op.proc, op.proc);
  }

  lemma ServingKeepsNoKnot(s: System, op: Op, p: ProcId)
    requires SystemInv(s) && FreeRequest(s, op) && NoKnot(s, p)
    ensures NoKnot(AfterServe(s, op.proc, op.proc), p)
  {
    var t := AfterServe(s, op.proc, op.proc);
    forall knot: map<ProcId, ProcId> | Knot(t, knot) ensures p !in knot {
      ServingTiesNothing(s, op.proc, op.proc, op, knot);
    }
  }

  lemma ServingLightens(s: System, op: Op)
    requires SystemInv(s) && FreeRequest(s, op)
    ensures Load(AfterServe(s, op.proc, op.proc)) < Load(s)
    ensures op.kind.Release? && HeldAt(s.server.manager.keys, op.proc, op.key) ==>
              Load(AfterServe(s, op.proc, op.proc)) + 2 < Load(s)
  {
    var t := AfterServe(s, op.proc, op.proc);
    Served(s, op.proc, op.proc, op);
    RequestCost(s.server.manager, op);
    assert Busy(t.up) == Busy(s.up) - {op.proc};
    assert op.proc in Busy(s.up);
    if op.kind.Release? && HeldAt(s.server.manager.keys, op.proc, op.key) {
      ReleaseLightens(s.server.manager, op);
    }
  }

  lemma QuietKeepsNoKnot(s: System, t: System, b: ProcId, p: ProcId)
    requires OnlyMoves(s, t, b) && !Blocked(t, b) && NoKnot(s, p)
    ensures NoKnot(t, p)
  {
    forall knot: map<ProcId, ProcId> | Knot(t, knot) ensures p !in knot {
      QuietTiesNothing(s, t, b, knot);
    }
  }

  lemma IdleIsQuiet(s: System, b: ProcId)
    requires SystemInv(s) && b in s.clients && s.clients[b].status.Idle?
    ensures b in s.up && s.up[b] == [] && Absent(s.server.manager.keys, b)
  {
    assert PhaseOk(b, s.clients[b], s.up[b], s.server.streams[b], s.server.manager.keys);
  }

  lemma AskMovesOnly(s: System, b: ProcId, key: KeyId)
    requires b in s.clients && b in s.up && s.up[b] == [] && Absent(s.server.manager.keys, b)
    ensures OnlyMoves(s, AfterAsk(s, b, Release, key), b)
    ensures FreeRequest(AfterAsk(s, b, Release, key), Op(b, Release, key))
    ensures Busy(AfterAsk(s, b, Release, key).up) == Busy(s.up) + {b} && b !in Busy(s.up)
  {
    assert s.up[b] + [Registry(Request(b, Release, key))] == [Registry(Request(b, Release, key))];
  }

  lemma OneMoreBusy(s: System, t: System, b: ProcId)
    requires t.server.manager == s.server.manager && Busy(t.up) == Busy(s.up) + {b} && b !in Busy(s.up)
    ensures Load(t) == Load(s) + 2
  {
  }

  lemma AskRuns(s: System, b: ProcId, key: KeyId)
    requires SystemInv(s) && b in s.clients && s.clients[b].status.Idle?
    ensures Reaches(s, [Ask(b, Release, key)], AfterAsk(s, b, Release, key))
    ensures SystemInv(AfterAsk(s, b, Release, key))
  {
    OneStep(s, Ask(b, Release, key));
    AskKeepsInv(s, b, Release, key);
  }

  // A free holder with nothing in flight finishes its call and asks to release the key.
  lemma AskRelease(s: System, b: ProcId, key: KeyId) returns (steps: seq<Step>, t: System)
    requires SystemInv(s) && b in s.clients && s.up[b] == [] && !Blocked(s, b)
    ensures Reaches(s, steps, t) && SystemInv(t) && OnlyMoves(s, t, b)
    ensures FreeRequest(t, Op(b, Release, key)) && Load(t) == Load(s) + 2
  {
    FreeIsAbsent(s, b);
    var first, u := GoIdle(s, b);
    AskRuns(u, b, key);
    t := AfterAsk(u, b, Release, key);
    IdleIsQuiet(u, b);
    AskMovesOnly(u, b, key);
    OneMoreBusy(s, t, b);
    OnlyMovesOn(s, u, t, b);
    ReachesConcat(s, first, u, [Ask(b, Release, key)], t);
    steps := first + [Ask(b, Release, key)];
  }

  // p is blocked on this access and in no knot.
  ghost predicate Hopeful(s: System, p: ProcId, kind: RequestType, key: KeyId) {
    BlockedOn(s, p, kind, key) && NoKnot(s, p)
  }

  // p's request for this access is in flight and would be granted at once.
  ghost predicate Due(s: System, p: ProcId, kind: RequestType, key: KeyId) {
    FreeRequest(s, Op(p, kind, key)) && IsAccess(kind) && key in s.server.manager.keys
  }

  lemma ServeRuns(s: System, op: Op)
    requires SystemInv(s) && FreeRequest(s, op)
    ensures Reaches(s, [Serve(op.proc, op.proc)], AfterServe(s, op.proc, op.proc))
  {
    CanServe(s, op);
    OneStep(s, Serve(op.proc, op.proc));
  }

  lemma HeldKeyStays(m: Manager, op: Op, key: KeyId)
    requires key in m.keys && Held(m.keys[key])
    ensures key in Apply(m, op).0.keys
  {
  }

  // A request in flight that would be queued, after somebody else was served.
  lemma InFlightServed(s: System, op: Op, p: ProcId, kind: RequestType, key: KeyId)
    requires SystemInv(s) && FreeRequest(s, op) && BlockedOn(s, p, kind, key) && p != op.proc && s.up[p] != []
    ensures var t := AfterServe(s, op.proc, op.proc);
            BlockedOn(t, p, kind, key) || Due(t, p, kind, key)
  {
    Served(s, op.proc, op.proc, op);
    var own := Sender(s, p);
    BlockedKeyHeld(s, p);
    HeldKeyStays(s.server.manager, op, key);
    AbsentKept(s.server.manager, op, p);
  }

  lemma HopeServed(s: System, op: Op, p: ProcId, kind: RequestType, key: KeyId)
    requires SystemInv(s) && FreeRequest(s, op) && Hopeful(s, p, kind, key) && p != op.proc
    ensures var t := AfterServe(s, op.proc, op.proc);
            HasGrant(t, p, kind, key) || Due(t, p, kind, key) || Hopeful(t, p, kind, key)
  {
    ServingKeepsNoKnot(s, op, p);
    if s.up[p] != [] {
      InFlightServed(s, op, p, kind, key);
    } else {
      CanServe(s, op);
      Served(s, op.proc, op.proc, op);
      WaiterServed(s, op.proc, op.proc, op, p, kind, key);
    }
  }

  lemma ServeFree(s: System, op: Op, p: ProcId, kind: RequestType, key: KeyId)
    returns (steps: seq<Step>, t: System)
    requires SystemInv(s) && FreeRequest(s, op) && Hopeful(s, p, kind, key) && p != op.proc
    ensures Reaches(s, steps, t) && SystemInv(t)
    ensures HasGrant(t, p, kind, key) || Due(t, p, kind, key) || Hopeful(t, p, kind, key)
    ensures Load(t) < Load(s)
    ensures op.kind.Release? && HeldAt(s.server.manager.keys, op.proc, op.key) ==> Load(t) + 2 < Load(s)
  {
    ServeRuns(s, op);
    HopeServed(s, op, p, kind, key);
    CanServe(s, op);
    ServingLightens(s, op);
    steps, t := [Serve(op.proc, op.proc)], AfterServe(s, op.proc, op.proc);
  }

  // The request that a free holder has in flight, or will make.
  lemma FreeMove(s: System, p: ProcId, kind: RequestType, key: KeyId)
    returns (steps: seq<Step>, t: System)
    requires SystemInv(s) && Hopeful(s, p, kind, key)
    ensures Reaches(s, steps, t) && SystemInv(t)
    ensures HasGrant(t, p, kind, key) || Due(t, p, kind, key) || Hopeful(t, p, kind, key)
    ensures Load(t) < Load(s)
  {
    var b, held := FreeHolder(s, p);
    if s.up[b] != [] {
      var op := Sender(s, b);
      steps, t := ServeFree(s, op, p, kind, key);
    } else {
      var first, u := AskRelease(s, b, held);
      var op := Op(b, Release, held);
      QuietKeepsNoKnot(s, u, b, p);
      var second;
      second, t := ServeFree(u, op, p, kind, key);
      ReachesConcat(s, first, u, second, t);
      steps := first + second;
    }
  }

  lemma DueReply(s: System, p: ProcId, kind: RequestType, key: KeyId)
    requires SystemInv(s) && Due(s, p, kind, key)
    ensures var op := Op(p, kind, key);
            GrantFor(kind, key, Reply(s.server, op, p)) && Hears(s.server, p, op, p, p) == [Reply(s.server, op, p)]
  {
    var op := Op(p, kind, key);
    SettleAfterEnqueue(s.server.manager.keys[key], Req(p, kind));
    ShapeResolves(s);
    MayReportItself(s.server.manager, op);
    GrantedResolves(s.server, op, p);
    ConnectedEffect(s.server, op, p);
    assert [Reply(s.server, op, p)] + [] == [Reply(s.server, op, p)];
  }

  // A request that is due is granted when it is served.
  lemma DueIsGranted(s: System, p: ProcId, kind: RequestType, key: KeyId)
    requires SystemInv(s) && Due(s, p, kind, key)
    ensures HasGrant(AfterServe(s, p, p), p, kind, key)
  {
    var op := Op(p, kind, key);
    DueReply(s, p, kind, key);
    assert AsOp(s.up[p][0]) == Some(op);
    RequestEffect(s.server, p, op, p);
  }

  lemma {:induction false} HopeIsMet(s: System, p: ProcId, kind: RequestType, key: KeyId)
    returns (steps: seq<Step>, t: System)
    requires SystemInv(s) && (Hopeful(s, p, kind, key) || Due(s, p, kind, key))
    ensures Reaches(s, steps, t) && HasGrant(t, p, kind, key)
    decreases Load(s)
  {
    if Due(s, p, kind, key) {
      ServeRuns(s, Op(p, kind, key));
      DueIsGranted(s, p, kind, key);
      steps, t := [Serve(p, p)], AfterServe(s, p, p);
    } else {
      steps, t := FreeMove(s, p, kind, key);
      if !HasGrant(t, p, kind, key) {
        var u := t;
        var more;
        more, t := HopeIsMet(u, p, kind, key);
        ReachesConcat(s, steps, u, more, t);
        steps := steps + more;
      }
    }
  }

  ghost predicate CanBeGranted(s: System, p: ProcId, kind: RequestType, key: KeyId) {
    exists steps, t :: Reaches(s, steps, t) && HasGrant(t, p, kind, key)
  }

  // p has asked for this access to an existing key and the registry has not granted it: the request is on its way,
  // or queued.
  ghost predicate Outstanding(s: System, p: ProcId, kind: RequestType, key: KeyId) {
    && p in s.clients && p in s.up && IsAccess(kind) && key in s.server.manager.keys
    && (WaitsFor(s.server.manager.keys, p, kind, key) || s.up[p] == [Registry(Request(p, kind, key))])
  }

  lemma BlockedOrDue(s: System, p: ProcId, kind: RequestType, key: KeyId)
    requires SystemInv(s) && Outstanding(s, p, kind, key)
    ensures BlockedOn(s, p, kind, key) || Due(s, p, kind, key)
    ensures Blocked(s, p) ==> BlockedOn(s, p, kind, key)
  {
    if s.up[p] == [] {
      QueuedPhase(s, p, kind, key);
    } else {
      var op := Sender(s, p);
    }
  }

  lemma KnottedNever(s: System, p: ProcId, kind: RequestType, key: KeyId)
    requires SystemInv(s) && BlockedOn(s, p, kind, key) && !NoKnot(s, p)
    ensures !CanBeGranted(s, p, kind, key)
  {
    var knot :| Knot(s, knot) && p in knot;
    forall steps, t | Reaches(s, steps, t) ensures !HasGrant(t, p, kind, key) {
      KnotForever(s, steps, t, knot, p);
    }
  }

  lemma GrantableIff(s: System, p: ProcId, kind: RequestType, key: KeyId)
    requires SystemInv(s) && Outstanding(s, p, kind, key)
    ensures CanBeGranted(s, p, kind, key) <==> NoKnot(s, p)
  {
    BlockedOrDue(s, p, kind, key);
    if NoKnot(s, p) {
      var steps, t := HopeIsMet(s, p, kind, key);
    } else {
      var knot :| Knot(s, knot) && p in knot;
      var _ := MemberOfKnot(s, knot, p);
      KnottedNever(s, p, kind, key);
    }
  }

  // A call can still be granted, in some continuation of the run, exactly when it is in no knot of clients that
  // wait for one another.
  lemma GrantableUnlessKnotted(s0: System, past: seq<Step>, s: System, p: ProcId, kind: RequestType, key: KeyId)
    requires Init(s0) && Reaches(s0, past, s) && Outstanding(s, p, kind, key)
    ensures CanBeGranted(s, p, kind, key) <==> !(exists knot: map<ProcId, ProcId> :: Knot(s, knot) && p in knot)
  {
    InitHolds(s0);
    RunKeepsInv(s0, past, s);
    GrantableIff(s, p, kind, key);
  }

  lemma InKnotNever(s0: System, past: seq<Step>, s: System, knot: map<ProcId, ProcId>, p: ProcId, kind: RequestType,
                    key: KeyId)
    requires Init(s0) && Reaches(s0, past, s) && Outstanding(s, p, kind, key) && Knot(s, knot) && p in knot
    ensures !CanBeGranted(s, p, kind, key)
  {
    GrantableUnlessKnotted(s0, past, s, p, kind, key);
  }

  lemma UnblockedNoKnot(s: System, p: ProcId)
    requires !Blocked(s, p)
    ensures NoKnot(s, p)
  {
    forall knot: map<ProcId, ProcId> | Knot(s, knot) ensures p !in knot {
      if p in knot {
        var _ := MemberOfKnot(s, knot, p);
      }
    }
  }

  // ---------------------------------------------------------------------------------- before the call

  lemma SelfKnot(s: System, p: ProcId, kind: RequestType, key: KeyId)
    requires BlockedOn(s, p, kind, key) && HeldAt(s.server.manager.keys, p, key)
    ensures Knot(s, map[p := p]) && p in map[p := p]
  {
  }

  // What an idle client that holds a key knows about it.
  lemma HeldByCaller(s: System, p: ProcId, key: KeyId)
    requires SystemInv(s) && p in s.clients && key in s.clients[p].held
    ensures HeldAt(s.server.manager.keys, p, key)
    ensures s.clients[p].held[key].Write? ==> s.server.manager.keys[key].writer == Some(p)
  {
    assert BeliefOk(p, s.clients[p], s.server.manager.keys);
    assert ManagerInv(s.server.manager);
  }

  lemma AskedForHeld(s: System, p: ProcId, kind: RequestType, key: KeyId)
    requires SystemInv(s) && p in s.clients && s.clients[p].status.Idle?
    requires key in s.clients[p].held && IsAccess(kind)
    ensures var t := AfterAsk(s, p, kind, key);
            && SystemInv(t) && Outstanding(t, p, kind, key) && HeldAt(t.server.manager.keys, p, key)
            && (Blocked(t, p) <==> WouldQueue(s.server.manager.keys, kind, key))
  {
    HeldByCaller(s, p, key);
    IdleIsQuiet(s, p);
    AskKeepsInv(s, p, kind, key);
    assert s.up[p] + [Registry(Request(p, kind, key))] == [Registry(Request(p, kind, key))];
  }

  // A client that asks for a key it holds will be granted it exactly if the registry would not queue the request.
  // It would for every write, and for every read of a key held for writing: a caller that knows what it holds can
  // tell that such a call never returns, whatever the others do.
  lemma AskingForHeldKey(s0: System, past: seq<Step>, s: System, p: ProcId, kind: RequestType, key: KeyId)
    requires Init(s0) && Reaches(s0, past, s) && Enabled(s, Ask(p, kind, key))
    requires key in s.clients[p].held && IsAccess(kind)
    ensures CanBeGranted(AfterAsk(s, p, kind, key), p, kind, key) <==> !WouldQueue(s.server.manager.keys, kind, key)
    ensures kind.Write? || s.clients[p].held[key].Write? ==> WouldQueue(s.server.manager.keys, kind, key)
  {
    InitHolds(s0);
    RunKeepsInv(s0, past, s);
    AskedForHeldGrantable(s, p, kind, key);
    HeldByCaller(s, p, key);
    HeldByHolds(s.server.manager.keys[key], p);
  }

  lemma AskedForHeldGrantable(s: System, p: ProcId, kind: RequestType, key: KeyId)
    requires SystemInv(s) && p in s.clients && s.clients[p].status.Idle?
    requires key in s.clients[p].held && IsAccess(kind)
    ensures CanBeGranted(AfterAsk(s, p, kind, key), p, kind, key) <==> !WouldQueue(s.server.manager.keys, kind, key)
  {
    var t := AfterAsk(s, p, kind, key);
    AskedForHeld(s, p, kind, key);
    GrantableIff(t, p, kind, key);
    BlockedOrDue(t, p, kind, key);
    if Blocked(t, p) {
      SelfKnot(t, p, kind, key);
    } else {
      UnblockedNoKnot(t, p);
    }
  }

  // Such a caller stays blocked in every continuation.
  lemma AskingForHeldKeyHangs(s0: System, past: seq<Step>, s: System, p: ProcId, kind: RequestType, key: KeyId,
                              steps: seq<Step>, t: System)
    requires Init(s0) && Reaches(s0, past, s) && Enabled(s, Ask(p, kind, key))
    requires key in s.clients[p].held && IsAccess(kind) && (kind.Write? || s.clients[p].held[key].Write?)
    requires Reaches(AfterAsk(s, p, kind, key), steps, t)
    ensures BlockedOn(t, p, kind, key) && !HasGrant(t, p, kind, key)
  {
    AskingForHeldKey(s0, past, s, p, kind, key);
    InitHolds(s0);
    RunKeepsInv(s0, past, s);
    AskedHangs(s, p, kind, key, steps, t);
  }

  lemma AskedIsBlocked(s: System, p: ProcId, kind: RequestType, key: KeyId)
    requires SystemInv(s) && Enabled(s, Ask(p, kind, key)) && key in s.clients[p].held && IsAccess(kind)
    requires WouldQueue(s.server.manager.keys, kind, key)
    ensures var t := AfterAsk(s, p, kind, key);
            SystemInv(t) && BlockedOn(t, p, kind, key) && Knot(t, map[p := p])
  {
    AskedForHeld(s, p, kind, key);
    BlockedOrDue(AfterAsk(s, p, kind, key), p, kind, key);
    SelfKnot(AfterAsk(s, p, kind, key), p, kind, key);
  }

  lemma SelfBlockedForever(s: System, p: ProcId, kind: RequestType, key: KeyId, steps: seq<Step>, t: System)
    requires SystemInv(s) && BlockedOn(s, p, kind, key) && Knot(s, map[p := p]) && Reaches(s, steps, t)
    ensures BlockedOn(t, p, kind, key) && !HasGrant(t, p, kind, key)
  {
    KnotForever(s, steps, t, map[p := p], p);
  }

  lemma AskedHangs(s: System, p: ProcId, kind: RequestType, key: KeyId, steps: seq<Step>, t: System)
    requires SystemInv(s) && Enabled(s, Ask(p, kind, key)) && key in s.clients[p].held && IsAccess(kind)
    requires WouldQueue(s.server.manager.keys, kind, key) && Reaches(AfterAsk(s, p, kind, key), steps, t)
    ensures BlockedOn(t, p, kind, key) && !HasGrant(t, p, kind, key)
  {
    AskedIsBlocked(s, p, kind, key);
    SelfBlockedForever(AfterAsk(s, p, kind, key), p, kind, key, steps, t);
  }

  // A client that holds the key it waits for, such as a reader that wants to write, waits for ever.
  lemma UpgradeNeverGranted(s0: System, past: seq<Step>, s: System, p: ProcId, kind: RequestType, key: KeyId)
    requires Init(s0) && Reaches(s0, past, s)
    requires p in s.clients && WaitsFor(s.server.manager.keys, p, kind, key) && key in s.clients[p].held
    ensures !CanBeGranted(s, p, kind, key)
  {
    InitHolds(s0);
    RunKeepsInv(s0, past, s);
    UpgradeKnotted(s, p, kind, key);
  }

  lemma UpgradeKnotted(s: System, p: ProcId, kind: RequestType, key: KeyId)
    requires SystemInv(s) && p in s.clients && WaitsFor(s.server.manager.keys, p, kind, key)
    requires key in s.clients[p].held
    ensures !CanBeGranted(s, p, kind, key)
  {
    QueuedPhase(s, p, kind, key);
    HeldByCaller(s, p, key);
    SelfKnot(s, p, kind, key);
    KnottedNever(s, p, kind, key);
  }
}
