/// Building runs of the system call by call.

module RunBuilding {
  import opened Common
  import opened Protocol
  import opened LockSpec
  import opened ServerSpec
  import opened ClientProtocol
  import opened Delivery
  import opened RegistrySystem
  import opened RegistryTheorems
  import opened ServeStep

  lemma {:induction false} ReachesConcat(s: System, a: seq<Step>, t: System, b: seq<Step>, u: System)
    requires Reaches(s, a, t) && Reaches(t, b, u)
    ensures Reaches(s, a + b, u)
    decreases |a|
  {
    if a == [] {
      assert a + b == b;
    } else {
      ReachesConcat(Next(s, a[0]), a[1..], t, b, u);
      assert (a + b)[1..] == a[1..] + b;
    }
  }

  lemma OneStep(s: System, step: Step)
    requires Enabled(s, step)
    ensures Reaches(s, [step], Next(s, step))
  {
    assert [step][1..] == [];
  }

  // The holder that an immediate read reports can be the reader itself.
  lemma MayReportItself(m: Manager, op: Op)
    requires ManagerInv(m)
    ensures MayReport(m, op, op.proc)
  {
    if IsAccess(op.kind) && op.key in m.keys {
      SettleAfterEnqueue(m.keys[op.key], Req(op.proc, op.kind));
    }
  }

  // A call up to the server's handling of it.
  function Called(s: System, op: Op): System
    requires op.proc in s.clients && op.proc in s.up
  {
    AfterServe(AfterAsk(s, op.proc, op.kind, op.key), op.proc, op.proc)
  }

  lemma CallRuns(s: System, op: Op) returns (steps: seq<Step>)
    requires SystemInv(s) && op.proc in s.clients && s.clients[op.proc].status.Idle?
    ensures Reaches(s, steps, Called(s, op)) && SystemInv(Called(s, op))
  {
    var p := op.proc;
    var asked := AfterAsk(s, p, op.kind, op.key);
    assert Enabled(s, Ask(p, op.kind, op.key));
    StepKeepsInv(s, Ask(p, op.kind, op.key));
    assert Enabled(asked, Serve(p, p)) by {
      assert ClientOk(p, s.clients[p], s.up[p], s.server.streams[p], s.server.manager.keys);
      assert AsOp(asked.up[p][0]) == Some(op);
      MayReportItself(s.server.manager, op);
    }
    StepKeepsInv(asked, Serve(p, p));
    OneStep(s, Ask(p, op.kind, op.key));
    OneStep(asked, Serve(p, p));
    ReachesConcat(s, [Ask(p, op.kind, op.key)], asked, [Serve(p, p)], Called(s, op));
    steps := [Ask(p, op.kind, op.key)] + [Serve(p, p)];
  }

  lemma CallEffect(s: System, op: Op)
    requires SystemInv(s) && op.proc in s.clients && s.clients[op.proc].status.Idle?
    ensures var t := Called(s, op);
            && t.clients == s.clients[op.proc := s.clients[op.proc].(status := Asked(op.kind, op.key),
                 held := if op.kind.Release? then s.clients[op.proc].held - {op.key} else s.clients[op.proc].held)]
            && Handled(s.server, op.proc, op, op.proc, t.server)
  {
    var p := op.proc;
    assert ClientOk(p, s.clients[p], s.up[p], s.server.streams[p], s.server.manager.keys);
    assert AfterAsk(s, p, op.kind, op.key).up[p] == [Registry(Request(p, op.kind, op.key))];
    RequestEffect(s.server, p, op, p);
  }

  const FRESH := Client(Idle, map[], [], [])

  lemma TakeRuns(s: System, p: ProcId)
    requires SystemInv(s) && p in s.clients && !s.clients[p].status.Idle? && s.server.streams[p] != []
    ensures Reaches(s, [Take(p)], AfterTake(s, p))
  {
    OneStep(s, Take(p));
  }

  function Arrived(s: System, addr: Address): System {
    var t, id := AfterConnect(s, addr), s.server.idCounter + 1;
    if id in t.clients && id in t.server.streams && t.server.streams[id] != [] then AfterTake(t, id) else t
  }

  lemma ArrivalRuns(s: System, addr: Address) returns (steps: seq<Step>)
    requires SystemInv(s) && s.server.idCounter + 1 < BACKUP_TOKEN
    ensures Reaches(s, steps, Arrived(s, addr))
  {
    var t, id := AfterConnect(s, addr), s.server.idCounter + 1;
    OneStep(s, Connect(addr));
    StepKeepsInv(s, Connect(addr));
    TakeRuns(t, id);
    steps := [Connect(addr)] + [Take(id)];
    ReachesConcat(s, [Connect(addr)], t, [Take(id)], Arrived(s, addr));
  }

  lemma ConnectEffect(s: System, addr: Address)
    requires s.server.backup.Some?
    ensures var t, id := AfterConnect(s, addr), s.server.idCounter + 1;
            && t.clients == s.clients[id := Client(Connecting, map[], [], [])]
            && t.server.streams == s.server.streams[id := [Registry(Connection(id))]]
            && t.server.manager == s.server.manager && t.server.idCounter == id
  {
  }

  lemma FirstTaken(s: System, t: System, id: ProcId)
    requires t.clients == s.clients[id := Client(Connecting, map[], [], [])]
    requires t.server.streams == s.server.streams[id := [Registry(Connection(id))]]
    ensures AfterTake(t, id).clients == s.clients[id := FRESH]
    ensures AfterTake(t, id).server.streams == s.server.streams[id := []]
  {
    assert [Registry(Connection(id))][1..] == [];
  }

  lemma ArrivalEffect(s: System, addr: Address)
    requires s.server.backup.Some?
    ensures var t, id := Arrived(s, addr), s.server.idCounter + 1;
            && t.clients == s.clients[id := FRESH] && t.server.streams == s.server.streams[id := []]
            && t.server.manager == s.server.manager && t.server.idCounter == id
  {
    ConnectEffect(s, addr);
    FirstTaken(s, AfterConnect(s, addr), s.server.idCounter + 1);
  }

  lemma Arrive(s0: System, past: seq<Step>, s: System, addr: Address)
    returns (steps: seq<Step>, t: System)
    requires Init(s0) && Reaches(s0, past, s) && s.server.idCounter + 1 < BACKUP_TOKEN
    ensures Reaches(s0, steps, t)
    ensures var id := s.server.idCounter + 1;
            && t.clients == s.clients[id := FRESH] && t.server.streams == s.server.streams[id := []]
            && t.server.manager == s.server.manager && t.server.idCounter == id
  {
    InitHolds(s0);
    RunKeepsInv(s0, past, s);
    t := Arrived(s, addr);
    var more := ArrivalRuns(s, addr);
    ArrivalEffect(s, addr);
    steps := past + more;
    ReachesConcat(s0, past, s, more, t);
  }

  // What a call leaves for q to read.
  lemma CallHeard(s: System, op: Op, q: ProcId)
    requires SystemInv(s) && op.proc in s.clients && s.clients[op.proc].status.Idle?
    requires q in s.server.streams
    ensures q in Called(s, op).server.streams
    ensures Called(s, op).server.streams[q] ==
              s.server.streams[q] + (if q == op.proc then [Reply(s.server, op, op.proc)] else [])
                + Notices(s.server, op, q)
  {
    CallEffect(s, op);
    ShapeResolves(s);
    MayReportItself(s.server.manager, op);
    ConnectedEffect(s.server, op, op.proc);
    Regroup(s.server.streams[q], if q == op.proc then [Reply(s.server, op, op.proc)] else [],
            Notices(s.server, op, q));
  }

  // What a call leaves of the clients, their streams and the locks.
  ghost predicate CalledFrom(s: System, op: Op, t: System)
    requires op.proc in s.clients
  {
    && t.clients.Keys == s.clients.Keys && t.server.streams.Keys == s.server.streams.Keys
    && (forall q :: q in s.clients && q != op.proc ==> t.clients[q] == s.clients[q])
    && t.clients[op.proc].status == Asked(op.kind, op.key)
    && t.clients[op.proc].held ==
         (if op.kind.Release? then s.clients[op.proc].held - {op.key} else s.clients[op.proc].held)
    && t.clients[op.proc].answers == s.clients[op.proc].answers && t.clients[op.proc].log == s.clients[op.proc].log
    && (forall q :: q in s.server.streams ==>
          t.server.streams[q] == s.server.streams[q] + (if q == op.proc then [Reply(s.server, op, op.proc)] else [])
                                   + Notices(s.server, op, q))
    && t.server.manager == Apply(s.server.manager, op).0.(channel := [])
  }

  lemma CallLeaves(s: System, op: Op)
    requires SystemInv(s) && op.proc in s.clients && s.clients[op.proc].status.Idle?
    ensures CalledFrom(s, op, Called(s, op))
  {
    CallEffect(s, op);
    forall q | q in s.server.streams
      ensures q in Called(s, op).server.streams
      ensures Called(s, op).server.streams[q] ==
                s.server.streams[q] + (if q == op.proc then [Reply(s.server, op, op.proc)] else [])
                  + Notices(s.server, op, q)
    {
      CallHeard(s, op, q);
    }
  }

  lemma Call(s0: System, past: seq<Step>, s: System, op: Op) returns (steps: seq<Step>, t: System)
    requires Init(s0) && Reaches(s0, past, s)
    requires op.proc in s.clients && s.clients[op.proc].status.Idle?
    ensures Reaches(s0, steps, t) && CalledFrom(s, op, t)
  {
    InitHolds(s0);
    RunKeepsInv(s0, past, s);
    t := Called(s, op);
    var more := CallRuns(s, op);
    CallLeaves(s, op);
    steps := past + more;
    ReachesConcat(s0, past, s, more, t);
  }

  // A call that the registry carries out at once.
  predicate AtOnce(m: Manager, op: Op) {
    if op.kind.Create? then Apply(m, op).1.Done? else IsAccess(op.kind) && Apply(m, op).1.Granted?
  }

  lemma AnsweredAtOnce(s: System, op: Op)
    requires SystemInv(s) && op.proc in s.clients && AtOnce(s.server.manager, op)
    ensures Notices(s.server, op, op.proc) == []
    ensures op.kind.Read? ==> exists addr :: Reply(s.server, op, op.proc) == Frame(Holder(op.key, addr))
    ensures !op.kind.Read? ==> Reply(s.server, op, op.proc) == Frame(Success(op.key))
  {
    ShapeResolves(s);
    MayReportItself(s.server.manager, op);
    GrantedResolves(s.server, op, op.proc);
  }

  // The answer ends the call, and an access is held from then on.
  lemma AnswerEnds(c: Client, kind: RequestType, key: KeyId, msg: Message)
    requires c.status == Asked(kind, key) && (kind.Create? || IsAccess(kind))
    requires if kind.Read? then exists addr :: msg == Frame(Holder(key, addr)) else msg == Frame(Success(key))
    ensures TakeMessage(c, msg).status.Idle?
    ensures TakeMessage(c, msg).held == if IsAccess(kind) then c.held[key := kind] else c.held
  {
    assert React(c.status, msg).Return? && React(c.status, msg).result.Ok?;
  }

  // What a call that is carried out at once leaves when it has ended.
  ghost predicate DoneFrom(s: System, op: Op, t: System)
    requires op.proc in s.clients
  {
    && t.clients.Keys == s.clients.Keys && (forall q :: q in s.clients && q != op.proc ==> t.clients[q] == s.clients[q])
    && t.clients[op.proc].status.Idle?
    && t.clients[op.proc].held ==
         (if IsAccess(op.kind) then s.clients[op.proc].held[op.key := op.kind] else s.clients[op.proc].held)
    && t.server.manager == Apply(s.server.manager, op).0.(channel := [])
  }

  lemma HearsAnswer(s: System, op: Op, u: System)
    requires SystemInv(s) && op.proc in s.clients && s.clients[op.proc].status.Idle?
    requires AtOnce(s.server.manager, op) && CalledFrom(s, op, u)
    ensures op.proc in u.server.streams && u.server.streams[op.proc] == [Reply(s.server, op, op.proc)]
  {
    var p := op.proc;
    assert PhaseOk(p, s.clients[p], s.up[p], s.server.streams[p], s.server.manager.keys);
    AnsweredAtOnce(s, op);
    assert u.server.streams[p] == [] + [Reply(s.server, op, p)] + [];
  }

  lemma TakeDone(s: System, op: Op, u: System)
    requires op.proc in s.clients && CalledFrom(s, op, u) && AtOnce(s.server.manager, op)
    requires op.proc in u.server.streams && u.server.streams[op.proc] == [Reply(s.server, op, op.proc)]
    requires if op.kind.Read? then exists addr :: Reply(s.server, op, op.proc) == Frame(Holder(op.key, addr))
             else Reply(s.server, op, op.proc) == Frame(Success(op.key))
    ensures Enabled(u, Take(op.proc)) && DoneFrom(s, op, AfterTake(u, op.proc))
  {
    AnswerEnds(u.clients[op.proc], op.kind, op.key, Reply(s.server, op, op.proc));
  }

  // A whole call that is carried out at once.
  lemma Finish(s0: System, past: seq<Step>, s: System, op: Op) returns (steps: seq<Step>, t: System)
    requires Init(s0) && Reaches(s0, past, s)
    requires op.proc in s.clients && s.clients[op.proc].status.Idle? && AtOnce(s.server.manager, op)
    ensures Reaches(s0, steps, t) && DoneFrom(s, op, t)
  {
    var first, u := Call(s0, past, s, op);
    InitHolds(s0);
    RunKeepsInv(s0, past, s);
    HearsAnswer(s, op, u);
    AnsweredAtOnce(s, op);
    TakeDone(s, op, u);
    t := AfterTake(u, op.proc);
    OneStep(u, Take(op.proc));
    ReachesConcat(s0, first, u, [Take(op.proc)], t);
    steps := first + [Take(op.proc)];
  }

  // A lock held by one process, with this queue.
  function HeldLock(p: ProcId, mode: RequestType, pending: seq<Req>): Lock {
    Lock(pending, if mode.Read? then {p} else {}, if mode.Read? then None else Some(p), p)
  }

  lemma NewLockApplies(m: Manager, p: ProcId, mode: RequestType, key: KeyId)
    requires key !in m.keys && IsAccess(mode) && m.channel == []
    ensures var made := Apply(m, Op(p, Create, key)).0;
            && AtOnce(m, Op(p, Create, key)) && AtOnce(made, Op(p, mode, key))
            && Apply(made, Op(p, mode, key)).0 == Manager(m.keys[key := HeldLock(p, mode, [])], [])
  {
    var free := Lock([], {}, None, p);
    SettleAfterEnqueue(free, Req(p, mode));
    assert {} + {p} == {p};
    assert m.keys[key := free][key := HeldLock(p, mode, [])] == m.keys[key := HeldLock(p, mode, [])];
  }

  // p has a new key and nothing else has changed for anybody.
  ghost predicate Holding(s: System, p: ProcId, mode: RequestType, key: KeyId, t: System)
    requires p in s.clients
  {
    && t.clients.Keys == s.clients.Keys && (forall q :: q in s.clients && q != p ==> t.clients[q] == s.clients[q])
    && t.clients[p].status.Idle? && t.clients[p].held == s.clients[p].held[key := mode]
    && t.server.manager == Manager(s.server.manager.keys[key := HeldLock(p, mode, [])], [])
  }

  // p creates the key and accesses it.
  lemma Hold(s0: System, past: seq<Step>, s: System, p: ProcId, mode: RequestType, key: KeyId)
    returns (steps: seq<Step>, t: System)
    requires Init(s0) && Reaches(s0, past, s)
    requires p in s.clients && s.clients[p].status.Idle? && IsAccess(mode)
    requires key !in s.server.manager.keys && s.server.manager.channel == []
    ensures Reaches(s0, steps, t) && Holding(s, p, mode, key, t)
  {
    NewLockApplies(s.server.manager, p, mode, key);
    var first, u := Finish(s0, past, s, Op(p, Create, key));
    steps, t := Finish(s0, first, u, Op(p, mode, key));
  }

  // A write that is queued behind whoever holds the key.
  lemma WriteQueues(m: Manager, p: ProcId, key: KeyId, holder: ProcId, mode: RequestType)
    requires key in m.keys && m.keys[key] == HeldLock(holder, mode, []) && IsAccess(mode) && m.channel == []
    ensures Apply(m, Op(p, Write, key)).1 == Queued
    ensures Apply(m, Op(p, Write, key)).0 == Manager(m.keys[key := HeldLock(holder, mode, [Req(p, Write)])], [])
  {
    var v := m.keys[key];
    assert mode.Read? ==> holder in v.readers;
    SettleAfterEnqueue(v, Req(p, Write));
    assert [] + [Req(p, Write)] == [Req(p, Write)];
  }

  lemma MineAlone(p: ProcId, q: ProcId, kind: RequestType)
    ensures Mine(p, [Req(q, kind)]) == if p == q then [Req(q, kind)] else []
  {
    assert [Req(q, kind)][1..] == [];
  }

  lemma IdleHearsNothing(s0: System, past: seq<Step>, s: System, p: ProcId)
    requires Init(s0) && Reaches(s0, past, s) && p in s.clients && s.clients[p].status.Idle?
    ensures p in s.server.streams && s.server.streams[p] == []
  {
    NothingUnsolicited(s0, past, s, p);
  }

  // Client 1 holds key 7 and client 2 has done nothing yet.
  ghost predicate OneAlone(s: System) {
    && s.clients.Keys == {1, 2} && s.clients[1].status.Idle? && s.clients[2] == FRESH
    && s.clients[1].held == map[7 := Write]
    && s.server.manager == Manager(map[7 := HeldLock(1, Write, [])], [])
  }

  lemma HoldOne(s0: System) returns (steps: seq<Step>, t: System)
    requires Init(s0)
    ensures Reaches(s0, steps, t) && OneAlone(t)
  {
    var a, u := Arrive(s0, [], s0, "a");
    var b, v := Arrive(s0, a, u, "b");
    steps, t := Hold(s0, b, v, 1, Write, 7);
  }
}
