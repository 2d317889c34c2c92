/// Where a reader is sent: the address that a read call returns, over whole runs of the system.

module HolderRuns {
  import opened Common
  import opened Protocol
  import opened LockSpec
  import opened ServerSpec
  import opened Delivery
  import opened RegistrySystem
  import opened RegistryTheorems
  import opened ServeStep
  import opened StreamHistory
  import Connections
  import Progress
  import RunBuilding

  // The addresses of the clients that connected, in the order of connecting.
  function Clients(steps: seq<Step>): seq<Address> {
    if steps == [] then []
    else (if steps[0].Connect? then [steps[0].addr] else []) + Clients(steps[1..])
  }

  lemma StepKeepsBook(s: System, step: Step)
    requires SystemInv(s) && Enabled(s, step)
    ensures var server := Next(s, step).server;
            if step.Connect? then
              && server.idCounter == s.server.idCounter + 1
              && server.addrs == s.server.addrs[server.idCounter := step.addr]
            else server.idCounter == s.server.idCounter && server.addrs == s.server.addrs
  {
    if step.Serve? {
      var p := step.p;
      SenderAsked(p, s.clients[p], s.up[p], s.server.streams[p], s.server.manager.keys);
      RequestEffect(s.server, p, AsOp(s.up[p][0]).value, step.pick);
    }
  }

  lemma {:induction false} BookGrows(s: System, steps: seq<Step>, t: System, before: seq<Address>)
    requires SystemInv(s) && Reaches(s, steps, t)
    requires s.server.idCounter == |before| && s.server.addrs == Connections.Book(before)
    ensures t.server.idCounter == |before + Clients(steps)|
    ensures t.server.addrs == Connections.Book(before + Clients(steps))
    decreases |steps|
  {
    if steps == [] {
      assert before + Clients(steps) == before;
    } else {
      var first := if steps[0].Connect? then [steps[0].addr] else [];
      StepKeepsInv(s, steps[0]);
      StepKeepsBook(s, steps[0]);
      if steps[0].Connect? {
        Connections.OneEntry(before, steps[0].addr);
      } else {
        assert before + first == before;
      }
      BookGrows(Next(s, steps[0]), steps[1..], t, before + first);
      assert before + Clients(steps) == (before + first) + Clients(steps[1..]);
    }
  }

  // In every reachable state the registry knows exactly the clients that connected, by the ids 1 to n in the order
  // of connecting, each with the address it connected from.
  lemma AddressesOfConnections(s: System, steps: seq<Step>, t: System)
    requires Init(s) && Reaches(s, steps, t)
    ensures t.server.idCounter == |Clients(steps)|
    ensures forall i :: i in t.server.addrs <==> 1 <= i <= |Clients(steps)|
    ensures forall i :: i in t.server.addrs ==> t.server.addrs[i] == Clients(steps)[i - 1]
  {
    InitHolds(s);
    BookGrows(s, steps, t, []);
    assert [] + Clients(steps) == Clients(steps);
    forall i | i in t.server.addrs ensures t.server.addrs[i] == Clients(steps)[i - 1] {
      assert t.server.addrs[i] == Connections.Nth(Clients(steps), i);
    }
  }

  lemma {:induction false} FramesName(addrs: map<ProcId, Address>, key: KeyId, holder: ProcId, reqs: seq<Req>,
                                      k: KeyId, addr: Address)
    requires holder in addrs && Registry(Response(Holder(k, addr))) in Frames(addrs, key, holder, reqs)
    ensures k == key && addr == addrs[holder]
  {
    var frame := GrantFrame(addrs, key, reqs[0].kind, holder);
    if Registry(Response(Holder(k, addr))) != frame {
      FramesName(addrs, key, holder, reqs[1..], k, addr);
    }
  }

  // What the sender of a request hears of it is the reply alone.
  lemma OnlyReply(s: System, p: ProcId, op: Op, pick: ProcId)
    requires SystemInv(s) && p in s.clients && s.up[p] == [Registry(Request(op.proc, op.kind, op.key))] && op.proc == p
    requires MayReport(s.server.manager, op, pick)
    ensures Hears(s.server, p, op, pick, p) == [Reply(s.server, op, pick)]
  {
    ShapeResolves(s);
    ConnectedEffect(s.server, op, pick);
    assert Absent(s.server.manager.keys, p);
    RequesterShare(s.server.manager, op);
  }

  // Whose address a grant of a read carries: the process that the hash set yields, if the read is answered at once,
  lemma HolderInReply(s: Server, op: Op, pick: ProcId, key: KeyId, addr: Address)
    requires ManagerInv(s.manager) && MayReport(s.manager, op, pick)
    requires Reply(s, op, pick) == Registry(Response(Holder(key, addr)))
    ensures pick in s.addrs && addr == s.addrs[pick]
    ensures key in Apply(s.manager, op).0.keys && pick in Apply(s.manager, op).0.keys[key].readers
  {
    AcceptedOutcomes(s.manager, op);
    RefusalErrors(s.manager, op);
  }

  // and the creator if it had to wait.
  lemma HolderInNotice(s: Server, op: Op, q: ProcId, key: KeyId, addr: Address)
    requires ManagerInv(s.manager) && Resolved(s)
    requires Registry(Response(Holder(key, addr))) in Notices(s, op, q)
    ensures key in Apply(s.manager, op).0.keys
    ensures var creator := Apply(s.manager, op).0.keys[key].creator; creator in s.addrs && addr == s.addrs[creator]
  {
    ApplyRelease(s.manager, op);
    FramesName(s.addrs, op.key, s.manager.keys[op.key].creator, Mine(q, Admitted(s.manager, op)), key, addr);
  }

  lemma HolderInStep(s: System, p: ProcId, pick: ProcId, q: ProcId, key: KeyId, addr: Address)
    requires SystemInv(s) && Enabled(s, Serve(p, pick)) && q in s.clients
    requires Registry(Response(Holder(key, addr))) in WrittenBy(s, Serve(p, pick), q)
    ensures var keys := AfterServe(s, p, pick).server.manager.keys;
            && key in keys
            && (q == p ==> pick in s.server.addrs && addr == s.server.addrs[pick] && pick in keys[key].readers)
            && (q != p ==> keys[key].creator in s.server.addrs && addr == s.server.addrs[keys[key].creator])
  {
    SenderAsked(p, s.clients[p], s.up[p], s.server.streams[p], s.server.manager.keys);
    var op := AsOp(s.up[p][0]).value;
    RequestEffect(s.server, p, op, pick);
    if q == p {
      OnlyReply(s, p, op, pick);
      HolderInReply(s.server, op, pick, key, addr);
    } else {
      ShapeResolves(s);
      ConnectedEffect(s.server, op, pick);
      assert [] + Notices(s.server, op, q) == Notices(s.server, op, q);
      HolderInNotice(s.server, op, q, key, addr);
    }
  }

  lemma {:induction false} WrittenAt(s: System, steps: seq<Step>, t: System, q: ProcId, msg: Message)
    returns (i: nat, u: System)
    requires SystemInv(s) && Reaches(s, steps, t) && msg in WrittenIn(s, steps, t, q)
    ensures i < |steps| && Reaches(s, steps[..i], u) && Enabled(u, steps[i]) && msg in WrittenBy(u, steps[i], q)
    decreases |steps|
  {
    if msg in WrittenBy(s, steps[0], q) {
      i, u := 0, s;
    } else {
      StepKeepsInv(s, steps[0]);
      i, u := WrittenAt(Next(s, steps[0]), steps[1..], t, q, msg);
      Progress.PrefixReaches(s, steps, i, u);
      i := i + 1;
    }
  }

  // h created the key or reads it.
  ghost predicate HoldsOrCreated(s: System, key: KeyId, h: ProcId) {
    && key in s.server.manager.keys
    && (h == s.server.manager.keys[key].creator || h in s.server.manager.keys[key].readers)
  }

  lemma HolderOfStep(s: System, step: Step, q: ProcId, key: KeyId, addr: Address) returns (h: ProcId)
    requires SystemInv(s) && Enabled(s, step)
    requires Registry(Response(Holder(key, addr))) in WrittenBy(s, step, q)
    ensures step.Serve? && h in s.server.addrs && addr == s.server.addrs[h]
    ensures HoldsOrCreated(Next(s, step), key, h)
  {
    assert step.Serve?;
    HolderInStep(s, step.p, step.pick, q, key, addr);
    h := if q == step.p then step.pick else Next(s, step).server.manager.keys[key].creator;
  }

  lemma OneStepOn(s: System, steps: seq<Step>, i: nat, t: System)
    requires i < |steps| && Reaches(s, steps[..i], t) && Enabled(t, steps[i])
    ensures Reaches(s, steps[..i + 1], Next(t, steps[i]))
  {
    RunBuilding.OneStep(t, steps[i]);
    RunBuilding.ReachesConcat(s, steps[..i], t, [steps[i]], Next(t, steps[i]));
    assert steps[..i] + [steps[i]] == steps[..i + 1];
  }

  lemma NamedClient(s: System, steps: seq<Step>, t: System, h: ProcId)
    requires Init(s) && Reaches(s, steps, t) && h in t.server.addrs
    ensures 1 <= h <= |Clients(steps)| && t.server.addrs[h] == Clients(steps)[h - 1]
  {
    AddressesOfConnections(s, steps, t);
  }

  // Every address that a reader is sent to, in any run, is the one from which client h connected, and when the
  // message was written h had created the key or was reading it.
  lemma HolderWritten(s: System, steps: seq<Step>, t: System, q: ProcId, key: KeyId, addr: Address)
    returns (i: nat, u: System, h: ProcId)
    requires Init(s) && Reaches(s, steps, t)
    requires Registry(Response(Holder(key, addr))) in WrittenIn(s, steps, t, q)
    ensures i < |steps| && steps[i].Serve? && Reaches(s, steps[..i + 1], u)
    ensures 1 <= h <= |Clients(steps[..i])| && addr == Clients(steps[..i])[h - 1]
    ensures HoldsOrCreated(u, key, h)
  {
    InitHolds(s);
    var before;
    i, before := WrittenAt(s, steps, t, q, Registry(Response(Holder(key, addr))));
    RunKeepsInv(s, steps[..i], before);
    h := HolderOfStep(before, steps[i], q, key, addr);
    u := Next(before, steps[i]);
    NamedClient(s, steps[..i], before, h);
    OneStepOn(s, steps, i, before);
  }

  lemma {:induction false} AnswerTaken(log: seq<Exchange>, e: Exchange, msg: Message)
    requires e in log && msg in e.answers
    ensures msg in Taken(log)
  {
    if e != log[|log| - 1] {
      AnswerTaken(log[..|log| - 1], e, msg);
    }
  }

  // The address that a read call returns, in any run, is that of a client that had created the key or was reading
  // it when the grant was written.
  lemma ReadReturnsHolder(s: System, steps: seq<Step>, t: System, p: ProcId, e: Exchange, addr: Address)
    returns (i: nat, u: System, h: ProcId)
    requires Init(s) && Reaches(s, steps, t) && p in t.clients && e in t.clients[p].log
    requires e.kind.Read? && e.result == Ok(Some(addr))
    ensures i < |steps| && steps[i].Serve? && Reaches(s, steps[..i + 1], u)
    ensures 1 <= h <= |Clients(steps[..i])| && addr == Clients(steps[..i])[h - 1]
    ensures HoldsOrCreated(u, e.key, h)
  {
    InitHolds(s);
    RunKeepsInv(s, steps, t);
    EveryCallWellAnswered(s, steps, t, p, e);
    var msg := Registry(Response(Holder(e.key, addr)));
    assert e.answers[|e.answers| - 1] == msg;
    AnswerTaken(t.clients[p].log, e, msg);
    WrittenInRun(s, steps, t, p);
    assert msg in WrittenTo(t, p);
    i, u, h := HolderWritten(s, steps, t, p, e.key, addr);
  }
}
