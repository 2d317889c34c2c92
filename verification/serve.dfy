/// Handling one request keeps the invariant of the whole system.

module ServeStep {
  import opened Common
  import opened Protocol
  import opened LockSpec
  import opened ServerSpec
  import opened ClientProtocol
  import opened Delivery
  import opened Replication
  import opened RegistrySystem

  lemma BeliefsKept(m: Manager, op: Op, p: ProcId, c: Client)
    requires ManagerInv(m) && BeliefOk(p, c, m.keys)
    requires op.proc == p ==> c.status == Asked(op.kind, op.key)
    ensures BeliefOk(p, c, Apply(m, op).0.keys)
  {
    forall k | k in c.held ensures RegisteredAt(Apply(m, op).0.keys, p, c.held[k], k) {
      RegistrationKept(m, op, k, Req(p, c.held[k]));
    }
  }

  lemma RegisteredAtKept(m: Manager, op: Op, p: ProcId)
    requires ManagerInv(m) && p != op.proc
    ensures forall kind, key :: RegisteredAt(m.keys, p, kind, key) ==> RegisteredAt(Apply(m, op).0.keys, p, kind, key)
  {
    forall kind, key | RegisteredAt(m.keys, p, kind, key) ensures RegisteredAt(Apply(m, op).0.keys, p, kind, key) {
      RegistrationKept(m, op, key, Req(p, kind));
    }
  }

  lemma AbsentButKept(m: Manager, op: Op, q: ProcId)
    requires AbsentBut(m.keys, q, op.key)
    ensures AbsentBut(Apply(m, op).0.keys, q, op.key)
  {
    forall k | k in Apply(m, op).0.keys && k != op.key ensures Mine(q, Apply(m, op).0.keys[k].pending) == [] {
      OtherKeysKept(m, op, k);
    }
  }

  // A process that is not announced waits afterwards where it waited before.
  lemma AbsentKept(m: Manager, op: Op, q: ProcId)
    requires ManagerInv(m) && q != op.proc && Absent(m.keys, q)
    ensures Absent(Apply(m, op).0.keys, q) && Mine(q, Admitted(m, op)) == []
  {
    QueueShare(m, op, q);
    AbsentButKept(m, op, q);
    var after := Apply(m, op).0.keys;
    if op.key in after {
      assert |Mine(q, Admitted(m, op))| + |Mine(q, after[op.key].pending)| == 0;
    }
  }

  lemma WaitsForKept(m: Manager, op: Op, q: ProcId, kind: RequestType, key: KeyId)
    requires ManagerInv(m) && q != op.proc && Mine(q, Admitted(m, op)) == [] && WaitsFor(m.keys, q, kind, key)
    ensures WaitsFor(Apply(m, op).0.keys, q, kind, key)
  {
    var after := Apply(m, op).0.keys;
    QueueShare(m, op, q);
    if key == op.key {
      AbsentButKept(m, op, q);
      assert [] + Mine(q, if key in after then after[key].pending else []) == [Req(q, kind)];
    } else {
      OtherKeysKept(m, op, key);
      assert op.key in m.keys ==> Mine(q, m.keys[op.key].pending) == [];
      forall k | k in after && k != key ensures Mine(q, after[k].pending) == [] {
        if k != op.key {
          OtherKeysKept(m, op, k);
        } else {
          assert [] + Mine(q, after[k].pending) == [];
        }
      }
    }
  }

  // An announced process waited for exactly the access it is announced, and waits nowhere afterwards.
  lemma Announcement(m: Manager, op: Op, q: ProcId, kind: RequestType, key: KeyId)
    requires ManagerInv(m) && q != op.proc && Mine(q, Admitted(m, op)) != [] && WaitsFor(m.keys, q, kind, key)
    ensures key == op.key && Mine(q, Admitted(m, op)) == [Req(q, kind)]
    ensures Absent(Apply(m, op).0.keys, q) && (IsAccess(kind) ==> RegisteredAt(Apply(m, op).0.keys, q, kind, key))
  {
    var after := Apply(m, op).0.keys;
    var share := Mine(q, Admitted(m, op));
    QueueShare(m, op, q);
    assert op.key in m.keys;
    assert key == op.key;
    var left := if key in after then Mine(q, after[key].pending) else [];
    assert share + left == [Req(q, kind)];
    assert |share| == 1 && |left| == 0;
    assert share[0] == (share + left)[0];
    AbsentButKept(m, op, q);
    assert Req(q, kind) in share;
    MineHas(q, Admitted(m, op), Req(q, kind));
    AdmittedRegistered(m, op, Req(q, kind));
  }

  lemma PhaseKept(q: ProcId, c: Client, up: seq<Message>, down: seq<Message>,
                  keys: map<KeyId, Lock>, after: map<KeyId, Lock>)
    requires PhaseOk(q, c, up, down, keys)
    requires Absent(keys, q) ==> Absent(after, q)
    requires forall kind, key :: WaitsFor(keys, q, kind, key) ==> WaitsFor(after, q, kind, key)
    requires forall kind, key :: RegisteredAt(keys, q, kind, key) ==> RegisteredAt(after, q, kind, key)
    ensures PhaseOk(q, c, up, down, after)
  {
  }

  lemma PhaseGranted(q: ProcId, c: Client, up: seq<Message>, down: seq<Message>,
                     keys: map<KeyId, Lock>, after: map<KeyId, Lock>,
                     kind: RequestType, key: KeyId, msg: Message)
    requires PhaseOk(q, c, up, down, keys) && WaitsFor(keys, q, kind, key)
    requires Absent(after, q) && RegisteredAt(after, q, kind, key) && GrantFor(kind, key, msg)
    ensures PhaseOk(q, c, up, down + [msg], after)
  {
    assert Mine(q, keys[key].pending)[0] == Req(q, kind);
    match c.status
    case Connecting => assert false;
    case Idle => assert false;
    case Asked(k, y) =>
      assert down == [WaitFrame(y)] && WaitsFor(keys, q, k, y);
      assert y == key;
      assert Mine(q, keys[key].pending) == [Req(q, k)];
    case Waiting(k, y, w) =>
      assert down == [] && WaitsFor(keys, q, k, y);
      assert y == key;
      assert Mine(q, keys[key].pending) == [Req(q, k)];
  }

  // A phase in which the client waits in some queue.
  lemma PhaseWaits(q: ProcId, c: Client, up: seq<Message>, down: seq<Message>,
                   keys: map<KeyId, Lock>)
    requires PhaseOk(q, c, up, down, keys) && !Absent(keys, q)
    ensures (c.status.Asked? || c.status.Waiting?) && IsAccess(c.status.kind)
    ensures WaitsFor(keys, q, c.status.kind, c.status.key)
  {
  }

  // Registrations of a process that asked for nothing stay explained.
  lemma OthersExplained(s: Server, op: Op, q: ProcId, c: Client, up: seq<Message>,
                        down: seq<Message>)
    requires ManagerInv(s.manager) && q != op.proc
    requires PhaseOk(q, c, up, down, s.manager.keys) && Explained(q, c, up, down, s.manager.keys)
    requires Mine(q, Admitted(s.manager, op)) == []
    ensures Explained(q, c, up, down, Apply(s.manager, op).0.keys)
  {
    forall kind, key | RegisteredAt(Apply(s.manager, op).0.keys, q, kind, key)
      ensures RegisteredAt(s.manager.keys, q, kind, key)
    {
      RegistrationOrigin(s.manager, op, key, Req(q, kind));
      MineHas(q, Admitted(s.manager, op), Req(q, kind));
    }
  }

  // An admitted process hears of its new registration, and had none whose grant was still coming.
  lemma AdmittedExplained(s: Server, op: Op, q: ProcId, c: Client, up: seq<Message>,
                          down: seq<Message>, msg: Message)
    requires ManagerInv(s.manager) && q != op.proc
    requires PhaseOk(q, c, up, down, s.manager.keys) && Explained(q, c, up, down, s.manager.keys)
    requires (c.status.Asked? || c.status.Waiting?) && WaitsFor(s.manager.keys, q, c.status.kind, c.status.key)
    requires Mine(q, Admitted(s.manager, op)) == [Req(q, c.status.kind)] && c.status.key == op.key
    requires GrantFor(c.status.kind, c.status.key, msg)
    ensures Explained(q, c, up, down + [msg], Apply(s.manager, op).0.keys)
  {
    assert !Absent(s.manager.keys, q);
    forall kind, key | RegisteredAt(Apply(s.manager, op).0.keys, q, kind, key)
      ensures Accounted(q, c, up, down + [msg], kind, key)
    {
      RegistrationOrigin(s.manager, op, key, Req(q, kind));
      MineHas(q, Admitted(s.manager, op), Req(q, kind));
      assert RegisteredAt(s.manager.keys, q, kind, key) ==> !GrantComing(c, down, kind, key);
    }
  }

  lemma RequesterExplained(s: Server, op: Op, pick: ProcId, c: Client)
    requires ManagerInv(s.manager) && Resolved(s) && op.proc in s.addrs && MayReport(s.manager, op, pick)
    requires Explained(op.proc, c, [Registry(Request(op.proc, op.kind, op.key))], [], s.manager.keys)
    requires c.status == Asked(op.kind, op.key) && Mine(op.proc, Admitted(s.manager, op)) == []
    ensures Explained(op.proc, c, [], [Reply(s, op, pick)], Apply(s.manager, op).0.keys)
  {
    var p := op.proc;
    var outcome := Apply(s.manager, op).1;
    forall kind, key | RegisteredAt(Apply(s.manager, op).0.keys, p, kind, key)
      ensures Accounted(p, c, [], [Reply(s, op, pick)], kind, key)
    {
      RegistrationOrigin(s.manager, op, key, Req(p, kind));
      MineHas(p, Admitted(s.manager, op), Req(p, kind));
      if outcome.Granted? && key == op.key && kind == op.kind {
        GrantedResolves(s, op, pick);
        assert GrantFor(kind, key, Reply(s, op, pick));
      } else {
        assert RegisteredAt(s.manager.keys, p, kind, key);
      }
    }
  }

  lemma OtherClientOk(s: Server, op: Op, q: ProcId, c: Client, up: seq<Message>, down: seq<Message>)
    requires ManagerInv(s.manager) && Resolved(s) && q != op.proc
    requires ClientOk(q, c, up, down, s.manager.keys)
    ensures ClientOk(q, c, up, down + Notices(s, op, q), Apply(s.manager, op).0.keys)
  {
    var keys, after := s.manager.keys, Apply(s.manager, op).0.keys;
    var share := Mine(q, Admitted(s.manager, op));
    BeliefsKept(s.manager, op, q, c);
    RegisteredAtKept(s.manager, op, q);
    if share == [] {
      assert Notices(s, op, q) == [];
      assert down + [] == down;
      if Absent(keys, q) {
        AbsentKept(s.manager, op, q);
      }
      forall kind, key | WaitsFor(keys, q, kind, key) ensures WaitsFor(after, q, kind, key) {
        WaitsForKept(s.manager, op, q, kind, key);
      }
      PhaseKept(q, c, up, down, keys, after);
      OthersExplained(s, op, q, c, up, down);
    } else {
      if Absent(keys, q) {
        AbsentKept(s.manager, op, q);
      }
      PhaseWaits(q, c, up, down, keys);
      var kind, key := c.status.kind, c.status.key;
      Announcement(s.manager, op, q, kind, key);
      var msg := GrantFrame(s.addrs, key, kind, s.manager.keys[key].creator);
      assert share == [Req(q, kind)] && share[1..] == [];
      assert Frames(s.addrs, key, s.manager.keys[key].creator, share) == [msg] + [];
      assert Notices(s, op, q) == [msg];
      PhaseGranted(q, c, up, down, keys, after, kind, key, msg);
      AdmittedExplained(s, op, q, c, up, down, msg);
    }
  }

  // What the requester hears settles its request or puts it in the queue.
  lemma ReplyFits(s: Server, op: Op, pick: ProcId)
    requires ManagerInv(s.manager) && Resolved(s) && op.proc in s.addrs && MayReport(s.manager, op, pick)
    ensures var (m, outcome) := Apply(s.manager, op);
            var reply := Reply(s, op, pick);
            if outcome.Queued? then IsAccess(op.kind) && reply == WaitFrame(op.key)
            else Final(op.kind, op.key, reply)
                 && (GrantFor(op.kind, op.key, reply) ==> RegisteredAt(m.keys, op.proc, op.kind, op.key))
  {
    var (m, outcome) := Apply(s.manager, op);
    if !outcome.Refused? {
      GrantedResolves(s, op, pick);
      if IsAccess(op.kind) {
        SettleAfterEnqueue(s.manager.keys[op.key], Req(op.proc, op.kind));
      }
    }
  }

  lemma RequesterOk(s: Server, op: Op, pick: ProcId, c: Client)
    requires ManagerInv(s.manager) && Resolved(s) && op.proc in s.addrs && MayReport(s.manager, op, pick)
    requires ClientOk(op.proc, c, [Registry(Request(op.proc, op.kind, op.key))], [], s.manager.keys)
    requires c.status == Asked(op.kind, op.key)
    ensures ClientOk(op.proc, c, [], [] + Hears(s, op.proc, op, pick, op.proc), Apply(s.manager, op).0.keys)
  {
    var p := op.proc;
    var after := Apply(s.manager, op).0.keys;
    BeliefsKept(s.manager, op, p, c);
    ReplyFits(s, op, pick);
    RequesterShare(s.manager, op);
    AbsentButKept(s.manager, op, p);
    assert Notices(s, op, p) == [];
    ConnectedEffect(s, op, pick);
    assert [] + Hears(s, p, op, pick, p) == [Reply(s, op, pick)];
    RequesterExplained(s, op, pick, c);
    if Apply(s.manager, op).1.Queued? {
      assert WaitsFor(after, p, op.kind, op.key);
    } else {
      assert Absent(after, p);
    }
  }

  lemma ShapeResolves(s: System)
    requires Shape(s)
    ensures Resolved(s.server)
  {
    forall k | k in s.server.manager.keys
      ensures s.server.manager.keys[k].creator in s.server.addrs
      ensures s.server.manager.keys[k].readers <= s.server.addrs.Keys
    {
      assert Known(s.server.manager.keys[k], s.clients.Keys);
    }
  }

  // What a request on its way says about its sender.
  lemma SenderAsked(p: ProcId, c: Client, up: seq<Message>, down: seq<Message>,
                    keys: map<KeyId, Lock>)
    requires PhaseOk(p, c, up, down, keys) && up != []
    ensures c.status.Asked? && up == [Registry(Request(p, c.status.kind, c.status.key))] && down == []
  {
  }

  lemma ServeShape(s: System, p: ProcId, op: Op, pick: ProcId)
    requires Shape(s) && p in s.clients && s.up[p] == [Registry(Request(p, op.kind, op.key))] && op.proc == p
    requires Handled(s.server, p, op, pick, AfterServe(s, p, pick).server)
    ensures Shape(AfterServe(s, p, pick))
  {
    var t := AfterServe(s, p, pick);
    ApplyKeepsInv(s.server.manager, op);
    assert t.server.manager.keys == Apply(s.server.manager, op).0.keys;
    forall k | k in t.server.manager.keys ensures Known(t.server.manager.keys[k], t.clients.Keys) {
      KnownKept(s.server.manager, op, k, s.clients.Keys);
    }
    assert t.up.Keys == s.up.Keys;
  }

  lemma ServeClients(s: System, t: System, op: Op, pick: ProcId)
    requires SystemInv(s) && op.proc in s.clients && MayReport(s.server.manager, op, pick)
    requires s.clients[op.proc].status == Asked(op.kind, op.key)
    requires s.up[op.proc] == [Registry(Request(op.proc, op.kind, op.key))] && s.server.streams[op.proc] == []
    requires t.clients == s.clients && t.up == s.up[op.proc := []]
    requires Handled(s.server, op.proc, op, pick, t.server)
    ensures AllOk(t)
  {
    ShapeResolves(s);
    ConnectedEffect(s.server, op, pick);
    var keys := Apply(s.server.manager, op).0.keys;
    assert t.server.manager.keys == keys;
    forall q | q in s.clients
      ensures q in t.server.streams && ClientOk(q, t.clients[q], t.up[q], t.server.streams[q], keys)
    {
      assert t.server.streams[q] == s.server.streams[q] + Hears(s.server, op.proc, op, pick, q);
      if q == op.proc {
        RequesterOk(s.server, op, pick, s.clients[q]);
      } else {
        assert Hears(s.server, op.proc, op, pick, q) == Notices(s.server, op, q);
        OtherClientOk(s.server, op, q, s.clients[q], s.up[q], s.server.streams[q]);
      }
    }
  }

  lemma ServeKeepsInv(s: System, p: ProcId, pick: ProcId)
    requires SystemInv(s) && p in s.clients && s.up[p] != [] && Plausible(s.server.manager, s.up[p][0], pick)
    ensures SystemInv(AfterServe(s, p, pick))
  {
    var c := s.clients[p];
    SenderAsked(p, c, s.up[p], s.server.streams[p], s.server.manager.keys);
    var op := Op(p, c.status.kind, c.status.key);
    assert AsOp(s.up[p][0]) == Some(op);
    ShapeResolves(s);
    RequestEffect(s.server, p, op, pick);
    ServeShape(s, p, op, pick);
    ServeClients(s, AfterServe(s, p, pick), op, pick);
  }
}
