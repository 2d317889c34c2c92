/// When a call that was told to wait can still be granted: exactly unless it belongs to a knot of clients that wait
/// for one another.

module Deadlock {
  import opened Common
  import opened Protocol
  import opened LockSpec
  import opened ServerSpec
  import opened ClientProtocol
  import opened Delivery
  import opened RegistrySystem
  import opened ServeStep
  import opened RegistryTheorems
  import opened StreamHistory

  // ---------------------------------------------------------------------------------- one lock

  predicate HeldAt(keys: map<KeyId, Lock>, e: ProcId, key: KeyId) {
    key in keys && HeldBy(keys[key], e)
  }

  lemma HeldByHolds(v: Lock, e: ProcId)
    requires HeldBy(v, e)
    ensures Held(v)
  {
    assert v.writer.None? ==> e in v.readers;
  }

  // A request for this access would be queued if it were handled now.
  predicate WouldQueue(keys: map<KeyId, Lock>, kind: RequestType, key: KeyId) {
    key in keys && IsAccess(kind) && !(keys[key].pending == [] && Compatible(keys[key], kind))
  }

  lemma QueuedExactly(m: Manager, op: Op)
    requires ManagerInv(m)
    ensures Apply(m, op).1.Queued? <==> WouldQueue(m.keys, op.kind, op.key)
  {
    if op.key in m.keys && IsAccess(op.kind) {
      SettleAfterEnqueue(m.keys[op.key], Req(op.proc, op.kind));
    }
  }

  lemma HolderStays(m: Manager, op: Op, e: ProcId, key: KeyId)
    requires ManagerInv(m) && HeldAt(m.keys, e, key) && !(op.kind.Release? && op.key == key && op.proc == e)
    ensures HeldAt(Apply(m, op).0.keys, e, key)
  {
    RegistrationKept(m, op, key, Req(e, if m.keys[key].writer == Some(e) then Write else Read));
  }

  // A holder held the key before, was just admitted, or made the request.
  lemma HolderOrigin(m: Manager, op: Op, e: ProcId, key: KeyId)
    requires ManagerInv(m) && HeldAt(Apply(m, op).0.keys, e, key) && e != op.proc
    ensures HeldAt(m.keys, e, key) || Mine(e, Admitted(m, op)) != []
  {
    var r := Req(e, if Apply(m, op).0.keys[key].writer == Some(e) then Write else Read);
    RegistrationOrigin(m, op, key, r);
    MineHas(e, Admitted(m, op), r);
  }

  // As long as somebody else holds it, a key admits nobody from its queue.
  lemma HeldKeyAdmitsNobody(m: Manager, op: Op, e: ProcId)
    requires ManagerInv(m) && HeldAt(m.keys, e, op.key) && op.proc != e
    ensures Admitted(m, op) == []
  {
    var v := m.keys[op.key];
    if op.kind.Release? && HeldBy(v, op.proc) {
      assert LockInv(v) && Held(Drop(v, op.proc)) by {
        HeldByHolds(Drop(v, op.proc), e);
      }
      SettleAfterDropStillHeld(v, op.proc);
    }
  }

  // What a key that somebody else holds looks like after a request on it.
  lemma HeldKeyAfter(m: Manager, op: Op, e: ProcId)
    requires ManagerInv(m) && HeldAt(m.keys, e, op.key) && (op.kind.Release? ==> op.proc != e)
    ensures var v := m.keys[op.key];
            var r := Req(op.proc, op.kind);
            op.key in Apply(m, op).0.keys && Apply(m, op).0.keys[op.key] ==
              if WouldQueue(m.keys, op.kind, op.key) then Enqueue(v, r)
              else if IsAccess(op.kind) then Admit(v, r)
              else if op.kind.Release? && HeldBy(v, op.proc) then Drop(v, op.proc)
              else v
  {
    var v := m.keys[op.key];
    assert LockInv(v);
    if IsAccess(op.kind) {
      SettleAfterEnqueue(v, Req(op.proc, op.kind));
    } else if op.kind.Release? && HeldBy(v, op.proc) {
      HeldByHolds(Drop(v, op.proc), e);
      SettleAfterDropStillHeld(v, op.proc);
    }
  }

  // A request that would be queued behind e would be queued as long as e holds the key.
  lemma StillQueues(m: Manager, op: Op, e: ProcId, kind: RequestType, key: KeyId)
    requires ManagerInv(m) && HeldAt(m.keys, e, key) && (op.kind.Release? && op.key == key ==> op.proc != e)
    requires WouldQueue(m.keys, kind, key)
    ensures WouldQueue(Apply(m, op).0.keys, kind, key)
  {
    if op.key == key {
      assert LockInv(m.keys[key]);
      HolderStays(m, op, e, key);
      HeldByHolds(m.keys[key], e);
      HeldByHolds(Apply(m, op).0.keys[key], e);
      HeldKeyAfter(m, op, e);
    } else {
      OtherKeysKept(m, op, key);
    }
  }

  // Only a request that is queued itself makes others that would have been admitted wait behind an old holder.
  lemma QueuedBefore(m: Manager, op: Op, e: ProcId, kind: RequestType, key: KeyId)
    requires ManagerInv(m) && HeldAt(m.keys, e, key) && (op.kind.Release? && op.key == key ==> op.proc != e)
    requires !WouldQueue(m.keys, op.kind, op.key)
    requires WouldQueue(Apply(m, op).0.keys, kind, key)
    ensures WouldQueue(m.keys, kind, key)
  {
    if op.key == key {
      assert LockInv(m.keys[key]);
      HolderStays(m, op, e, key);
      HeldByHolds(m.keys[key], e);
      HeldByHolds(Apply(m, op).0.keys[key], e);
      HeldKeyAfter(m, op, e);
    } else {
      OtherKeysKept(m, op, key);
    }
  }

  // ---------------------------------------------------------------------------------- knots

  // The registry has queued p's request, or would queue it as things stand.
  ghost predicate BlockedIn(keys: map<KeyId, Lock>, inFlight: bool, p: ProcId, kind: RequestType, key: KeyId) {
    WaitsFor(keys, p, kind, key) || (inFlight && WouldQueue(keys, kind, key))
  }

  ghost predicate Blocked(s: System, p: ProcId) {
    && p in s.clients && p in s.up && (s.clients[p].status.Asked? || s.clients[p].status.Waiting?)
    && BlockedIn(s.server.manager.keys, s.up[p] != [], p, s.clients[p].status.kind, s.clients[p].status.key)
  }

  // Everybody in the knot is blocked on a key that somebody in the knot holds: the one it is mapped to.
  ghost predicate Knot(s: System, knot: map<ProcId, ProcId>) {
    forall d {:trigger knot[d]} :: d in knot ==>
      Blocked(s, d) && knot[d] in knot && HeldAt(s.server.manager.keys, knot[d], s.clients[d].status.key)
  }

  lemma Sender(s: System, p: ProcId) returns (op: Op)
    requires SystemInv(s) && p in s.clients && s.up[p] != []
    ensures s.clients[p].status == Asked(op.kind, op.key) && op.proc == p
    ensures s.up[p] == [Registry(Request(p, op.kind, op.key))]
    ensures s.server.streams[p] == [] && Absent(s.server.manager.keys, p)
  {
    assert PhaseOk(p, s.clients[p], s.up[p], s.server.streams[p], s.server.manager.keys);
    SenderAsked(p, s.clients[p], s.up[p], s.server.streams[p], s.server.manager.keys);
    op := Op(p, s.clients[p].status.kind, s.clients[p].status.key);
  }

  // What handling a request in flight does to the locks and the clients.
  lemma Served(s: System, p: ProcId, pick: ProcId, op: Op)
    requires SystemInv(s) && p in s.clients && op.proc == p && s.up[p] == [Registry(Request(p, op.kind, op.key))]
    ensures var t := AfterServe(s, p, pick);
            && t.clients == s.clients && t.up == s.up[p := []]
            && t.server.manager.keys == Apply(s.server.manager, op).0.keys
  {
    assert AsOp(s.up[p][0]) == Some(op);
    RequestEffect(s.server, p, op, pick);
  }

  // A client that waits in a queue: nothing of it is in flight.
  lemma QueuedPhase(s: System, p: ProcId, kind: RequestType, key: KeyId)
    requires SystemInv(s) && p in s.clients && WaitsFor(s.server.manager.keys, p, kind, key)
    ensures s.up[p] == [] && !Absent(s.server.manager.keys, p)
    ensures s.clients[p].status.Asked? || s.clients[p].status.Waiting?
    ensures s.clients[p].status.kind == kind && s.clients[p].status.key == key && IsAccess(kind)
    ensures s.server.streams[p] == if s.clients[p].status.Asked? then [WaitFrame(key)] else []
  {
    var c, keys := s.clients[p], s.server.manager.keys;
    assert PhaseOk(p, c, s.up[p], s.server.streams[p], keys);
    assert !Absent(keys, p);
    PhaseWaits(p, c, s.up[p], s.server.streams[p], keys);
    assert Mine(p, keys[key].pending)[0] == Req(p, kind);
    assert c.status.key == key;
    assert Mine(p, keys[key].pending) == [Req(p, c.status.kind)];
  }

  // ---------------------------------------------------------------------------------- a knot stays

  // d is blocked on this key.
  ghost predicate BlockedOn(s: System, d: ProcId, kind: RequestType, key: KeyId) {
    Blocked(s, d) && s.clients[d].status.kind == kind && s.clients[d].status.key == key
  }

  lemma SenderGetsQueued(s: System, p: ProcId, pick: ProcId, op: Op)
    requires SystemInv(s) && p in s.clients && op.proc == p && s.up[p] == [Registry(Request(p, op.kind, op.key))]
    requires Absent(s.server.manager.keys, p) && WouldQueue(s.server.manager.keys, op.kind, op.key)
    ensures WaitsFor(Apply(s.server.manager, op).0.keys, p, op.kind, op.key)
  {
    QueuedExactly(s.server.manager, op);
    RequesterShare(s.server.manager, op);
    AbsentButKept(s.server.manager, op, p);
    SettleAfterEnqueue(s.server.manager.keys[op.key], Req(p, op.kind));
  }

  // A client blocked behind somebody else who keeps the key stays blocked while another request is handled.
  lemma StaysBlocked(m: Manager, op: Op, d: ProcId, e: ProcId, kind: RequestType, key: KeyId)
    requires ManagerInv(m) && op.proc != d && op.proc != e && HeldAt(m.keys, e, key)
    ensures WouldQueue(m.keys, kind, key) ==> WouldQueue(Apply(m, op).0.keys, kind, key)
    ensures WaitsFor(m.keys, d, kind, key) ==> WaitsFor(Apply(m, op).0.keys, d, kind, key)
  {
    if WouldQueue(m.keys, kind, key) {
      StillQueues(m, op, e, kind, key);
    }
    if WaitsFor(m.keys, d, kind, key) {
      if op.key == key {
        HeldKeyAdmitsNobody(m, op, e);
      } else {
        QueueShare(m, op, d);
        assert op.key in m.keys ==> Mine(d, m.keys[op.key].pending) == [];
        assert |Mine(d, Admitted(m, op))| == 0;
      }
      WaitsForKept(m, op, d, kind, key);
    }
  }

  // The same when the other one's request is going to be queued itself.
  lemma QueuerStays(m: Manager, op: Op, d: ProcId, kind: RequestType, key: KeyId)
    requires ManagerInv(m) && op.proc != d && WouldQueue(m.keys, op.kind, op.key)
    ensures WouldQueue(m.keys, kind, key) ==> WouldQueue(Apply(m, op).0.keys, kind, key)
    ensures WaitsFor(m.keys, d, kind, key) ==> WaitsFor(Apply(m, op).0.keys, d, kind, key)
  {
    SettleAfterEnqueue(m.keys[op.key], Req(op.proc, op.kind));
    assert Admitted(m, op) == [];
    if WaitsFor(m.keys, d, kind, key) {
      WaitsForKept(m, op, d, kind, key);
    }
  }

  lemma OtherServed(m: Manager, op: Op, inFlight: bool, d: ProcId, e: ProcId, kind: RequestType,
                    key: KeyId)
    requires ManagerInv(m) && HeldAt(m.keys, e, key) && op.proc != d
    requires op.proc != e || WouldQueue(m.keys, op.kind, op.key)
    requires BlockedIn(m.keys, inFlight, d, kind, key)
    ensures BlockedIn(Apply(m, op).0.keys, inFlight, d, kind, key) && HeldAt(Apply(m, op).0.keys, e, key)
  {
    HolderStays(m, op, e, key);
    if WouldQueue(m.keys, op.kind, op.key) {
      QueuerStays(m, op, d, kind, key);
    } else {
      StaysBlocked(m, op, d, e, kind, key);
    }
  }

  // Handling a request of p: d stays blocked behind e, if p is blocked too or is neither of them.
  lemma MemberServed(s: System, p: ProcId, pick: ProcId, d: ProcId, e: ProcId, key: KeyId)
    requires SystemInv(s) && Enabled(s, Serve(p, pick)) && Blocked(s, d) && s.clients[d].status.key == key
    requires Blocked(s, p) || (p != d && p != e)
    requires HeldAt(s.server.manager.keys, e, key)
    ensures var t := AfterServe(s, p, pick);
            BlockedOn(t, d, s.clients[d].status.kind, key) && HeldAt(t.server.manager.keys, e, key)
  {
    var op := Sender(s, p);
    Served(s, p, pick, op);
    var m := s.server.manager;
    if d == p {
      SenderGetsQueued(s, p, pick, op);
      HolderStays(m, op, e, key);
    } else {
      OtherServed(m, op, s.up[d] != [], d, e, s.clients[d].status.kind, key);
    }
  }

  lemma MemberTakes(s: System, p: ProcId, d: ProcId, key: KeyId)
    requires SystemInv(s) && Enabled(s, Take(p)) && Blocked(s, d) && s.clients[d].status.key == key
    ensures BlockedOn(AfterTake(s, p), d, s.clients[d].status.kind, key)
  {
    if d == p {
      assert PhaseOk(p, s.clients[p], s.up[p], s.server.streams[p], s.server.manager.keys);
      assert s.up[p] == [];
      QueuedPhase(s, p, s.clients[p].status.kind, key);
      TakeWait(p, s.clients[p], s.server.manager.keys);
    }
  }

  lemma MemberAsks(s: System, p: ProcId, kind: RequestType, key: KeyId, d: ProcId)
    requires Enabled(s, Ask(p, kind, key)) && Blocked(s, d)
    ensures BlockedOn(AfterAsk(s, p, kind, key), d, s.clients[d].status.kind, s.clients[d].status.key)
  {
  }

  lemma MemberMeets(s: System, addr: Address, d: ProcId)
    requires Shape(s) && Enabled(s, Connect(addr)) && Blocked(s, d)
    ensures BlockedOn(AfterConnect(s, addr), d, s.clients[d].status.kind, s.clients[d].status.key)
    ensures AfterConnect(s, addr).server.manager == s.server.manager
  {
  }

  // One step leaves d blocked on its key behind e.
  lemma MemberStays(s: System, step: Step, d: ProcId, e: ProcId, key: KeyId)
    requires SystemInv(s) && Enabled(s, step) && Blocked(s, d) && s.clients[d].status.key == key
    requires Blocked(s, e) && HeldAt(s.server.manager.keys, e, key)
    ensures BlockedOn(Next(s, step), d, s.clients[d].status.kind, key)
    ensures HeldAt(Next(s, step).server.manager.keys, e, key)
  {
    if step.Serve? {
      MemberServed(s, step.p, step.pick, d, e, key);
    } else if step.Take? {
      MemberTakes(s, step.p, d, key);
    } else if step.Ask? {
      MemberAsks(s, step.p, step.kind, step.key, d);
    } else if step.Connect? {
      MemberMeets(s, step.addr, d);
    }
  }

  lemma MemberOfKnot(s: System, knot: map<ProcId, ProcId>, d: ProcId) returns (key: KeyId)
    requires Knot(s, knot) && d in knot
    ensures Blocked(s, d) && key == s.clients[d].status.key && knot[d] in knot && Blocked(s, knot[d])
    ensures HeldAt(s.server.manager.keys, knot[d], key)
  {
    key := s.clients[d].status.key;
    var _ := knot[knot[d]];
  }

  lemma KnotStays(s: System, step: Step, knot: map<ProcId, ProcId>)
    requires SystemInv(s) && Enabled(s, step) && Knot(s, knot)
    ensures Knot(Next(s, step), knot)
  {
    forall d | d in knot
      ensures Blocked(Next(s, step), d)
      ensures HeldAt(Next(s, step).server.manager.keys, knot[d], Next(s, step).clients[d].status.key)
    {
      var key := MemberOfKnot(s, knot, d);
      MemberStays(s, step, d, knot[d], key);
    }
  }

  // A client that is blocked has not been granted.
  lemma BlockedNotGranted(s: System, p: ProcId)
    requires SystemInv(s) && Blocked(s, p)
    ensures !GrantComing(s.clients[p], s.server.streams[p], s.clients[p].status.kind, s.clients[p].status.key)
  {
    assert PhaseOk(p, s.clients[p], s.up[p], s.server.streams[p], s.server.manager.keys);
    if s.up[p] == [] {
      QueuedPhase(s, p, s.clients[p].status.kind, s.clients[p].status.key);
    }
  }

  // The grant of this access is on its way to p.
  ghost predicate HasGrant(s: System, p: ProcId, kind: RequestType, key: KeyId) {
    p in s.clients && p in s.server.streams && GrantComing(s.clients[p], s.server.streams[p], kind, key)
  }

  // A client that waited in a queue and is out of it has its grant on the way.
  lemma WaiterPhase(p: ProcId, c: Client, up: seq<Message>, before: seq<Message>,
                    more: seq<Message>, keys: map<KeyId, Lock>)
    requires PhaseOk(p, c, up, before + more, keys) && Absent(keys, p) && up == []
    requires c.status.Asked? || c.status.Waiting?
    requires before == if c.status.Asked? then [WaitFrame(c.status.key)] else []
    ensures GrantComing(c, before + more, c.status.kind, c.status.key)
  {
    var down := before + more;
    assert c.status.Asked? ==> down[0] == WaitFrame(c.status.key);
  }

  lemma WaiterGranted(s: System, p: ProcId, pick: ProcId, op: Op, q: ProcId, kind: RequestType,
                      key: KeyId)
    requires SystemInv(s) && Enabled(s, Serve(p, pick)) && op.proc == p
    requires s.up[p] == [Registry(Request(p, op.kind, op.key))]
    requires q in s.clients && q != p && WaitsFor(s.server.manager.keys, q, kind, key)
    requires Absent(Apply(s.server.manager, op).0.keys, q)
    ensures HasGrant(AfterServe(s, p, pick), q, kind, key)
  {
    var t, more := AfterServe(s, p, pick), WrittenBy(s, Serve(p, pick), q);
    QueuedPhase(s, q, kind, key);
    Served(s, p, pick, op);
    ServeWrites(s, p, pick, q);
    assert PhaseOk(q, t.clients[q], t.up[q], t.server.streams[q], t.server.manager.keys) by {
      StepKeepsInv(s, Serve(p, pick));
    }
    WaiterPhase(q, t.clients[q], t.up[q], s.server.streams[q], more, t.server.manager.keys);
  }

  // Whoever waits in a queue still does after somebody else was served, or has its grant on the way.
  lemma WaiterServed(s: System, p: ProcId, pick: ProcId, op: Op, q: ProcId, kind: RequestType,
                     key: KeyId)
    requires SystemInv(s) && Enabled(s, Serve(p, pick)) && op.proc == p
    requires s.up[p] == [Registry(Request(p, op.kind, op.key))]
    requires q in s.clients && q != p && WaitsFor(s.server.manager.keys, q, kind, key)
    ensures var t := AfterServe(s, p, pick);
            || (Mine(q, Admitted(s.server.manager, op)) == [] && WaitsFor(t.server.manager.keys, q, kind, key))
            || HasGrant(t, q, kind, key)
  {
    Served(s, p, pick, op);
    if Mine(q, Admitted(s.server.manager, op)) == [] {
      WaitsForKept(s.server.manager, op, q, kind, key);
    } else {
      Announcement(s.server.manager, op, q, kind, key);
      WaiterGranted(s, p, pick, op, q, kind, key);
    }
  }

  // Nobody in a knot is ever granted what it asked for, in any run.
  lemma {:induction false} KnotForever(s: System, steps: seq<Step>, t: System, knot: map<ProcId, ProcId>, d: ProcId)
    requires SystemInv(s) && Reaches(s, steps, t) && Knot(s, knot) && d in knot && Blocked(s, d)
    ensures Knot(t, knot) && BlockedOn(t, d, s.clients[d].status.kind, s.clients[d].status.key)
    ensures !HasGrant(t, d, s.clients[d].status.kind, s.clients[d].status.key)
    decreases |steps|
  {
    if steps == [] {
      BlockedNotGranted(s, d);
    } else {
      var key := MemberOfKnot(s, knot, d);
      MemberStays(s, steps[0], d, knot[d], key);
      KnotStays(s, steps[0], knot);
      StepKeepsInv(s, steps[0]);
      KnotForever(Next(s, steps[0]), steps[1..], t, knot, d);
    }
  }
}
