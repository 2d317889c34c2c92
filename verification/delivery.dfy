/// Who hears what when the registry handles a request (src/registry_server.rs handle_request).

module Delivery {
  import opened Common
  import opened Protocol
  import opened LockSpec
  import opened ServerSpec

  // ---------------------------------------------------------------------------------- registration

  lemma {:induction false} SettleKeepsRegistered(v: Lock, r: Req)
    requires Registered(v, r)
    ensures Registered(Settle(v).0, r)
    decreases |v.pending|
  {
    if v.pending != [] && Compatible(v, v.pending[0].kind) {
      SettleKeepsRegistered(Admit(v, v.pending[0]).(pending := v.pending[1..]), r);
    }
  }

  lemma {:induction false} SettleRegisters(v: Lock, r: Req)
    requires r in Settle(v).1 && IsAccess(r.kind)
    ensures Registered(Settle(v).0, r)
    decreases |v.pending|
  {
    var next := Admit(v, v.pending[0]).(pending := v.pending[1..]);
    if r == v.pending[0] {
      SettleKeepsRegistered(next, r);
    } else {
      SettleRegisters(next, r);
    }
  }

  // Settling registers nobody but the admitted.
  lemma {:induction false} SettleOrigin(v: Lock, r: Req)
    requires Exclusive(v) && Registered(Settle(v).0, r)
    ensures Registered(v, r) || r in Settle(v).1
    decreases |v.pending|
  {
    if v.pending != [] && Compatible(v, v.pending[0].kind) {
      var front := v.pending[0];
      assert front in v.pending;
      var next := Admit(v, front).(pending := v.pending[1..]);
      assert Settle(v).1 == [front] + Settle(next).1;
      SettleOrigin(next, r);
      assert Registered(next, r) ==> Registered(v, r) || r == front;
    }
  }

  // ---------------------------------------------------------------------------------- one process's share

  // The entries of one process.
  function Mine(p: ProcId, reqs: seq<Req>): seq<Req> {
    if reqs == [] then [] else (if reqs[0].proc == p then [reqs[0]] else []) + Mine(p, reqs[1..])
  }

  lemma {:induction false} MineAppend(p: ProcId, a: seq<Req>, b: seq<Req>)
    ensures Mine(p, a + b) == Mine(p, a) + Mine(p, b)
  {
    if a == [] {
      assert a + b == b;
    } else {
      MineAppend(p, a[1..], b);
      assert (a + b)[1..] == a[1..] + b;
      var first := if a[0].proc == p then [a[0]] else [];
      assert first + (Mine(p, a[1..]) + Mine(p, b)) == (first + Mine(p, a[1..])) + Mine(p, b);
    }
  }

  lemma {:induction false} MineOfStranger(p: ProcId, reqs: seq<Req>)
    requires forall r :: r in reqs ==> r.proc != p
    ensures Mine(p, reqs) == []
  {
    if reqs != [] {
      assert reqs[0] in reqs;
      MineOfStranger(p, reqs[1..]);
    }
  }

  // An entry of a process is among its entries.
  lemma {:induction false} MineHas(p: ProcId, reqs: seq<Req>, r: Req)
    ensures r in Mine(p, reqs) <==> r in reqs && r.proc == p
  {
    if reqs != [] {
      MineHas(p, reqs[1..], r);
      assert r in reqs <==> r == reqs[0] || r in reqs[1..];
    }
  }

  // The notification of an admitted request.  A write names no holder; a read is only announced when its holder
  // is connected.
  function GrantFrame(addrs: map<ProcId, Address>, key: KeyId, kind: RequestType, holder: ProcId): (m: Message)
    ensures m.Registry? && m.registry.Response?
  {
    Frame(if kind.Write? then Success(key) else Holder(key, if holder in addrs then addrs[holder] else ""))
  }

  // One notification for each of these requests, in order.
  function Frames(addrs: map<ProcId, Address>, key: KeyId, holder: ProcId, reqs: seq<Req>): seq<Message> {
    if reqs == [] then []
    else [GrantFrame(addrs, key, reqs[0].kind, holder)] + Frames(addrs, key, holder, reqs[1..])
  }

  lemma FramesStep(addrs: map<ProcId, Address>, key: KeyId, holder: ProcId, reqs: seq<Req>,
                   q: ProcId)
    requires reqs != []
    ensures Frames(addrs, key, holder, Mine(q, reqs)) ==
              (if reqs[0].proc == q then [GrantFrame(addrs, key, reqs[0].kind, holder)] else []) +
                Frames(addrs, key, holder, Mine(q, reqs[1..]))
  {
    if reqs[0].proc == q {
      assert ([reqs[0]] + Mine(q, reqs[1..]))[1..] == Mine(q, reqs[1..]);
    } else {
      assert [] + Mine(q, reqs[1..]) == Mine(q, reqs[1..]);
    }
  }

  // Every one of these notifications can be written down.
  ghost predicate Deliverable(addrs: map<ProcId, Address>, holder: ProcId, reqs: seq<Req>) {
    holder in addrs || forall r :: r in reqs ==> r.kind.Write?
  }

  lemma DeliverOne(s: Server, key: KeyId, holder: ProcId, reqs: seq<Req>)
    requires Deliverable(s.addrs, holder, reqs) && reqs != []
    ensures var r := reqs[0];
            var next := HandleResponse(s, r.proc, GrantFrame(s.addrs, key, r.kind, holder).registry.response).0;
            && Deliver(s, Grants(reqs, key, holder)) == Deliver(next, Grants(reqs[1..], key, holder))
            && next == s.(streams := next.streams) && next.streams.Keys == s.streams.Keys
            && forall q :: q in s.streams ==>
                 next.streams[q] ==
                   s.streams[q] + (if r.proc == q then [GrantFrame(s.addrs, key, r.kind, holder)] else [])
  {
    var grants := Grants(reqs, key, holder);
    assert reqs[0] in reqs;
    assert grants[0] == Grant(reqs[0].proc, key, reqs[0].kind, holder);
    assert grants[1..] == Grants(reqs[1..], key, holder);
  }

  // No notification fails, and only streams change.
  lemma {:induction false} DeliverShape(s: Server, key: KeyId, holder: ProcId, reqs: seq<Req>)
    requires Deliverable(s.addrs, holder, reqs)
    ensures var (after, failure) := Deliver(s, Grants(reqs, key, holder));
            failure.None? && after == s.(streams := after.streams) && after.streams.Keys == s.streams.Keys
    decreases |reqs|
  {
    if reqs == [] {
      assert Grants(reqs, key, holder) == [];
    } else {
      DeliverOne(s, key, holder, reqs);
      var frame := GrantFrame(s.addrs, key, reqs[0].kind, holder);
      DeliverShape(HandleResponse(s, reqs[0].proc, frame.registry.response).0, key, holder, reqs[1..]);
    }
  }

  // A connected process receives exactly the notifications of its own requests, in queue order.
  lemma {:induction false} DeliverTo(s: Server, key: KeyId, holder: ProcId, reqs: seq<Req>, q: ProcId)
    requires Deliverable(s.addrs, holder, reqs) && q in s.streams
    ensures var after := Deliver(s, Grants(reqs, key, holder)).0;
            q in after.streams && after.streams[q] == s.streams[q] + Frames(s.addrs, key, holder, Mine(q, reqs))
    decreases |reqs|
  {
    if reqs == [] {
      assert Grants(reqs, key, holder) == [];
      assert s.streams[q] + [] == s.streams[q];
    } else {
      var frame := GrantFrame(s.addrs, key, reqs[0].kind, holder);
      var next := HandleResponse(s, reqs[0].proc, frame.registry.response).0;
      var first := if reqs[0].proc == q then [frame] else [];
      var more := Frames(s.addrs, key, holder, Mine(q, reqs[1..]));
      assert Deliver(s, Grants(reqs, key, holder)) == Deliver(next, Grants(reqs[1..], key, holder))
             && next.addrs == s.addrs && q in next.streams && next.streams[q] == s.streams[q] + first by {
        DeliverOne(s, key, holder, reqs);
      }
      DeliverTo(next, key, holder, reqs[1..], q);
      FramesStep(s.addrs, key, holder, reqs, q);
      Regroup(s.streams[q], first, more);
    }
  }

  // A read whose holder has gone stops the notifications.
  lemma DeliverStops(s: Server, key: KeyId, holder: ProcId, reqs: seq<Req>)
    requires reqs != [] && reqs[0].kind.Read? && holder !in s.addrs
    ensures Deliver(s, Grants(reqs, key, holder)) == (s, Some(UnknownHolder(holder)))
  {
    assert Grants(reqs, key, holder)[0] == Grant(reqs[0].proc, key, reqs[0].kind, holder);
  }

  lemma Regroup(a: seq<Message>, b: seq<Message>, c: seq<Message>)
    ensures (a + b) + c == a + (b + c)
  {
  }

  // ---------------------------------------------------------------------------------- one request

  // The requests a call takes out of the queue and announces on the channel.
  function Admitted(m: Manager, op: Op): seq<Req> {
    if op.kind.Release? && op.key in m.keys && HeldBy(m.keys[op.key], op.proc)
    then Settle(Drop(m.keys[op.key], op.proc)).1
    else []
  }

  // A call announces one write or reads only.
  lemma AdmittedAlike(m: Manager, op: Op)
    requires ManagerInv(m) && Admitted(m, op) != []
    ensures op.key in m.keys
    ensures || (|Admitted(m, op)| == 1 && Admitted(m, op)[0].kind.Write?)
            || forall r :: r in Admitted(m, op) ==> r.kind.Read?
  {
    var v := m.keys[op.key];
    var d := Drop(v, op.proc);
    DropKeepsExclusive(v, op.proc);
    if Held(d) {
      SettleAfterDropStillHeld(v, op.proc);
    } else {
      assert d.pending[0] in d.pending;
      if d.pending[0].kind.Write? {
        DrainWrite(d);
      } else {
        DrainReads(d);
      }
    }
  }

  // The reply to the requester.
  function Reply(s: Server, op: Op, pick: ProcId): Message {
    match Answer(s.addrs, op, Apply(s.manager, op).1, pick)
    case Ok(response) => Frame(response)
    case Err(e) => Frame(Error(ErrorText(e)))
  }

  // The call admits readers of a key whose creator has gone.
  predicate Unresolved(s: Server, op: Op) {
    && Admitted(s.manager, op) != [] && Admitted(s.manager, op)[0].kind.Read?
    && s.manager.keys[op.key].creator !in s.addrs
  }

  // What q hears of the requests a call admits.
  function Notices(s: Server, op: Op, q: ProcId): seq<Message> {
    if Admitted(s.manager, op) == [] || Unresolved(s, op) then []
    else Frames(s.addrs, op.key, s.manager.keys[op.key].creator, Mine(q, Admitted(s.manager, op)))
  }

  // What the sender hears when the notifications stopped early.
  function Complaint(s: Server, op: Op): seq<Message> {
    if Unresolved(s, op) then [Frame(Error(ErrorText(UnknownHolder(s.manager.keys[op.key].creator))))] else []
  }

  // Everything a request from this stream makes the server write to q: the sender is answered first; then each
  // admitted request is notified to the process that queued it, in queue order.
  function Hears(s: Server, token: ProcId, op: Op, pick: ProcId, q: ProcId): seq<Message> {
    (if q == token then [Reply(s, op, pick)] else []) + Notices(s, op, q)
      + (if q == token then Complaint(s, op) else [])
  }

  // The request is handled to the end, and so forwarded and counted.
  predicate Completes(s: Server, op: Op, pick: ProcId) {
    Answer(s.addrs, op, Apply(s.manager, op).1, pick).Ok? && !Unresolved(s, op)
  }

  ghost predicate Handled(s: Server, token: ProcId, op: Op, pick: ProcId, after: Server) {
    && after.manager == Apply(s.manager, op).0.(channel := [])
    && after.addrs == s.addrs && after.idCounter == s.idCounter && after.firstConnection == s.firstConnection
    && after.backup == (if Completes(s, op, pick) then Forward(s, Registry(Request(op.proc, op.kind, op.key))).backup
                        else s.backup)
    && after.requestCounter == s.requestCounter + (if Completes(s, op, pick) then 1 else 0)
    && after.streams.Keys == s.streams.Keys
    && forall q :: q in s.streams ==> after.streams[q] == s.streams[q] + Hears(s, token, op, pick, q)
  }

  // The whole effect of any request on any stream, whoever is connected.
  lemma RequestEffect(s: Server, token: ProcId, op: Op, pick: ProcId)
    requires token in s.streams && token != BACKUP_TOKEN
    requires s.manager.channel == [] && ManagerInv(s.manager)
    ensures var (after, failure) := HandleData(s, token, Ok(Registry(Request(op.proc, op.kind, op.key))), pick);
            failure.None? && Handled(s, token, op, pick, after)
  {
    if Answer(s.addrs, op, Apply(s.manager, op).1, pick).Err? {
      RejectedEffect(s, token, op, pick);
    } else if Unresolved(s, op) {
      UnresolvedEffect(s, token, op, pick);
    } else {
      CompletedEffect(s, token, op, pick);
    }
  }

  lemma RejectedEffect(s: Server, token: ProcId, op: Op, pick: ProcId)
    requires token in s.streams && token != BACKUP_TOKEN && s.manager.channel == [] && ManagerInv(s.manager)
    requires Answer(s.addrs, op, Apply(s.manager, op).1, pick).Err?
    ensures var (after, failure) := HandleData(s, token, Ok(Registry(Request(op.proc, op.kind, op.key))), pick);
            failure.None? && Handled(s, token, op, pick, after)
  {
    RefusalChangesNothing(s.manager, op);
    NothingAnnounced(s.manager, op);
    var msg := Registry(Request(op.proc, op.kind, op.key));
    assert AsOp(msg) == Some(op);
    var s1 := s.(manager := Apply(s.manager, op).0);
    assert HandleMessage(s, msg, pick) == (s1, Answer(s.addrs, op, Apply(s.manager, op).1, pick));
    var after := HandleData(s, token, Ok(msg), pick).0;
    assert after == HandleResponse(s1, token, Reply(s, op, pick).registry.response).0;
  }

  // Up to the notifications, and what follows them.
  lemma AcceptedSteps(s: Server, token: ProcId, op: Op, pick: ProcId)
    returns (drained: Server)
    requires token in s.streams && token != BACKUP_TOKEN
    requires Answer(s.addrs, op, Apply(s.manager, op).1, pick).Ok?
    ensures var msg := Registry(Request(op.proc, op.kind, op.key));
            var (m, outcome) := Apply(s.manager, op);
            var (notified, failure) := Deliver(drained, m.channel);
            && drained == s.(manager := m.(channel := []),
                             streams := s.streams[token := s.streams[token] + [Reply(s, op, pick)]])
            && HandleData(s, token, Ok(msg), pick) ==
                 match failure
                 case None =>
                   var forwarded := Forward(notified, msg);
                   (forwarded.(requestCounter := forwarded.requestCounter + 1), None)
                 case Some(StopRequested) => (notified, failure)
                 case Some(e) => HandleResponse(notified, token, Error(ErrorText(e)))
  {
    var msg := Registry(Request(op.proc, op.kind, op.key));
    var (m, outcome) := Apply(s.manager, op);
    var answer := Answer(s.addrs, op, outcome, pick);
    var s1 := s.(manager := m);
    assert AsOp(msg) == Some(op);
    assert HandleMessage(s, msg, pick) == (s1, answer);
    var answered := HandleResponse(s1, token, answer.value).0;
    drained := answered.(manager := m.(channel := []));
    assert GrantPending(answered) == Deliver(drained, m.channel);
  }

  lemma UnresolvedEffect(s: Server, token: ProcId, op: Op, pick: ProcId)
    requires token in s.streams && token != BACKUP_TOKEN && s.manager.channel == [] && ManagerInv(s.manager)
    requires Answer(s.addrs, op, Apply(s.manager, op).1, pick).Ok? && Unresolved(s, op)
    ensures var (after, failure) := HandleData(s, token, Ok(Registry(Request(op.proc, op.kind, op.key))), pick);
            failure.None? && Handled(s, token, op, pick, after)
  {
    var drained := AcceptedSteps(s, token, op, pick);
    ApplyRelease(s.manager, op);
    var admitted, creator := Admitted(s.manager, op), s.manager.keys[op.key].creator;
    assert [] + Grants(admitted, op.key, creator) == Grants(admitted, op.key, creator);
    DeliverStops(drained, op.key, creator, admitted);
    var after := HandleResponse(drained, token, Error(ErrorText(UnknownHolder(creator)))).0;
    forall q | q in s.streams ensures after.streams[q] == s.streams[q] + Hears(s, token, op, pick, q) {
      assert s.streams[q] + [] == s.streams[q];
      Regroup(s.streams[q], [Reply(s, op, pick)], Complaint(s, op));
      assert [Reply(s, op, pick)] + [] + Complaint(s, op) == [Reply(s, op, pick)] + Complaint(s, op);
    }
  }

  lemma CompletedEffect(s: Server, token: ProcId, op: Op, pick: ProcId)
    requires token in s.streams && token != BACKUP_TOKEN && s.manager.channel == [] && ManagerInv(s.manager)
    requires Completes(s, op, pick)
    ensures var (after, failure) := HandleData(s, token, Ok(Registry(Request(op.proc, op.kind, op.key))), pick);
            failure.None? && Handled(s, token, op, pick, after)
  {
    var drained := AcceptedSteps(s, token, op, pick);
    Announced(s, op, drained);
    var after := Deliver(drained, Apply(s.manager, op).0.channel).0;
    forall q | q in s.streams ensures after.streams[q] == s.streams[q] + Hears(s, token, op, pick, q) {
      assert s.streams[q] + [] == s.streams[q];
      Regroup(s.streams[q], [Reply(s, op, pick)], Notices(s, op, q));
      assert [] + Notices(s, op, q) + [] == Notices(s, op, q);
      assert [Reply(s, op, pick)] + Notices(s, op, q) + [] == [Reply(s, op, pick)] + Notices(s, op, q);
    }
  }

  lemma Announced(s: Server, op: Op, drained: Server)
    requires s.manager.channel == [] && ManagerInv(s.manager) && !Unresolved(s, op)
    requires drained.addrs == s.addrs && drained.streams.Keys == s.streams.Keys
    ensures var (after, failure) := Deliver(drained, Apply(s.manager, op).0.channel);
            && failure.None?
            && after == drained.(streams := after.streams)
            && after.streams.Keys == drained.streams.Keys
            && forall q :: q in s.streams ==> after.streams[q] == drained.streams[q] + Notices(s, op, q)
  {
    var admitted := Admitted(s.manager, op);
    if admitted == [] {
      NothingAnnounced(s.manager, op);
    } else {
      ApplyRelease(s.manager, op);
      AdmittedAlike(s.manager, op);
      var creator := s.manager.keys[op.key].creator;
      assert [] + Grants(admitted, op.key, creator) == Grants(admitted, op.key, creator);
      assert Deliverable(s.addrs, creator, admitted);
      DeliverShape(drained, op.key, creator, admitted);
      forall q | q in s.streams
        ensures var after := Deliver(drained, Apply(s.manager, op).0.channel).0;
                q in after.streams && after.streams[q] == drained.streams[q] + Notices(s, op, q)
      {
        DeliverTo(drained, op.key, creator, admitted, q);
      }
    }
  }

  lemma NothingAnnounced(m: Manager, op: Op)
    requires m.channel == [] && Admitted(m, op) == []
    ensures Apply(m, op).0.channel == []
  {
    if op.kind.Release? && op.key in m.keys && HeldBy(m.keys[op.key], op.proc) {
      assert Grants([], op.key, m.keys[op.key].creator) == [];
    }
  }

  // Grant delivery: as long as the key's creator is connected, a release is answered, every admitted request is
  // announced to the connected process that queued it, in queue order and after the reply, the channel is empty
  // afterwards and the release is forwarded.  Nobody else need be connected.
  lemma GrantDelivery(s: Server, token: ProcId, op: Op, pick: ProcId)
    requires token in s.streams && token != BACKUP_TOKEN && s.manager.channel == [] && ManagerInv(s.manager)
    requires op.kind.Release? && op.key in s.manager.keys && HeldBy(s.manager.keys[op.key], op.proc)
    requires s.manager.keys[op.key].creator in s.addrs
    ensures var msg := Registry(Request(op.proc, op.kind, op.key));
            var (after, failure) := HandleData(s, token, Ok(msg), pick);
            var v := s.manager.keys[op.key];
            var (w, admitted) := Settle(Drop(v, op.proc));
            && failure.None? && after.manager == Manager(s.manager.keys[op.key := w], [])
            && after.backup == Forward(s, msg).backup && after.streams.Keys == s.streams.Keys
            && forall q :: q in s.streams ==>
                 after.streams[q] == s.streams[q] + (if q == token then [Frame(Success(op.key))] else [])
                                       + Frames(s.addrs, op.key, v.creator, Mine(q, admitted))
  {
    RequestEffect(s, token, op, pick);
    ApplyRelease(s.manager, op);
    var msg := Registry(Request(op.proc, op.kind, op.key));
    var after := HandleData(s, token, Ok(msg), pick).0;
    forall q | q in s.streams
      ensures after.streams[q] == s.streams[q] + (if q == token then [Frame(Success(op.key))] else [])
                                    + Frames(s.addrs, op.key, s.manager.keys[op.key].creator,
                                             Mine(q, Admitted(s.manager, op)))
    {
      var first := if q == token then [Reply(s, op, pick)] else [];
      assert first + Notices(s, op, q) + [] == first + Notices(s, op, q);
      Regroup(s.streams[q], first, Notices(s, op, q));
    }
  }

  // Every process that a handled request may have to name is connected.
  ghost predicate Resolved(s: Server) {
    forall k :: k in s.manager.keys ==>
      && s.manager.keys[k].creator in s.addrs
      && s.manager.keys[k].readers <= s.addrs.Keys
  }

  // With everybody connected a request completes exactly unless it is refused, and nobody hears a complaint.
  lemma ConnectedEffect(s: Server, op: Op, pick: ProcId)
    requires Resolved(s) && op.proc in s.addrs && ManagerInv(s.manager) && MayReport(s.manager, op, pick)
    ensures Completes(s, op, pick) <==> !Apply(s.manager, op).1.Refused?
    ensures forall q :: Hears(s, op.proc, op, pick, q) ==
                          (if q == op.proc then [Reply(s, op, pick)] else []) + Notices(s, op, q)
  {
    if !Apply(s.manager, op).1.Refused? {
      GrantedResolves(s, op, pick);
    }
    forall q ensures Hears(s, op.proc, op, pick, q) ==
                       (if q == op.proc then [Reply(s, op, pick)] else []) + Notices(s, op, q)
    {
      var heard := (if q == op.proc then [Reply(s, op, pick)] else []) + Notices(s, op, q);
      assert heard + [] == heard;
    }
  }

  lemma GrantedResolves(s: Server, op: Op, pick: ProcId)
    requires Resolved(s) && op.proc in s.addrs && ManagerInv(s.manager)
    requires MayReport(s.manager, op, pick) && !Apply(s.manager, op).1.Refused?
    ensures Answer(s.addrs, op, Apply(s.manager, op).1, pick).Ok?
  {
    if op.kind.Read? {
      SettleAfterEnqueue(s.manager.keys[op.key], Req(op.proc, op.kind));
    }
  }

  // ---------------------------------------------------------------------------------- one lock, one operation

  // No operation but a process's own release on the key takes a registration away.
  lemma RegistrationKept(m: Manager, op: Op, key: KeyId, r: Req)
    requires ManagerInv(m) && key in m.keys && Registered(m.keys[key], r)
    requires !(op.kind.Release? && op.key == key && op.proc == r.proc)
    ensures key in Apply(m, op).0.keys && Registered(Apply(m, op).0.keys[key], r)
  {
    if op.key == key {
      var v := m.keys[key];
      if IsAccess(op.kind) {
        SettleKeepsRegistered(Enqueue(v, Req(op.proc, op.kind)), r);
      } else if op.kind.Release? && HeldBy(v, op.proc) {
        assert Registered(Drop(v, op.proc), r);
        SettleKeepsRegistered(Drop(v, op.proc), r);
      }
    }
  }

  // Who is registered after an operation was so before, and did not just release, or has just been admitted.
  lemma RegistrationOrigin(m: Manager, op: Op, key: KeyId, r: Req)
    requires ManagerInv(m) && key in Apply(m, op).0.keys && Registered(Apply(m, op).0.keys[key], r)
    ensures || (key in m.keys && Registered(m.keys[key], r)
                && (op.kind.Release? && key == op.key ==> r.proc != op.proc))
            || (key == op.key && r in Admitted(m, op))
            || (key == op.key && r == Req(op.proc, op.kind) && Apply(m, op).1.Granted?)
  {
    if key != op.key {
      OtherKeysKept(m, op, key);
    } else if key in m.keys && IsAccess(op.kind) {
      SettleAfterEnqueue(m.keys[key], Req(op.proc, op.kind));
    } else if key in m.keys && op.kind.Release? && HeldBy(m.keys[key], op.proc) {
      ApplyRelease(m, op);
      SettleOrigin(Drop(m.keys[key], op.proc), r);
    }
  }

  lemma AdmittedRegistered(m: Manager, op: Op, r: Req)
    requires ManagerInv(m) && r in Admitted(m, op)
    ensures op.key in Apply(m, op).0.keys && Registered(Apply(m, op).0.keys[op.key], r)
  {
    ApplyRelease(m, op);
    var d := Drop(m.keys[op.key], op.proc);
    assert r in Settle(d).1 + Settle(d).0.pending;
    SettleRegisters(d, r);
  }

  lemma OtherKeysKept(m: Manager, op: Op, key: KeyId)
    requires key != op.key
    ensures key in m.keys <==> key in Apply(m, op).0.keys
    ensures key in m.keys ==> Apply(m, op).0.keys[key] == m.keys[key]
  {
  }

  // Where the entries of a process other than the requester go: they stay in the queue or are announced.
  lemma QueueShare(m: Manager, op: Op, q: ProcId)
    requires ManagerInv(m)
    requires q != op.proc
    ensures var before := if op.key in m.keys then Mine(q, m.keys[op.key].pending) else [];
            var m' := Apply(m, op).0;
            var after := if op.key in m'.keys then Mine(q, m'.keys[op.key].pending) else [];
            before == Mine(q, Admitted(m, op)) + after
  {
    var m' := Apply(m, op).0;
    if op.key in m.keys {
      var v := m.keys[op.key];
      assert [] + Mine(q, v.pending) == Mine(q, v.pending);
      if IsAccess(op.kind) {
        var r := Req(op.proc, op.kind);
        SettleAfterEnqueue(v, r);
        MineAppend(q, v.pending, [r]);
        assert Mine(q, [r]) == [];
        assert Mine(q, v.pending) + [] == Mine(q, v.pending);
      } else if op.kind.Release? && HeldBy(v, op.proc) {
        ApplyRelease(m, op);
        var (w, admitted) := Settle(Drop(v, op.proc));
        MineAppend(q, admitted, w.pending);
      }
    }
  }

  // A requester that waits nowhere is announced nothing; it waits afterwards exactly when it was queued.
  lemma RequesterShare(m: Manager, op: Op)
    requires ManagerInv(m)
    requires op.key in m.keys ==> Mine(op.proc, m.keys[op.key].pending) == []
    ensures Mine(op.proc, Admitted(m, op)) == []
    ensures op.key in Apply(m, op).0.keys ==>
              Mine(op.proc, Apply(m, op).0.keys[op.key].pending) ==
                if Apply(m, op).1.Queued? then [Req(op.proc, op.kind)] else []
  {
    if op.key in m.keys {
      if IsAccess(op.kind) {
        NewcomerShare(m.keys[op.key], Req(op.proc, op.kind));
      } else if op.kind.Release? && HeldBy(m.keys[op.key], op.proc) {
        ApplyRelease(m, op);
        NothingToShare(op.proc, Drop(m.keys[op.key], op.proc));
      }
    }
  }

  lemma NewcomerShare(v: Lock, r: Req)
    requires LockInv(v) && IsAccess(r.kind) && Mine(r.proc, v.pending) == []
    ensures var (w, admitted) := Settle(Enqueue(v, r));
            Mine(r.proc, w.pending) == if admitted == [] then [r] else []
  {
    SettleAfterEnqueue(v, r);
    MineAppend(r.proc, v.pending, [r]);
    assert [r][1..] == [] && Mine(r.proc, [r]) == [r] + [];
  }

  lemma NothingToShare(p: ProcId, v: Lock)
    requires Mine(p, v.pending) == []
    ensures Mine(p, Settle(v).1) == [] && Mine(p, Settle(v).0.pending) == []
  {
    MineAppend(p, Settle(v).1, Settle(v).0.pending);
    assert |Mine(p, Settle(v).1)| + |Mine(p, Settle(v).0.pending)| == 0;
  }

  // Everybody a lock mentions is one of these.
  ghost predicate Known(v: Lock, ids: set<ProcId>) {
    && v.creator in ids && v.readers <= ids && (v.writer.Some? ==> v.writer.value in ids)
    && forall r :: r in v.pending ==> r.proc in ids
  }

  lemma {:induction false} SettleKnown(v: Lock, ids: set<ProcId>)
    requires Known(v, ids)
    ensures Known(Settle(v).0, ids)
    decreases |v.pending|
  {
    if v.pending != [] && Compatible(v, v.pending[0].kind) {
      assert v.pending[0] in v.pending;
      SettleKnown(Admit(v, v.pending[0]).(pending := v.pending[1..]), ids);
    }
  }

  lemma KnownKept(m: Manager, op: Op, key: KeyId, ids: set<ProcId>)
    requires op.proc in ids && key in Apply(m, op).0.keys
    requires key in m.keys ==> Known(m.keys[key], ids)
    ensures Known(Apply(m, op).0.keys[key], ids)
  {
    if op.key == key && key in m.keys {
      if IsAccess(op.kind) {
        SettleKnown(Enqueue(m.keys[key], Req(op.proc, op.kind)), ids);
      } else if op.kind.Release? && HeldBy(m.keys[key], op.proc) {
        SettleKnown(Drop(m.keys[key], op.proc), ids);
      }
    }
  }
}
