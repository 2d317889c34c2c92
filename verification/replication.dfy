/// The backup server: what it knows from the requests the primary forwards (src/registry_server.rs).

module Replication {
  import opened Common
  import opened Protocol
  import opened LockSpec
  import opened ServerSpec

  // The holder an immediate read would report.
  predicate Plausible(m: Manager, msg: Message, pick: ProcId) {
    AsOp(msg).Some? ==> MayReport(m, AsOp(msg).value, pick)
  }

  // What one forwarded message does to the keys, whoever processes it.
  function Update(keys: map<KeyId, Lock>, msg: Message): map<KeyId, Lock> {
    if AsOp(msg).Some? then Apply(Manager(keys, []), AsOp(msg).value).0.keys else keys
  }

  function Replay(keys: map<KeyId, Lock>, log: seq<Message>): map<KeyId, Lock>
    decreases |log|
  {
    if log == [] then keys else Replay(Update(keys, log[0]), log[1..])
  }

  lemma {:induction false} ReplayAppend(keys: map<KeyId, Lock>, log: seq<Message>, msg: Message)
    ensures Replay(keys, log + [msg]) == Update(Replay(keys, log), msg)
    decreases |log|
  {
    if log == [] {
      assert [] + [msg] == [msg] && [msg][1..] == [];
    } else {
      ReplayAppend(Update(keys, log[0]), log[1..], msg);
      assert (log + [msg])[1..] == log[1..] + [msg];
    }
  }

  lemma KeysIgnoreChannel(m: Manager, op: Op)
    ensures Apply(m, op).0.keys == Apply(Manager(m.keys, []), op).0.keys
    ensures Apply(m, op).1 == Apply(Manager(m.keys, []), op).1
  {
  }

  lemma {:induction false} DeliverKeepsManager(s: Server, grants: seq<Grant>)
    ensures Deliver(s, grants).0.manager == s.manager
    ensures Deliver(s, grants).0.backup == s.backup
    decreases |grants|
  {
    if grants != [] && GrantResponse(s, grants[0]).Ok? {
      DeliverKeepsManager(HandleResponse(s, grants[0].proc, GrantResponse(s, grants[0]).value).0, grants[1..]);
    }
  }

  // A server's keys follow the message alone: not the holder the hash set yields, not who is connected, not
  // whether the answer or a notification failed.
  lemma KeysFollowMessage(s: Server, token: ProcId, parsed: Result<Message, string>, pick: ProcId)
    requires token != BACKUP_TOKEN
    ensures HandleData(s, token, parsed, pick).0.manager.keys ==
              if parsed.Ok? then Update(s.manager.keys, parsed.value) else s.manager.keys
  {
    if parsed.Ok? {
      var msg := parsed.value;
      if AsOp(msg).Some? {
        KeysIgnoreChannel(s.manager, AsOp(msg).value);
      }
      var (s1, result) := HandleMessage(s, msg, pick);
      assert s1.manager.keys == Update(s.manager.keys, msg);
      if result.Ok? {
        var answered := HandleResponse(s1, token, result.value).0;
        DeliverKeepsManager(answered.(manager := answered.manager.(channel := [])), answered.manager.channel);
      }
    }
  }

  // The primary takes an update that it will never forward: an immediate read whose reported holder has
  // gone, or a writer's release that wakes readers of a key whose creator has gone.
  predicate LosesUpdate(s: Server, op: Op, pick: ProcId) {
    op.key in s.manager.keys &&
    var v := s.manager.keys[op.key];
    || (op.kind.Read? && v.writer.None? && v.pending == [] && op.proc !in v.readers && pick !in s.addrs)
    || (op.kind.Release? && v.writer == Some(op.proc) && v.pending != [] && v.pending[0].kind.Read?
        && v.creator !in s.addrs)
  }

  function Forwarded(s: Server, after: Server): seq<Message> {
    if s.backup.Some? && after.backup.Some? && s.backup.value <= after.backup.value
    then after.backup.value[|s.backup.value|..]
    else []
  }

  // What one request adds to the link to the backup.
  lemma ForwardedBy(s: Server, op: Op, token: ProcId, pick: ProcId)
    requires token in s.streams && token != BACKUP_TOKEN && s.backup.Some?
    ensures var msg := Registry(Request(op.proc, op.kind, op.key));
            var (m, outcome) := Apply(s.manager, op);
            var answer := Answer(s.addrs, op, outcome, pick);
            Forwarded(s, HandleData(s, token, Ok(msg), pick).0) ==
              if answer.Ok? && Deliver(HandleResponse(s.(manager := m), token, answer.value).0.(
                                         manager := m.(channel := [])), m.channel).1.None?
              then [msg] else []
  {
    var msg := Registry(Request(op.proc, op.kind, op.key));
    var (m, outcome) := Apply(s.manager, op);
    var answer := Answer(s.addrs, op, outcome, pick);
    assert AsOp(msg) == Some(op);
    assert HandleMessage(s, msg, pick) == (s.(manager := m), answer);
    if answer.Ok? {
      var answered := HandleResponse(s.(manager := m), token, answer.value).0;
      DeliverKeepsManager(answered.(manager := m.(channel := [])), m.channel);
    }
  }

  lemma {:induction false} DeliverFails(s: Server, reqs: seq<Req>, key: KeyId, holder: ProcId)
    ensures Deliver(s, Grants(reqs, key, holder)).1.Some? <==>
              holder !in s.addrs && exists r :: r in reqs && !r.kind.Write?
    decreases |reqs|
  {
    var grants := Grants(reqs, key, holder);
    if reqs == [] {
      assert grants == [];
    } else {
      assert grants[0] == Grant(reqs[0].proc, key, reqs[0].kind, holder);
      assert grants[1..] == Grants(reqs[1..], key, holder);
      assert forall r :: r in reqs <==> r == reqs[0] || r in reqs[1..];
      assert reqs[0] in reqs;
      if GrantResponse(s, grants[0]).Ok? {
        DeliverFails(HandleResponse(s, grants[0].proc, GrantResponse(s, grants[0]).value).0, reqs[1..], key, holder);
      }
    }
  }

  // What the request adds to the link does to the keys what the request did to them.
  ghost predicate Faithful(s: Server, op: Op, token: ProcId, pick: ProcId) {
    var after := HandleData(s, token, Ok(Registry(Request(op.proc, op.kind, op.key))), pick).0;
    Replay(s.manager.keys, Forwarded(s, after)) == after.manager.keys
  }

  // One request keeps the backup in step exactly when no update is lost.
  lemma FaithfulUnlessLost(s: Server, op: Op, token: ProcId, pick: ProcId)
    requires token in s.streams && token != BACKUP_TOKEN && s.backup.Some?
    requires ManagerInv(s.manager) && s.manager.channel == []
    ensures Faithful(s, op, token, pick) <==> !LosesUpdate(s, op, pick)
  {
    var msg := Registry(Request(op.proc, op.kind, op.key));
    var after := HandleData(s, token, Ok(msg), pick).0;
    KeysFollowMessage(s, token, Ok(msg), pick);
    ForwardedBy(s, op, token, pick);
    ReplayAppend(s.manager.keys, [], msg);
    assert [] + [msg] == [msg];
    assert Replay(s.manager.keys, [msg]) == after.manager.keys;
    KeysIgnoreChannel(s.manager, op);
    var (m, outcome) := Apply(s.manager, op);
    assert after.manager.keys == m.keys;
    var answer := Answer(s.addrs, op, outcome, pick);
    if outcome.Refused? {
      RefusalChangesNothing(s.manager, op);
    } else if op.kind.Release? {
      ReleaseForwarding(s, op, token, pick);
    } else if outcome.Granted? && answer.Err? {
      var v := s.manager.keys[op.key];
      SettleAfterEnqueue(v, Req(op.proc, op.kind));
      var w := Admit(v, Req(op.proc, op.kind));
      assert m.keys == s.manager.keys[op.key := w];
      assert w == v <==> op.proc in v.readers;
      assert m.keys[op.key] == w;
      if w == v {
        assert s.manager.keys[op.key := v] == s.manager.keys;
      }
    } else {
      if IsAccess(op.kind) {
        SettleAfterEnqueue(s.manager.keys[op.key], Req(op.proc, op.kind));
      }
      assert m.channel == [] && answer.Ok?;
    }
  }

  lemma ReleaseForwarding(s: Server, op: Op, token: ProcId, pick: ProcId)
    requires token in s.streams && token != BACKUP_TOKEN && s.backup.Some?
    requires ManagerInv(s.manager) && s.manager.channel == []
    requires op.kind.Release? && op.key in s.manager.keys && HeldBy(s.manager.keys[op.key], op.proc)
    ensures var after := HandleData(s, token, Ok(Registry(Request(op.proc, op.kind, op.key))), pick).0;
            Forwarded(s, after) == [] <==> LosesUpdate(s, op, pick)
    ensures Apply(s.manager, op).0.keys != s.manager.keys
  {
    ForwardedBy(s, op, token, pick);
    ApplyRelease(s.manager, op);
    var v := s.manager.keys[op.key];
    var d := Drop(v, op.proc);
    var (w, admitted) := Settle(d);
    var m := Apply(s.manager, op).0;
    var answered := HandleResponse(s.(manager := m), token, Success(op.key)).0;
    assert [] + Grants(admitted, op.key, v.creator) == Grants(admitted, op.key, v.creator);
    DeliverFails(answered.(manager := m.(channel := [])), admitted, op.key, v.creator);
    if Held(d) || d.pending == [] {
      assert Settle(d) == (d, []) by {
        if Held(d) {
          SettleAfterDropStillHeld(v, op.proc);
        }
      }
    } else if d.pending[0].kind.Write? {
      DrainWrite(d);
    } else {
      assert d.pending[0] in v.pending;
      DrainReads(d);
      assert admitted[0] == d.pending[0];
    }
  }

  // Everybody whom the request may make the server name is connected: the readers of the key after an immediate
  // read by a new reader, and the creator of a key whose waiting readers a writer's release lets in.
  predicate AlwaysNamed(s: Server, op: Op) {
    op.key in s.manager.keys ==>
      var v := s.manager.keys[op.key];
      && (op.kind.Read? && v.writer.None? && v.pending == [] && op.proc !in v.readers ==>
            v.readers + {op.proc} <= s.addrs.Keys)
      && (op.kind.Release? && v.writer == Some(op.proc) && v.pending != [] && v.pending[0].kind.Read? ==>
            v.creator in s.addrs)
  }

  // Which holder the hash set yields cannot be known beforehand; who is connected can.
  lemma NeverLosesExactlyWhen(s: Server, op: Op)
    requires ManagerInv(s.manager)
    ensures (forall pick :: MayReport(s.manager, op, pick) ==> !LosesUpdate(s, op, pick)) <==> AlwaysNamed(s, op)
  {
    if op.key in s.manager.keys && IsAccess(op.kind) {
      var v := s.manager.keys[op.key];
      SettleAfterEnqueue(v, Req(op.proc, op.kind));
      if op.kind.Read? && v.writer.None? && v.pending == [] && op.proc !in v.readers {
        forall pick ensures MayReport(s.manager, op, pick) <==> pick in v.readers + {op.proc} {
        }
      }
    } else {
      assert MayReport(s.manager, op, 0);
    }
  }

  // A request is sure to keep the backup in step exactly when everybody it may name is connected.
  lemma ForwardingIsFaithfulExactlyWhen(s: Server, op: Op, token: ProcId)
    requires token in s.streams && token != BACKUP_TOKEN && s.backup.Some?
    requires ManagerInv(s.manager) && s.manager.channel == []
    ensures (forall pick :: MayReport(s.manager, op, pick) ==> Faithful(s, op, token, pick)) <==> AlwaysNamed(s, op)
  {
    NeverLosesExactlyWhen(s, op);
    forall pick ensures Faithful(s, op, token, pick) <==> !LosesUpdate(s, op, pick) {
      FaithfulUnlessLost(s, op, token, pick);
    }
  }
}
