/// What holds in every reachable state of clients, links, registry and backup.

module RegistryTheorems {
  import opened Common
  import opened Protocol
  import opened LockSpec
  import opened ServerSpec
  import opened ClientProtocol
  import opened Delivery
  import opened Replication
  import opened RegistrySystem
  import opened ServeStep

  lemma InitHolds(s: System)
    requires Init(s)
    ensures SystemInv(s) && ReplicationRuns.Agree(Servers(s))
  {
  }

  lemma StepKeepsInv(s: System, step: Step)
    requires SystemInv(s) && Enabled(s, step)
    ensures SystemInv(Next(s, step))
  {
    match step
    case Connect(addr) => ConnectKeepsInv(s, addr);
    case Ask(p, kind, key) => AskKeepsInv(s, p, kind, key);
    case Serve(p, pick) => ServeKeepsInv(s, p, pick);
    case Take(p) => TakeKeepsInv(s, p);
    case Mirror(pick) =>
      var t := AfterMirror(s, pick);
      assert t.server.streams == s.server.streams && t.server.manager == s.server.manager;
  }

  // What a step of the system is to the two servers.
  function EventOf(s: System, step: Step): seq<ReplicationRuns.Event>
    requires step.Serve? ==> step.p in s.up && s.up[step.p] != []
  {
    match step
    case Connect(addr) => [ReplicationRuns.Connected(addr)]
    case Serve(p, pick) => [ReplicationRuns.Readable(p, Ok(s.up[p][0]), pick)]
    case Mirror(pick) => [ReplicationRuns.Mirrored(pick)]
    case _ => []
  }

  lemma StepIsEvent(s: System, step: Step, e: ReplicationRuns.Event)
    requires SystemInv(s) && Enabled(s, step) && EventOf(s, step) == [e]
    ensures ReplicationRuns.Possible(Servers(s), e)
    ensures Servers(Next(s, step)) == ReplicationRuns.Step(Servers(s), e)
  {
  }

  // With everybody connected no event loses an update.
  lemma ServeLosesNothing(s: System, p: ProcId, pick: ProcId)
    requires SystemInv(s) && Enabled(s, Serve(p, pick))
    ensures !ReplicationRuns.Loses(Servers(s), ReplicationRuns.Readable(p, Ok(s.up[p][0]), pick))
  {
    ShapeResolves(s);
    SenderAsked(p, s.clients[p], s.up[p], s.server.streams[p], s.server.manager.keys);
    NeverLosesExactlyWhen(s.server, AsOp(s.up[p][0]).value);
  }

  // Refused requests are never forwarded, and still the two servers stay in agreement.
  lemma StepKeepsAgreement(s: System, step: Step)
    requires SystemInv(s) && ReplicationRuns.Agree(Servers(s)) && Enabled(s, step)
    ensures ReplicationRuns.Agree(Servers(Next(s, step)))
  {
    if EventOf(s, step) != [] {
      var e := EventOf(s, step)[0];
      StepIsEvent(s, step, e);
      if step.Serve? {
        ServeLosesNothing(s, step.p, step.pick);
      }
      ReplicationRuns.StepAgrees(Servers(s), e);
    }
  }

  lemma {:induction false} RunKeepsInv(s: System, steps: seq<Step>, t: System)
    requires SystemInv(s) && ReplicationRuns.Agree(Servers(s)) && Reaches(s, steps, t)
    ensures SystemInv(t) && ReplicationRuns.Agree(Servers(t))
    decreases |steps|
  {
    if steps != [] {
      StepKeepsInv(s, steps[0]);
      StepKeepsAgreement(s, steps[0]);
      RunKeepsInv(Next(s, steps[0]), steps[1..], t);
    }
  }

  // End-to-end mutual exclusion: while a client believes to hold a key for writing, that is from receiving the
  // grant until it sends its release, no other client believes to hold the key for anything.
  lemma MutualExclusion(s: System, steps: seq<Step>, t: System, p: ProcId, q: ProcId, key: KeyId)
    requires Init(s) && Reaches(s, steps, t)
    requires p in t.clients && q in t.clients && p != q
    requires key in t.clients[p].held && t.clients[p].held[key].Write?
    ensures key !in t.clients[q].held
  {
    InitHolds(s);
    RunKeepsInv(s, steps, t);
    assert ClientOk(p, t.clients[p], t.up[p], t.server.streams[p], t.server.manager.keys);
    assert ClientOk(q, t.clients[q], t.up[q], t.server.streams[q], t.server.manager.keys);
  }

  // What a client believes to hold, the registry has registered for it, in the same mode.
  lemma BeliefsAreRegistered(s: System, steps: seq<Step>, t: System, p: ProcId, key: KeyId)
    requires Init(s) && Reaches(s, steps, t)
    requires p in t.clients && key in t.clients[p].held
    ensures key in t.server.manager.keys
    ensures t.clients[p].held[key].Write? ==> t.server.manager.keys[key].writer == Some(p)
    ensures t.clients[p].held[key].Read? ==> p in t.server.manager.keys[key].readers
    ensures IsAccess(t.clients[p].held[key])
  {
    InitHolds(s);
    RunKeepsInv(s, steps, t);
    assert ClientOk(p, t.clients[p], t.up[p], t.server.streams[p], t.server.manager.keys);
  }

  // No lock is leaked: between its calls, a client is registered for exactly the accesses it believes to hold,
  // so whatever keeps others waiting is something its holder knows to release.
  lemma IdleClientsHoldWhatTheyBelieve(s: System, steps: seq<Step>, t: System, p: ProcId,
                                       kind: RequestType, key: KeyId)
    requires Init(s) && Reaches(s, steps, t)
    requires p in t.clients && t.clients[p].status.Idle?
    ensures RegisteredAt(t.server.manager.keys, p, kind, key) <==>
              key in t.clients[p].held && t.clients[p].held[key] == kind
  {
    InitHolds(s);
    RunKeepsInv(s, steps, t);
    assert ClientOk(p, t.clients[p], t.up[p], t.server.streams[p], t.server.manager.keys);
  }

  // Every call that ended was answered by exactly one settling answer, or by Wait for its key and then exactly
  // the grant of that access, and returned what its last answer says: the registry's error, the holder's address
  // for a read, nothing for any other call; never an unexpected-response or wait error.
  lemma EveryCallWellAnswered(s: System, steps: seq<Step>, t: System, p: ProcId, e: Exchange)
    requires Init(s) && Reaches(s, steps, t)
    requires p in t.clients && e in t.clients[p].log
    ensures WellAnswered(e.kind, e.key, e.answers)
    ensures var last := e.answers[|e.answers| - 1].registry.response;
            e.result == if last.Error? then Err(RegistryError(last.text))
                        else if e.kind.Read? then Ok(Some(last.addr))
                        else Ok(None)
  {
    InitHolds(s);
    RunKeepsInv(s, steps, t);
    assert ClientOk(p, t.clients[p], t.up[p], t.server.streams[p], t.server.manager.keys);
  }

  // Nothing is unsolicited: between calls nothing travels either way and the client waits in no queue.
  lemma NothingUnsolicited(s: System, steps: seq<Step>, t: System, p: ProcId)
    requires Init(s) && Reaches(s, steps, t)
    requires p in t.clients && t.clients[p].status.Idle?
    ensures p in t.up && t.up[p] == [] && p in t.server.streams && t.server.streams[p] == []
    ensures forall k, r :: k in t.server.manager.keys && r in t.server.manager.keys[k].pending ==> r.proc != p
  {
    InitHolds(s);
    RunKeepsInv(s, steps, t);
    assert ClientOk(p, t.clients[p], t.up[p], t.server.streams[p], t.server.manager.keys);
    forall k, r | k in t.server.manager.keys && r in t.server.manager.keys[k].pending ensures r.proc != p {
      MineHas(p, t.server.manager.keys[k].pending, r);
    }
  }

  // p is queued for a key that it alone holds: it believes so, and waits for itself.
  lemma OwnHolder(p: ProcId, c: Client, keys: map<KeyId, Lock>, mode: RequestType)
    requires c.status.Waiting? && ClientOk(p, c, [], [], keys) && RegisteredAt(keys, p, mode, c.status.key)
    ensures c.status.key in c.held
  {
    assert Accounted(p, c, [], [], mode, c.status.key);
  }

  // A holder other than p, if there is one.
  lemma OtherHolder(v: Lock, p: ProcId) returns (q: ProcId, mode: RequestType)
    requires LockInv(v) && Held(v)
    ensures Registered(v, Req(q, mode))
    ensures q == p ==> forall r, kind :: Registered(v, Req(r, kind)) ==> r == p
  {
    if v.writer.Some? {
      q, mode := v.writer.value, Write;
    } else if r :| r in v.readers && r != p {
      q, mode := r, Read;
    } else {
      q :| q in v.readers;
      mode := Read;
    }
  }

  // A call that was told to wait and has not been granted is queued exactly once.  It waits behind another client
  // that holds the key and knows it, is about to hear it, or is about to release it; or else its client is the
  // key's only holder and waits for itself.
  lemma WaitersWaitForHolders(s: System, steps: seq<Step>, t: System, p: ProcId)
    requires Init(s) && Reaches(s, steps, t)
    requires p in t.clients && t.clients[p].status.Waiting? && p in t.server.streams && t.server.streams[p] == []
    ensures var kind, key := t.clients[p].status.kind, t.clients[p].status.key;
            && WaitsFor(t.server.manager.keys, p, kind, key)
            && (|| (exists q, mode :: q != p && q in t.clients && RegisteredAt(t.server.manager.keys, q, mode, key)
                      && q in t.up && q in t.server.streams
                      && Accounted(q, t.clients[q], t.up[q], t.server.streams[q], mode, key))
                || (key in t.clients[p].held
                    && forall q, mode :: RegisteredAt(t.server.manager.keys, q, mode, key) ==> q == p))
  {
    InitHolds(s);
    RunKeepsInv(s, steps, t);
    var c, keys := t.clients[p], t.server.manager.keys;
    assert ClientOk(p, c, t.up[p], t.server.streams[p], keys);
    var key := c.status.key;
    var v := keys[key];
    assert LockInv(v) && Known(v, t.clients.Keys);
    var q, mode := OtherHolder(v, p);
    assert RegisteredAt(keys, q, mode, key);
    if q == p {
      OwnHolder(p, c, keys, mode);
    } else {
      assert q in t.up && q in t.server.streams;
      assert ClientOk(q, t.clients[q], t.up[q], t.server.streams[q], keys);
    }
  }

  // The backup knows, from what it processed and what is on its way, exactly the locks of the primary.
  lemma BackupAgrees(s: System, steps: seq<Step>, t: System)
    requires Init(s) && Reaches(s, steps, t)
    ensures t.server.backup.Some?
    ensures Replay(t.backup.manager.keys, t.server.backup.value) == t.server.manager.keys
    ensures t.server.backup.value == [] ==> t.backup.manager.keys == t.server.manager.keys
  {
    InitHolds(s);
    RunKeepsInv(s, steps, t);
  }
}
