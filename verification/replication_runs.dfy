/// A primary and its backup over runs in which clients come and go (src/registry_server.rs).

module ReplicationRuns {
  import opened Common
  import opened Protocol
  import opened LockSpec
  import opened ServerSpec
  import opened Delivery
  import opened Replication

  // The stream of the primary to its backup is part of the primary.
  datatype Pair = Pair(primary: Server, backup: Server)

  datatype Event =
    | Connected(addr: Address)
    | Readable(token: ProcId, parsed: Result<Message, string>, pick: ProcId)
    | Gone(token: ProcId)
    | Mirrored(pick: ProcId)

  function Step(p: Pair, e: Event): Pair {
    match e
    case Connected(addr) => p.(primary := HandleConnection(p.primary, addr))
    case Readable(token, parsed, pick) => p.(primary := HandleData(p.primary, token, parsed, pick).0)
    case Gone(token) => p.(primary := RemoveClient(p.primary, token))
    case Mirrored(pick) =>
      if p.primary.backup.Some? && p.primary.backup.value != [] then
        Pair(p.primary.(backup := Some(p.primary.backup.value[1..])),
             HandleData(p.backup, PRIMARY_TOKEN, Ok(p.primary.backup.value[0]), pick).0)
      else p
  }

  // Only a stream that is there becomes readable or is closed.
  predicate Possible(p: Pair, e: Event) {
    match e
    case Connected(_) => true
    case Readable(token, parsed, pick) =>
      token in p.primary.streams && (parsed.Ok? ==> Plausible(p.primary.manager, parsed.value, pick))
    case Gone(token) => token in p.primary.streams
    case Mirrored(_) => p.primary.backup.Some? && p.primary.backup.value != []
  }

  function After(p: Pair, events: seq<Event>): Pair
    decreases |events|
  {
    if events == [] then p else After(Step(p, events[0]), events[1..])
  }

  predicate AllPossible(p: Pair, events: seq<Event>)
    decreases |events|
  {
    events != [] ==> Possible(p, events[0]) && AllPossible(Step(p, events[0]), events[1..])
  }

  // A new primary with an empty link to its backup, and a new backup whose first connection was the primary's.
  ghost predicate Fresh(p: Pair) {
    && p.primary == Server(Manager(map[], []), map[], map[], Some([]), true, 0, 0)
    && exists addr :: p.backup == HandleConnection(Server(Manager(map[], []), map[], map[], None, true, 0, 0), addr)
  }

  // The backup's keys, once it has processed what is on its way, are the primary's.
  ghost predicate Agree(p: Pair) {
    p.primary.backup.Some? && Replay(p.backup.manager.keys, p.primary.backup.value) == p.primary.manager.keys
  }

  ghost predicate PairInv(p: Pair) {
    p.primary.backup.Some? && p.primary.manager.channel == [] && ManagerInv(p.primary.manager)
  }

  predicate Loses(p: Pair, e: Event) {
    && e.Readable? && e.token != BACKUP_TOKEN && e.parsed.Ok? && AsOp(e.parsed.value).Some?
    && LosesUpdate(p.primary, AsOp(e.parsed.value).value, e.pick)
  }

  lemma RequestStep(p: Pair, token: ProcId, op: Op, pick: ProcId)
    requires PairInv(p) && Agree(p) && token in p.primary.streams && token != BACKUP_TOKEN
    ensures var msg := Registry(Request(op.proc, op.kind, op.key));
            var q := p.(primary := HandleData(p.primary, token, Ok(msg), pick).0);
            PairInv(q) && (Agree(q) <==> !LosesUpdate(p.primary, op, pick))
  {
    var s, msg := p.primary, Registry(Request(op.proc, op.kind, op.key));
    var after := HandleData(s, token, Ok(msg), pick).0;
    RequestEffect(s, token, op, pick);
    ApplyKeepsInv(s.manager, op);
    FaithfulUnlessLost(s, op, token, pick);
    var link := s.backup.value;
    if Completes(s, op, pick) {
      assert (link + [msg])[|link|..] == [msg];
      ReplayAppend(p.backup.manager.keys, link, msg);
      ReplayAppend(s.manager.keys, [], msg);
      assert [] + [msg] == [msg];
    } else {
      assert link[|link|..] == [];
    }
  }

  // A message that is no request moves no lock.
  lemma OtherMessage(s: Server, token: ProcId, parsed: Result<Message, string>, pick: ProcId)
    requires s.backup.Some? && s.manager.channel == [] && token in s.streams
    requires parsed.Ok? ==> AsOp(parsed.value).None?
    ensures var after := HandleData(s, token, parsed, pick).0;
            && after.manager == s.manager
            && (after.backup == s.backup || (parsed.Ok? && after.backup == Some(s.backup.value + [parsed.value])))
  {
  }

  lemma ReadableStep(p: Pair, e: Event)
    requires PairInv(p) && Agree(p) && Possible(p, e) && e.Readable?
    ensures PairInv(Step(p, e)) && (Agree(Step(p, e)) <==> !Loses(p, e))
  {
    if e.parsed.Ok? && AsOp(e.parsed.value).Some? {
      var op := AsOp(e.parsed.value).value;
      if e.token != BACKUP_TOKEN {
        RequestStep(p, e.token, op, e.pick);
      }
    } else {
      OtherMessage(p.primary, e.token, e.parsed, e.pick);
      if e.parsed.Ok? {
        ReplayAppend(p.backup.manager.keys, p.primary.backup.value, e.parsed.value);
      }
    }
  }

  lemma StepAgrees(p: Pair, e: Event)
    requires PairInv(p) && Agree(p) && Possible(p, e)
    ensures PairInv(Step(p, e)) && (Agree(Step(p, e)) <==> !Loses(p, e))
  {
    match e
    case Connected(addr) =>
      ReplayAppend(p.backup.manager.keys, p.primary.backup.value,
                   Registry(ConnectionEstablished(p.primary.idCounter + 1)));
    case Readable(_, _, _) => ReadableStep(p, e);
    case Gone(token) =>
    case Mirrored(pick) => KeysFollowMessage(p.backup, PRIMARY_TOKEN, Ok(p.primary.backup.value[0]), pick);
  }

  // Primary and backup agree now and after every further event.
  ghost predicate AgreeThroughout(p: Pair, events: seq<Event>)
    decreases |events|
  {
    Agree(p) && (events != [] ==> AgreeThroughout(Step(p, events[0]), events[1..]))
  }

  predicate LosesNothing(p: Pair, events: seq<Event>)
    decreases |events|
  {
    events != [] ==> !Loses(p, events[0]) && LosesNothing(Step(p, events[0]), events[1..])
  }

  lemma {:induction false} AgreementFrom(p: Pair, events: seq<Event>)
    requires PairInv(p) && Agree(p) && AllPossible(p, events)
    ensures AgreeThroughout(p, events) <==> LosesNothing(p, events)
    decreases |events|
  {
    if events != [] {
      StepAgrees(p, events[0]);
      if Agree(Step(p, events[0])) {
        AgreementFrom(Step(p, events[0]), events[1..]);
      }
    }
  }

  // In every run, clients coming and going, primary and backup agree all the way exactly when no step loses an
  // update.
  lemma AgreeUnlessLost(p: Pair, events: seq<Event>)
    requires Fresh(p) && AllPossible(p, events)
    ensures AgreeThroughout(p, events) <==> LosesNothing(p, events)
  {
    AgreementFrom(p, events);
  }

  // Every request comes while everybody it may name is connected.
  predicate NamesConnected(p: Pair, events: seq<Event>)
    decreases |events|
  {
    events != [] ==>
      && (events[0].Readable? && events[0].parsed.Ok? && AsOp(events[0].parsed.value).Some? ==>
            AlwaysNamed(p.primary, AsOp(events[0].parsed.value).value))
      && NamesConnected(Step(p, events[0]), events[1..])
  }

  lemma {:induction false} NamedLosesNothing(p: Pair, events: seq<Event>)
    requires PairInv(p) && Agree(p) && AllPossible(p, events) && NamesConnected(p, events)
    ensures LosesNothing(p, events)
    decreases |events|
  {
    if events != [] {
      var e := events[0];
      if Loses(p, e) {
        NeverLosesExactlyWhen(p.primary, AsOp(e.parsed.value).value);
      }
      StepAgrees(p, e);
      NamedLosesNothing(Step(p, e), events[1..]);
    }
  }

  // In particular they agree as long as everybody whom a request may name is connected when it comes, whoever
  // else has gone.
  lemma AgreeWhenNamed(p: Pair, events: seq<Event>)
    requires Fresh(p) && AllPossible(p, events) && NamesConnected(p, events)
    ensures AgreeThroughout(p, events)
  {
    NamedLosesNothing(p, events);
    AgreeUnlessLost(p, events);
  }

  // ---------------------------------------------------------------------------------- a lost update

  function Request7(client: ProcId, kind: RequestType): Event {
    Readable(client, Ok(Registry(Request(client, kind, 7))), 1)
  }

  function ReadLock7(readers: set<ProcId>): Manager {
    Manager(map[7 := Lock([], readers, None, 1)], [])
  }

  ghost predicate PrimaryAt(p: Pair, m: Manager, addrs: map<ProcId, Address>) {
    && PairInv(p) && p.primary.manager == m && p.primary.addrs == addrs && p.primary.streams.Keys == addrs.Keys
  }

  lemma BothConnected(p: Pair)
    requires Fresh(p)
    ensures PrimaryAt(Step(Step(p, Connected("a")), Connected("b")), Manager(map[], []), map[1 := "a", 2 := "b"])
  {
  }

  lemma Requested(p: Pair, m: Manager, addrs: map<ProcId, Address>, client: ProcId,
                  kind: RequestType)
    requires PrimaryAt(p, m, addrs) && client in addrs && client != BACKUP_TOKEN
    ensures PrimaryAt(Step(p, Request7(client, kind)), Apply(m, Op(client, kind, 7)).0.(channel := []), addrs)
  {
    RequestEffect(p.primary, client, Op(client, kind, 7), 1);
    ApplyKeepsInv(p.primary.manager, Op(client, kind, 7));
  }

  // A read of key 7 by a process that does not read it yet; its holder may be reported as process 1.
  lemma ReadKey7(readers: set<ProcId>, client: ProcId)
    requires 1 in readers + {client}
    ensures Apply(ReadLock7(readers), Op(client, Read, 7)) == (ReadLock7(readers + {client}), Granted)
    ensures MayReport(ReadLock7(readers), Op(client, Read, 7), 1)
  {
    var v := ReadLock7(readers).keys[7];
    SettleAfterEnqueue(v, Req(client, Read));
    assert ReadLock7(readers).keys[7 := Admit(v, Req(client, Read))] == ReadLock7(readers + {client}).keys;
  }

  // A run that leads here and lost nothing.
  ghost predicate Led(start: Pair, events: seq<Event>, p: Pair) {
    AllPossible(start, events) && LosesNothing(start, events) && p == After(start, events)
  }

  lemma {:induction false} AfterOneMore(start: Pair, events: seq<Event>, e: Event)
    ensures After(start, events + [e]) == Step(After(start, events), e)
    ensures AllPossible(start, events + [e]) <==> AllPossible(start, events) && Possible(After(start, events), e)
    ensures LosesNothing(start, events + [e]) <==> LosesNothing(start, events) && !Loses(After(start, events), e)
    decreases |events|
  {
    if events == [] {
      assert [] + [e] == [e] && [e][1..] == [];
    } else {
      AfterOneMore(Step(start, events[0]), events[1..], e);
      assert (events + [e])[0] == events[0] && (events + [e])[1..] == events[1..] + [e];
    }
  }

  lemma LedOn(start: Pair, events: seq<Event>, p: Pair, e: Event) returns (more: seq<Event>)
    requires Led(start, events, p) && Possible(p, e) && !Loses(p, e)
    ensures more == events + [e] && Led(start, more, Step(p, e))
  {
    more := events + [e];
    AfterOneMore(start, events, e);
  }

  lemma LedByRequest(start: Pair, events: seq<Event>, p: Pair, m: Manager,
                     addrs: map<ProcId, Address>, client: ProcId, kind: RequestType)
    returns (more: seq<Event>, q: Pair)
    requires Led(start, events, p) && PrimaryAt(p, m, addrs) && client in addrs && client != BACKUP_TOKEN && 1 in addrs
    requires MayReport(m, Op(client, kind, 7), 1) && !kind.Release?
    ensures more == events + [Request7(client, kind)] && Led(start, more, q)
    ensures PrimaryAt(q, Apply(m, Op(client, kind, 7)).0.(channel := []), addrs)
  {
    more := LedOn(start, events, p, Request7(client, kind));
    Requested(p, m, addrs, client, kind);
    q := Step(p, Request7(client, kind));
  }

  lemma LedToTwo(start: Pair) returns (events: seq<Event>, p: Pair)
    requires Fresh(start)
    ensures events == [Connected("a"), Connected("b")]
    ensures Led(start, events, p) && PrimaryAt(p, Manager(map[], []), map[1 := "a", 2 := "b"])
  {
    assert Led(start, [], start);
    events := LedOn(start, [], start, Connected("a"));
    events := LedOn(start, events, Step(start, Connected("a")), Connected("b"));
    p := Step(Step(start, Connected("a")), Connected("b"));
    BothConnected(start);
  }

  lemma LedAway(start: Pair, events: seq<Event>, p: Pair, m: Manager)
    returns (more: seq<Event>, q: Pair)
    requires Led(start, events, p) && PrimaryAt(p, m, map[1 := "a", 2 := "b"])
    ensures more == events + [Gone(1)] && Led(start, more, q) && PrimaryAt(q, m, map[2 := "b"])
  {
    more := LedOn(start, events, p, Gone(1));
    q := Step(p, Gone(1));
  }

  // Client 1 creates key 7, reads it and goes.
  lemma ReaderGoes(start: Pair) returns (events: seq<Event>, p: Pair)
    requires Fresh(start)
    ensures events == [Connected("a"), Connected("b"), Request7(1, Create), Request7(1, Read), Gone(1)]
    ensures Led(start, events, p) && PrimaryAt(p, ReadLock7({1}), map[2 := "b"])
  {
    var both := map[1 := "a", 2 := "b"];
    events, p := LedToTwo(start);
    events, p := LedByRequest(start, events, p, Manager(map[], []), both, 1, Create);
    ReadKey7({}, 1);
    assert {} + {1} == {1};
    events, p := LedByRequest(start, events, p, ReadLock7({}), both, 1, Read);
    events, p := LedAway(start, events, p, ReadLock7({1}));
  }

  // Then client 2 reads the key and the hash set yields client 1.
  lemma UnknownReader(p: Pair)
    requires PrimaryAt(p, ReadLock7({1}), map[2 := "b"]) && Agree(p)
    ensures Possible(p, Request7(2, Read)) && Loses(p, Request7(2, Read))
    ensures var q := Step(p, Request7(2, Read));
            && q.primary.manager == ReadLock7({1, 2}) && q.primary.backup.Some?
            && Replay(q.backup.manager.keys, q.primary.backup.value) == ReadLock7({1}).keys
  {
    ReadKey7({1}, 2);
    assert {1} + {2} == {1, 2};
    Requested(p, ReadLock7({1}), map[2 := "b"], 2, Read);
    RequestEffect(p.primary, 2, Op(2, Read, 7), 1);
  }

  // A lost update, from the start: primary and backup agree until a client that reads a key has gone and another
  // one reads it; then the primary has a reader of which the backup never hears.
  lemma LostUpdate(start: Pair) returns (events: seq<Event>, before: Pair, after: Pair)
    requires Fresh(start)
    ensures events == [Connected("a"), Connected("b"), Request7(1, Create), Request7(1, Read), Gone(1)]
    ensures AllPossible(start, events + [Request7(2, Read)])
    ensures before == After(start, events) && AgreeThroughout(start, events)
    ensures after == After(start, events + [Request7(2, Read)])
    ensures before.primary.manager == ReadLock7({1}) && before.primary.addrs == map[2 := "b"]
    ensures after.primary.manager == ReadLock7({1, 2}) && after.primary.backup.Some?
    ensures Replay(after.backup.manager.keys, after.primary.backup.value) == ReadLock7({1}).keys
  {
    events, before := ReaderGoes(start);
    AgreeUnlessLost(start, events);
    AgreeAtEnd(start, events);
    after := Step(before, Request7(2, Read));
    UnknownReader(before);
    AfterOneMore(start, events, Request7(2, Read));
  }

  lemma {:induction false} AgreeAtEnd(p: Pair, events: seq<Event>)
    requires AgreeThroughout(p, events)
    ensures Agree(After(p, events))
    decreases |events|
  {
    if events != [] {
      AgreeAtEnd(Step(p, events[0]), events[1..]);
    }
  }
}
