/// A run in which a client is told to wait and granted before it has read that it must: two clients, one key.

module ContendedRun {
  import opened Protocol
  import opened LockSpec
  import opened ServerSpec
  import opened ClientProtocol
  import opened Delivery
  import opened RegistrySystem
  import opened StreamHistory
  import opened RunBuilding
  import opened Framing

  // Client 2 is in the middle of asking to write key 7, with this left to read.
  ghost predicate TwoAsks(s: System, down: seq<Message>) {
    && 2 in s.clients && s.clients[2].status == Asked(Write, 7)
    && s.clients[2].answers == [] && s.clients[2].log == []
    && 2 in s.server.streams && s.server.streams[2] == down
  }

  // Client 1 holds key 7, and client 2 has been told to wait for it.
  ghost predicate OneHoldsTwoWaits(s: System) {
    && TwoAsks(s, [Frame(Wait(7))]) && 1 in s.clients && s.clients[1].status.Idle?
    && s.server.manager == Manager(map[7 := HeldLock(1, Write, [Req(2, Write)])], [])
  }

  lemma ToldToWait(s: System, t: System)
    requires OneAlone(s) && 2 in s.server.streams && s.server.streams[2] == []
    requires CalledFrom(s, Op(2, Write, 7), t)
    ensures OneHoldsTwoWaits(t)
  {
    var op := Op(2, Write, 7);
    WriteQueues(s.server.manager, 2, 7, 1, Write);
    assert Reply(s.server, op, 2) == Frame(Wait(7)) && Notices(s.server, op, 2) == [];
    assert t.server.streams[2] == [] + [Frame(Wait(7))] + [];
  }

  lemma Handover(s: Server)
    requires s.manager == Manager(map[7 := HeldLock(1, Write, [Req(2, Write)])], [])
    ensures Notices(s, Op(1, Release, 7), 2) == [Frame(Success(7))]
  {
    var op, v := Op(1, Release, 7), s.manager.keys[7];
    DrainWrite(Drop(v, 1));
    var admitted := Admitted(s.manager, op);
    assert admitted == [Req(2, Write)] && admitted[1..] == [];
    MineAlone(2, 2, Write);
    assert Frames(s.addrs, 7, 1, [Req(2, Write)]) == [Frame(Success(7))];
  }

  lemma ThenGranted(s: System, t: System)
    requires OneHoldsTwoWaits(s) && CalledFrom(s, Op(1, Release, 7), t)
    ensures TwoAsks(t, [Frame(Wait(7)), Frame(Success(7))])
  {
    Handover(s.server);
    assert t.server.streams[2] == [Frame(Wait(7))] + [] + [Frame(Success(7))];
  }

  lemma AskToWait(s0: System, past: seq<Step>, s: System) returns (steps: seq<Step>, t: System)
    requires Init(s0) && Reaches(s0, past, s) && OneAlone(s)
    ensures Reaches(s0, steps, t) && OneHoldsTwoWaits(t)
  {
    IdleHearsNothing(s0, past, s, 2);
    steps, t := Call(s0, past, s, Op(2, Write, 7));
    ToldToWait(s, t);
  }

  lemma LetGo(s0: System, past: seq<Step>, s: System) returns (steps: seq<Step>, t: System)
    requires Init(s0) && Reaches(s0, past, s) && OneHoldsTwoWaits(s)
    ensures Reaches(s0, steps, t) && TwoAsks(t, [Frame(Wait(7)), Frame(Success(7))])
  {
    steps, t := Call(s0, past, s, Op(1, Release, 7));
    ThenGranted(s, t);
  }

  // Client 2 is told to wait and then granted, and has read neither yet.
  lemma GrantedBeforeRead(s0: System) returns (steps: seq<Step>, t: System)
    requires Init(s0)
    ensures Reaches(s0, steps, t)
    ensures 2 in t.clients && t.clients[2].status == Asked(Write, 7)
    ensures 2 in t.server.streams && t.server.streams[2] == [Frame(Wait(7)), Frame(Success(7))]
    ensures WrittenTo(t, 2) == ContendedStream(2, 7)
  {
    var a, u := HoldOne(s0);
    var b, v := AskToWait(s0, a, u);
    steps, t := LetGo(s0, b, v);
    assert WrittenTo(t, 2) == [Registry(Connection(2))] + [] + [] + t.server.streams[2];
  }
}
