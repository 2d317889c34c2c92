/// Who gets which id and hears what on connecting (src/registry_server.rs:168-215).

module Connections {
  import opened Common
  import opened Protocol
  import opened LockSpec
  import opened ServerSpec
  import opened Delivery
  import opened ReplicationRuns

  // A server that has accepted these connections and nothing else.
  function Accepted(s: Server, addrs: seq<Address>): Server {
    if addrs == [] then s else HandleConnection(Accepted(s, addrs[..|addrs| - 1]), addrs[|addrs| - 1])
  }

  // What the clients that have connected so far were written: each its id.
  function Greetings(n: nat): map<ProcId, seq<Message>> {
    map i | 1 <= i <= n :: [Registry(Connection(i))]
  }

  lemma OneGreeting(n: nat)
    ensures Greetings(n + 1) == Greetings(n)[n + 1 := [Registry(Connection(n + 1))]]
  {
  }

  function Nth(clients: seq<Address>, i: ProcId): Address
    requires 1 <= i <= |clients|
  {
    clients[i - 1]
  }

  // The address of client i is that of the i-th client that connected.
  function Book(clients: seq<Address>): map<ProcId, Address> {
    map i | 1 <= i <= |clients| :: Nth(clients, i)
  }

  lemma OneEntry(clients: seq<Address>, addr: Address)
    ensures Book(clients + [addr]) == Book(clients)[|clients| + 1 := addr]
  {
    assert forall i :: 1 <= i <= |clients| ==> Nth(clients + [addr], i) == Nth(clients, i);
  }

  function Notices(n: nat): seq<Message> {
    seq(n, i requires 0 <= i < n => Registry(ConnectionEstablished(i + 1)))
  }

  lemma OneNotice(n: nat)
    ensures Notices(n + 1) == Notices(n) + [Registry(ConnectionEstablished(n + 1))]
  {
  }

  // A server without a backup that has accepted the primary and then these clients.
  function Backup(clients: seq<Address>): Server {
    Server(Manager(map[], []), map[1000 := []] + Greetings(|clients|), Book(clients), None, false, |clients|, 0)
  }

  lemma OneClient(clients: seq<Address>, addr: Address)
    ensures HandleConnection(Backup(clients), addr) == Backup(clients + [addr])
  {
    OneGreeting(|clients|);
    OneEntry(clients, addr);
    var primary: map<ProcId, seq<Message>>, id := map[1000 := []], |clients| + 1;
    assert primary + Greetings(id) == (primary + Greetings(id - 1))[id := [Registry(Connection(id))]];
  }

  lemma FirstConnection(addr: Address)
    ensures HandleConnection(Server(Manager(map[], []), map[], map[], None, true, 0, 0), addr) == Backup([])
  {
    var primary: map<ProcId, seq<Message>> := map[1000 := []];
    assert primary + Greetings(0) == primary;
  }

  // A new server that has no backup takes its first connection for the primary's: no id, no address, no message,
  // and token 1000 for its stream.  Each later connection gets the next id, is told so, and its address is kept.
  lemma {:induction false} WithoutBackup(addrs: seq<Address>)
    requires addrs != []
    ensures Accepted(Server(Manager(map[], []), map[], map[], None, true, 0, 0), addrs) ==
              Server(Manager(map[], []), map[1000 := []] + Greetings(|addrs| - 1), Book(addrs[1..]),
                     None, false, |addrs| - 1, 0)
  {
    var n := |addrs| - 1;
    if n == 0 {
      FirstConnection(addrs[0]);
    } else {
      WithoutBackup(addrs[..n]);
      OneClient(addrs[1..n], addrs[n]);
      assert addrs[..n][1..] == addrs[1..n] && addrs[1..n] + [addrs[n]] == addrs[1..];
    }
  }

  // A new server with a backup gives every connection the next id, tells it so, keeps its address, and tells the
  // backup.
  lemma {:induction false} WithBackup(addrs: seq<Address>)
    ensures Accepted(Server(Manager(map[], []), map[], map[], Some([]), true, 0, 0), addrs) ==
              Server(Manager(map[], []), Greetings(|addrs|), Book(addrs), Some(Notices(|addrs|)), true, |addrs|, 0)
  {
    var start := Server(Manager(map[], []), map[], map[], Some([]), true, 0, 0);
    if addrs != [] {
      var n := |addrs| - 1;
      WithBackup(addrs[..n]);
      OneGreeting(n);
      OneEntry(addrs[..n], addrs[n]);
      OneNotice(n);
      assert addrs[..n] + [addrs[n]] == addrs;
      assert Accepted(start, addrs) == HandleConnection(Accepted(start, addrs[..n]), addrs[n]);
    }
  }

  // Said of one client: connection n + 1 to a server without a backup is client n.  The primary hears nothing, as
  // long as no client has the token kept for its stream.
  lemma ClientsOfBackup(addrs: seq<Address>, n: ProcId)
    requires 1 <= n < |addrs|
    ensures var r := Accepted(Server(Manager(map[], []), map[], map[], None, true, 0, 0), addrs);
            && r.idCounter == |addrs| - 1 && !r.firstConnection
            && n in r.addrs && r.addrs[n] == addrs[n]
            && n in r.streams && r.streams[n] == [Registry(Connection(n))]
            && 1000 in r.streams && (|addrs| <= 1000 ==> r.streams[1000] == [])
  {
    WithoutBackup(addrs);
    assert Nth(addrs[1..], n) == addrs[n];
  }

  // The pair of servers that runs start from: the backup has been found by the primary and by nobody else.
  lemma FreshBackup(p: Pair)
    requires Fresh(p)
    ensures p.backup == Server(Manager(map[], []), map[1000 := []], map[], None, false, 0, 0)
  {
  }

  // ---------------------------------------------------------------------------------- clients that come and go

  // The addresses of the clients that connected, in the order of connecting.
  function Callers(events: seq<Event>): seq<Address> {
    if events == [] then []
    else (if events[0].Connected? then [events[0].addr] else []) + Callers(events[1..])
  }

  // Handling a message changes neither who is connected nor under which id.
  lemma HandlingKeepsClients(s: Server, token: ProcId, parsed: Result<Message, string>, pick: ProcId)
    requires s.backup.Some? && s.manager.channel == [] && ManagerInv(s.manager) && token in s.streams
    ensures var after := HandleData(s, token, parsed, pick).0;
            && after.backup.Some? && after.manager.channel == [] && ManagerInv(after.manager)
            && after.addrs == s.addrs && after.idCounter == s.idCounter && after.streams.Keys == s.streams.Keys
  {
    if token != BACKUP_TOKEN && parsed.Ok? && AsOp(parsed.value).Some? {
      var op := AsOp(parsed.value).value;
      RequestEffect(s, token, op, pick);
      ApplyKeepsInv(s.manager, op);
    }
  }

  // The connected clients are some of these, each with its own address.
  ghost predicate Listed(p: Pair, clients: seq<Address>) {
    && PairInv(p) && p.primary.idCounter == |clients| && p.primary.streams.Keys == p.primary.addrs.Keys
    && forall i :: i in p.primary.addrs ==> 1 <= i <= |clients| && p.primary.addrs[i] == Nth(clients, i)
  }

  lemma StepKeepsListed(p: Pair, e: Event, clients: seq<Address>)
    requires Listed(p, clients) && Possible(p, e)
    ensures Listed(Step(p, e), if e.Connected? then clients + [e.addr] else clients)
    ensures !e.Connected? && !e.Gone? ==> Step(p, e).primary.addrs.Keys == p.primary.addrs.Keys
  {
    match e
    case Connected(addr) =>
      forall i | 1 <= i <= |clients| ensures Nth(clients + [addr], i) == Nth(clients, i) {
      }
    case Readable(token, parsed, pick) => HandlingKeepsClients(p.primary, token, parsed, pick);
    case Gone(token) =>
    case Mirrored(pick) =>
  }

  lemma {:induction false} ListedAfter(p: Pair, events: seq<Event>, clients: seq<Address>, i: ProcId)
    requires Listed(p, clients) && AllPossible(p, events)
    ensures Listed(After(p, events), clients + Callers(events))
    ensures i in After(p, events).primary.addrs <==>
              && (i in p.primary.addrs || |clients| < i <= |clients + Callers(events)|)
              && Gone(i) !in events
    decreases |events|
  {
    if events == [] {
      assert clients + Callers(events) == clients;
    } else {
      var e := events[0];
      var more := if e.Connected? then clients + [e.addr] else clients;
      StepKeepsListed(p, e, clients);
      ListedAfter(Step(p, e), events[1..], more, i);
      assert clients + Callers(events) == more + Callers(events[1..]);
      assert Gone(i) in events <==> e == Gone(i) || Gone(i) in events[1..];
    }
  }

  // In every run in which clients come and go: the id counter is the number of connections, so no id is given twice;
  // exactly the clients that connected and have not gone have a stream and an address, the one they connected from.
  lemma ClientsOfRun(p: Pair, events: seq<Event>, i: ProcId)
    requires Fresh(p) && AllPossible(p, events)
    ensures var s := After(p, events).primary;
            && s.idCounter == |Callers(events)|
            && (i in s.addrs <==> 1 <= i <= |Callers(events)| && Gone(i) !in events)
            && (i in s.streams <==> i in s.addrs)
            && (i in s.addrs ==> s.addrs[i] == Callers(events)[i - 1])
  {
    ListedAfter(p, events, [], i);
    assert [] + Callers(events) == Callers(events);
    assert i in After(p, events).primary.addrs ==>
             After(p, events).primary.addrs[i] == Nth(Callers(events), i);
  }
}
