/// The whole registry: clients that use the blocking calls, first-in first-out links both ways, the primary
/// server and its backup, as a system of interleaved steps.
///
/// Hypotheses built into the steps: a client sends its own id and has one request outstanding, nobody
/// disconnects or times out, a request arrives whole in one server read, and ids stay below the reserved tokens.
/// That two requests of a client never share a read is proved (StreamHistory.OneReadOneMessage).

module RegistrySystem {
  import opened Common
  import opened Protocol
  import opened LockSpec
  import opened ServerSpec
  import opened ClientProtocol
  import opened Delivery
  import opened Replication
  import ReplicationRuns

  // A finished call: what was asked, the messages it consumed and what it returned.
  datatype Exchange = Exchange(kind: RequestType, key: KeyId, answers: seq<Message>, result: CallResult)

  // held: the accesses this client was granted and has not sent a release for.
  datatype Client = Client(status: Status, held: map<KeyId, RequestType>, answers: seq<Message>, log: seq<Exchange>)

  // The links to the clients and to the backup are the streams of the server.
  datatype System = System(clients: map<ProcId, Client>, up: map<ProcId, seq<Message>>, server: Server, backup: Server)

  datatype Step =
    | Connect(addr: Address)
    | Ask(p: ProcId, kind: RequestType, key: KeyId)
    | Serve(p: ProcId, pick: ProcId)
    | Take(p: ProcId)
    | Mirror(pick: ProcId)

  function Servers(s: System): ReplicationRuns.Pair {
    ReplicationRuns.Pair(s.server, s.backup)
  }

  // No clients yet, and a fresh pair of servers.
  ghost predicate Init(s: System) {
    s.clients == map[] && s.up == map[] && ReplicationRuns.Fresh(Servers(s))
  }

  ghost predicate Enabled(s: System, step: Step) {
    match step
    case Connect(_) => s.server.idCounter + 1 < BACKUP_TOKEN
    case Ask(p, _, _) => p in s.clients && p in s.up && s.clients[p].status.Idle?
    case Serve(p, pick) => p in s.up && s.up[p] != [] && Plausible(s.server.manager, s.up[p][0], pick)
    case Take(p) => p in s.clients && !s.clients[p].status.Idle? && p in s.server.streams && s.server.streams[p] != []
    case Mirror(pick) =>
      s.server.backup.Some? && s.server.backup.value != []
      && Plausible(s.backup.manager, s.server.backup.value[0], pick)
  }

  function TakeMessage(c: Client, msg: Message): Client {
    if c.status.Connecting? then if msg.Registry? && msg.registry.Connection? then c.(status := Idle) else c
    else if c.status.Idle? then c
    else
      var answers := c.answers + [msg];
      match React(c.status, msg)
      case Continue(next) => c.(status := next, answers := answers)
      case Return(result) =>
        Client(Idle,
               if result.Ok? && IsAccess(c.status.kind) then c.held[c.status.key := c.status.kind] else c.held,
               [], c.log + [Exchange(c.status.kind, c.status.key, answers, result)])
  }

  function AfterConnect(s: System, addr: Address): System {
    var server := HandleConnection(s.server, addr);
    var id := server.idCounter;
    s.(server := server, clients := s.clients[id := Client(Connecting, map[], [], [])], up := s.up[id := []])
  }

  function AfterAsk(s: System, p: ProcId, kind: RequestType, key: KeyId): System
    requires p in s.clients && p in s.up
  {
    var c := s.clients[p];
    s.(clients := s.clients[p := c.(status := Asked(kind, key),
                                    held := if kind.Release? then c.held - {key} else c.held)],
       up := s.up[p := s.up[p] + [Registry(Request(p, kind, key))]])
  }

  function AfterServe(s: System, p: ProcId, pick: ProcId): System
    requires p in s.up && s.up[p] != []
  {
    s.(server := HandleData(s.server, p, Ok(s.up[p][0]), pick).0, up := s.up[p := s.up[p][1..]])
  }

  function AfterTake(s: System, p: ProcId): System
    requires p in s.clients && p in s.server.streams && s.server.streams[p] != []
  {
    s.(clients := s.clients[p := TakeMessage(s.clients[p], s.server.streams[p][0])],
       server := s.server.(streams := s.server.streams[p := s.server.streams[p][1..]]))
  }

  function AfterMirror(s: System, pick: ProcId): System
    requires s.server.backup.Some? && s.server.backup.value != []
  {
    s.(backup := HandleData(s.backup, PRIMARY_TOKEN, Ok(s.server.backup.value[0]), pick).0,
       server := s.server.(backup := Some(s.server.backup.value[1..])))
  }

  ghost function Next(s: System, step: Step): System
    requires Enabled(s, step)
  {
    match step
    case Connect(addr) => AfterConnect(s, addr)
    case Ask(p, kind, key) => AfterAsk(s, p, kind, key)
    case Serve(p, pick) => AfterServe(s, p, pick)
    case Take(p) => AfterTake(s, p)
    case Mirror(pick) => AfterMirror(s, pick)
  }

  // t is reached from s by these steps.
  ghost predicate Reaches(s: System, steps: seq<Step>, t: System)
    decreases |steps|
  {
    if steps == [] then s == t
    else Enabled(s, steps[0]) && Reaches(Next(s, steps[0]), steps[1..], t)
  }

  // ---------------------------------------------------------------------------------- the invariant

  ghost predicate RegisteredAt(keys: map<KeyId, Lock>, p: ProcId, kind: RequestType, key: KeyId) {
    key in keys && Registered(keys[key], Req(p, kind))
  }

  // p waits in no queue except perhaps that of this key.
  ghost predicate AbsentBut(keys: map<KeyId, Lock>, p: ProcId, key: KeyId) {
    forall k :: k in keys && k != key ==> Mine(p, keys[k].pending) == []
  }

  ghost predicate Absent(keys: map<KeyId, Lock>, p: ProcId) {
    forall k :: k in keys ==> Mine(p, keys[k].pending) == []
  }

  // p waits exactly once, for this access.
  ghost predicate WaitsFor(keys: map<KeyId, Lock>, p: ProcId, kind: RequestType, key: KeyId) {
    key in keys && Mine(p, keys[key].pending) == [Req(p, kind)] && AbsentBut(keys, p, key)
  }

  function WaitFrame(key: KeyId): Message {
    Frame(Wait(key))
  }

  // How a client, its two links and the server's locks fit together.
  ghost predicate PhaseOk(p: ProcId, c: Client, up: seq<Message>, down: seq<Message>, keys: map<KeyId, Lock>) {
    match c.status
    case Connecting =>
      up == [] && down == [Registry(Connection(p))] && Absent(keys, p) && c.answers == [] && c.log == []
    case Idle => up == [] && down == [] && Absent(keys, p) && c.answers == []
    case Asked(kind, key) =>
      && c.answers == []
      && (|| (up == [Registry(Request(p, kind, key))] && down == [] && Absent(keys, p))
          || (up == [] && |down| == 1 && Final(kind, key, down[0]) && Absent(keys, p)
              && (GrantFor(kind, key, down[0]) ==> RegisteredAt(keys, p, kind, key)))
          || (up == [] && down == [WaitFrame(key)] && IsAccess(kind) && WaitsFor(keys, p, kind, key))
          || (up == [] && |down| == 2 && down[0] == WaitFrame(key) && IsAccess(kind) && GrantFor(kind, key, down[1])
              && Absent(keys, p) && RegisteredAt(keys, p, kind, key)))
    case Waiting(kind, key, waitKey) =>
      && waitKey == key && IsAccess(kind) && c.answers == [WaitFrame(key)] && up == []
      && (|| (down == [] && WaitsFor(keys, p, kind, key))
          || (|down| == 1 && GrantFor(kind, key, down[0]) && Absent(keys, p) && RegisteredAt(keys, p, kind, key)))
  }

  // What a client believes to hold, the server has registered for it; a release in progress gave it up.
  ghost predicate BeliefOk(p: ProcId, c: Client, keys: map<KeyId, Lock>) {
    forall k :: k in c.held ==>
      IsAccess(c.held[k]) && RegisteredAt(keys, p, c.held[k], k) && c.status != Asked(Release, k)
  }

  // p's grant of this access is on its way.
  ghost predicate GrantComing(c: Client, down: seq<Message>, kind: RequestType, key: KeyId) {
    && (c.status.Asked? || c.status.Waiting?) && c.status.kind == kind && c.status.key == key
    && down != [] && GrantFor(kind, key, down[|down| - 1])
  }

  // p believes to hold this access, or its grant is on the way, or its release is.
  ghost predicate Accounted(p: ProcId, c: Client, up: seq<Message>, down: seq<Message>, kind: RequestType, key: KeyId) {
    || (key in c.held && c.held[key] == kind)
    || GrantComing(c, down, kind, key)
    || up == [Registry(Request(p, Release, key))]
  }

  // No lock is held for nobody.
  ghost predicate Explained(p: ProcId, c: Client, up: seq<Message>, down: seq<Message>, keys: map<KeyId, Lock>) {
    forall kind, key :: RegisteredAt(keys, p, kind, key) ==> Accounted(p, c, up, down, kind, key)
  }

  ghost predicate LogOk(c: Client) {
    forall e :: e in c.log ==>
      WellAnswered(e.kind, e.key, e.answers) && ResultFits(e.kind, e.answers[|e.answers| - 1], e.result)
  }

  ghost predicate Shape(s: System) {
    && s.clients.Keys == s.up.Keys == s.server.streams.Keys == s.server.addrs.Keys
    && (forall p :: p in s.clients ==> 0 < p <= s.server.idCounter)
    && s.server.idCounter < BACKUP_TOKEN
    && s.server.backup.Some? && s.server.manager.channel == [] && ManagerInv(s.server.manager)
    && forall k :: k in s.server.manager.keys ==> Known(s.server.manager.keys[k], s.clients.Keys)
  }

  ghost predicate ClientOk(p: ProcId, c: Client, up: seq<Message>, down: seq<Message>, keys: map<KeyId, Lock>) {
    PhaseOk(p, c, up, down, keys) && BeliefOk(p, c, keys) && Explained(p, c, up, down, keys) && LogOk(c)
  }

  ghost predicate AllOk(s: System)
    requires s.clients.Keys == s.up.Keys == s.server.streams.Keys
  {
    forall p :: p in s.clients ==> ClientOk(p, s.clients[p], s.up[p], s.server.streams[p], s.server.manager.keys)
  }

  ghost predicate SystemInv(s: System) {
    Shape(s) && AllOk(s)
  }

  // ---------------------------------------------------------------------------------- steps that leave the locks alone

  lemma NewcomerOk(s: System, id: ProcId)
    requires Shape(s) && id !in s.clients
    ensures ClientOk(id, Client(Connecting, map[], [], []), [], [Registry(Connection(id))], s.server.manager.keys)
  {
    forall k | k in s.server.manager.keys ensures Mine(id, s.server.manager.keys[k].pending) == [] {
      assert Known(s.server.manager.keys[k], s.clients.Keys);
      MineOfStranger(id, s.server.manager.keys[k].pending);
    }
    forall kind, key ensures !RegisteredAt(s.server.manager.keys, id, kind, key) {
      assert key in s.server.manager.keys ==> Known(s.server.manager.keys[key], s.clients.Keys);
    }
  }

  // Only the client p and its links change.
  lemma OneClientChanges(s: System, t: System, p: ProcId)
    requires s.clients.Keys == s.up.Keys == s.server.streams.Keys && AllOk(s)
    requires t.clients.Keys == t.up.Keys == t.server.streams.Keys == s.clients.Keys + {p}
    requires t.server.manager.keys == s.server.manager.keys
    requires forall q :: q in s.clients && q != p ==>
               t.clients[q] == s.clients[q] && t.up[q] == s.up[q] && t.server.streams[q] == s.server.streams[q]
    requires ClientOk(p, t.clients[p], t.up[p], t.server.streams[p], t.server.manager.keys)
    ensures AllOk(t)
  {
  }

  lemma KnownGrows(v: Lock, ids: set<ProcId>, more: set<ProcId>)
    requires Known(v, ids) && ids <= more
    ensures Known(v, more)
  {
  }

  lemma ConnectShape(s: System, addr: Address)
    requires Shape(s) && s.server.idCounter + 1 < BACKUP_TOKEN
    ensures Shape(AfterConnect(s, addr))
  {
    var t := AfterConnect(s, addr);
    var id := s.server.idCounter + 1;
    assert t.clients.Keys == s.clients.Keys + {id};
    assert t.server.manager == s.server.manager;
    forall k | k in t.server.manager.keys ensures Known(t.server.manager.keys[k], t.clients.Keys) {
      KnownGrows(s.server.manager.keys[k], s.clients.Keys, t.clients.Keys);
    }
  }

  lemma NewcomerJoins(s: System, t: System, id: ProcId)
    requires SystemInv(s) && id !in s.clients
    requires t.clients == s.clients[id := Client(Connecting, map[], [], [])] && t.up == s.up[id := []]
    requires t.server.streams == s.server.streams[id := [Registry(Connection(id))]]
    requires t.server.manager == s.server.manager
    ensures t.clients.Keys == t.up.Keys == t.server.streams.Keys && AllOk(t)
  {
    NewcomerOk(s, id);
    OneClientChanges(s, t, id);
  }

  lemma ConnectKeepsInv(s: System, addr: Address)
    requires SystemInv(s) && s.server.idCounter + 1 < BACKUP_TOKEN
    ensures SystemInv(AfterConnect(s, addr))
  {
    ConnectShape(s, addr);
    NewcomerJoins(s, AfterConnect(s, addr), s.server.idCounter + 1);
  }

  lemma AskOk(p: ProcId, c: Client, up: seq<Message>, down: seq<Message>, keys: map<KeyId, Lock>,
              kind: RequestType, key: KeyId)
    requires ClientOk(p, c, up, down, keys) && c.status.Idle?
    ensures ClientOk(p, c.(status := Asked(kind, key), held := if kind.Release? then c.held - {key} else c.held),
                     up + [Registry(Request(p, kind, key))], down, keys)
  {
  }

  lemma AskKeepsInv(s: System, p: ProcId, kind: RequestType, key: KeyId)
    requires SystemInv(s) && p in s.clients && s.clients[p].status.Idle?
    ensures SystemInv(AfterAsk(s, p, kind, key))
  {
    AskOk(p, s.clients[p], s.up[p], s.server.streams[p], s.server.manager.keys, kind, key);
    OneClientChanges(s, AfterAsk(s, p, kind, key), p);
  }

  ghost predicate AllExclusive(keys: map<KeyId, Lock>) {
    forall k :: k in keys ==> Exclusive(keys[k])
  }

  // What the call returns and that this fits its last answer.
  lemma FinalEnds(kind: RequestType, key: KeyId, msg: Message)
    requires Final(kind, key, msg)
    ensures React(Asked(kind, key), msg).Return? && ResultFits(kind, msg, React(Asked(kind, key), msg).result)
    ensures React(Asked(kind, key), msg).result.Ok? && IsAccess(kind) ==> GrantFor(kind, key, msg)
  {
  }

  lemma GrantEnds(kind: RequestType, key: KeyId, msg: Message)
    requires GrantFor(kind, key, msg)
    ensures React(Waiting(kind, key, key), msg).Return?
    ensures ResultFits(kind, msg, React(Waiting(kind, key, key), msg).result)
  {
  }

  // The call ends with this answer.
  lemma CallEnds(p: ProcId, c: Client, msg: Message, keys: map<KeyId, Lock>)
    requires (c.status.Asked? || c.status.Waiting?) && React(c.status, msg).Return?
    requires WellAnswered(c.status.kind, c.status.key, c.answers + [msg])
    requires ResultFits(c.status.kind, msg, React(c.status, msg).result)
    requires React(c.status, msg).result.Ok? && IsAccess(c.status.kind) ==>
               GrantFor(c.status.kind, c.status.key, msg) && RegisteredAt(keys, p, c.status.kind, c.status.key)
    requires GrantFor(c.status.kind, c.status.key, msg) ==> React(c.status, msg).result.Ok?
    requires Absent(keys, p) && BeliefOk(p, c, keys) && Explained(p, c, [], [msg], keys) && LogOk(c)
    requires AllExclusive(keys)
    ensures ClientOk(p, TakeMessage(c, msg), [], [], keys)
  {
  }

  // The call ends with its first answer.
  lemma TakeFinal(p: ProcId, c: Client, msg: Message, keys: map<KeyId, Lock>)
    requires c.status.Asked? && c.answers == [] && Final(c.status.kind, c.status.key, msg) && Absent(keys, p)
    requires GrantFor(c.status.kind, c.status.key, msg) ==> RegisteredAt(keys, p, c.status.kind, c.status.key)
    requires BeliefOk(p, c, keys) && Explained(p, c, [], [msg], keys) && LogOk(c) && AllExclusive(keys)
    ensures ClientOk(p, TakeMessage(c, msg), [], [], keys)
  {
    assert [] + [msg] == [msg];
    FinalEnds(c.status.kind, c.status.key, msg);
    CallEnds(p, c, msg, keys);
  }

  // The call is told to wait.
  lemma TakeWait(p: ProcId, c: Client, keys: map<KeyId, Lock>)
    requires c.status.Asked? && c.answers == [] && IsAccess(c.status.kind)
    requires BeliefOk(p, c, keys) && LogOk(c)
    ensures TakeMessage(c, WaitFrame(c.status.key)) ==
              c.(status := Waiting(c.status.kind, c.status.key, c.status.key), answers := [WaitFrame(c.status.key)])
    ensures BeliefOk(p, TakeMessage(c, WaitFrame(c.status.key)), keys)
  {
    assert [] + [WaitFrame(c.status.key)] == [WaitFrame(c.status.key)];
  }

  // The call ends with the grant it waited for.
  lemma TakeGrant(p: ProcId, c: Client, msg: Message, keys: map<KeyId, Lock>)
    requires c.status.Waiting? && c.status.waitKey == c.status.key && c.answers == [WaitFrame(c.status.key)]
    requires IsAccess(c.status.kind) && GrantFor(c.status.kind, c.status.key, msg)
    requires Absent(keys, p) && RegisteredAt(keys, p, c.status.kind, c.status.key)
    requires BeliefOk(p, c, keys) && Explained(p, c, [], [msg], keys) && LogOk(c) && AllExclusive(keys)
    ensures ClientOk(p, TakeMessage(c, msg), [], [], keys)
  {
    GrantEnds(c.status.kind, c.status.key, msg);
    CallEnds(p, c, msg, keys);
  }

  lemma TakeOk(p: ProcId, c: Client, up: seq<Message>, down: seq<Message>, keys: map<KeyId, Lock>)
    requires ClientOk(p, c, up, down, keys) && !c.status.Idle? && down != [] && AllExclusive(keys)
    ensures ClientOk(p, TakeMessage(c, down[0]), up, down[1..], keys)
  {
    if c.status.Waiting? {
      TakeGrant(p, c, down[0], keys);
    } else if c.status.Asked? {
      if down[0] == WaitFrame(c.status.key) {
        TakeWait(p, c, keys);
      } else {
        TakeFinal(p, c, down[0], keys);
      }
    }
  }

  lemma TakeShape(s: System, p: ProcId)
    requires Shape(s) && p in s.clients && s.server.streams[p] != []
    ensures Shape(AfterTake(s, p))
  {
    assert AfterTake(s, p).clients.Keys == s.clients.Keys;
  }

  lemma TakeKeepsInv(s: System, p: ProcId)
    requires SystemInv(s) && p in s.clients && !s.clients[p].status.Idle? && s.server.streams[p] != []
    ensures SystemInv(AfterTake(s, p))
  {
    TakeShape(s, p);
    TakeOk(p, s.clients[p], s.up[p], s.server.streams[p], s.server.manager.keys);
    OneClientChanges(s, AfterTake(s, p), p);
  }
}
