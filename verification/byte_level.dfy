/// Reads of a limited size interleaved with the steps of the whole system: how large the buffer of
/// receive_message (src/protocol_client.rs) may be when the server answers only what it was asked.

module ByteLevel {
  import opened Common
  import opened Protocol
  import opened LockSpec
  import opened Wire
  import opened RegistrySystem
  import opened RegistryTheorems
  import opened StreamHistory
  import opened Framing

  // The chunks that each client's reads returned so far.
  datatype ByteSystem = ByteSystem(system: System, chunks: map<ProcId, seq<string>>)

  datatype ByteStep = Fetch(p: ProcId, chunk: string) | Move(step: Step)

  ghost predicate ByteInit(b: ByteSystem) {
    Init(b.system) && b.chunks == map[]
  }

  // How many messages p took off its stream.
  function TakenBy(s: System, p: ProcId): nat {
    if p in s.clients && p in s.server.streams then |WrittenTo(s, p)| - |s.server.streams[p]| else 0
  }

  // A read returns up to n bytes of what was written and not read yet; a message is taken when the next call
  // to receive_message has returned.
  ghost predicate Possible(b: ByteSystem, e: ByteStep, n: nat) {
    match e
    case Fetch(p, chunk) =>
      && p in b.chunks && 0 < |chunk| <= n
      && Concat(b.chunks[p] + [chunk]) <= Join(Bodies(WrittenTo(b.system, p)))
    case Move(step) =>
      && Enabled(b.system, step)
      && (step.Take? ==> step.p in b.chunks && TakenBy(b.system, step.p) < |Drain("", b.chunks[step.p]).0|)
  }

  ghost function ByteNext(b: ByteSystem, e: ByteStep, n: nat): ByteSystem
    requires Possible(b, e, n)
  {
    match e
    case Fetch(p, chunk) => b.(chunks := b.chunks[p := b.chunks[p] + [chunk]])
    case Move(step) =>
      ByteSystem(Next(b.system, step),
                 if step.Connect? then b.chunks[b.system.server.idCounter + 1 := []] else b.chunks)
  }

  ghost predicate ByteReaches(b: ByteSystem, es: seq<ByteStep>, c: ByteSystem, n: nat)
    decreases |es|
  {
    if es == [] then b == c
    else Possible(b, es[0], n) && ByteReaches(ByteNext(b, es[0], n), es[1..], c, n)
  }

  // ---------------------------------------------------------------------------------- safe sizes

  // The shortest grant, and so the smallest distance of two newlines that a client can have unread at one time:
  // only Wait and its grant are ever under way together.
  const GRANT_SPACING: nat := 40

  // No read held two newlines.
  ghost predicate SingleReads(chunks: seq<string>) {
    forall i :: 0 <= i < |chunks| ==> Newlines(chunks[i]) <= 1
  }

  // ms was written, of which the first k messages were taken.
  ghost predicate ReaderOk(ms: seq<Message>, k: nat, chunks: seq<string>) {
    && Concat(chunks) <= Join(Bodies(ms))
    && SingleReads(chunks)
    && k <= |Drain("", chunks).0|
  }

  lemma {:induction false} JoinAppend(a: seq<string>, b: seq<string>)
    ensures Join(a + b) == Join(a) + Join(b)
  {
    if a == [] {
      assert a + b == b;
    } else {
      JoinAppend(a[1..], b);
      assert (a + b)[1..] == a[1..] + b;
      assert a[0] + ['\n'] + (Join(a[1..]) + Join(b)) == a[0] + ['\n'] + Join(a[1..]) + Join(b);
    }
  }

  lemma {:induction false} BearingAppend(chunks: seq<string>, chunk: string)
    ensures Bearing(chunks + [chunk]) == Bearing(chunks) + (if '\n' in chunk then 1 else 0)
  {
    if chunks == [] {
      assert [] + [chunk] == [chunk] && [chunk][1..] == [];
    } else {
      BearingAppend(chunks[1..], chunk);
      assert (chunks + [chunk])[1..] == chunks[1..] + [chunk];
    }
  }

  // A message that grants an access.
  predicate IsGrant(m: Message) {
    m.Registry? && m.registry.Response? && (m.registry.response.Success? || m.registry.response.Holder?)
  }

  // What is still unread of message r and the grants behind it has its newlines far apart.
  lemma UnreadSpaced(ms: seq<Message>, r: nat)
    requires r <= |ms|
    requires forall i :: r < i < |ms| ==> IsGrant(ms[i])
    ensures Spaced(Join(Bodies(ms)[r..]), GRANT_SPACING)
  {
    if r < |ms| {
      BodiesOneLine(ms);
      var tail := Bodies(ms)[r + 1..];
      forall i | 0 <= i < |tail| ensures OneLine(tail[i]) && |tail[i]| + 1 >= GRANT_SPACING {
        assert tail[i] == Bodies(ms)[r + 1 + i] == Body(ms[r + 1 + i]);
        ResponseFrameLength(ms[r + 1 + i].registry.response);
      }
      SpacedJoin(tail, GRANT_SPACING);
      SpacedCons(Bodies(ms)[r], Join(tail), GRANT_SPACING);
      assert Bodies(ms)[r..][1..] == tail;
    }
  }

  lemma CutFront(a: string, x: string, y: string, rest: string)
    requires a + x + y <= a + rest
    ensures x + y <= rest
  {
    assert (a + x + y)[|a|..] == x + y && (a + rest)[|a|..] == rest;
    assert (a + rest)[..|a + x + y|] == a + x + y;
    assert rest[..|x + y|] == (a + rest)[|a|..|a + x + y|];
  }

  lemma FirstLines(bodies: seq<string>, r: nat)
    requires r <= |bodies|
    ensures Join(bodies) == Join(bodies[..r]) + Join(bodies[r..])
  {
    assert bodies == bodies[..r] + bodies[r..];
    JoinAppend(bodies[..r], bodies[r..]);
  }

  // The next read is a window of what follows the messages that were returned.
  lemma NextRead(ms: seq<Message>, chunks: seq<string>, chunk: string) returns (r: nat, carry: string)
    requires Concat(chunks + [chunk]) <= Join(Bodies(ms))
    ensures r == |Drain("", chunks).0| <= |ms|
    ensures carry + chunk <= Join(Bodies(ms)[r..])
  {
    var (lines, left) := Drain("", chunks);
    r, carry := |lines|, left;
    ConcatAppend(chunks, [chunk]);
    assert Concat([chunk]) == chunk by { assert [chunk][1..] == []; }
    DrainConserves("", chunks);
    assert "" + Concat(chunks) == Concat(chunks);
    BodiesOneLine(ms);
    SplitIsUnique(lines, left, Bodies(ms));
    FirstLines(Bodies(ms), r);
    CutFront(Join(lines), left, chunk, Join(Bodies(ms)[r..]));
  }

  lemma FetchOk(ms: seq<Message>, k: nat, chunks: seq<string>, chunk: string)
    requires ReaderOk(ms, k, chunks) && Concat(chunks + [chunk]) <= Join(Bodies(ms))
    requires |chunk| <= GRANT_SPACING
    requires forall i :: k < i < |ms| ==> IsGrant(ms[i])
    ensures ReaderOk(ms, k, chunks + [chunk])
  {
    var r, carry := NextRead(ms, chunks, chunk);
    UnreadSpaced(ms, r);
    var rest := Join(Bodies(ms)[r..]);
    forall i | 0 <= i < |chunk| ensures rest[|carry| + i] == chunk[i] {
      assert (carry + chunk)[|carry| + i] == chunk[i];
    }
    WindowSpaced(rest, chunk, |carry|, GRANT_SPACING);
    TwoNewlines(chunk);
    DrainCount("", chunks);
    DrainCount("", chunks + [chunk]);
    BearingAppend(chunks, chunk);
  }

  lemma BodiesAppend(a: seq<Message>, b: seq<Message>)
    ensures Bodies(a + b) == Bodies(a) + Bodies(b)
  {
  }

  lemma ReaderGrows(ms: seq<Message>, k: nat, chunks: seq<string>, more: seq<Message>)
    requires ReaderOk(ms, k, chunks)
    ensures ReaderOk(ms + more, k, chunks)
  {
    BodiesAppend(ms, more);
    JoinAppend(Bodies(ms), Bodies(more));
    var a, b := Join(Bodies(ms)), Join(Bodies(more));
    assert a <= a + b;
  }

  ghost predicate ReadersOk(b: ByteSystem) {
    && b.chunks.Keys == b.system.clients.Keys
    && forall p :: p in b.chunks ==> ReaderOk(WrittenTo(b.system, p), TakenBy(b.system, p), b.chunks[p])
  }

  // Only Wait and its grant are ever on a stream together.
  lemma SecondIsGrant(p: ProcId, c: Client, up: seq<Message>, down: seq<Message>,
                      keys: map<KeyId, Lock>, j: nat)
    requires PhaseOk(p, c, up, down, keys) && 0 < j < |down|
    ensures IsGrant(down[j])
  {
  }

  lemma LaterIsGrant(s: System, p: ProcId, j: nat)
    requires SystemInv(s) && p in s.clients && 0 < j < |s.server.streams[p]|
    ensures IsGrant(s.server.streams[p][j])
  {
    assert PhaseOk(p, s.clients[p], s.up[p], s.server.streams[p], s.server.manager.keys);
    SecondIsGrant(p, s.clients[p], s.up[p], s.server.streams[p], s.server.manager.keys, j);
  }

  lemma UntakenAreDown(s: System, p: ProcId, i: nat)
    requires p in s.clients && p in s.server.streams && TakenBy(s, p) <= i < |WrittenTo(s, p)|
    ensures i - TakenBy(s, p) < |s.server.streams[p]|
    ensures WrittenTo(s, p)[i] == s.server.streams[p][i - TakenBy(s, p)]
  {
    var c, down := s.clients[p], s.server.streams[p];
    var taken := if c.status.Connecting? then [] else [Registry(Connection(p))] + Taken(c.log) + c.answers;
    assert WrittenTo(s, p) == taken + down;
  }

  lemma LatersAreGrants(s: System, p: ProcId)
    requires SystemInv(s) && p in s.clients
    ensures forall j :: 0 < j < |s.server.streams[p]| ==> IsGrant(s.server.streams[p][j])
  {
    forall j | 0 < j < |s.server.streams[p]| ensures IsGrant(s.server.streams[p][j]) {
      LaterIsGrant(s, p, j);
    }
  }

  lemma UntakenFrame(s: System, p: ProcId, i: nat)
    requires p in s.clients && p in s.server.streams && TakenBy(s, p) < i < |WrittenTo(s, p)|
    requires forall j :: 0 < j < |s.server.streams[p]| ==> IsGrant(s.server.streams[p][j])
    ensures IsGrant(WrittenTo(s, p)[i])
  {
    UntakenAreDown(s, p, i);
  }

  // So all but one of the messages still to be taken are grants.
  lemma UntakenFrames(s: System, p: ProcId)
    requires SystemInv(s) && p in s.clients
    ensures forall i :: TakenBy(s, p) < i < |WrittenTo(s, p)| ==> IsGrant(WrittenTo(s, p)[i])
  {
    LatersAreGrants(s, p);
    forall i | TakenBy(s, p) < i < |WrittenTo(s, p)| ensures IsGrant(WrittenTo(s, p)[i]) {
      UntakenFrame(s, p, i);
    }
  }

  lemma ReaderReplaced(b: ByteSystem, p: ProcId, chunks: seq<string>)
    requires ReadersOk(b) && p in b.chunks && ReaderOk(WrittenTo(b.system, p), TakenBy(b.system, p), chunks)
    ensures ReadersOk(b.(chunks := b.chunks[p := chunks]))
  {
  }

  lemma FetchKeepsReaders(b: ByteSystem, p: ProcId, chunk: string, n: nat)
    requires SystemInv(b.system) && ReadersOk(b) && Possible(b, Fetch(p, chunk), n) && n <= GRANT_SPACING
    ensures ReadersOk(ByteNext(b, Fetch(p, chunk), n))
  {
    UntakenFrames(b.system, p);
    FetchOk(WrittenTo(b.system, p), TakenBy(b.system, p), b.chunks[p], chunk);
    ReaderReplaced(b, p, b.chunks[p] + [chunk]);
  }

  lemma TakenMoves(s: System, step: Step, q: ProcId)
    requires SystemInv(s) && Enabled(s, step) && q in s.clients
    ensures TakenBy(Next(s, step), q) == TakenBy(s, q) + (if step == Take(q) then 1 else 0)
  {
    StreamMoves(s, step, q);
    WrittenGrows(s, step, q);
  }

  lemma ReaderMoves(s: System, step: Step, q: ProcId, chunks: seq<string>)
    requires SystemInv(s) && Enabled(s, step) && q in s.clients
    requires ReaderOk(WrittenTo(s, q), TakenBy(s, q), chunks)
    requires step == Take(q) ==> TakenBy(s, q) < |Drain("", chunks).0|
    ensures ReaderOk(WrittenTo(Next(s, step), q), TakenBy(Next(s, step), q), chunks)
  {
    TakenMoves(s, step, q);
    WrittenGrows(s, step, q);
    ReaderGrows(WrittenTo(s, q), TakenBy(s, q), chunks, WrittenBy(s, step, q));
  }

  lemma NewReader(s: System, addr: Address)
    requires SystemInv(s) && Enabled(s, Connect(addr))
    ensures var t, id := AfterConnect(s, addr), s.server.idCounter + 1;
            ReaderOk(WrittenTo(t, id), TakenBy(t, id), [])
  {
    var t, id := AfterConnect(s, addr), s.server.idCounter + 1;
    assert WrittenTo(t, id) == t.server.streams[id] == [Registry(Connection(id))];
  }

  lemma SameClients(s: System, step: Step)
    requires SystemInv(s) && Enabled(s, step)
    ensures Next(s, step).clients.Keys ==
              if step.Connect? then s.clients.Keys + {s.server.idCounter + 1} else s.clients.Keys
  {
  }

  lemma ReaderAfter(b: ByteSystem, step: Step, n: nat, q: ProcId)
    requires SystemInv(b.system) && ReadersOk(b) && Possible(b, Move(step), n)
    requires q in ByteNext(b, Move(step), n).chunks
    ensures var c := ByteNext(b, Move(step), n);
            ReaderOk(WrittenTo(c.system, q), TakenBy(c.system, q), c.chunks[q])
  {
    if step.Connect? && q == b.system.server.idCounter + 1 {
      NewReader(b.system, step.addr);
    } else {
      ReaderMoves(b.system, step, q, b.chunks[q]);
    }
  }

  lemma MoveKeepsReaders(b: ByteSystem, step: Step, n: nat)
    requires SystemInv(b.system) && ReadersOk(b) && Possible(b, Move(step), n)
    ensures ReadersOk(ByteNext(b, Move(step), n))
  {
    var c := ByteNext(b, Move(step), n);
    assert c.chunks.Keys == c.system.clients.Keys by {
      SameClients(b.system, step);
    }
    forall q | q in c.chunks ensures ReaderOk(WrittenTo(c.system, q), TakenBy(c.system, q), c.chunks[q]) {
      ReaderAfter(b, step, n, q);
    }
  }

  lemma {:induction false} BytesKeepReaders(b: ByteSystem, es: seq<ByteStep>, c: ByteSystem, n: nat)
    requires SystemInv(b.system) && ReadersOk(b) && ByteReaches(b, es, c, n) && n <= GRANT_SPACING
    ensures ReadersOk(c)
    decreases |es|
  {
    if es != [] {
      if es[0].Fetch? {
        FetchKeepsReaders(b, es[0].p, es[0].chunk, n);
      } else {
        MoveKeepsReaders(b, es[0].step, n);
        StepKeepsInv(b.system, es[0].step);
      }
      BytesKeepReaders(ByteNext(b, es[0], n), es[1..], c, n);
    }
  }

  lemma ReaderHears(ms: seq<Message>, k: nat, chunks: seq<string>)
    requires ReaderOk(ms, k, chunks)
    ensures var (lines, carry) := Drain("", chunks);
            && '\n' !in carry && |lines| <= |ms|
            && (forall i :: 0 <= i < |lines| ==> Decode(Some(lines[i])) == Ok(ms[i]))
            && (Concat(chunks) == Join(Bodies(ms)) ==> |lines| == |ms|)
  {
    StallsExactlyWhen(chunks);
    MessagesInOrder(ms, chunks);
    if Concat(chunks) == Join(Bodies(ms)) {
      assert ms[..|ms|] == ms;
      CompleteFrames(ms, Concat(chunks), |ms|);
      ExtraNewlines(chunks);
      DrainCount("", chunks);
    }
  }

  // With reads of at most 40 bytes, in every reachable state: no complete line is left in the carry-over, the
  // calls that returned returned the messages written, in order, and once everything written was read, every
  // message was returned.
  lemma ReadsNeverStall(b: ByteSystem, es: seq<ByteStep>, c: ByteSystem, n: nat, p: ProcId)
    requires ByteInit(b) && ByteReaches(b, es, c, n) && n <= GRANT_SPACING && p in c.chunks
    ensures var ms := WrittenTo(c.system, p);
            var (lines, carry) := Drain("", c.chunks[p]);
            && '\n' !in carry && |lines| <= |ms|
            && (forall i :: 0 <= i < |lines| ==> Decode(Some(lines[i])) == Ok(ms[i]))
            && (Concat(c.chunks[p]) == Join(Bodies(ms)) ==> |lines| == |ms|)
  {
    InitHolds(b.system);
    BytesKeepReaders(b, es, c, n);
    ReaderHears(WrittenTo(c.system, p), TakenBy(c.system, p), c.chunks[p]);
  }
}
