/// The exact buffer size of receive_message (src/protocol_client.rs:111-114) in the running system: reads of at
/// most 40 bytes never leave a complete line unread, and reads of 41 bytes can block a client for good.

module BufferSize {
  import opened Common
  import opened Protocol
  import opened LockSpec
  import opened ServerSpec
  import opened Wire
  import opened ClientProtocol
  import opened RegistrySystem
  import opened RegistryTheorems
  import opened StreamHistory
  import opened Framing
  import opened ByteLevel
  import opened ContendedRun

  lemma BytesThen(b: ByteSystem, e: ByteStep, es: seq<ByteStep>, c: ByteSystem, n: nat)
    requires Possible(b, e, n) && ByteReaches(ByteNext(b, e, n), es, c, n)
    ensures ByteReaches(b, [e] + es, c, n)
  {
    assert ([e] + es)[0] == e && ([e] + es)[1..] == es;
  }

  lemma BytesOn(b: ByteSystem, es: seq<ByteStep>, fs: seq<ByteStep>, d: ByteSystem, n: nat)
    requires es != [] && Possible(b, es[0], n) && ByteReaches(ByteNext(b, es[0], n), es[1..] + fs, d, n)
    ensures ByteReaches(b, es + fs, d, n)
  {
    BytesThen(b, es[0], es[1..] + fs, d, n);
    assert es + fs == [es[0]] + (es[1..] + fs);
  }

  lemma {:induction false} BytesConcat(b: ByteSystem, es: seq<ByteStep>, c: ByteSystem, fs: seq<ByteStep>,
                                       d: ByteSystem, n: nat)
    requires ByteReaches(b, es, c, n) && ByteReaches(c, fs, d, n)
    ensures ByteReaches(b, es + fs, d, n)
    decreases |es|
  {
    if es == [] {
      assert es + fs == fs;
    } else {
      BytesConcat(ByteNext(b, es[0], n), es[1..], c, fs, d, n);
      BytesOn(b, es, fs, d, n);
    }
  }

  lemma OneByteStep(b: ByteSystem, e: ByteStep, n: nat)
    requires Possible(b, e, n)
    ensures ByteReaches(b, [e], ByteNext(b, e, n), n)
  {
    assert [e][1..] == [];
  }

  function WithChunks(b: ByteSystem, p: ProcId, chunks: seq<string>): ByteSystem {
    b.(chunks := b.chunks[p := chunks])
  }

  predicate Pieces(pieces: seq<string>, n: nat) {
    forall i :: 0 <= i < |pieces| ==> 0 < |pieces[i]| <= n
  }

  lemma FetchOne(b: ByteSystem, p: ProcId, piece: string, n: nat)
    requires p in b.chunks && 0 < |piece| <= n
    requires Concat(b.chunks[p] + [piece]) <= Join(Bodies(WrittenTo(b.system, p)))
    ensures Possible(b, Fetch(p, piece), n)
    ensures ByteNext(b, Fetch(p, piece), n) == WithChunks(b, p, b.chunks[p] + [piece])
  {
  }

  lemma PrefixConcat(a: seq<string>, b: seq<string>, bytes: string)
    requires Concat(a + b) <= bytes
    ensures Concat(a) <= bytes
  {
    ConcatAppend(a, b);
  }

  // Reading what was written piece by piece.
  lemma {:induction false} FetchAll(b: ByteSystem, p: ProcId, pieces: seq<string>, n: nat) returns (es: seq<ByteStep>)
    requires p in b.chunks && Pieces(pieces, n)
    requires Concat(b.chunks[p] + pieces) <= Join(Bodies(WrittenTo(b.system, p)))
    ensures ByteReaches(b, es, WithChunks(b, p, b.chunks[p] + pieces), n)
    decreases |pieces|
  {
    if pieces == [] {
      es := [];
      assert b.chunks[p] + pieces == b.chunks[p];
      assert WithChunks(b, p, b.chunks[p]) == b;
    } else {
      var now, rest := b.chunks[p] + [pieces[0]], pieces[1..];
      assert b.chunks[p] + pieces == now + rest;
      PrefixConcat(now, rest, Join(Bodies(WrittenTo(b.system, p))));
      FetchOne(b, p, pieces[0], n);
      var more := FetchAll(WithChunks(b, p, now), p, rest, n);
      assert WithChunks(WithChunks(b, p, now), p, now + rest) == WithChunks(b, p, b.chunks[p] + pieces);
      BytesThen(b, Fetch(p, pieces[0]), more, WithChunks(b, p, b.chunks[p] + pieces), n);
      es := [Fetch(p, pieces[0])] + more;
    }
  }

  // ---------------------------------------------------------------------------------- every run has its reads

  // The first k messages were read, and no read held two newlines.
  ghost predicate HasRead(ms: seq<Message>, k: nat, chunks: seq<string>) {
    k <= |ms| && Concat(chunks) == Join(Bodies(ms[..k])) && SingleReads(chunks)
  }

  lemma ReadCount(ms: seq<Message>, k: nat, chunks: seq<string>)
    requires HasRead(ms, k, chunks)
    ensures |Drain("", chunks).0| == k
  {
    BodiesOneLine(ms[..k]);
    NewlinesJoin(Bodies(ms[..k]));
    ExtraNewlines(chunks);
    DrainCount("", chunks);
  }

  lemma SinglesAreSingle(s: string)
    ensures Pieces(Singles(s), 1) && SingleReads(Singles(s)) && Concat(Singles(s)) == s
  {
    ConcatSingles(s);
    forall i | 0 <= i < |s| ensures Newlines(Singles(s)[i]) <= 1 {
      assert Singles(s)[i][1..] == [];
    }
  }

  lemma SingleReadsAppend(a: seq<string>, b: seq<string>)
    requires SingleReads(a) && SingleReads(b)
    ensures SingleReads(a + b)
  {
    forall i | 0 <= i < |a + b| ensures Newlines((a + b)[i]) <= 1 {
      assert (a + b)[i] == if i < |a| then a[i] else b[i - |a|];
    }
  }

  lemma JoinSnoc(bodies: seq<string>, body: string)
    ensures Join(bodies + [body]) == Join(bodies) + (body + ['\n'])
  {
    assert [body][1..] == [] && Join([body]) == body + ['\n'];
    JoinAppend(bodies, [body]);
  }

  lemma FirstFrames(ms: seq<Message>, k: nat)
    requires k < |ms|
    ensures Join(Bodies(ms[..k + 1])) == Join(Bodies(ms[..k])) + ToVec(ms[k])
  {
    assert ms[..k + 1] == ms[..k] + [ms[k]];
    BodiesAppend(ms[..k], [ms[k]]);
    assert Bodies([ms[k]]) == [Body(ms[k])];
    JoinSnoc(Bodies(ms[..k]), Body(ms[k]));
  }

  lemma FramesPrefix(ms: seq<Message>, k: nat)
    requires k <= |ms|
    ensures Join(Bodies(ms[..k])) <= Join(Bodies(ms))
  {
    assert ms == ms[..k] + ms[k..];
    BodiesAppend(ms[..k], ms[k..]);
    JoinAppend(Bodies(ms[..k]), Bodies(ms[k..]));
  }

  // Reading one more message byte by byte.
  lemma ReadOneMore(ms: seq<Message>, k: nat, chunks: seq<string>)
    requires HasRead(ms, k, chunks) && k < |ms|
    ensures HasRead(ms, k + 1, chunks + Singles(ToVec(ms[k])))
    ensures Concat(chunks + Singles(ToVec(ms[k]))) <= Join(Bodies(ms))
  {
    SinglesAreSingle(ToVec(ms[k]));
    ConcatAppend(chunks, Singles(ToVec(ms[k])));
    FirstFrames(ms, k);
    FramesPrefix(ms, k + 1);
    SingleReadsAppend(chunks, Singles(ToVec(ms[k])));
  }

  // Every client has read exactly what it took.
  ghost predicate CaughtUp(b: ByteSystem) {
    && b.chunks.Keys == b.system.clients.Keys
    && forall p :: p in b.chunks ==> HasRead(WrittenTo(b.system, p), TakenBy(b.system, p), b.chunks[p])
  }

  // The client that is about to take a message has read it.
  ghost predicate Ready(b: ByteSystem, step: Step) {
    && b.chunks.Keys == b.system.clients.Keys
    && forall p :: p in b.chunks ==>
         HasRead(WrittenTo(b.system, p), TakenBy(b.system, p) + (if step == Take(p) then 1 else 0), b.chunks[p])
  }

  lemma ReadyToTake(b: ByteSystem, p: ProcId, chunks: seq<string>)
    requires CaughtUp(b) && p in b.chunks && HasRead(WrittenTo(b.system, p), TakenBy(b.system, p) + 1, chunks)
    ensures Ready(WithChunks(b, p, chunks), Take(p))
  {
    var c := WithChunks(b, p, chunks);
    forall q | q in c.chunks
      ensures HasRead(WrittenTo(c.system, q), TakenBy(c.system, q) + (if Take(p) == Take(q) then 1 else 0), c.chunks[q])
    {
      if q != p {
        assert c.chunks[q] == b.chunks[q];
        assert HasRead(WrittenTo(b.system, q), TakenBy(b.system, q), b.chunks[q]);
      }
    }
  }

  // p reads the next message written to it, byte by byte.
  lemma FetchNext(b: ByteSystem, p: ProcId, n: nat) returns (es: seq<ByteStep>, c: ByteSystem)
    requires CaughtUp(b) && p in b.chunks && TakenBy(b.system, p) < |WrittenTo(b.system, p)| && n > 0
    ensures ByteReaches(b, es, c, n) && c.system == b.system && Ready(c, Take(p))
  {
    var ms, k := WrittenTo(b.system, p), TakenBy(b.system, p);
    var chunks := b.chunks[p] + Singles(ToVec(ms[k]));
    ReadOneMore(ms, k, b.chunks[p]);
    SinglesAreSingle(ToVec(ms[k]));
    es := FetchAll(b, p, Singles(ToVec(ms[k])), n);
    c := WithChunks(b, p, chunks);
    ReadyToTake(b, p, chunks);
  }

  lemma GetReady(b: ByteSystem, step: Step, n: nat) returns (es: seq<ByteStep>, c: ByteSystem)
    requires SystemInv(b.system) && CaughtUp(b) && Enabled(b.system, step) && n > 0
    ensures ByteReaches(b, es, c, n) && c.system == b.system && Ready(c, step)
  {
    if step.Take? {
      es, c := FetchNext(b, step.p, n);
    } else {
      es, c := [], b;
    }
  }

  lemma ReaderAfterMove(s: System, step: Step, q: ProcId, chunks: seq<string>)
    requires SystemInv(s) && Enabled(s, step) && q in s.clients
    requires HasRead(WrittenTo(s, q), TakenBy(s, q) + (if step == Take(q) then 1 else 0), chunks)
    ensures HasRead(WrittenTo(Next(s, step), q), TakenBy(Next(s, step), q), chunks)
  {
    TakenMoves(s, step, q);
    WrittenGrows(s, step, q);
    var ms, k := WrittenTo(s, q), TakenBy(Next(s, step), q);
    assert (ms + WrittenBy(s, step, q))[..k] == ms[..k];
  }

  lemma MoveIsPossible(b: ByteSystem, step: Step, n: nat)
    requires Ready(b, step) && Enabled(b.system, step)
    ensures Possible(b, Move(step), n)
  {
    if step.Take? {
      ReadCount(WrittenTo(b.system, step.p), TakenBy(b.system, step.p) + 1, b.chunks[step.p]);
    }
  }

  lemma NewcomerHasRead(s: System, addr: Address)
    requires SystemInv(s) && Enabled(s, Connect(addr))
    ensures var t, id := AfterConnect(s, addr), s.server.idCounter + 1;
            HasRead(WrittenTo(t, id), TakenBy(t, id), [])
  {
    var t, id := AfterConnect(s, addr), s.server.idCounter + 1;
    assert WrittenTo(t, id) == t.server.streams[id] == [Registry(Connection(id))];
    assert WrittenTo(t, id)[..0] == [];
  }

  lemma OldReader(b: ByteSystem, step: Step, q: ProcId)
    requires SystemInv(b.system) && Ready(b, step) && Enabled(b.system, step) && q in b.chunks
    ensures HasRead(WrittenTo(Next(b.system, step), q), TakenBy(Next(b.system, step), q), b.chunks[q])
  {
    ReaderAfterMove(b.system, step, q, b.chunks[q]);
  }

  lemma ReaderAfterMoving(b: ByteSystem, step: Step, n: nat, q: ProcId)
    requires SystemInv(b.system) && Ready(b, step) && Possible(b, Move(step), n)
    requires q in ByteNext(b, Move(step), n).chunks
    ensures var c := ByteNext(b, Move(step), n);
            HasRead(WrittenTo(c.system, q), TakenBy(c.system, q), c.chunks[q])
  {
    if step.Connect? && q == b.system.server.idCounter + 1 {
      NewcomerHasRead(b.system, step.addr);
    } else {
      OldReader(b, step, q);
    }
  }

  lemma MoveReady(b: ByteSystem, step: Step, n: nat)
    requires SystemInv(b.system) && Ready(b, step) && Possible(b, Move(step), n)
    ensures CaughtUp(ByteNext(b, Move(step), n))
  {
    var c := ByteNext(b, Move(step), n);
    assert c.chunks.Keys == c.system.clients.Keys by {
      SameClients(b.system, step);
    }
    forall q | q in c.chunks ensures HasRead(WrittenTo(c.system, q), TakenBy(c.system, q), c.chunks[q]) {
      ReaderAfterMoving(b, step, n, q);
    }
  }

  // Every run of the system is the message level of a run with reads, of any size.
  lemma {:induction false} RunHasReads(s: System, steps: seq<Step>, t: System, b: ByteSystem, n: nat)
    returns (es: seq<ByteStep>, c: ByteSystem)
    requires SystemInv(s) && Reaches(s, steps, t) && b.system == s && CaughtUp(b) && n > 0
    ensures ByteReaches(b, es, c, n) && c.system == t && CaughtUp(c)
    decreases |steps|
  {
    if steps == [] {
      es, c := [], b;
    } else {
      var step := steps[0];
      var first, ready := GetReady(b, step, n);
      MoveIsPossible(ready, step, n);
      MoveReady(ready, step, n);
      var moved := ByteNext(ready, Move(step), n);
      OneByteStep(ready, Move(step), n);
      StepKeepsInv(s, step);
      var rest;
      rest, c := RunHasReads(Next(s, step), steps[1..], t, moved, n);
      BytesConcat(ready, [Move(step)], moved, rest, c, n);
      BytesConcat(b, first, ready, [Move(step)] + rest, c, n);
      es := first + ([Move(step)] + rest);
    }
  }

  // ---------------------------------------------------------------------------------- 41 bytes are too many

  // The grant that p waits for has been read, everything written to p has been read, and no call returns it.
  ghost predicate Stuck(b: ByteSystem, p: ProcId) {
    && p in b.chunks && p in b.system.clients && p in b.system.server.streams
    && b.system.clients[p].status.Waiting?
    && |b.system.server.streams[p]| == 1
    && GrantFor(b.system.clients[p].status.kind, b.system.clients[p].status.key, b.system.server.streams[p][0])
    && Concat(b.chunks[p]) == Join(Bodies(WrittenTo(b.system, p)))
    && |Drain("", b.chunks[p]).0| == TakenBy(b.system, p)
    && '\n' in Drain("", b.chunks[p]).1
  }

  lemma {:induction false} BearingConcat(a: seq<string>, b: seq<string>)
    ensures Bearing(a + b) == Bearing(a) + Bearing(b)
  {
    if a == [] {
      assert a + b == b;
    } else {
      BearingConcat(a[1..], b);
      assert (a + b)[1..] == a[1..] + b;
    }
  }

  // A line without its newline, byte by byte.
  lemma LinePieces(body: string)
    requires OneLine(body)
    ensures Concat(Singles(body)) == body && Bearing(Singles(body)) == 0 && Pieces(Singles(body), 1)
  {
    SinglesAreSingle(body);
    ExtraNewlines(Singles(body));
    NewlinesZero(body);
  }

  // The last newline of a line together with the whole next line.
  lemma TwoAtOnce(frame: string)
    requires frame != [] && frame[|frame| - 1] == '\n'
    ensures Newlines(['\n'] + frame) > 1 && '\n' in ['\n'] + frame
  {
    var s := ['\n'] + frame;
    TwoNewlines(s);
    assert s[0] == '\n' && s[|frame|] == '\n';
  }

  // One line byte by byte but for its newline, and then that newline and the whole next line at once.
  function LatePieces(body: string, frame: string): seq<string> {
    Singles(body) + [['\n'] + frame]
  }

  lemma Rebracket(a: string, b: string, c: string, d: string)
    ensures a + (b + (c + d)) == a + (b + c) + d
  {
  }

  lemma LateBytes(chunks: seq<string>, body: string, frame: string)
    requires OneLine(body)
    ensures Concat(chunks + LatePieces(body, frame)) == Concat(chunks) + (body + ['\n']) + frame
  {
    var last := ['\n'] + frame;
    LinePieces(body);
    ConcatAppend(chunks, LatePieces(body, frame));
    ConcatAppend(Singles(body), [last]);
    assert Concat([last]) == last by { assert [last][1..] == []; }
    Rebracket(Concat(chunks), body, ['\n'], frame);
  }

  lemma LateStall(chunks: seq<string>, body: string, frame: string)
    requires OneLine(body) && frame != [] && frame[|frame| - 1] == '\n'
    ensures var all := chunks + LatePieces(body, frame);
            |Drain("", all).0| == |Drain("", chunks).0| + 1 && '\n' in Drain("", all).1
  {
    var last, all := ['\n'] + frame, chunks + LatePieces(body, frame);
    LinePieces(body);
    TwoAtOnce(frame);
    BearingConcat(chunks, LatePieces(body, frame));
    BearingAppend(Singles(body), last);
    DrainCount("", chunks);
    DrainCount("", all);
    assert all[|all| - 1] == last;
    StallsExactlyWhen(all);
  }

  lemma LatePiecesFit(body: string, frame: string)
    requires OneLine(body) && |frame| <= GRANT_SPACING
    ensures Pieces(LatePieces(body, frame), GRANT_SPACING + 1)
  {
    LinePieces(body);
  }

  lemma ThreeFrames(ms: seq<Message>)
    requires |ms| == 3
    ensures Join(Bodies(ms)) == Join(Bodies(ms[..1])) + ToVec(ms[1]) + ToVec(ms[2])
  {
    FirstFrames(ms, 1);
    FirstFrames(ms, 2);
    assert ms[..3] == ms;
  }

  lemma FrameEnds(m: Message)
    ensures OneLine(Body(m)) && ToVec(m) == Body(m) + ['\n'] && ToVec(m)[|ToVec(m)| - 1] == '\n'
  {
    BodyHasNoNewline(m);
  }

  lemma LateReads(id: ProcId, key: KeyId, chunks: seq<string>)
    returns (pieces: seq<string>)
    requires key < 10 && HasRead(ContendedStream(id, key), 1, chunks)
    ensures Pieces(pieces, GRANT_SPACING + 1)
    ensures Concat(chunks + pieces) == Join(Bodies(ContendedStream(id, key)))
    ensures |Drain("", chunks + pieces).0| == 2 && '\n' in Drain("", chunks + pieces).1
  {
    var ms := ContendedStream(id, key);
    var body, frame := Body(ms[1]), ToVec(ms[2]);
    pieces := LatePieces(body, frame);
    ShortestFrames(ms[2].registry.response);
    FrameEnds(ms[1]);
    FrameEnds(ms[2]);
    LatePiecesFit(body, frame);
    LateBytes(chunks, body, frame);
    LateStall(chunks, body, frame);
    ReadCount(ms, 1, chunks);
    ThreeFrames(ms);
  }

  lemma WaitTakenEffect(s: System)
    requires 2 in s.clients && s.clients[2].status == Asked(Write, 7)
    requires 2 in s.server.streams && s.server.streams[2] == [Frame(Wait(7)), Frame(Success(7))]
    ensures var t := AfterTake(s, 2);
            && 2 in t.clients && t.clients[2].status == Waiting(Write, 7, 7)
            && 2 in t.server.streams && t.server.streams[2] == [Frame(Success(7))]
  {
    assert React(Asked(Write, 7), Frame(Wait(7))) == Continue(Waiting(Write, 7, 7));
  }

  lemma WaitTaken(s: System)
    requires SystemInv(s) && Enabled(s, Take(2))
    ensures TakenBy(AfterTake(s, 2), 2) == TakenBy(s, 2) + 1 && WrittenTo(AfterTake(s, 2), 2) == WrittenTo(s, 2)
  {
    TakenMoves(s, Take(2), 2);
    WrittenGrows(s, Take(2), 2);
    assert WrittenTo(s, 2) + [] == WrittenTo(s, 2);
  }

  lemma EmptyStart() returns (b: ByteSystem)
    ensures ByteInit(b) && CaughtUp(b)
  {
    var server := Server(Manager(map[], []), map[], map[], Some([]), true, 0, 0);
    var backup := HandleConnection(Server(Manager(map[], []), map[], map[], None, true, 0, 0), "");
    b := ByteSystem(System(map[], map[], server, backup), map[]);
  }

  // Client 2 has read everything and taken nothing after the connection message.
  lemma ReadTooMuch(n: nat) returns (b: ByteSystem, es: seq<ByteStep>, c: ByteSystem)
    requires n > GRANT_SPACING
    ensures ByteInit(b) && ByteReaches(b, es, c, n) && SystemInv(c.system)
    ensures 2 in c.system.clients && c.system.clients[2].status == Asked(Write, 7) && TakenBy(c.system, 2) == 1
    ensures c.system.server.streams[2] == [Frame(Wait(7)), Frame(Success(7))]
    ensures 2 in c.chunks && Concat(c.chunks[2]) == Join(Bodies(WrittenTo(c.system, 2)))
    ensures |Drain("", c.chunks[2]).0| == 2 && '\n' in Drain("", c.chunks[2]).1
  {
    b := EmptyStart();
    InitHolds(b.system);
    var steps, t := GrantedBeforeRead(b.system);
    var first, d := RunHasReads(b.system, steps, t, b, n);
    RunKeepsInv(b.system, steps, t);
    var pieces := LateReads(2, 7, d.chunks[2]);
    var second := FetchAll(d, 2, pieces, n);
    c := WithChunks(d, 2, d.chunks[2] + pieces);
    es := first + second;
    BytesConcat(b, first, d, second, c, n);
  }

  // One byte more than 40 is too many: there is a run in which a waiting client has read its grant, and everything
  // else written to it, and no call returns the grant.
  lemma LargerBufferStalls(n: nat) returns (b: ByteSystem, es: seq<ByteStep>, c: ByteSystem)
    requires n > GRANT_SPACING
    ensures ByteInit(b) && ByteReaches(b, es, c, n) && Stuck(c, 2)
  {
    var first, d;
    b, first, d := ReadTooMuch(n);
    WaitTaken(d.system);
    WaitTakenEffect(d.system);
    c := ByteNext(d, Move(Take(2)), n);
    OneByteStep(d, Move(Take(2)), n);
    BytesConcat(b, first, d, [Move(Take(2))], c, n);
    es := first + [Move(Take(2))];
  }

  // No complete line is in the carry-over.
  predicate NothingLeft(chunks: seq<string>) {
    '\n' !in Drain("", chunks).1
  }

  ghost predicate SafeBuffer(n: nat) {
    forall b, es, c, p :: ByteInit(b) && ByteReaches(b, es, c, n) && p in c.chunks ==> NothingLeft(c.chunks[p])
  }

  lemma SmallIsSafe(n: nat)
    requires n <= GRANT_SPACING
    ensures SafeBuffer(n)
  {
    forall b, es, c, p | ByteInit(b) && ByteReaches(b, es, c, n) && p in c.chunks ensures NothingLeft(c.chunks[p]) {
      ReadsNeverStall(b, es, c, n, p);
    }
  }

  // The exact size: in the running system a complete line is never left unread exactly for buffers of up to 40
  // bytes.  The 32 bytes of the code are within it.
  lemma SafeBufferExactly(n: nat)
    ensures SafeBuffer(n) <==> n <= GRANT_SPACING
    ensures BUFFER <= GRANT_SPACING
  {
    if n <= GRANT_SPACING {
      SmallIsSafe(n);
    } else {
      var b, es, c := LargerBufferStalls(n);
      assert !NothingLeft(c.chunks[2]);
    }
  }
}
