/// Newline framing on the client side: ProtocolClient::receive_message (src/protocol_client.rs).
///
/// A stream is the list of chunks its successive reads return.  A call always reads before it looks at
/// what is already buffered, so it can block although a whole line is there.  This file says exactly when.

module Framing {
  import opened Common
  import opened Protocol
  import opened Wire

  // The size of one read.
  const BUFFER: nat := 32

  datatype ReceiveError = IoError | SerializationError | MissingNewline

  function Concat(chunks: seq<string>): string {
    if chunks == [] then [] else chunks[0] + Concat(chunks[1..])
  }

  // The position of the first newline, or the length.
  function FirstNewline(s: string): (i: nat)
    ensures i <= |s|
    ensures i < |s| ==> s[i] == '\n'
    ensures forall j :: 0 <= j < i ==> s[j] != '\n'
  {
    if s == [] || s[0] == '\n' then 0 else 1 + FirstNewline(s[1..])
  }

  function Newlines(s: string): nat {
    if s == [] then 0 else (if s[0] == '\n' then 1 else 0) + Newlines(s[1..])
  }

  // What one call leaves behind: the line it found, the carry-over and the reads still to come.
  datatype Receipt = Receipt(line: Option<string>, carry: string, chunks: seq<string>)

  function Receive(carry: string, chunks: seq<string>): (r: Receipt)
    ensures r.line.Some? ==> |r.chunks| < |chunks|
    decreases |chunks|
  {
    if chunks == [] then Receipt(None, carry, [])
    else
      var c := carry + chunks[0];
      if '\n' in chunks[0] then
        var i := FirstNewline(c);
        HasNewline(carry, chunks[0]);
        Receipt(Some(c[..i]), c[i + 1..], chunks[1..])
      else Receive(c, chunks[1..])
  }

  lemma HasNewline(carry: string, chunk: string)
    requires '\n' in chunk
    ensures FirstNewline(carry + chunk) < |carry + chunk|
  {
    var j :| 0 <= j < |chunk| && chunk[j] == '\n';
    assert (carry + chunk)[|carry| + j] == '\n';
  }

  function Decode(line: Option<string>): Result<Message, ReceiveError> {
    match line
    case None => Err(IoError)
    case Some(l) =>
      match FromSlice(l)
      case None => Err(SerializationError)
      case Some(m) => Ok(m)
  }

  class FrameReader {
    // The chunks the socket will return; when they run out the read times out.
    var stream: seq<string>
    var currData: string

    constructor (stream: seq<string>)
      ensures this.stream == stream && currData == ""
    {
      this.stream, currData := stream, "";
    }

    // Never answers MissingNewline.
    method ReceiveMessage() returns (r: Result<Message, ReceiveError>)
      modifies this
      ensures currData == Receive(old(currData), old(stream)).carry
      ensures stream == Receive(old(currData), old(stream)).chunks
      ensures r == Decode(Receive(old(currData), old(stream)).line)
    {
      ghost var before := (currData, stream);
      while true
        invariant Receive(currData, stream) == Receive(old(currData), old(stream))
        decreases |stream|
      {
        if stream == [] {
          return Err(IoError);
        }
        before := (currData, stream);
        var buffer := stream[0];
        stream := stream[1..];
        currData := currData + buffer;
        if '\n' in buffer {
          HasNewline(before.0, buffer);
          break;
        }
      }
      var index := FirstNewline(currData);
      if index == |currData| {
        return Err(MissingNewline);
      }
      var data := currData[..index];
      currData := currData[index + 1..];
      r := Decode(Some(data));
    }
  }

  // Calling until a call blocks: the lines returned and the carry-over at that point.
  function Drain(carry: string, chunks: seq<string>): (seq<string>, string)
    decreases |chunks|
  {
    var x := Receive(carry, chunks);
    match x.line
    case None => ([], x.carry)
    case Some(l) =>
      var rest := Drain(x.carry, x.chunks);
      ([l] + rest.0, rest.1)
  }

  // Lines with their newlines.
  function Join(lines: seq<string>): string {
    if lines == [] then [] else lines[0] + ['\n'] + Join(lines[1..])
  }

  predicate OneLine(s: string) {
    forall i :: 0 <= i < |s| ==> s[i] != '\n'
  }

  predicate OneLineEach(lines: seq<string>) {
    forall i :: 0 <= i < |lines| ==> OneLine(lines[i])
  }

  // ---------------------------------------------------------------------------------- conservation

  lemma {:induction false} ReceiveConserves(carry: string, chunks: seq<string>)
    ensures var x := Receive(carry, chunks);
            match x.line
            case None => x.carry == carry + Concat(chunks) && x.chunks == []
            case Some(l) => OneLine(l) && l + ['\n'] + x.carry + Concat(x.chunks) == carry + Concat(chunks)
    decreases |chunks|
  {
    if chunks == [] {
      assert carry + [] == carry;
    } else {
      var c := carry + chunks[0];
      assert carry + Concat(chunks) == c + Concat(chunks[1..]);
      if '\n' in chunks[0] {
        HasNewline(carry, chunks[0]);
        var i := FirstNewline(c);
        assert c == c[..i] + ['\n'] + c[i + 1..];
        assert c[..i] + ['\n'] + c[i + 1..] + Concat(chunks[1..]) == c + Concat(chunks[1..]);
      } else {
        ReceiveConserves(c, chunks[1..]);
      }
    }
  }

  // However the bytes are chunked, none is lost, none is invented and none changes place.
  lemma {:induction false} DrainConserves(carry: string, chunks: seq<string>)
    ensures OneLineEach(Drain(carry, chunks).0)
    ensures Join(Drain(carry, chunks).0) + Drain(carry, chunks).1 == carry + Concat(chunks)
    decreases |chunks|
  {
    var x := Receive(carry, chunks);
    ReceiveConserves(carry, chunks);
    match x.line
    case None =>
      assert [] + x.carry == x.carry;
    case Some(l) =>
      DrainConserves(x.carry, x.chunks);
      var rest := Drain(x.carry, x.chunks);
      assert ([l] + rest.0)[1..] == rest.0;
      assert l + ['\n'] + Join(rest.0) + rest.1 == l + ['\n'] + (Join(rest.0) + rest.1);
      assert l + ['\n'] + (x.carry + Concat(x.chunks)) == l + ['\n'] + x.carry + Concat(x.chunks);
  }

  // ---------------------------------------------------------------------------------- stalling

  function Bearing(chunks: seq<string>): nat {
    if chunks == [] then 0 else (if '\n' in chunks[0] then 1 else 0) + Bearing(chunks[1..])
  }

  lemma {:induction false} ReceiveBears(carry: string, chunks: seq<string>)
    ensures var x := Receive(carry, chunks);
            Bearing(chunks) == if x.line.Some? then 1 + Bearing(x.chunks) else 0
    decreases |chunks|
  {
    if chunks != [] && '\n' !in chunks[0] {
      ReceiveBears(carry + chunks[0], chunks[1..]);
    }
  }

  // Each call that returns uses up exactly one read that holds a newline, whatever was buffered before.
  lemma {:induction false} DrainCount(carry: string, chunks: seq<string>)
    ensures |Drain(carry, chunks).0| == Bearing(chunks)
    decreases |chunks|
  {
    ReceiveBears(carry, chunks);
    var x := Receive(carry, chunks);
    if x.line.Some? {
      DrainCount(x.carry, x.chunks);
    }
  }

  lemma {:induction false} NewlinesAppend(a: string, b: string)
    ensures Newlines(a + b) == Newlines(a) + Newlines(b)
  {
    if a == [] {
      assert a + b == b;
    } else {
      NewlinesAppend(a[1..], b);
      assert (a + b)[1..] == a[1..] + b;
    }
  }

  lemma {:induction false} NewlinesZero(s: string)
    ensures Newlines(s) == 0 <==> '\n' !in s
  {
    if s != [] {
      NewlinesZero(s[1..]);
      assert s == [s[0]] + s[1..];
    }
  }

  lemma {:induction false} NewlinesJoin(lines: seq<string>)
    requires OneLineEach(lines)
    ensures Newlines(Join(lines)) == |lines|
  {
    if lines != [] {
      NewlinesJoin(lines[1..]);
      NewlinesAppend(lines[0] + ['\n'], Join(lines[1..]));
      NewlinesAppend(lines[0], ['\n']);
      NewlinesZero(lines[0]);
      assert Newlines(['\n']) == 1;
    }
  }

  lemma {:induction false} ExtraNewlines(chunks: seq<string>)
    ensures Newlines(Concat(chunks)) >= Bearing(chunks)
    ensures Newlines(Concat(chunks)) == Bearing(chunks) <==>
              forall i :: 0 <= i < |chunks| ==> Newlines(chunks[i]) <= 1
  {
    if chunks != [] {
      ExtraNewlines(chunks[1..]);
      NewlinesAppend(chunks[0], Concat(chunks[1..]));
      NewlinesZero(chunks[0]);
      if forall i :: 0 <= i < |chunks| ==> Newlines(chunks[i]) <= 1 {
        forall i | 0 <= i < |chunks[1..]| ensures Newlines(chunks[1..][i]) <= 1 {
          assert chunks[1..][i] == chunks[i + 1];
        }
      } else {
        var i :| 0 <= i < |chunks| && Newlines(chunks[i]) > 1;
        assert i > 0 ==> chunks[1..][i - 1] == chunks[i];
      }
    }
  }

  // A call blocks with a whole line already buffered exactly when some read held two newlines.
  lemma StallsExactlyWhen(chunks: seq<string>)
    ensures '\n' !in Drain("", chunks).1 <==> forall i :: 0 <= i < |chunks| ==> Newlines(chunks[i]) <= 1
  {
    var (lines, left) := Drain("", chunks);
    DrainConserves("", chunks);
    assert "" + Concat(chunks) == Concat(chunks);
    DrainCount("", chunks);
    NewlinesAppend(Join(lines), left);
    NewlinesJoin(lines);
    NewlinesZero(left);
    ExtraNewlines(chunks);
  }

  // Any two newlines are at least n bytes apart.
  ghost predicate Spaced(bytes: string, n: nat) {
    forall i, j :: 0 <= i < j < |bytes| && bytes[i] == '\n' && bytes[j] == '\n' ==> j - i >= n
  }

  predicate Chunking(chunks: seq<string>, bytes: string, n: nat) {
    Concat(chunks) == bytes && forall i :: 0 <= i < |chunks| ==> |chunks[i]| <= n
  }

  lemma {:induction false} TwoNewlines(s: string)
    ensures Newlines(s) > 1 <==> exists i, j :: 0 <= i < j < |s| && s[i] == '\n' && s[j] == '\n'
  {
    if s != [] {
      var t := s[1..];
      TwoNewlines(t);
      NewlinesZero(t);
      if Newlines(s) > 1 {
        if s[0] == '\n' {
          var j :| 0 <= j < |t| && t[j] == '\n';
          assert s[0] == '\n' && s[j + 1] == '\n';
        } else {
          var i, j :| 0 <= i < j < |t| && t[i] == '\n' && t[j] == '\n';
          assert s[i + 1] == '\n' && s[j + 1] == '\n';
        }
      } else if i, j :| 0 <= i < j < |s| && s[i] == '\n' && s[j] == '\n' {
        assert t[j - 1] == '\n';
        assert i > 0 ==> t[i - 1] == '\n';
      }
    }
  }

  // A read is a window of the bytes.
  lemma {:induction false} ReadIsWindow(chunks: seq<string>, k: nat) returns (at: nat)
    requires k < |chunks|
    ensures at + |chunks[k]| <= |Concat(chunks)|
    ensures forall i :: 0 <= i < |chunks[k]| ==> Concat(chunks)[at + i] == chunks[k][i]
  {
    if k == 0 {
      at := 0;
    } else {
      var rest := ReadIsWindow(chunks[1..], k - 1);
      assert Concat(chunks) == chunks[0] + Concat(chunks[1..]);
      at := |chunks[0]| + rest;
    }
  }

  lemma WindowSpaced(bytes: string, chunk: string, at: nat, n: nat)
    requires Spaced(bytes, n) && at + |chunk| <= |bytes|
    requires forall i :: 0 <= i < |chunk| ==> bytes[at + i] == chunk[i]
    ensures Spaced(chunk, n)
  {
    forall i, j | 0 <= i < j < |chunk| && chunk[i] == '\n' && chunk[j] == '\n' ensures j - i >= n {
      assert bytes[at + i] == '\n' && bytes[at + j] == '\n';
    }
  }

  lemma SpacedReads(chunks: seq<string>, bytes: string, n: nat)
    requires Chunking(chunks, bytes, n) && Spaced(bytes, n)
    ensures forall k :: 0 <= k < |chunks| ==> Newlines(chunks[k]) <= 1
  {
    forall k | 0 <= k < |chunks| ensures Newlines(chunks[k]) <= 1 {
      var at := ReadIsWindow(chunks, k);
      WindowSpaced(bytes, chunks[k], at, n);
      TwoNewlines(chunks[k]);
    }
  }

  function Singles(s: string): seq<string> {
    seq(|s|, i requires 0 <= i < |s| => [s[i]])
  }

  lemma {:induction false} ConcatSingles(s: string)
    ensures Concat(Singles(s)) == s
  {
    if s != [] {
      ConcatSingles(s[1..]);
      assert Singles(s)[1..] == Singles(s[1..]);
    }
  }

  lemma {:induction false} ConcatAppend(a: seq<string>, b: seq<string>)
    ensures Concat(a + b) == Concat(a) + Concat(b)
  {
    if a == [] {
      assert a + b == b;
    } else {
      ConcatAppend(a[1..], b);
      assert (a + b)[1..] == a[1..] + b;
      assert a[0] + (Concat(a[1..]) + Concat(b)) == (a[0] + Concat(a[1..])) + Concat(b);
    }
  }

  // Two newlines that fit in one read can be read together.
  lemma BadChunking(bytes: string, i: nat, j: nat, n: nat) returns (chunks: seq<string>)
    requires i < j < |bytes| && bytes[i] == '\n' && bytes[j] == '\n' && j - i < n
    ensures Chunking(chunks, bytes, n) && exists k :: 0 <= k < |chunks| && Newlines(chunks[k]) > 1
  {
    var window := bytes[i..j + 1];
    chunks := Singles(bytes[..i]) + ([window] + Singles(bytes[j + 1..]));
    ConcatAppend(Singles(bytes[..i]), [window] + Singles(bytes[j + 1..]));
    ConcatSingles(bytes[..i]);
    ConcatSingles(bytes[j + 1..]);
    assert ([window] + Singles(bytes[j + 1..]))[1..] == Singles(bytes[j + 1..]);
    assert bytes == bytes[..i] + (window + bytes[j + 1..]);
    TwoNewlines(window);
    assert window[0] == '\n' && window[j - i] == '\n';
    assert chunks[i] == window;
  }

  // The buffer size is safe for a byte stream, under every chunking, exactly when newlines are that far apart.
  lemma SafeBufferSize(bytes: string, n: nat)
    ensures (forall chunks :: Chunking(chunks, bytes, n) ==> '\n' !in Drain("", chunks).1) <==>
            Spaced(bytes, n)
  {
    if Spaced(bytes, n) {
      forall chunks | Chunking(chunks, bytes, n) ensures '\n' !in Drain("", chunks).1 {
        SpacedReads(chunks, bytes, n);
        StallsExactlyWhen(chunks);
      }
    } else {
      var i, j :| 0 <= i < j < |bytes| && bytes[i] == '\n' && bytes[j] == '\n' && j - i < n;
      var chunks := BadChunking(bytes, i, j, n);
      StallsExactlyWhen(chunks);
    }
  }

  // ---------------------------------------------------------------------------------- the registry's stream

  function Bodies(ms: seq<Message>): (bs: seq<string>)
    ensures |bs| == |ms|
    ensures forall i :: 0 <= i < |ms| ==> bs[i] == Body(ms[i])
  {
    seq(|ms|, i requires 0 <= i < |ms| => Body(ms[i]))
  }

  predicate IsConnection(m: Message) {
    m.Registry? && m.registry.Connection?
  }

  // A response that a client's request can get; Ack answers only the primary's notices to its backup.
  predicate IsReply(m: Message) {
    m.Registry? && m.registry.Response? && !m.registry.response.Ack?
  }

  // What the server writes to a client: the connection message, and then replies.
  ghost predicate ServerStream(ms: seq<Message>) {
    && (ms != [] ==> IsConnection(ms[0]))
    && forall i :: 1 <= i < |ms| ==> IsReply(ms[i])
  }

  // The shortest reply, and so the smallest distance of two newlines in a server stream: the connection message
  // may be shorter, but no newline precedes it.
  const SPACING: nat := 37

  ghost predicate LongEnough(bodies: seq<string>, n: nat) {
    OneLineEach(bodies) && forall i :: 0 <= i < |bodies| ==> |bodies[i]| + 1 >= n
  }

  ghost predicate LateNewlines(s: string, n: nat) {
    forall i :: 0 <= i < |s| && s[i] == '\n' ==> i + 1 >= n
  }

  lemma {:induction false} SpacedJoin(bodies: seq<string>, n: nat)
    requires LongEnough(bodies, n)
    ensures Spaced(Join(bodies), n) && LateNewlines(Join(bodies), n)
  {
    if bodies != [] {
      SpacedJoin(bodies[1..], n);
      SpacedCons(bodies[0], Join(bodies[1..]), n);
    }
  }

  lemma SpacedCons(line: string, rest: string, n: nat)
    requires OneLine(line) && Spaced(rest, n) && LateNewlines(rest, n)
    ensures Spaced(line + ['\n'] + rest, n) && LateNewlines(line + ['\n'] + rest, |line| + 1)
  {
    var s := line + ['\n'] + rest;
    forall i, j | 0 <= i < j < |s| && s[i] == '\n' && s[j] == '\n' ensures j - i >= n {
      assert i >= |line|;
      assert s[j] == rest[j - |line| - 1];
      if i > |line| {
        assert s[i] == rest[i - |line| - 1];
      }
    }
  }

  lemma BodiesOneLine(ms: seq<Message>)
    ensures OneLineEach(Bodies(ms))
  {
    forall i | 0 <= i < |ms| ensures OneLine(Bodies(ms)[i]) {
      BodyHasNoNewline(ms[i]);
    }
  }

  lemma StreamSpaced(ms: seq<Message>)
    requires ServerStream(ms)
    ensures Spaced(Join(Bodies(ms)), SPACING)
  {
    BodiesOneLine(ms);
    if ms != [] {
      var tail := Bodies(ms)[1..];
      forall i | 0 <= i < |tail| ensures |tail[i]| + 1 >= SPACING {
        assert tail[i] == Body(ms[i + 1]);
        ResponseFrameLength(ms[i + 1].registry.response);
      }
      SpacedJoin(tail, SPACING);
      SpacedCons(Bodies(ms)[0], Join(tail), SPACING);
    }
  }

  // Lines cut off the front of a joined text are its first lines.
  lemma {:induction false} SplitIsUnique(lines: seq<string>, left: string, bodies: seq<string>)
    requires OneLineEach(lines) && OneLineEach(bodies)
    requires Join(lines) + left <= Join(bodies)
    ensures |lines| <= |bodies| && lines == bodies[..|lines|]
  {
    if lines != [] {
      var s, t := Join(lines) + left, Join(bodies);
      var line := lines[0];
      assert s == line + ['\n'] + (Join(lines[1..]) + left);
      assert s[|line|] == '\n' && OneLine(s[..|line|]);
      assert FirstNewline(t) == |line|;
      var body := bodies[0];
      assert t == body + ['\n'] + Join(bodies[1..]);
      assert t[|body|] == '\n' && OneLine(t[..|body|]);
      assert FirstNewline(t) == |body|;
      assert line == s[..|line|] == t[..|body|] == body;
      assert Join(lines[1..]) + left == s[|line| + 1..] && Join(bodies[1..]) == t[|line| + 1..];
      SplitIsUnique(lines[1..], left, bodies[1..]);
      assert lines == [line] + lines[1..];
      assert bodies[..|lines|] == [body] + bodies[1..][..|lines| - 1];
    }
  }

  // Under every chunking, the k-th call that returns yields the k-th message.
  lemma MessagesInOrder(ms: seq<Message>, chunks: seq<string>)
    requires Concat(chunks) <= Join(Bodies(ms))
    ensures var lines := Drain("", chunks).0;
            |lines| <= |ms| && forall k :: 0 <= k < |lines| ==> Decode(Some(lines[k])) == Ok(ms[k])
  {
    BodiesOneLine(ms);
    DrainConserves("", chunks);
    assert "" + Concat(chunks) == Concat(chunks);
    var (lines, left) := Drain("", chunks);
    SplitIsUnique(lines, left, Bodies(ms));
    forall k | 0 <= k < |lines| ensures Decode(Some(lines[k])) == Ok(ms[k]) {
      RoundTrip(ms[k]);
    }
  }

  // Frames whose bytes are all there.
  lemma CompleteFrames(ms: seq<Message>, bytes: string, k: nat)
    requires k <= |ms| && Join(Bodies(ms[..k])) <= bytes
    ensures Newlines(bytes) >= k
  {
    var first := Join(Bodies(ms[..k]));
    BodiesOneLine(ms[..k]);
    NewlinesJoin(Bodies(ms[..k]));
    assert bytes == first + bytes[|first|..];
    NewlinesAppend(first, bytes[|first|..]);
  }

  // With reads of at most 37 bytes no call ever blocks on a frame that has arrived: as soon as the bytes of the
  // first k frames are there, k calls return, and the carry-over holds no complete line between calls.
  lemma NeverStalls(ms: seq<Message>, chunks: seq<string>, k: nat)
    requires ServerStream(ms) && k <= |ms|
    requires Join(Bodies(ms[..k])) <= Concat(chunks) <= Join(Bodies(ms))
    requires forall i :: 0 <= i < |chunks| ==> |chunks[i]| <= SPACING
    ensures |Drain("", chunks).0| >= k && '\n' !in Drain("", chunks).1
  {
    var bytes := Concat(chunks);
    StreamSpaced(ms);
    assert Spaced(bytes, SPACING);
    SpacedReads(chunks, bytes, SPACING);
    StallsExactlyWhen(chunks);
    ExtraNewlines(chunks);
    DrainCount("", chunks);
    CompleteFrames(ms, bytes, k);
  }

  // The stream of a client that was told to wait and then granted what it asked for.
  function ContendedStream(id: ProcId, key: KeyId): seq<Message> {
    [Registry(Connection(id)), Registry(Response(Wait(key))), Registry(Response(Success(key)))]
  }

  lemma Join3(a: string, b: string, c: string)
    ensures Join([a, b, c]) == a + ['\n'] + b + ['\n'] + c + ['\n']
  {
    assert [a, b, c][1..] == [b, c] && [b, c][1..] == [c] && [c][1..] == [];
    assert Join([c]) == c + ['\n'];
    assert Join([b, c]) == b + ['\n'] + (c + ['\n']);
    assert Join([a, b, c]) == a + ['\n'] + (b + ['\n'] + (c + ['\n']));
  }

  lemma ContendedBytes(id: ProcId, key: KeyId) returns (at: nat)
    requires key < 10
    ensures var bytes := Join(Bodies(ContendedStream(id, key)));
            at + 77 < |bytes| && bytes[at] == '\n' && bytes[at + 37] == '\n' && bytes[at + 77] == '\n'
    ensures at + 1 == |ToVec(Registry(Connection(id)))|
  {
    var ms := ContendedStream(id, key);
    ShortestFrames(ms[1].registry.response);
    ShortestFrames(ms[2].registry.response);
    assert Bodies(ms) == [Body(ms[0]), Body(ms[1]), Body(ms[2])];
    Join3(Body(ms[0]), Body(ms[1]), Body(ms[2]));
    at := |Body(ms[0])|;
  }

  // The exact size: 37 bytes are safe for every server stream under every chunking of its bytes, and one byte
  // more is not.  Chunkings that only occur if the server wrote ahead of the client are counted in; ByteLevel
  // leaves them out.
  lemma StreamBufferSize(n: nat)
    ensures (forall ms, chunks :: ServerStream(ms) && Chunking(chunks, Join(Bodies(ms)), n) ==>
               '\n' !in Drain("", chunks).1) <==> n <= SPACING
  {
    if n <= SPACING {
      forall ms, chunks | ServerStream(ms) && Chunking(chunks, Join(Bodies(ms)), n)
        ensures '\n' !in Drain("", chunks).1
      {
        assert ms[..|ms|] == ms;
        NeverStalls(ms, chunks, |ms|);
      }
    } else {
      var ms := ContendedStream(2, 7);
      var at := ContendedBytes(2, 7);
      var chunks := BadChunking(Join(Bodies(ms)), at, at + 37, n);
      StallsExactlyWhen(chunks);
      assert ServerStream(ms);
    }
  }
}
