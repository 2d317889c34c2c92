/// The blocking client calls of src/protocol_client.rs, as an automaton that takes one message at a time and
/// as the object whose methods play that automaton.

module ClientProtocol {
  import opened Common
  import opened Protocol
  import opened LockSpec
  import opened Wire
  import opened Framing

  datatype CallError = RegistryError(text: string) | WaitError(key: KeyId) | UnexpectedResponse

  // What a blocking call returns; a completed read carries the holder's address.
  type CallResult = Result<Option<Address>, CallError>

  // Where a client stands: before its id arrived, between calls, inside a call that got no answer yet, or
  // inside a call that was told to wait.  The code remembers the key of the Wait, not the one it asked for.
  datatype Status =
    | Connecting
    | Idle
    | Asked(kind: RequestType, key: KeyId)
    | Waiting(kind: RequestType, key: KeyId, waitKey: KeyId)

  datatype Reaction = Continue(next: Status) | Return(result: CallResult)

  function Classify(msg: Message): Result<RegistryResponse, CallError> {
    if msg.Registry? && msg.registry.Response? then
      match msg.registry.response
      case Error(text) => Err(RegistryError(text))
      case Wait(key) => Err(WaitError(key))
      case r => Ok(r)
    else Err(UnexpectedResponse)
  }

  // The answer to a read or write: the key it names and the holder's address.
  function Await(kind: RequestType, msg: Message): Result<(KeyId, Option<Address>), CallError> {
    match Classify(msg)
    case Err(e) => Err(e)
    case Ok(Holder(key, addr)) => if kind.Read? then Ok((key, Some(addr))) else Err(UnexpectedResponse)
    case Ok(Success(key)) => if kind.Write? then Ok((key, None)) else Err(UnexpectedResponse)
    case Ok(_) => Err(UnexpectedResponse)
  }

  function React(status: Status, msg: Message): Reaction
    requires status.Asked? || status.Waiting?
  {
    if status.Waiting? then
      match Await(status.kind, msg)
      case Err(e) => Return(Err(e))
      case Ok((key, addr)) => Return(if key == status.waitKey then Ok(addr) else Err(UnexpectedResponse))
    else if IsAccess(status.kind) then
      match Await(status.kind, msg)
      case Err(WaitError(key)) => Continue(Waiting(status.kind, status.key, key))
      case Err(e) => Return(Err(e))
      case Ok((_, addr)) => Return(Ok(addr))
    else
      match Classify(msg)
      case Err(e) => Return(Err(e))
      case Ok(r) => Return(if r == Success(status.key) then Ok(None) else Err(UnexpectedResponse))
  }

  // A whole call against what receive_message will return, in order.  A message that cannot be received counts
  // as an unexpected response, and running out of messages is a timeout.
  function Play(status: Status, inbox: seq<Result<Message, ReceiveError>>)
    : (CallResult, seq<Result<Message, ReceiveError>>)
    requires status.Asked? || status.Waiting?
    decreases |inbox|
  {
    if inbox == [] then (Err(UnexpectedResponse), [])
    else
      match inbox[0]
      case Err(_) => (Err(UnexpectedResponse), inbox[1..])
      case Ok(msg) =>
        match React(status, msg)
        case Return(r) => (r, inbox[1..])
        case Continue(next) => Play(next, inbox[1..])
  }

  function Heard(received: Result<Message, ReceiveError>): Result<RegistryResponse, CallError> {
    if received.Ok? then Classify(received.value) else Err(UnexpectedResponse)
  }

  function HeardGrant(kind: RequestType, received: Result<Message, ReceiveError>)
    : Result<(KeyId, Option<Address>), CallError>
  {
    if received.Ok? then Await(kind, received.value) else Err(UnexpectedResponse)
  }

  // One call takes the first of the messages to come, or finds none and stays without.
  lemma DrainStep(carry: string, chunks: seq<string>)
    ensures var x := Receive(carry, chunks);
            var inbox := Decoded(Drain(carry, chunks).0);
            var after := Decoded(Drain(x.carry, x.chunks).0);
            if x.line.Some? then inbox != [] && inbox[0] == Decode(x.line) && after == inbox[1..]
            else inbox == [] && after == []
  {
    var x := Receive(carry, chunks);
    if x.line.Some? {
      var rest := Drain(x.carry, x.chunks).0;
      assert Drain(carry, chunks).0 == [x.line.value] + rest;
      assert Decoded([x.line.value] + rest)[1..] == Decoded(rest);
    } else {
      ReceiveConserves(carry, chunks);
    }
  }

  // What a stream of chunks will yield, one message or decoding error per complete line.
  function Decoded(lines: seq<string>): (inbox: seq<Result<Message, ReceiveError>>)
    ensures |inbox| == |lines|
  {
    seq(|lines|, i requires 0 <= i < |lines| => Decode(Some(lines[i])))
  }

  class ProtocolClient {
    const procId: ProcId
    const reader: FrameReader
    // The bytes written to the registry.
    var outbox: string

    constructor (procId: ProcId, reader: FrameReader)
      ensures this.procId == procId && this.reader == reader && outbox == ""
    {
      this.procId, this.reader, outbox := procId, reader, "";
    }

    // What the calls to receive_message will return.
    ghost function Inbox(): seq<Result<Message, ReceiveError>>
      reads reader
    {
      Decoded(Drain(reader.currData, reader.stream).0)
    }

    // The first message on a new connection brings the client's id.
    static method HandleConnection(reader: FrameReader) returns (r: Result<ProcId, CallError>)
      modifies reader
      ensures var inbox := old(Decoded(Drain(reader.currData, reader.stream).0));
              && Decoded(Drain(reader.currData, reader.stream).0) == (if inbox == [] then [] else inbox[1..])
              && r == if inbox != [] && inbox[0].Ok? && inbox[0].value.Registry? && inbox[0].value.registry.Connection?
                      then Ok(inbox[0].value.registry.id) else Err(UnexpectedResponse)
    {
      DrainStep(reader.currData, reader.stream);
      var received := reader.ReceiveMessage();
      match received
      case Ok(Registry(Connection(id))) => r := Ok(id);
      case _ => r := Err(UnexpectedResponse);
    }

    method SendRequest(key: KeyId, kind: RequestType)
      modifies this`outbox
      ensures outbox == old(outbox) + ToVec(Registry(Request(procId, kind, key)))
    {
      outbox := outbox + ToVec(Registry(Request(procId, kind, key)));
    }

    method HandleResponse() returns (r: Result<RegistryResponse, CallError>)
      modifies reader
      ensures old(Inbox()) == [] ==> Inbox() == [] && r == Err(UnexpectedResponse)
      ensures old(Inbox()) != [] ==> Inbox() == old(Inbox())[1..] && r == Heard(old(Inbox())[0])
    {
      DrainStep(reader.currData, reader.stream);
      var received := reader.ReceiveMessage();
      match received
      case Ok(Registry(Response(Error(text)))) => r := Err(RegistryError(text));
      case Ok(Registry(Response(Wait(key)))) => r := Err(WaitError(key));
      case Ok(Registry(Response(resp))) => r := Ok(resp);
      case _ => r := Err(UnexpectedResponse);
    }

    method AwaitRead() returns (r: Result<(KeyId, Option<Address>), CallError>)
      modifies reader
      ensures old(Inbox()) == [] ==> Inbox() == [] && r == Err(UnexpectedResponse)
      ensures old(Inbox()) != [] ==> Inbox() == old(Inbox())[1..] && r == HeardGrant(Read, old(Inbox())[0])
      ensures forall k: KeyId, addr ::
                old(Inbox()) != [] && old(Inbox())[0] == Ok(Registry(Response(Holder(k, addr)))) ==>
                  r == Ok((k, Some(addr)))
    {
      var resp := HandleResponse();
      match resp
      case Ok(Holder(key, addr)) => r := Ok((key, Some(addr)));
      case Ok(_) => r := Err(UnexpectedResponse);
      case Err(e) => r := Err(e);
    }

    method AwaitWrite() returns (r: Result<(KeyId, Option<Address>), CallError>)
      modifies reader
      ensures old(Inbox()) == [] ==> Inbox() == [] && r == Err(UnexpectedResponse)
      ensures old(Inbox()) != [] ==> Inbox() == old(Inbox())[1..] && r == HeardGrant(Write, old(Inbox())[0])
    {
      var resp := HandleResponse();
      match resp
      case Ok(Success(key)) => r := Ok((key, None));
      case Ok(_) => r := Err(UnexpectedResponse);
      case Err(e) => r := Err(e);
    }

    method ExpectSuccess(ghost kind: RequestType, key: KeyId) returns (r: CallResult)
      requires !IsAccess(kind)
      modifies reader
      ensures (r, Inbox()) == Play(Asked(kind, key), old(Inbox()))
    {
      var resp := HandleResponse();
      match resp
      case Ok(Success(k)) => r := if k == key then Ok(None) else Err(UnexpectedResponse);
      case Ok(_) => r := Err(UnexpectedResponse);
      case Err(e) => r := Err(e);
    }

    method Create(key: KeyId) returns (r: CallResult)
      modifies this, reader
      ensures outbox == old(outbox) + ToVec(Registry(Request(procId, RequestType.Create, key)))
      ensures (r, Inbox()) == Play(Asked(RequestType.Create, key), old(Inbox()))
    {
      SendRequest(key, RequestType.Create);
      r := ExpectSuccess(RequestType.Create, key);
    }

    method Delete(key: KeyId) returns (r: CallResult)
      modifies this, reader
      ensures outbox == old(outbox) + ToVec(Registry(Request(procId, RequestType.Delete, key)))
      ensures (r, Inbox()) == Play(Asked(RequestType.Delete, key), old(Inbox()))
    {
      SendRequest(key, RequestType.Delete);
      r := ExpectSuccess(RequestType.Delete, key);
    }

    method Release(key: KeyId) returns (r: CallResult)
      modifies this, reader
      ensures outbox == old(outbox) + ToVec(Registry(Request(procId, RequestType.Release, key)))
      ensures (r, Inbox()) == Play(Asked(RequestType.Release, key), old(Inbox()))
    {
      SendRequest(key, RequestType.Release);
      r := ExpectSuccess(RequestType.Release, key);
    }

    method ReadSync(key: KeyId) returns (r: CallResult)
      modifies this, reader
      ensures outbox == old(outbox) + ToVec(Registry(Request(procId, Read, key)))
      ensures (r, Inbox()) == Play(Asked(Read, key), old(Inbox()))
      ensures forall k: KeyId, addr ::
                old(Inbox()) != [] && old(Inbox())[0] == Ok(Registry(Response(Holder(k, addr)))) ==> r == Ok(Some(addr))
    {
      SendRequest(key, Read);
      var first := AwaitRead();
      match first
      case Err(WaitError(waitKey)) =>
        var second := AwaitRead();
        match second {
          case Err(e) => r := Err(e);
          case Ok((k, addr)) => r := if waitKey != k then Err(UnexpectedResponse) else Ok(addr);
        }
      case Err(e) => r := Err(e);
      case Ok((_, addr)) => r := Ok(addr);
    }

    method WriteSync(key: KeyId) returns (r: CallResult)
      modifies this, reader
      ensures outbox == old(outbox) + ToVec(Registry(Request(procId, Write, key)))
      ensures (r, Inbox()) == Play(Asked(Write, key), old(Inbox()))
    {
      SendRequest(key, Write);
      var first := AwaitWrite();
      match first
      case Err(WaitError(waitKey)) =>
        var second := AwaitWrite();
        match second {
          case Err(e) => r := Err(e);
          case Ok((k, addr)) => r := if waitKey != k then Err(UnexpectedResponse) else Ok(addr);
        }
      case Err(e) => r := Err(e);
      case Ok((_, addr)) => r := Ok(addr);
    }
  }

  // ---------------------------------------------------------------------------------- the grammar of answers

  // A message that grants this access.
  predicate GrantFor(kind: RequestType, key: KeyId, msg: Message) {
    && msg.Registry? && msg.registry.Response?
    && if kind.Read? then msg.registry.response.Holder? && msg.registry.response.key == key
       else kind.Write? && msg.registry.response == Success(key)
  }

  // A message that settles the request at once.
  predicate Final(kind: RequestType, key: KeyId, msg: Message) {
    && msg.Registry? && msg.registry.Response?
    && (|| msg.registry.response.Error?
        || (if kind.Read? then msg.registry.response.Holder? && msg.registry.response.key == key
            else msg.registry.response == Success(key)))
  }

  // One settling answer, or Wait for this key and then the grant of this access.
  predicate WellAnswered(kind: RequestType, key: KeyId, answers: seq<Message>) {
    || (|answers| == 1 && Final(kind, key, answers[0]))
    || (|answers| == 2 && IsAccess(kind) && answers[0] == Registry(Response(Wait(key)))
        && GrantFor(kind, key, answers[1]))
  }

  function Received(ms: seq<Message>): (inbox: seq<Result<Message, ReceiveError>>)
    ensures |inbox| == |ms|
  {
    seq(|ms|, i requires 0 <= i < |ms| => Ok(ms[i]))
  }

  // What a call returns, from its last answer alone.
  predicate ResultFits(kind: RequestType, last: Message, r: CallResult) {
    && last.Registry? && last.registry.Response?
    && match last.registry.response
       case Error(text) => r == Err(RegistryError(text))
       case Holder(_, addr) => kind.Read? && r == Ok(Some(addr))
       case Success(_) => !kind.Read? && r == Ok(None)
       case _ => false
  }

  // A call that is answered by the grammar takes exactly its answers, never sees anything unexpected, and returns
  // what they say: the registry's error, the holder's address for a read, nothing for any other call.
  lemma AnswersAccepted(kind: RequestType, key: KeyId, answers: seq<Message>,
                        later: seq<Result<Message, ReceiveError>>)
    requires WellAnswered(kind, key, answers)
    ensures var (r, left) := Play(Asked(kind, key), Received(answers) + later);
            var last := answers[|answers| - 1].registry.response;
            && left == later
            && r == if last.Error? then Err(RegistryError(last.text))
                    else if kind.Read? then Ok(Some(last.addr))
                    else Ok(None)
  {
    var inbox := Received(answers) + later;
    if |answers| == 1 {
      assert inbox[0] == Ok(answers[0]) && inbox[1..] == later;
    } else {
      assert inbox[0] == Ok(answers[0]) && inbox[1..][0] == Ok(answers[1]) && inbox[1..][1..] == later;
    }
  }

  // ---------------------------------------------------------------------------------- every answer there can be

  // What a read makes of any first response, in the grammar or not.  The key of a first Holder is not looked at.
  lemma ReadAnswered(key: KeyId, resp: RegistryResponse, later: seq<Result<Message, ReceiveError>>)
    ensures var end := Play(Asked(Read, key), [Ok(Registry(Response(resp)))] + later);
            && (resp.Holder? ==> end == (Ok(Some(resp.addr)), later))
            && (resp.Error? ==> end == (Err(RegistryError(resp.text)), later))
            && (resp.Wait? ==> end == Play(Waiting(Read, key, resp.key), later))
            && (resp.Success? || resp.Ack? ==> end == (Err(UnexpectedResponse), later))
  {
    assert ([Ok(Registry(Response(resp)))] + later)[1..] == later;
  }

  // And of any second one, after a Wait: the holder must be that of the key of the Wait.
  lemma WaitingReadAnswered(key: KeyId, waitKey: KeyId, resp: RegistryResponse,
                            later: seq<Result<Message, ReceiveError>>)
    ensures var end := Play(Waiting(Read, key, waitKey), [Ok(Registry(Response(resp)))] + later);
            && (resp.Holder? && resp.key == waitKey ==> end == (Ok(Some(resp.addr)), later))
            && (resp.Holder? && resp.key != waitKey ==> end == (Err(UnexpectedResponse), later))
            && (resp.Error? ==> end == (Err(RegistryError(resp.text)), later))
            && (resp.Wait? ==> end == (Err(WaitError(resp.key)), later))
            && (resp.Success? || resp.Ack? ==> end == (Err(UnexpectedResponse), later))
  {
    assert ([Ok(Registry(Response(resp)))] + later)[1..] == later;
  }

  lemma WriteAnswered(key: KeyId, resp: RegistryResponse, later: seq<Result<Message, ReceiveError>>)
    ensures var end := Play(Asked(Write, key), [Ok(Registry(Response(resp)))] + later);
            && (resp.Success? ==> end == (Ok(None), later))
            && (resp.Error? ==> end == (Err(RegistryError(resp.text)), later))
            && (resp.Wait? ==> end == Play(Waiting(Write, key, resp.key), later))
            && (resp.Holder? || resp.Ack? ==> end == (Err(UnexpectedResponse), later))
  {
    assert ([Ok(Registry(Response(resp)))] + later)[1..] == later;
  }

  lemma WaitingWriteAnswered(key: KeyId, waitKey: KeyId, resp: RegistryResponse,
                             later: seq<Result<Message, ReceiveError>>)
    ensures var end := Play(Waiting(Write, key, waitKey), [Ok(Registry(Response(resp)))] + later);
            && (resp.Success? && resp.key == waitKey ==> end == (Ok(None), later))
            && (resp.Success? && resp.key != waitKey ==> end == (Err(UnexpectedResponse), later))
            && (resp.Error? ==> end == (Err(RegistryError(resp.text)), later))
            && (resp.Wait? ==> end == (Err(WaitError(resp.key)), later))
            && (resp.Holder? || resp.Ack? ==> end == (Err(UnexpectedResponse), later))
  {
    assert ([Ok(Registry(Response(resp)))] + later)[1..] == later;
  }

  // The calls that expect one success for their key.
  lemma PlainAnswered(kind: RequestType, key: KeyId, resp: RegistryResponse, later: seq<Result<Message, ReceiveError>>)
    requires kind.Create? || kind.Delete? || kind.Release?
    ensures var end := Play(Asked(kind, key), [Ok(Registry(Response(resp)))] + later);
            && (resp.Success? && resp.key == key ==> end == (Ok(None), later))
            && (resp.Success? && resp.key != key ==> end == (Err(UnexpectedResponse), later))
            && (resp.Error? ==> end == (Err(RegistryError(resp.text)), later))
            && (resp.Wait? ==> end == (Err(WaitError(resp.key)), later))
            && (resp.Holder? || resp.Ack? ==> end == (Err(UnexpectedResponse), later))
  {
    assert ([Ok(Registry(Response(resp)))] + later)[1..] == later;
  }

  // Anything but a response ends any call.
  lemma OtherAnswered(status: Status, msg: Message, later: seq<Result<Message, ReceiveError>>)
    requires status.Asked? || status.Waiting?
    requires !(msg.Registry? && msg.registry.Response?)
    ensures Play(status, [Ok(msg)] + later) == (Err(UnexpectedResponse), later)
  {
    assert ([Ok(msg)] + later)[1..] == later;
  }

  // A failed receive, such as a timeout, ends any call.
  lemma NotReceived(status: Status, e: ReceiveError, later: seq<Result<Message, ReceiveError>>)
    requires status.Asked? || status.Waiting?
    ensures Play(status, []) == (Err(UnexpectedResponse), [])
    ensures Play(status, [Err(e)] + later) == (Err(UnexpectedResponse), later)
  {
    assert ([Err(e)] + later)[1..] == later;
  }

  // Once a whole server stream has arrived in reads of at most 37 bytes, the calls to receive_message will
  // return its messages, all of them and nothing else.
  lemma WholeStreamIsHeard(ms: seq<Message>, chunks: seq<string>)
    requires ServerStream(ms) && Chunking(chunks, Join(Bodies(ms)), SPACING)
    ensures Decoded(Drain("", chunks).0) == Received(ms)
  {
    assert ms[..|ms|] == ms;
    NeverStalls(ms, chunks, |ms|);
    MessagesInOrder(ms, chunks);
  }
}
