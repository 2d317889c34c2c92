/// What one event does to a registry server, as a function of its state (src/registry_server.rs).
///
/// A stream is the list of messages written to it that nobody has read yet.  The holder that an immediate
/// read reports is chosen by the hash set; it is the parameter pick.

module ServerSpec {
  import opened Common
  import opened Protocol
  import opened LockSpec
  import opened Json

  const BACKUP_TOKEN: ProcId := 999
  const PRIMARY_TOKEN: ProcId := 1000

  datatype ServerError =
    | SerializationError(text: string)
    | UnexpectedRequest
    | AccessManager(error: AccessError)
    | InvalidToken(token: ProcId)
    | UnknownHolder(token: ProcId)
    | StopRequested

  datatype Server = Server(
    manager: Manager,
    streams: map<ProcId, seq<Message>>,
    addrs: map<ProcId, Address>,
    backup: Option<seq<Message>>,
    firstConnection: bool,
    idCounter: nat,
    requestCounter: nat)

  function AccessErrorText(e: AccessError): string {
    match e
    case RequestAccess(p, key) =>
      "could not grant access request for proc: " + Digits(p) + ", with key: " + Digits(key)
    case ReleaseAccess(p, key) =>
      "could not release access for proc: " + Digits(p) + ", with key: " + Digits(key)
    case KeyAccessed => "key currently accessed"
    case KeyExists(key) => "key already exist: " + Digits(key)
    case KeyNotFound(key) => "key not found: " + Digits(key)
  }

  function ErrorText(e: ServerError): string {
    match e
    case SerializationError(text) => "Serialization error: " + text
    case UnexpectedRequest => "Unexpected request"
    case AccessManager(error) => "Access manager error: " + AccessErrorText(error)
    case InvalidToken(token) => "Invalid Token(" + Digits(token) + ")"
    case UnknownHolder(token) => "Unknown data holder Token(" + Digits(token) + ")"
    case StopRequested => "Stop requested"
  }

  function AsOp(m: Message): Option<Op> {
    if m.Registry? && m.registry.Request? then Some(Op(m.registry.proc, m.registry.kind, m.registry.key)) else None
  }

  // The holder an immediate read may report: a reader of the key after the read.
  predicate MayReport(m: Manager, op: Op, pick: ProcId) {
    var (after, outcome) := Apply(m, op);
    outcome.Granted? && op.kind.Read? ==> op.key in after.keys && pick in after.keys[op.key].readers
  }

  function Answer(addrs: map<ProcId, Address>, op: Op, outcome: Outcome, pick: ProcId)
    : Result<RegistryResponse, ServerError>
  {
    match outcome
    case Refused(e) => Err(AccessManager(e))
    case Queued => Ok(Wait(op.key))
    case Done => Ok(Success(op.key))
    case Granted =>
      if op.kind.Write? then Ok(Success(op.key))
      else if pick in addrs then Ok(Holder(op.key, addrs[pick]))
      else Err(UnknownHolder(pick))
  }

  function HandleMessage(s: Server, msg: Message, pick: ProcId): (Server, Result<RegistryResponse, ServerError>) {
    if msg == Registry(StopRequest) then (s, Err(StopRequested))
    else if msg.Registry? && msg.registry.ConnectionEstablished? then (s, Ok(Ack))
    else if AsOp(msg).Some? then
      var (m, outcome) := Apply(s.manager, AsOp(msg).value);
      (s.(manager := m), Answer(s.addrs, AsOp(msg).value, outcome, pick))
    else (s, Err(UnexpectedRequest))
  }

  function Frame(response: RegistryResponse): Message {
    Registry(Response(response))
  }

  function HandleResponse(s: Server, token: ProcId, response: RegistryResponse): (Server, Option<ServerError>) {
    if token in s.streams then
      (s.(streams := s.streams[token := s.streams[token] + [Frame(response)]]), None)
    else (s, Some(InvalidToken(token)))
  }

  function GrantResponse(s: Server, g: Grant): Result<RegistryResponse, ServerError> {
    if g.kind.Write? then Ok(Success(g.key))
    else if g.holder in s.addrs then Ok(Holder(g.key, s.addrs[g.holder]))
    else Err(UnknownHolder(g.holder))
  }

  // Notifies the processes whose requests left the queue.  An unresolved holder abandons the rest.
  function Deliver(s: Server, grants: seq<Grant>): (Server, Option<ServerError>)
    decreases |grants|
  {
    if grants == [] then (s, None)
    else
      match GrantResponse(s, grants[0])
      case Err(e) => (s, Some(e))
      case Ok(response) => Deliver(HandleResponse(s, grants[0].proc, response).0, grants[1..])
  }

  function Forward(s: Server, msg: Message): Server {
    match s.backup
    case None => s
    case Some(link) => s.(backup := Some(link + [msg]))
  }

  // Empties the channel and notifies.
  function GrantPending(s: Server): (Server, Option<ServerError>) {
    Deliver(s.(manager := s.manager.(channel := [])), s.manager.channel)
  }

  // After a request took effect: answer, notify, and only then forward.
  function Complete(s: Server, token: ProcId, msg: Message, response: RegistryResponse): (Server, Option<ServerError>) {
    var (answered, lost) := HandleResponse(s, token, response);
    if lost.Some? then (answered, lost)
    else
      var (notified, failure) := GrantPending(answered);
      if failure.Some? then (notified, failure)
      else
        var forwarded := Forward(notified, msg);
        (forwarded.(requestCounter := forwarded.requestCounter + 1), None)
  }

  function HandleRequest(s: Server, token: ProcId, parsed: Result<Message, string>, pick: ProcId)
    : (Server, Option<ServerError>)
  {
    match parsed
    case Err(text) => (s, Some(SerializationError(text)))
    case Ok(msg) =>
      var (s1, result) := HandleMessage(s, msg, pick);
      match result
      case Err(e) => (s1, Some(e))
      case Ok(response) => Complete(s1, token, msg, response)
  }

  // One readable event that brought one message.  The stream of the backup server is never answered.
  function HandleData(s: Server, token: ProcId, parsed: Result<Message, string>, pick: ProcId)
    : (Server, Option<ServerError>)
  {
    if token == BACKUP_TOKEN then (s, None)
    else
      var (s1, failure) := HandleRequest(s, token, parsed, pick);
      match failure
      case None => (s1, None)
      case Some(StopRequested) => (s1, failure)
      case Some(e) => HandleResponse(s1, token, Error(ErrorText(e)))
  }

  // A server without a backup takes its first connection for the primary server.
  function HandleConnection(s: Server, addr: Address): Server {
    if s.backup.None? && s.firstConnection then
      s.(firstConnection := false, streams := s.streams[PRIMARY_TOKEN := []])
    else
      var id := s.idCounter + 1;
      Forward(s.(idCounter := id, streams := s.streams[id := [Registry(Connection(id))]], addrs := s.addrs[id := addr]),
              Registry(ConnectionEstablished(id)))
  }

  function RemoveClient(s: Server, token: ProcId): Server {
    s.(streams := s.streams - {token}, addrs := s.addrs - {token})
  }
}
