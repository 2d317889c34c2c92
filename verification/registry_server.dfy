/// The registry server of src/registry_server.rs as an object; its methods do what ServerSpec says.

module RegistryServing {
  import opened Common
  import opened Protocol
  import opened LockSpec
  import opened AccessManagement
  import Spec = ServerSpec

  class RegistryServer {
    const accessManager: AccessManager
    var tokenStreamMap: map<ProcId, seq<Message>>
    var tokenAddrMap: map<ProcId, Address>
    var backupStream: Option<seq<Message>>
    var firstConnection: bool
    var idCounter: nat
    var requestCounter: nat

    ghost function Snapshot(): Spec.Server
      reads this, accessManager, accessManager.keyStates.Values
    {
      Spec.Server(accessManager.Snapshot(), tokenStreamMap, tokenAddrMap, backupStream, firstConnection, idCounter,
                  requestCounter)
    }

    ghost predicate Valid()
      reads accessManager, accessManager.keyStates.Values
    {
      accessManager.Valid()
    }

    constructor (withBackup: bool)
      ensures Valid() && fresh(accessManager) && fresh(accessManager.keyStates.Values)
      ensures Snapshot() ==
                Spec.Server(Manager(map[], []), map[], map[], if withBackup then Some([]) else None, true, 0, 0)
    {
      accessManager := new AccessManager();
      tokenStreamMap, tokenAddrMap := map[], map[];
      backupStream := if withBackup then Some([]) else None;
      firstConnection, idCounter, requestCounter := true, 0, 0;
    }

    method HandleConnection(addr: Address)
      requires Valid()
      modifies this
      ensures Valid() && Snapshot() == Spec.HandleConnection(old(Snapshot()), addr)
      ensures var primary, id := old(backupStream).None? && old(firstConnection), old(idCounter) + 1;
              && firstConnection == (old(firstConnection) && !primary)
              && idCounter == (if primary then old(idCounter) else id)
              && tokenAddrMap == (if primary then old(tokenAddrMap) else old(tokenAddrMap)[id := addr])
              && tokenStreamMap == (if primary then old(tokenStreamMap)[1000 := []]
                                    else old(tokenStreamMap)[id := [Registry(Connection(id))]])
              && backupStream == (if old(backupStream).None? then None
                                  else Some(old(backupStream).value + [Registry(ConnectionEstablished(id))]))
    {
      if backupStream.None? && firstConnection {
        firstConnection := false;
        tokenStreamMap := tokenStreamMap[Spec.PRIMARY_TOKEN := []];
        return;
      }
      ghost var was := Snapshot();
      idCounter := idCounter + 1;
      var token := idCounter;
      tokenStreamMap := tokenStreamMap[token := [Registry(Connection(token))]];
      tokenAddrMap := tokenAddrMap[token := addr];
      assert Snapshot() == was.(idCounter := idCounter, streams := tokenStreamMap, addrs := tokenAddrMap);
      ForwardRequest(Registry(ConnectionEstablished(idCounter)));
    }

    method ProcIdToAddr(p: ProcId) returns (r: Result<Address, Spec.ServerError>)
      ensures r.Ok? <==> p in tokenAddrMap
      ensures r.Ok? ==> r.value == tokenAddrMap[p]
      ensures r.Err? ==> r.error == Spec.UnknownHolder(p)
    {
      r := if p in tokenAddrMap then Ok(tokenAddrMap[p]) else Err(Spec.UnknownHolder(p));
    }

    method HandleRead(p: ProcId, key: KeyId)
      returns (r: Result<RegistryResponse, Spec.ServerError>, ghost pick: ProcId)
      requires Valid()
      modifies accessManager, accessManager.keyStates.Values
      ensures Valid() && accessManager.keyStates == old(accessManager.keyStates)
      ensures Spec.MayReport(old(accessManager.Snapshot()), Op(p, Read, key), pick)
      ensures accessManager.Snapshot() == Apply(old(accessManager.Snapshot()), Op(p, Read, key)).0
      ensures r == Spec.Answer(tokenAddrMap, Op(p, Read, key),
                               Apply(old(accessManager.Snapshot()), Op(p, Read, key)).1, pick)
      ensures var keys := old(accessManager.Snapshot()).keys;
              r == if key !in keys then Err(Spec.AccessManager(KeyNotFound(key)))
                   else if keys[key].writer.Some? || keys[key].pending != [] then Ok(Wait(key))
                   else if pick in tokenAddrMap then Ok(Holder(key, tokenAddrMap[pick]))
                   else Err(Spec.UnknownHolder(pick))
    {
      pick := 0;
      AcceptedOutcomes(accessManager.Snapshot(), Op(p, Read, key));
      var done := accessManager.Read(p, key);
      match done
      case Ok(holder) =>
        pick := holder;
        var addr := ProcIdToAddr(holder);
        r := if addr.Ok? then Ok(Holder(key, addr.value)) else Err(addr.error);
      case Err(RequestAccess(_, k)) =>
        r := Ok(Wait(k));
      case Err(e) =>
        r := Err(Spec.AccessManager(e));
    }

    // The five kinds of request.
    method HandleAccess(p: ProcId, kind: RequestType, key: KeyId)
      returns (r: Result<RegistryResponse, Spec.ServerError>, ghost pick: ProcId)
      requires Valid()
      modifies accessManager, accessManager.keyStates.Values
      ensures Valid() && fresh(accessManager.keyStates.Values - old(accessManager.keyStates.Values))
      ensures Spec.MayReport(old(accessManager.Snapshot()), Op(p, kind, key), pick)
      ensures accessManager.Snapshot() == Apply(old(accessManager.Snapshot()), Op(p, kind, key)).0
      ensures r == Spec.Answer(tokenAddrMap, Op(p, kind, key),
                               Apply(old(accessManager.Snapshot()), Op(p, kind, key)).1, pick)
    {
      pick := 0;
      match kind
      case Create =>
        var done := accessManager.Create(p, key);
        r := if done.Ok? then Ok(Success(key)) else Err(Spec.AccessManager(done.error));
      case Delete =>
        var done := accessManager.Delete(key);
        assert done == Report(Apply(old(accessManager.Snapshot()), Op(p, Delete, key)).1, p, key);
        r := if done.Ok? then Ok(Success(key)) else Err(Spec.AccessManager(done.error));
      case Read =>
        r, pick := HandleRead(p, key);
      case Write =>
        var done := accessManager.Write(p, key);
        match done {
          case Ok(_) => r := Ok(Success(key));
          case Err(RequestAccess(_, _)) => r := Ok(Wait(key));
          case Err(e) => r := Err(Spec.AccessManager(e));
        }
      case Release =>
        var done := accessManager.Release(p, key);
        r := if done.Ok? then Ok(Success(key)) else Err(Spec.AccessManager(done.error));
    }

    method HandleMessage(msg: Message) returns (r: Result<RegistryResponse, Spec.ServerError>, ghost pick: ProcId)
      requires Valid()
      modifies accessManager, accessManager.keyStates.Values
      ensures Valid() && fresh(accessManager.keyStates.Values - old(accessManager.keyStates.Values))
      ensures Spec.AsOp(msg).Some? ==> Spec.MayReport(old(accessManager.Snapshot()), Spec.AsOp(msg).value, pick)
      ensures (Snapshot(), r) == Spec.HandleMessage(old(Snapshot()), msg, pick)
    {
      pick := 0;
      match msg
      case Registry(StopRequest) =>
        r := Err(Spec.StopRequested);
      case Registry(ConnectionEstablished(_)) =>
        r := Ok(Ack);
      case Registry(Request(p, kind, key)) =>
        r, pick := HandleAccess(p, kind, key);
      case _ =>
        r := Err(Spec.UnexpectedRequest);
    }

    method ForwardRequest(msg: Message)
      modifies this`backupStream
      ensures Snapshot() == Spec.Forward(old(Snapshot()), msg)
    {
      if backupStream.Some? {
        backupStream := Some(backupStream.value + [msg]);
      }
    }

    method HandleResponse(token: ProcId, response: RegistryResponse) returns (failure: Option<Spec.ServerError>)
      modifies this`tokenStreamMap
      ensures (Snapshot(), failure) == Spec.HandleResponse(old(Snapshot()), token, response)
    {
      if token !in tokenStreamMap {
        return Some(Spec.InvalidToken(token));
      }
      tokenStreamMap := tokenStreamMap[token := tokenStreamMap[token] + [Registry(Response(response))]];
      failure := None;
    }

    // Notifies the processes whose requests left the queue; a process that has gone is only logged.
    method NotifyGranted(requests: seq<Grant>) returns (failure: Option<Spec.ServerError>)
      requires forall g :: g in requests ==> IsAccess(g.kind)
      modifies this`tokenStreamMap
      ensures (Snapshot(), failure) == Spec.Deliver(old(Snapshot()), requests)
    {
      var i := 0;
      assert requests[0..] == requests;
      while i < |requests|
        invariant 0 <= i <= |requests|
        invariant Spec.Deliver(Snapshot(), requests[i..]) == Spec.Deliver(old(Snapshot()), requests)
      {
        var req := requests[i];
        assert req in requests && requests[i..][1..] == requests[i + 1..];
        var granted;
        match req.kind {
          case Read =>
            var addr := ProcIdToAddr(req.holder);
            if addr.Err? {
              return Some(addr.error);
            }
            granted := Holder(req.key, addr.value);
          case Write =>
            granted := Success(req.key);
          case _ =>
            assert false;
        }
        var _ := HandleResponse(req.proc, granted);
        i := i + 1;
      }
      failure := None;
    }

    // Checks whether pending requests can be granted now.
    method GrantPending() returns (failure: Option<Spec.ServerError>)
      requires Valid()
      modifies this`tokenStreamMap, accessManager`accessGranted
      ensures Valid()
      ensures (Snapshot(), failure) == Spec.GrantPending(old(Snapshot()))
    {
      ghost var was := Snapshot();
      var requests := accessManager.TryIter();
      assert Snapshot() == was.(manager := was.manager.(channel := []));
      failure := NotifyGranted(requests);
    }

    method CountRequest()
      modifies this`requestCounter
      ensures Snapshot() == old(Snapshot()).(requestCounter := old(requestCounter) + 1)
    {
      requestCounter := requestCounter + 1;
    }

    // The part of a request that follows once it took effect.
    method Complete(token: ProcId, message: Message, response: RegistryResponse)
      returns (failure: Option<Spec.ServerError>)
      requires Valid()
      modifies this, accessManager`accessGranted
      ensures Valid()
      ensures (Snapshot(), failure) == Spec.Complete(old(Snapshot()), token, message, response)
    {
      failure := HandleResponse(token, response);
      if failure.Some? {
        return;
      }
      failure := GrantPending();
      if failure.Some? {
        return;
      }
      ForwardRequest(message);
      CountRequest();
    }

    method HandleRequest(token: ProcId, parsed: Result<Message, string>)
      returns (failure: Option<Spec.ServerError>, ghost pick: ProcId)
      requires Valid()
      modifies this, accessManager, accessManager.keyStates.Values
      ensures Valid() && fresh(accessManager.keyStates.Values - old(accessManager.keyStates.Values))
      ensures parsed.Ok? && Spec.AsOp(parsed.value).Some? ==>
                Spec.MayReport(old(accessManager.Snapshot()), Spec.AsOp(parsed.value).value, pick)
      ensures (Snapshot(), failure) == Spec.HandleRequest(old(Snapshot()), token, parsed, pick)
    {
      pick := 0;
      if parsed.Err? {
        return Some(Spec.SerializationError(parsed.error)), pick;
      }
      var response;
      response, pick := HandleMessage(parsed.value);
      if response.Err? {
        return Some(response.error), pick;
      }
      failure := Complete(token, parsed.value, response.value);
    }

    method HandleError(token: ProcId, err: Spec.ServerError) returns (failure: Option<Spec.ServerError>)
      modifies this`tokenStreamMap
      ensures (Snapshot(), failure) ==
                Spec.HandleResponse(old(Snapshot()), token, RegistryResponse.Error(Spec.ErrorText(err)))
    {
      failure := HandleResponse(token, RegistryResponse.Error(Spec.ErrorText(err)));
    }

    method HandleData(token: ProcId, parsed: Result<Message, string>)
      returns (failure: Option<Spec.ServerError>, ghost pick: ProcId)
      requires Valid()
      modifies this, accessManager, accessManager.keyStates.Values
      ensures Valid() && fresh(accessManager.keyStates.Values - old(accessManager.keyStates.Values))
      ensures token != Spec.BACKUP_TOKEN && parsed.Ok? && Spec.AsOp(parsed.value).Some? ==>
                Spec.MayReport(old(accessManager.Snapshot()), Spec.AsOp(parsed.value).value, pick)
      ensures (Snapshot(), failure) == Spec.HandleData(old(Snapshot()), token, parsed, pick)
    {
      if token == Spec.BACKUP_TOKEN {
        return None, 0;
      }
      failure, pick := HandleRequest(token, parsed);
      if failure.Some? && !failure.value.StopRequested? {
        failure := HandleError(token, failure.value);
      }
    }

    method RemoveClient(token: ProcId)
      modifies this`tokenStreamMap, this`tokenAddrMap
      ensures Snapshot() == Spec.RemoveClient(old(Snapshot()), token)
    {
      tokenStreamMap := tokenStreamMap - {token};
      tokenAddrMap := tokenAddrMap - {token};
    }
  }
}
