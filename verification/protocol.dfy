/// The messages of the registry protocol (src/protocol.rs).

module Common {
  datatype Option<+T> = None | Some(value: T)

  datatype Result<+T, +E> = Ok(value: T) | Err(error: E)
}

module Protocol {

  // Both are machine-word identifiers that the system only compares and, for process ids, counts up.
  type ProcId = nat
  type KeyId = nat

  // A socket address in its textual form, such as 127.0.0.1:6001.
  type Address = string

  datatype RequestType = Create | Delete | Read | Write | Release

  datatype RegistryResponse =
    | Ack
    | Success(key: KeyId)
    | Wait(key: KeyId)
    | Holder(key: KeyId, addr: Address)
    | Error(text: string)

  datatype RegistryMessage =
    | Connection(id: ProcId)
    | ConnectionEstablished(id: ProcId)
    | Request(proc: ProcId, kind: RequestType, key: KeyId)
    | Response(response: RegistryResponse)
    | StopRequest

  datatype DataMessage =
    | DataRequest(key: KeyId)
    | DataResponse(data: string)

  datatype Message =
    | Registry(registry: RegistryMessage)
    | Data(data: DataMessage)
}
