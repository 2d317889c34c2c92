/// What the registry answers to every message, written out (src/registry_server.rs:217-447).
///
/// Each lemma gives the whole state after one readable event; the texts are those of the error types' Display
/// (src/registry_server.rs:21-69, src/access_manager.rs:8-33).

module Answers {
  import opened Common
  import opened Protocol
  import opened LockSpec
  import opened ServerSpec
  import opened Json
  import opened Delivery

  // A client's stream at a server that has nothing to announce.
  ghost predicate Ready(s: Server, token: ProcId) {
    token in s.streams && token != 999 && s.manager.channel == [] && ManagerInv(s.manager)
  }

  // s, after this was written to the stream.
  function Told(s: Server, token: ProcId, response: RegistryResponse): Server
    requires token in s.streams
  {
    s.(streams := s.streams[token := s.streams[token] + [Registry(Response(response))]])
  }

  // s, after the message went to the backup, if there is one, and was counted.
  function Passed(s: Server, msg: Message): Server {
    s.(backup := if s.backup.Some? then Some(s.backup.value + [msg]) else None, requestCounter := s.requestCounter + 1)
  }

  lemma OnlyReplied(s: Server, token: ProcId, op: Op, pick: ProcId)
    requires Ready(s, token) && Admitted(s.manager, op) == []
    ensures HandleData(s, token, Ok(Registry(Request(op.proc, op.kind, op.key))), pick).0.streams ==
              s.streams[token := s.streams[token] + [Reply(s, op, pick)]]
  {
    var after := HandleData(s, token, Ok(Registry(Request(op.proc, op.kind, op.key))), pick).0;
    RequestEffect(s, token, op, pick);
    forall q | q in s.streams
      ensures after.streams[q] == if q == token then s.streams[q] + [Reply(s, op, pick)] else s.streams[q]
    {
      var heard := if q == token then [Reply(s, op, pick)] else [];
      assert heard + [] + [] == heard && s.streams[q] + [] == s.streams[q];
    }
  }

  // A request that lets nobody out of a queue is answered, and forwarded unless the answer is an error.
  lemma OnlyAnswered(s: Server, token: ProcId, op: Op, pick: ProcId)
    requires Ready(s, token) && Admitted(s.manager, op) == []
    ensures var r := Reply(s, op, pick).registry.response;
            var moved := Told(s, token, r).(manager := Manager(Apply(s.manager, op).0.keys, []));
            HandleData(s, token, Ok(Registry(Request(op.proc, op.kind, op.key))), pick) ==
              (if r.Error? then moved else Passed(moved, Registry(Request(op.proc, op.kind, op.key))), None)
  {
    OnlyReplied(s, token, op, pick);
    RequestEffect(s, token, op, pick);
  }

  // ---------------------------------------------------------------------------------- reads and writes

  // With nobody writing and nobody waiting a read is answered at once, with the address of the process that the
  // hash set yields.  If that process has gone the reader is told so, although it is now registered.
  lemma ImmediateRead(s: Server, token: ProcId, p: ProcId, key: KeyId, pick: ProcId)
    requires Ready(s, token) && key in s.manager.keys
    requires s.manager.keys[key].writer.None? && s.manager.keys[key].pending == []
    ensures var v := s.manager.keys[key];
            var reading := s.(manager := Manager(s.manager.keys[key := v.(readers := v.readers + {p})], []));
            HandleData(s, token, Ok(Registry(Request(p, Read, key))), pick) ==
              (if pick in s.addrs
               then Passed(Told(reading, token, Holder(key, s.addrs[pick])), Registry(Request(p, Read, key)))
               else Told(reading, token, Error("Unknown data holder Token(" + Digits(pick) + ")")),
               None)
  {
    AcceptedOutcomes(s.manager, Op(p, Read, key));
    OnlyAnswered(s, token, Op(p, Read, key), pick);
  }

  // A key that nobody holds is granted to a writer at once.
  lemma ImmediateWrite(s: Server, token: ProcId, p: ProcId, key: KeyId, pick: ProcId)
    requires Ready(s, token) && key in s.manager.keys
    requires s.manager.keys[key].writer.None? && s.manager.keys[key].readers == {}
    ensures var v := s.manager.keys[key];
            var writing := s.(manager := Manager(s.manager.keys[key := v.(writer := Some(p))], []));
            HandleData(s, token, Ok(Registry(Request(p, Write, key))), pick) ==
              (Passed(Told(writing, token, Success(key)), Registry(Request(p, Write, key))), None)
  {
    AcceptedOutcomes(s.manager, Op(p, Write, key));
    OnlyAnswered(s, token, Op(p, Write, key), pick);
  }

  // Everybody else is told to wait, and is last in the queue.
  lemma ToldToWait(s: Server, token: ProcId, p: ProcId, kind: RequestType, key: KeyId, pick: ProcId)
    requires Ready(s, token) && key in s.manager.keys
    requires || (kind.Read? && (s.manager.keys[key].writer.Some? || s.manager.keys[key].pending != []))
             || (kind.Write? && (s.manager.keys[key].writer.Some? || s.manager.keys[key].readers != {}))
    ensures var v := s.manager.keys[key];
            var queued := s.(manager := Manager(s.manager.keys[key := v.(pending := v.pending + [Req(p, kind)])], []));
            HandleData(s, token, Ok(Registry(Request(p, kind, key))), pick) ==
              (Passed(Told(queued, token, Wait(key)), Registry(Request(p, kind, key))), None)
  {
    AcceptedOutcomes(s.manager, Op(p, kind, key));
    OnlyAnswered(s, token, Op(p, kind, key), pick);
  }

  // ---------------------------------------------------------------------------------- create and delete

  lemma KeyCreated(s: Server, token: ProcId, p: ProcId, key: KeyId, pick: ProcId)
    requires Ready(s, token) && key !in s.manager.keys
    ensures var created := s.(manager := Manager(s.manager.keys[key := Lock([], {}, None, p)], []));
            HandleData(s, token, Ok(Registry(Request(p, Create, key))), pick) ==
              (Passed(Told(created, token, Success(key)), Registry(Request(p, Create, key))), None)
  {
    AcceptedOutcomes(s.manager, Op(p, Create, key));
    OnlyAnswered(s, token, Op(p, Create, key), pick);
  }

  // Anybody may delete a key that nobody holds.
  lemma KeyDeleted(s: Server, token: ProcId, p: ProcId, key: KeyId, pick: ProcId)
    requires Ready(s, token) && key in s.manager.keys
    requires s.manager.keys[key].writer.None? && s.manager.keys[key].readers == {}
    ensures var deleted := s.(manager := Manager(s.manager.keys - {key}, []));
            HandleData(s, token, Ok(Registry(Request(p, Delete, key))), pick) ==
              (Passed(Told(deleted, token, Success(key)), Registry(Request(p, Delete, key))), None)
  {
    AcceptedOutcomes(s.manager, Op(p, Delete, key));
    OnlyAnswered(s, token, Op(p, Delete, key), pick);
  }

  // ---------------------------------------------------------------------------------- refusals

  // A refused request changes nothing, is not forwarded, and is answered with its reason.
  lemma Refuse(s: Server, token: ProcId, op: Op, pick: ProcId, e: AccessError, reason: string)
    requires Ready(s, token) && Apply(s.manager, op) == (s.manager, Refused(e))
    requires AccessErrorText(e) == reason
    ensures HandleData(s, token, Ok(Registry(Request(op.proc, op.kind, op.key))), pick) ==
              (Told(s, token, Error("Access manager error: " + reason)), None)
  {
    OnlyAnswered(s, token, op, pick);
  }

  lemma UnknownKey(s: Server, token: ProcId, p: ProcId, kind: RequestType, key: KeyId, pick: ProcId)
    requires Ready(s, token) && key !in s.manager.keys && !kind.Create?
    ensures HandleData(s, token, Ok(Registry(Request(p, kind, key))), pick) ==
              (Told(s, token, Error("Access manager error: " + ("key not found: " + Digits(key)))), None)
  {
    RefusalErrors(s.manager, Op(p, kind, key));
    Refuse(s, token, Op(p, kind, key), pick, KeyNotFound(key), "key not found: " + Digits(key));
  }

  lemma KeyThere(s: Server, token: ProcId, p: ProcId, key: KeyId, pick: ProcId)
    requires Ready(s, token) && key in s.manager.keys
    ensures HandleData(s, token, Ok(Registry(Request(p, Create, key))), pick) ==
              (Told(s, token, Error("Access manager error: " + ("key already exist: " + Digits(key)))), None)
  {
    RefusalErrors(s.manager, Op(p, Create, key));
    Refuse(s, token, Op(p, Create, key), pick, KeyExists(key), "key already exist: " + Digits(key));
  }

  lemma HeldKeyStays(s: Server, token: ProcId, p: ProcId, key: KeyId, pick: ProcId)
    requires Ready(s, token) && key in s.manager.keys
    requires s.manager.keys[key].writer.Some? || s.manager.keys[key].readers != {}
    ensures HandleData(s, token, Ok(Registry(Request(p, Delete, key))), pick) ==
              (Told(s, token, Error("Access manager error: " + "key currently accessed")), None)
  {
    RefusalErrors(s.manager, Op(p, Delete, key));
    Refuse(s, token, Op(p, Delete, key), pick, KeyAccessed, "key currently accessed");
  }

  lemma NothingToRelease(s: Server, token: ProcId, p: ProcId, key: KeyId, pick: ProcId)
    requires Ready(s, token) && key in s.manager.keys
    requires s.manager.keys[key].writer != Some(p) && p !in s.manager.keys[key].readers
    ensures HandleData(s, token, Ok(Registry(Request(p, Release, key))), pick) ==
              (Told(s, token,
                    Error("Access manager error: " +
                            ("could not release access for proc: " + Digits(p) + ", with key: " + Digits(key)))),
               None)
  {
    RefusalErrors(s.manager, Op(p, Release, key));
    Refuse(s, token, Op(p, Release, key), pick, ReleaseAccess(p, key),
           "could not release access for proc: " + Digits(p) + ", with key: " + Digits(key));
  }

  // ---------------------------------------------------------------------------------- releases

  // The lock without p, which held it.
  function Without(v: Lock, p: ProcId): Lock {
    if v.writer == Some(p) then Lock(v.pending, v.readers, None, v.creator)
    else Lock(v.pending, v.readers - {p}, v.writer, v.creator)
  }

  // A release after which somebody still reads, or for which nobody waited, is only answered.
  lemma PlainRelease(s: Server, token: ProcId, p: ProcId, key: KeyId, pick: ProcId)
    requires Ready(s, token) && key in s.manager.keys
    requires s.manager.keys[key].writer == Some(p) || p in s.manager.keys[key].readers
    requires s.manager.keys[key].pending == [] || Without(s.manager.keys[key], p).readers != {}
    ensures var freed := s.(manager := Manager(s.manager.keys[key := Without(s.manager.keys[key], p)], []));
            HandleData(s, token, Ok(Registry(Request(p, Release, key))), pick) ==
              (Passed(Told(freed, token, Success(key)), Registry(Request(p, Release, key))), None)
  {
    var v := s.manager.keys[key];
    assert Settle(Drop(v, p)) == (Drop(v, p), []);
    ApplyRelease(s.manager, Op(p, Release, key));
    OnlyAnswered(s, token, Op(p, Release, key), pick);
  }

  // The last holder's release lets the write at the front of the queue in: the releaser is answered, then the
  // writer is told, if it is still connected.
  lemma WriterLetIn(s: Server, token: ProcId, p: ProcId, key: KeyId, pick: ProcId)
    requires Ready(s, token) && key in s.manager.keys
    requires s.manager.keys[key].writer == Some(p) || s.manager.keys[key].readers == {p}
    requires s.manager.keys[key].pending != [] && s.manager.keys[key].pending[0].kind.Write?
    ensures var v := s.manager.keys[key];
            var q := v.pending[0].proc;
            var w := Lock(v.pending[1..], {}, Some(q), v.creator);
            var written := s.(manager := Manager(s.manager.keys[key := w], []));
            var told := Told(written, token, Success(key));
            HandleData(s, token, Ok(Registry(Request(p, Release, key))), pick) ==
              (Passed(if q in s.streams then Told(told, q, Success(key)) else told, Registry(Request(p, Release, key))),
               None)
  {
    ReleaseDrains(s.manager, Op(p, Release, key));
    WriteStreams(s, token, Op(p, Release, key), pick, s.manager.keys[key].pending[0]);
    ReleaseEffect(s, token, Op(p, Release, key), pick);
    TellBoth(s, token, s.manager.keys[key].pending[0].proc, Success(key), Apply(s.manager, Op(p, Release, key)).0.keys,
             Registry(Request(p, Release, key)));
  }

  lemma TellBoth(s: Server, p: ProcId, q: ProcId, r: RegistryResponse, keys: map<KeyId, Lock>, msg: Message)
    requires p in s.streams
    ensures var first := s.streams[p := s.streams[p] + [Registry(Response(r))]];
            var moved := s.(manager := Manager(keys, []));
            var told := Told(moved, p, r);
            var both := if q in s.streams then first[q := first[q] + [Registry(Response(r))]] else first;
            Passed(if q in s.streams then Told(told, q, r) else told, msg) ==
              Passed(s, msg).(manager := Manager(keys, []), streams := both)
  {
  }

  // It lets the reads at the front in: the releaser is answered, then every one of them that is still connected
  // is told, in queue order, where the creator is.
  lemma ReadersLetIn(s: Server, token: ProcId, p: ProcId, key: KeyId, pick: ProcId)
    requires Ready(s, token) && key in s.manager.keys
    requires s.manager.keys[key].writer == Some(p) || s.manager.keys[key].readers == {p}
    requires s.manager.keys[key].pending != [] && s.manager.keys[key].pending[0].kind.Read?
    requires s.manager.keys[key].creator in s.addrs
    ensures var v := s.manager.keys[key];
            var n := ReadRun(v.pending);
            var w := Lock(v.pending[n..], Procs(v.pending[..n]), None, v.creator);
            var (after, failure) := HandleData(s, token, Ok(Registry(Request(p, Release, key))), pick);
            && failure.None?
            && after == Passed(s, Registry(Request(p, Release, key))).(manager := Manager(s.manager.keys[key := w], []),
                                                                       streams := after.streams)
            && after.streams.Keys == s.streams.Keys
            && forall q :: q in s.streams ==>
                 after.streams[q] ==
                   s.streams[q] + (if q == token then [Registry(Response(Success(key)))] else [])
                     + seq(|Mine(q, v.pending[..n])|, _ => Registry(Response(Holder(key, s.addrs[v.creator]))))
  {
    ReleaseDrains(s.manager, Op(p, Release, key));
    ReleaseEffect(s, token, Op(p, Release, key), pick);
    forall q | q in s.streams
      ensures HandleData(s, token, Ok(Registry(Request(p, Release, key))), pick).0.streams[q] ==
                s.streams[q] + (if q == token then [Registry(Response(Success(key)))] else [])
                  + seq(|Mine(q, s.manager.keys[key].pending[..ReadRun(s.manager.keys[key].pending)])|,
                        _ => Registry(Response(Holder(key, s.addrs[s.manager.keys[key].creator]))))
    {
      ReleaseStream(s, token, Op(p, Release, key), pick, q);
      ReadNotices(s, Op(p, Release, key), q);
    }
  }

  // With the creator gone the same readers are let in, but nobody is told: the releaser hears of success and of an
  // unknown holder, and nothing is forwarded.
  lemma ReadersUnresolved(s: Server, token: ProcId, p: ProcId, key: KeyId, pick: ProcId)
    requires Ready(s, token) && key in s.manager.keys
    requires s.manager.keys[key].writer == Some(p) || s.manager.keys[key].readers == {p}
    requires s.manager.keys[key].pending != [] && s.manager.keys[key].pending[0].kind.Read?
    requires s.manager.keys[key].creator !in s.addrs
    ensures var v := s.manager.keys[key];
            var n := ReadRun(v.pending);
            var w := Lock(v.pending[n..], Procs(v.pending[..n]), None, v.creator);
            var reading := s.(manager := Manager(s.manager.keys[key := w], []));
            HandleData(s, token, Ok(Registry(Request(p, Release, key))), pick) ==
              (Told(Told(reading, token, Success(key)), token,
                    Error("Unknown data holder Token(" + Digits(v.creator) + ")")),
               None)
  {
    ReleaseDrains(s.manager, Op(p, Release, key));
    UnresolvedStreams(s, token, Op(p, Release, key), pick);
  }

  // A release whose notifications can all be written: everything but the streams,
  lemma ReleaseEffect(s: Server, token: ProcId, op: Op, pick: ProcId)
    requires Ready(s, token) && op.kind.Release? && Apply(s.manager, op).1.Done? && !Unresolved(s, op)
    ensures var msg := Registry(Request(op.proc, op.kind, op.key));
            var (after, failure) := HandleData(s, token, Ok(msg), pick);
            && failure.None?
            && after == Passed(s, msg).(manager := Manager(Apply(s.manager, op).0.keys, []), streams := after.streams)
            && after.streams.Keys == s.streams.Keys
  {
    RequestEffect(s, token, op, pick);
  }

  // and each stream.
  lemma ReleaseStream(s: Server, token: ProcId, op: Op, pick: ProcId, q: ProcId)
    requires Ready(s, token) && op.kind.Release? && Apply(s.manager, op).1.Done? && !Unresolved(s, op)
    requires q in s.streams
    ensures var after := HandleData(s, token, Ok(Registry(Request(op.proc, op.kind, op.key))), pick).0;
            && q in after.streams
            && after.streams[q] == s.streams[q]
                                     + (if q == token then [Registry(Response(Success(op.key)))] else [])
                                     + Notices(s, op, q)
  {
    RequestEffect(s, token, op, pick);
    Tidy(s.streams[q], if q == token then [Registry(Response(Success(op.key)))] else [], Notices(s, op, q));
  }

  // One whose readers cannot be told where the data is.
  lemma ComplaintStream(s: Server, token: ProcId, op: Op, pick: ProcId, q: ProcId)
    requires Ready(s, token) && op.kind.Release? && Apply(s.manager, op).1.Done? && Unresolved(s, op)
    requires q in s.streams
    ensures var text := "Unknown data holder Token(" + Digits(s.manager.keys[op.key].creator) + ")";
            var after := HandleData(s, token, Ok(Registry(Request(op.proc, op.kind, op.key))), pick).0;
            && q in after.streams
            && after.streams[q] == if q == token then s.streams[q] + [Registry(Response(Success(op.key)))]
                                                        + [Registry(Response(Error(text)))]
                                   else s.streams[q]
  {
    RequestEffect(s, token, op, pick);
    TidyComplaint(s.streams[q], [Registry(Response(Success(op.key)))], Complaint(s, op));
    Tidy(s.streams[q], [], []);
  }

  lemma UnresolvedStreams(s: Server, token: ProcId, op: Op, pick: ProcId)
    requires Ready(s, token) && op.kind.Release? && Apply(s.manager, op).1.Done? && Unresolved(s, op)
    ensures var text := "Unknown data holder Token(" + Digits(s.manager.keys[op.key].creator) + ")";
            var moved := s.(manager := Manager(Apply(s.manager, op).0.keys, []));
            HandleData(s, token, Ok(Registry(Request(op.proc, op.kind, op.key))), pick) ==
              (Told(Told(moved, token, Success(op.key)), token, Error(text)), None)
  {
    RequestEffect(s, token, op, pick);
    var after := HandleData(s, token, Ok(Registry(Request(op.proc, op.kind, op.key))), pick).0;
    var text := "Unknown data holder Token(" + Digits(s.manager.keys[op.key].creator) + ")";
    forall q | q in s.streams
      ensures after.streams[q] == if q == token then s.streams[q] + [Registry(Response(Success(op.key)))]
                                                       + [Registry(Response(Error(text)))]
                                  else s.streams[q]
    {
      ComplaintStream(s, token, op, pick, q);
    }
  }

  lemma ToldBoth(before: map<ProcId, seq<Message>>, after: map<ProcId, seq<Message>>, p: ProcId, q: ProcId,
                 ms: seq<Message>)
    requires p in before && after.Keys == before.Keys
    requires forall x :: x in before ==>
               after[x] == before[x] + (if x == p then ms else []) + (if x == q then ms else [])
    ensures var first := before[p := before[p] + ms];
            after == if q in before then first[q := first[q] + ms] else first
  {
    forall x | x in before
      ensures x != p && x != q ==> after[x] == before[x]
      ensures x == p && x != q ==> after[x] == before[x] + ms
      ensures x != p && x == q ==> after[x] == before[x] + ms
    {
      assert before[x] + [] == before[x] && before[x] + ms + [] == before[x] + ms;
    }
  }

  lemma OneFrame(addrs: map<ProcId, Address>, key: KeyId, holder: ProcId, r: Req)
    requires r.kind.Write?
    ensures Frames(addrs, key, holder, [r]) == [Registry(Response(Success(key)))]
  {
    assert [r][1..] == [] && Frames(addrs, key, holder, []) == [];
  }

  lemma WriteNotice(s: Server, op: Op, r: Req, q: ProcId)
    requires Admitted(s.manager, op) == [r] && r.kind.Write?
    ensures !Unresolved(s, op)
    ensures Notices(s, op, q) == if q == r.proc then [Registry(Response(Success(op.key)))] else []
  {
    OneShare(q, r);
    OneFrame(s.addrs, op.key, s.manager.keys[op.key].creator, r);
  }

  lemma WriteStreams(s: Server, token: ProcId, op: Op, pick: ProcId, r: Req)
    requires Ready(s, token) && op.kind.Release? && Apply(s.manager, op).1.Done?
    requires Admitted(s.manager, op) == [r] && r.kind.Write?
    ensures var ms := [Registry(Response(Success(op.key)))];
            var first := s.streams[token := s.streams[token] + ms];
            HandleData(s, token, Ok(Registry(Request(op.proc, op.kind, op.key))), pick).0.streams ==
              if r.proc in s.streams then first[r.proc := first[r.proc] + ms] else first
  {
    ReleaseEffect(s, token, op, pick);
    var after := HandleData(s, token, Ok(Registry(Request(op.proc, op.kind, op.key))), pick).0;
    var ms := [Registry(Response(Success(op.key)))];
    forall x | x in s.streams
      ensures after.streams[x] == s.streams[x] + (if x == token then ms else []) + (if x == r.proc then ms else [])
    {
      ReleaseStream(s, token, op, pick, x);
      WriteNotice(s, op, r, x);
    }
    ToldBoth(s.streams, after.streams, token, r.proc, ms);
  }

  lemma ReadNotices(s: Server, op: Op, q: ProcId)
    requires Admitted(s.manager, op) != []
    requires forall i :: 0 <= i < |Admitted(s.manager, op)| ==> Admitted(s.manager, op)[i].kind.Read?
    requires op.key in s.manager.keys && s.manager.keys[op.key].creator in s.addrs
    ensures Notices(s, op, q) ==
              seq(|Mine(q, Admitted(s.manager, op))|,
                  _ => Registry(Response(Holder(op.key, s.addrs[s.manager.keys[op.key].creator]))))
  {
    MineOfReads(q, Admitted(s.manager, op));
    ReadFrames(s.addrs, op.key, s.manager.keys[op.key].creator, Mine(q, Admitted(s.manager, op)));
  }

  // What the last holder's release does to the lock, and whom it lets in.
  lemma ReleaseDrains(m: Manager, op: Op)
    requires ManagerInv(m) && m.channel == [] && op.kind.Release? && op.key in m.keys && m.keys[op.key].pending != []
    requires m.keys[op.key].writer == Some(op.proc) || m.keys[op.key].readers == {op.proc}
    ensures var v := m.keys[op.key];
            var n := ReadRun(v.pending);
            && Apply(m, op).1 == Done
            && (v.pending[0].kind.Write? ==>
                  && Apply(m, op).0.keys ==
                       m.keys[op.key := Lock(v.pending[1..], {}, Some(v.pending[0].proc), v.creator)]
                  && Admitted(m, op) == [v.pending[0]])
            && (v.pending[0].kind.Read? ==>
                  && Apply(m, op).0.keys ==
                       m.keys[op.key := Lock(v.pending[n..], Procs(v.pending[..n]), None, v.creator)]
                  && Admitted(m, op) == v.pending[..n] && n > 0)
  {
    var v := m.keys[op.key];
    ApplyRelease(m, op);
    assert LockInv(v);
    assert Drop(v, op.proc) == Lock(v.pending, {}, None, v.creator);
    if v.pending[0].kind.Write? {
      DrainWrite(Drop(v, op.proc));
    } else if v.pending[0].kind.Read? {
      DrainReads(Drop(v, op.proc));
    }
  }

  lemma OneShare(q: ProcId, r: Req)
    ensures Mine(q, [r]) == if r.proc == q then [r] else []
  {
    assert [r][1..] == [] && [r] + [] == [r];
  }

  lemma {:induction false} MineOfReads(q: ProcId, reqs: seq<Req>)
    requires forall i :: 0 <= i < |reqs| ==> reqs[i].kind.Read?
    ensures forall i :: 0 <= i < |Mine(q, reqs)| ==> Mine(q, reqs)[i].kind.Read?
  {
    if reqs != [] {
      MineOfReads(q, reqs[1..]);
    }
  }

  lemma {:induction false} ReadFrames(addrs: map<ProcId, Address>, key: KeyId, holder: ProcId, reqs: seq<Req>)
    requires holder in addrs && forall i :: 0 <= i < |reqs| ==> reqs[i].kind.Read?
    ensures Frames(addrs, key, holder, reqs) ==
              seq(|reqs|, _ => Registry(Response(Holder(key, addrs[holder]))))
  {
    if reqs != [] {
      ReadFrames(addrs, key, holder, reqs[1..]);
    }
  }

  lemma Tidy(a: seq<Message>, b: seq<Message>, c: seq<Message>)
    ensures a + (b + c + []) == a + b + c
  {
  }

  lemma TidyComplaint(a: seq<Message>, b: seq<Message>, c: seq<Message>)
    ensures a + (b + [] + c) == a + b + c
  {
  }

  // ---------------------------------------------------------------------------------- everything else

  // A stop ends the server and is answered by nobody.
  lemma Stopped(s: Server, token: ProcId, pick: ProcId)
    requires token != 999
    ensures HandleData(s, token, Ok(Registry(StopRequest)), pick) == (s, Some(StopRequested))
  {
  }

  // The notice of a new client, which only a backup gets, is acknowledged; a backup of its own hears of it too.
  lemma NoticeAcknowledged(s: Server, token: ProcId, id: ProcId, pick: ProcId)
    requires token in s.streams && token != 999 && s.manager.channel == []
    ensures HandleData(s, token, Ok(Registry(ConnectionEstablished(id))), pick) ==
              (Passed(Told(s, token, Ack), Registry(ConnectionEstablished(id))), None)
  {
  }

  // Nothing else is expected from a client.
  lemma Unexpected(s: Server, token: ProcId, msg: Message, pick: ProcId)
    requires token in s.streams && token != 999
    requires msg.Data? || msg.registry.Connection? || msg.registry.Response?
    ensures HandleData(s, token, Ok(msg), pick) == (Told(s, token, Error("Unexpected request")), None)
  {
  }

  lemma Unreadable(s: Server, token: ProcId, text: string, pick: ProcId)
    requires token in s.streams && token != 999
    ensures HandleData(s, token, Err(text), pick) ==
              (Told(s, token, Error("Serialization error: " + text)), None)
  {
  }

  // Whatever the backup server sends is not even handled.
  lemma BackupIgnored(s: Server, parsed: Result<Message, string>, pick: ProcId)
    ensures HandleData(s, 999, parsed, pick) == (s, None)
  {
  }
}
