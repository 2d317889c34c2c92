/// The access manager of src/access_manager.rs, in its own imperative form.
///
/// Every public method is proved to change the state exactly as LockSpec.Apply says, although the code only
/// looks at the front of the queue in Read, ignores the queue in Write, and wakes waiters in Release
/// only when the last holder leaves.

module AccessManagement {
  import opened Common
  import opened Protocol
  import opened LockSpec

  class KeyState {
    var pendingRequest: seq<Req>
    var readers: set<ProcId>
    var writer: Option<ProcId>
    var creator: ProcId

    ghost function View(): Lock
      reads this
    {
      Lock(pendingRequest, readers, writer, creator)
    }

    constructor (creator: ProcId)
      ensures View() == Lock([], {}, None, creator)
    {
      pendingRequest, readers, writer, this.creator := [], {}, None, creator;
    }

    method RegisterReader(p: ProcId)
      modifies this`readers
      ensures readers == old(readers) + {p}
    {
      readers := readers + {p};
    }

    method RegisterWriter(p: ProcId)
      modifies this`writer
      ensures writer == Some(p)
    {
      writer := Some(p);
    }

    // A process that knows the key's data.  Which reader the hash set yields first is not determined.
    method Holder() returns (p: ProcId)
      ensures writer.Some? ==> p == writer.value
      ensures writer.None? && readers != {} ==> p in readers
      ensures writer.None? && readers == {} ==> p == creator
    {
      if writer.Some? {
        return writer.value;
      }
      if readers != {} {
        p :| p in readers;
        return;
      }
      return creator;
    }
  }

  // What a method reports for an outcome; the holder an immediate read reports is specified by Read itself.
  function Report(outcome: Outcome, p: ProcId, key: KeyId): Result<(), AccessError> {
    match outcome
    case Done => Ok(())
    case Granted => Ok(())
    case Queued => Err(RequestAccess(p, key))
    case Refused(e) => Err(e)
  }

  class AccessManager {
    // The channel: its receiver lives in the same struct as its sender, so sending never fails.
    var accessGranted: seq<Grant>
    var keyStates: map<KeyId, KeyState>

    ghost function Snapshot(): Manager
      reads this, keyStates.Values
    {
      Manager(map k | k in keyStates :: keyStates[k].View(), accessGranted)
    }

    ghost predicate Separate()
      reads this
    {
      forall a, b :: a in keyStates && b in keyStates && keyStates[a] == keyStates[b] ==> a == b
    }

    ghost predicate Valid()
      reads this, keyStates.Values
    {
      Separate() && ManagerInv(Snapshot())
    }

    constructor ()
      ensures Valid() && keyStates == map[] && Snapshot() == Manager(map[], [])
    {
      accessGranted, keyStates := [], map[];
    }

    // The receiving end: takes everything that is in the channel now.
    method TryIter() returns (requests: seq<Grant>)
      requires Valid()
      modifies this`accessGranted
      ensures Valid() && Snapshot() == old(Snapshot()).(channel := [])
      ensures requests == old(Snapshot()).channel
      ensures forall g :: g in requests ==> IsAccess(g.kind)
    {
      requests := accessGranted;
      accessGranted := [];
      assert Snapshot().keys == old(Snapshot()).keys;
    }

    method Create(p: ProcId, key: KeyId) returns (r: Result<(), AccessError>)
      requires Valid()
      modifies this`keyStates
      ensures Valid() && fresh(keyStates.Values - old(keyStates.Values))
      ensures Snapshot() == Apply(old(Snapshot()), Op(p, RequestType.Create, key)).0
      ensures r == Report(Apply(old(Snapshot()), Op(p, RequestType.Create, key)).1, p, key)
      ensures r == if key in old(keyStates) then Err(KeyExists(key)) else Ok(())
    {
      if key in keyStates {
        return Err(KeyExists(key));
      }
      var state := new KeyState(p);
      keyStates := keyStates[key := state];
      r := Ok(());
      assert Snapshot() == Apply(old(Snapshot()), Op(p, RequestType.Create, key)).0;
    }

    // The process that asks plays no role.
    method Delete(key: KeyId) returns (r: Result<(), AccessError>)
      requires Valid()
      modifies this`keyStates
      ensures Valid() && keyStates.Values <= old(keyStates.Values)
      ensures forall p :: Snapshot() == Apply(old(Snapshot()), Op(p, RequestType.Delete, key)).0
      ensures forall p :: r == Report(Apply(old(Snapshot()), Op(p, RequestType.Delete, key)).1, p, key)
      ensures r ==
                if key !in old(keyStates) then Err(KeyNotFound(key))
                else if old(keyStates[key].readers) != {} || old(keyStates[key].writer).Some? then Err(KeyAccessed)
                else Ok(())
    {
      if key !in keyStates {
        return Err(KeyNotFound(key));
      }
      if keyStates[key].readers != {} || keyStates[key].writer.Some? {
        return Err(KeyAccessed);
      }
      keyStates := keyStates - {key};
      r := Ok(());
      assert Snapshot().keys == old(Snapshot()).keys - {key};
    }

    // The loop that serves the reads at the front of a queue whose key has no writer.
    method ServeReads(state: KeyState, key: KeyId, holder: ProcId)
      requires state.writer.None? && Exclusive(state.View())
      requires state.pendingRequest != [] && state.pendingRequest[0].kind.Read?
      modifies this`accessGranted, state`readers, state`pendingRequest
      ensures state.View() == Settle(old(state.View())).0
      ensures accessGranted == old(accessGranted) + Grants(Settle(old(state.View())).1, key, holder)
    {
      ghost var start, now := state.View(), state.View();
      ghost var served: seq<Req> := [];
      assert served + Settle(now).1 == Settle(start).1;
      while state.pendingRequest != [] && state.pendingRequest[0].kind.Read?
        invariant now == state.View()
        invariant now.writer.None? && Exclusive(now)
        invariant now == start || now.readers != {}
        invariant Settle(now).0 == Settle(start).0 && served + Settle(now).1 == Settle(start).1
        invariant accessGranted == old(accessGranted) + Grants(served, key, holder)
        decreases |state.pendingRequest|
      {
        var next := state.pendingRequest[0];
        ghost var after := now.(pending := now.pending[1..], readers := now.readers + {next.proc});
        SettleOneRead(now, after, served);
        GrantsAppend(old(accessGranted), served, next, key, holder);
        accessGranted := accessGranted + [Grant(next.proc, key, RequestType.Read, holder)];
        state.RegisterReader(next.proc);
        state.pendingRequest := state.pendingRequest[1..];
        served, now := served + [next], after;
      }
      SettleBlocked(now, served);
    }

    // Serves the queue of a key that nobody holds.
    method HandleRequesting(key: KeyId)
      requires key in keyStates
      requires !Held(keyStates[key].View()) && Exclusive(keyStates[key].View())
      modifies this`accessGranted, keyStates[key]
      ensures keyStates[key].View() == Settle(old(keyStates[key].View())).0
      ensures accessGranted ==
                old(accessGranted) + Grants(Settle(old(keyStates[key].View())).1, key, old(keyStates[key].creator))
    {
      var state := keyStates[key];
      if state.pendingRequest == [] {
        return;
      }
      var front := state.pendingRequest[0];
      assert front in state.pendingRequest;
      var holder := state.Holder();
      if front.kind.Write? {
        DrainWrite(state.View());
        GrantsAppend(accessGranted, [], front, key, holder);
        assert [] + [front] == [front] && accessGranted + Grants([], key, holder) == accessGranted;
        accessGranted := accessGranted + [Grant(front.proc, key, RequestType.Write, holder)];
        state.RegisterWriter(front.proc);
        state.pendingRequest := state.pendingRequest[1..];
      } else if front.kind.Read? {
        ServeReads(state, key, holder);
      } else {
        assert false;
      }
    }

    method Read(p: ProcId, key: KeyId) returns (r: Result<ProcId, AccessError>)
      requires Valid()
      modifies this, keyStates.Values
      ensures Valid() && keyStates == old(keyStates)
      ensures Snapshot() == Apply(old(Snapshot()), Op(p, RequestType.Read, key)).0
      ensures r.Err? ==> Report(Apply(old(Snapshot()), Op(p, RequestType.Read, key)).1, p, key) == Err(r.error)
      ensures r.Ok? ==> Apply(old(Snapshot()), Op(p, RequestType.Read, key)).1.Granted?
      ensures r.Err? ==> r.error == if key in keyStates then RequestAccess(p, key) else KeyNotFound(key)
      // The reported holder reads the key now; it may be the requester itself.
      ensures r.Ok? ==> key in keyStates && r.value in keyStates[key].readers && p in keyStates[key].readers
    {
      ghost var op := Op(p, RequestType.Read, key);
      ghost var was := Snapshot();
      ApplyKeepsInv(was, op);
      if key !in keyStates {
        return Err(KeyNotFound(key));
      }
      var state := keyStates[key];
      SettleAfterEnqueue(state.View(), Req(p, RequestType.Read));
      var requestingWriter := state.pendingRequest != [] && state.pendingRequest[0].kind.Write?;
      if state.writer.Some? || requestingWriter {
        state.pendingRequest := state.pendingRequest + [Req(p, RequestType.Read)];
        r := Err(RequestAccess(p, key));
      } else {
        state.RegisterReader(p);
        var holder := state.Holder();
        r := Ok(holder);
      }
      assert Snapshot().keys == Apply(was, op).0.keys;
    }

    method Release(p: ProcId, key: KeyId) returns (r: Result<(), AccessError>)
      requires Valid()
      modifies this, keyStates.Values
      ensures Valid() && keyStates == old(keyStates)
      ensures Snapshot() == Apply(old(Snapshot()), Op(p, RequestType.Release, key)).0
      ensures r == Report(Apply(old(Snapshot()), Op(p, RequestType.Release, key)).1, p, key)
      ensures r ==
                if key !in keyStates then Err(KeyNotFound(key))
                else if old(keyStates[key].writer) != Some(p) && p !in old(keyStates[key].readers)
                then Err(ReleaseAccess(p, key))
                else Ok(())
    {
      ghost var op := Op(p, RequestType.Release, key);
      ghost var was := Snapshot();
      ApplyKeepsInv(was, op);
      if key !in keyStates {
        return Err(KeyNotFound(key));
      }
      var state := keyStates[key];
      var writerRelease := state.writer == Some(p);
      var readerRelease := p in state.readers;
      if !writerRelease && !readerRelease {
        return Err(ReleaseAccess(p, key));
      }
      ApplyRelease(was, op);
      if writerRelease {
        state.writer := None;
        HandleRequesting(key);
      } else {
        state.readers := state.readers - {p};
        if state.readers == {} {
          HandleRequesting(key);
        } else {
          SettleAfterDropStillHeld(was.keys[key], p);
        }
      }
      r := Ok(());
      assert state.View() == Settle(Drop(was.keys[key], p)).0;
      assert Snapshot().keys == Apply(was, op).0.keys;
    }

    method Write(p: ProcId, key: KeyId) returns (r: Result<(), AccessError>)
      requires Valid()
      modifies this, keyStates.Values
      ensures Valid() && keyStates == old(keyStates)
      ensures Snapshot() == Apply(old(Snapshot()), Op(p, RequestType.Write, key)).0
      ensures r == Report(Apply(old(Snapshot()), Op(p, RequestType.Write, key)).1, p, key)
      ensures r ==
                if key !in keyStates then Err(KeyNotFound(key))
                else if old(keyStates[key].readers) != {} || old(keyStates[key].writer).Some?
                then Err(RequestAccess(p, key))
                else Ok(())
    {
      ghost var op := Op(p, RequestType.Write, key);
      ghost var was := Snapshot();
      ApplyKeepsInv(was, op);
      if key !in keyStates {
        return Err(KeyNotFound(key));
      }
      var state := keyStates[key];
      SettleAfterEnqueue(state.View(), Req(p, RequestType.Write));
      if state.readers != {} || state.writer.Some? {
        state.pendingRequest := state.pendingRequest + [Req(p, RequestType.Write)];
        r := Err(RequestAccess(p, key));
      } else {
        state.RegisterWriter(p);
        r := Ok(());
      }
      assert Snapshot().keys == Apply(was, op).0.keys;
    }
  }
}
