/// What the access manager is meant to be: one greedy first-in first-out read-write lock per key.
///
/// A request joins the back of its key's queue; then the front of the queue is admitted again and
/// again for as long as it is compatible with the current holders.  Nothing here looks like the
/// branches of src/access_manager.rs; the class in access_manager.dfy is proved equal to it.

module LockSpec {
  import opened Common
  import opened Protocol

  datatype Req = Req(proc: ProcId, kind: RequestType)

  datatype Lock = Lock(pending: seq<Req>, readers: set<ProcId>, writer: Option<ProcId>, creator: ProcId)

  // One entry of the channel: the process, the key, the kind of access and the process to fetch the data from.
  datatype Grant = Grant(proc: ProcId, key: KeyId, kind: RequestType, holder: ProcId)

  datatype Manager = Manager(keys: map<KeyId, Lock>, channel: seq<Grant>)

  datatype AccessError =
    | RequestAccess(proc: ProcId, key: KeyId)
    | ReleaseAccess(proc: ProcId, key: KeyId)
    | KeyAccessed
    | KeyExists(key: KeyId)
    | KeyNotFound(key: KeyId)

  datatype Op = Op(proc: ProcId, kind: RequestType, key: KeyId)

  datatype Outcome = Done | Granted | Queued | Refused(error: AccessError)

  predicate Held(v: Lock) {
    v.readers != {} || v.writer.Some?
  }

  predicate HeldBy(v: Lock, p: ProcId) {
    v.writer == Some(p) || p in v.readers
  }

  // p is registered on the lock for this kind of access.
  predicate Registered(v: Lock, r: Req) {
    if r.kind.Write? then v.writer == Some(r.proc) else r.kind.Read? && r.proc in v.readers
  }

  predicate IsAccess(kind: RequestType) {
    kind.Read? || kind.Write?
  }

  predicate Compatible(v: Lock, kind: RequestType) {
    v.writer.None? && (kind.Write? ==> v.readers == {})
  }

  function Admit(v: Lock, r: Req): Lock {
    if r.kind.Write? then v.(writer := Some(r.proc)) else v.(readers := v.readers + {r.proc})
  }

  function Enqueue(v: Lock, r: Req): Lock {
    v.(pending := v.pending + [r])
  }

  function Drop(v: Lock, p: ProcId): Lock {
    if v.writer == Some(p) then v.(writer := None) else v.(readers := v.readers - {p})
  }

  // A writer excludes readers and only accesses are queued.
  ghost predicate Exclusive(v: Lock) {
    && (v.writer.Some? ==> v.readers == {})
    && (forall r :: r in v.pending ==> IsAccess(r.kind))
  }

  // The invariant the source relies on without stating it.
  ghost predicate LockInv(v: Lock) {
    && Exclusive(v)
    && (v.pending != [] ==> Held(v))
    && (v.writer.None? && v.pending != [] ==> v.pending[0].kind.Write?)
  }

  // Admits from the front while the front is compatible; returns the lock and the admitted requests in order.
  function Settle(v: Lock): (r: (Lock, seq<Req>))
    ensures v.pending == r.1 + r.0.pending
    ensures r.0.creator == v.creator
    ensures Exclusive(v) ==> LockInv(r.0)
    decreases |v.pending|
  {
    if v.pending != [] && Compatible(v, v.pending[0].kind) then
      var front := v.pending[0];
      var rest := Settle(Admit(v, front).(pending := v.pending[1..]));
      (rest.0, [front] + rest.1)
    else
      (v, [])
  }

  function Grants(reqs: seq<Req>, key: KeyId, holder: ProcId): (gs: seq<Grant>)
    ensures |gs| == |reqs|
  {
    seq(|reqs|, i requires 0 <= i < |reqs| => Grant(reqs[i].proc, key, reqs[i].kind, holder))
  }

  lemma GrantsAppend(channel: seq<Grant>, reqs: seq<Req>, r: Req, key: KeyId, holder: ProcId)
    ensures channel + Grants(reqs + [r], key, holder) ==
              (channel + Grants(reqs, key, holder)) + [Grant(r.proc, key, r.kind, holder)]
  {
    assert Grants(reqs + [r], key, holder) == Grants(reqs, key, holder) + [Grant(r.proc, key, r.kind, holder)];
  }

  // One public operation of the manager.
  function Apply(m: Manager, op: Op): (Manager, Outcome) {
    if op.kind.Create? then
      if op.key in m.keys then (m, Refused(KeyExists(op.key)))
      else (m.(keys := m.keys[op.key := Lock([], {}, None, op.proc)]), Done)
    else if op.key !in m.keys then
      (m, Refused(KeyNotFound(op.key)))
    else
      var v := m.keys[op.key];
      match op.kind
      case Delete =>
        if Held(v) then (m, Refused(KeyAccessed)) else (m.(keys := m.keys - {op.key}), Done)
      case Release =>
        if !HeldBy(v, op.proc) then (m, Refused(ReleaseAccess(op.proc, op.key)))
        else
          var (w, admitted) := Settle(Drop(v, op.proc));
          (Manager(m.keys[op.key := w], m.channel + Grants(admitted, op.key, v.creator)), Done)
      case _ =>
        var (w, admitted) := Settle(Enqueue(v, Req(op.proc, op.kind)));
        (m.(keys := m.keys[op.key := w]), if admitted == [] then Queued else Granted)
  }

  ghost predicate ManagerInv(m: Manager) {
    && (forall k :: k in m.keys ==> LockInv(m.keys[k]))
    && (forall g :: g in m.channel ==> IsAccess(g.kind))
  }

  // The three facts together say exactly that the front of the queue cannot be admitted now.
  lemma SettledIsFrontBlocked(v: Lock)
    requires Exclusive(v)
    ensures LockInv(v) <==> (v.pending != [] ==> !Compatible(v, v.pending[0].kind))
  {
    if v.pending != [] {
      assert v.pending[0] in v.pending;
    }
  }

  // A lock at rest admits at most the newcomer, and only when nobody waits.
  lemma SettleAfterEnqueue(v: Lock, r: Req)
    requires LockInv(v) && IsAccess(r.kind)
    ensures var (w, admitted) := Settle(Enqueue(v, r));
            if v.pending == [] && Compatible(v, r.kind)
            then w == Admit(v, r) && admitted == [r]
            else w == Enqueue(v, r) && admitted == []
  {
    SettledIsFrontBlocked(v);
    var e := Enqueue(v, r);
    if v.pending == [] && Compatible(v, r.kind) {
      var next := Admit(e, r).(pending := e.pending[1..]);
      assert next == Admit(v, r);
      assert Settle(next) == (next, []);
    }
  }

  // Dropping a reader that is not the last one wakes nobody.
  lemma SettleAfterDropStillHeld(v: Lock, p: ProcId)
    requires LockInv(v) && HeldBy(v, p) && Held(Drop(v, p))
    ensures Settle(Drop(v, p)) == (Drop(v, p), [])
  {
  }

  lemma DropKeepsExclusive(v: Lock, p: ProcId)
    requires Exclusive(v)
    ensures Exclusive(Drop(v, p))
  {
  }

  lemma ApplyRelease(m: Manager, op: Op)
    requires op.kind.Release? && op.key in m.keys && HeldBy(m.keys[op.key], op.proc)
    requires Exclusive(m.keys[op.key])
    ensures Exclusive(Drop(m.keys[op.key], op.proc))
    ensures Apply(m, op).1 == Done
    ensures Apply(m, op).0.keys == m.keys[op.key := Settle(Drop(m.keys[op.key], op.proc)).0]
    ensures Apply(m, op).0.channel ==
              m.channel + Grants(Settle(Drop(m.keys[op.key], op.proc)).1, op.key, m.keys[op.key].creator)
  {
    DropKeepsExclusive(m.keys[op.key], op.proc);
  }

  lemma ApplyKeepsInv(m: Manager, op: Op)
    requires ManagerInv(m)
    ensures ManagerInv(Apply(m, op).0)
  {
    if op.key in m.keys && IsAccess(op.kind) {
      assert Exclusive(Enqueue(m.keys[op.key], Req(op.proc, op.kind)));
    } else if op.key in m.keys && op.kind.Release? && HeldBy(m.keys[op.key], op.proc) {
      var v := m.keys[op.key];
      assert Exclusive(Drop(v, op.proc));
      var (w, admitted) := Settle(Drop(v, op.proc));
      forall g | g in Grants(admitted, op.key, v.creator) ensures IsAccess(g.kind) {
        var i :| 0 <= i < |admitted| && Grants(admitted, op.key, v.creator)[i] == g;
        assert admitted[i] in admitted + w.pending;
      }
    }
  }

  // Every refusal leaves the manager as it was; only a queued request is both refused and recorded.
  lemma RefusalChangesNothing(m: Manager, op: Op)
    ensures Apply(m, op).1.Refused? ==> Apply(m, op).0 == m
    ensures Apply(m, op).1.Refused? <==>
              || (op.kind.Create? && op.key in m.keys)
              || (!op.kind.Create? && op.key !in m.keys)
              || (op.kind.Delete? && op.key in m.keys && Held(m.keys[op.key]))
              || (op.kind.Release? && op.key in m.keys && !HeldBy(m.keys[op.key], op.proc))
  {
  }

  // The four refusals and their errors.
  lemma RefusalErrors(m: Manager, op: Op)
    ensures op.kind.Create? && op.key in m.keys ==> Apply(m, op) == (m, Refused(KeyExists(op.key)))
    ensures !op.kind.Create? && op.key !in m.keys ==> Apply(m, op) == (m, Refused(KeyNotFound(op.key)))
    ensures op.kind.Delete? && op.key in m.keys && (m.keys[op.key].readers != {} || m.keys[op.key].writer.Some?) ==>
              Apply(m, op) == (m, Refused(KeyAccessed))
    ensures (op.kind.Release? && op.key in m.keys
             && m.keys[op.key].writer != Some(op.proc) && op.proc !in m.keys[op.key].readers) ==>
              Apply(m, op) == (m, Refused(ReleaseAccess(op.proc, op.key)))
  {
  }

  // What the accepted operations do to their key.
  lemma AcceptedOutcomes(m: Manager, op: Op)
    requires ManagerInv(m)
    ensures op.kind.Create? && op.key !in m.keys ==>
              Apply(m, op) == (Manager(m.keys[op.key := Lock([], {}, None, op.proc)], m.channel), Done)
    ensures op.kind.Delete? && op.key in m.keys && m.keys[op.key].readers == {} && m.keys[op.key].writer.None? ==>
              Apply(m, op) == (Manager(m.keys - {op.key}, m.channel), Done)
    ensures op.kind.Read? && op.key in m.keys ==>
              var v := m.keys[op.key];
              Apply(m, op) ==
                if v.writer.None? && v.pending == [] then
                  (Manager(m.keys[op.key := v.(readers := v.readers + {op.proc})], m.channel), Granted)
                else
                  (Manager(m.keys[op.key := v.(pending := v.pending + [Req(op.proc, Read)])], m.channel), Queued)
    ensures op.kind.Write? && op.key in m.keys ==>
              var v := m.keys[op.key];
              Apply(m, op) ==
                if v.writer.None? && v.readers == {} then
                  (Manager(m.keys[op.key := v.(writer := Some(op.proc))], m.channel), Granted)
                else
                  (Manager(m.keys[op.key := v.(pending := v.pending + [Req(op.proc, Write)])], m.channel), Queued)
    ensures op.kind.Release? && op.key in m.keys && HeldBy(m.keys[op.key], op.proc) ==> Apply(m, op).1 == Done
  {
    if op.key in m.keys && IsAccess(op.kind) {
      assert LockInv(m.keys[op.key]);
      SettleAfterEnqueue(m.keys[op.key], Req(op.proc, op.kind));
    }
  }

  // The number of entries at the front of the queue that are reads.
  function ReadRun(pending: seq<Req>): (n: nat)
    ensures n <= |pending|
    ensures forall i :: 0 <= i < n ==> pending[i].kind.Read?
    ensures n < |pending| ==> !pending[n].kind.Read?
  {
    if pending == [] || !pending[0].kind.Read? then 0 else 1 + ReadRun(pending[1..])
  }

  function Procs(reqs: seq<Req>): set<ProcId> {
    if reqs == [] then {} else {reqs[0].proc} + Procs(reqs[1..])
  }

  lemma TakeOne(s: seq<Req>, n: nat)
    requires 0 < n <= |s|
    ensures s[..n] == [s[0]] + s[1..][..n - 1]
    ensures s[n..] == s[1..][n - 1..]
    ensures Procs(s[..n]) == {s[0].proc} + Procs(s[1..][..n - 1])
  {
    assert s[..n][1..] == s[1..][..n - 1];
  }

  // With readers only, the greedy lock admits exactly the leading run of reads.
  lemma {:induction false} SettleReaders(v: Lock)
    requires v.writer.None? && v.readers != {} && Exclusive(v)
    ensures Settle(v).0 ==
              v.(pending := v.pending[ReadRun(v.pending)..],
                 readers := v.readers + Procs(v.pending[..ReadRun(v.pending)]))
    ensures Settle(v).1 == v.pending[..ReadRun(v.pending)]
    decreases |v.pending|
  {
    if v.pending == [] || !v.pending[0].kind.Read? {
      assert v.pending == [] || v.pending[0] in v.pending;
      assert v.pending[0..] == v.pending && Procs(v.pending[..0]) == {};
    } else {
      var next := Lock(v.pending[1..], v.readers + {v.pending[0].proc}, None, v.creator);
      assert Settle(v) == (Settle(next).0, [v.pending[0]] + Settle(next).1);
      SettleReaders(next);
      TakeOne(v.pending, ReadRun(v.pending));
    }
  }

  lemma SettleOneRead(v: Lock, next: Lock, done: seq<Req>)
    requires v.writer.None? && v.pending != [] && v.pending[0].kind.Read? && Exclusive(v)
    requires next == v.(pending := v.pending[1..], readers := v.readers + {v.pending[0].proc})
    ensures Exclusive(next) && next.readers != {}
    ensures Settle(v).0 == Settle(next).0 && done + Settle(v).1 == (done + [v.pending[0]]) + Settle(next).1
  {
    assert Admit(v, v.pending[0]).(pending := v.pending[1..]) == next;
    assert done + ([v.pending[0]] + Settle(next).1) == (done + [v.pending[0]]) + Settle(next).1;
  }

  lemma SettleBlocked(v: Lock, done: seq<Req>)
    requires LockInv(v)
    ensures Settle(v).0 == v && done + Settle(v).1 == done
  {
    SettledIsFrontBlocked(v);
  }

  // Called with nobody holding the key, a drain serves exactly one write at the front of the queue,
  lemma DrainWrite(v: Lock)
    requires !Held(v) && v.pending != [] && v.pending[0].kind.Write?
    ensures Settle(v) == (v.(pending := v.pending[1..], writer := Some(v.pending[0].proc)), [v.pending[0]])
  {
    var front := v.pending[0];
    var next := Admit(v, front).(pending := v.pending[1..]);
    assert Settle(next) == (next, []);
    assert Settle(v) == (next, [front] + []);
    assert [front] + [] == [front];
  }

  // or else the maximal leading run of reads.
  lemma DrainReads(v: Lock)
    requires !Held(v) && Exclusive(v) && v.pending != [] && v.pending[0].kind.Read?
    ensures ReadRun(v.pending) > 0
    ensures Settle(v).0 ==
              v.(pending := v.pending[ReadRun(v.pending)..],
                 readers := Procs(v.pending[..ReadRun(v.pending)]))
    ensures Settle(v).1 == v.pending[..ReadRun(v.pending)]
  {
    var front := v.pending[0];
    var next := Lock(v.pending[1..], {front.proc}, None, v.creator);
    assert Admit(v, front).(pending := v.pending[1..]) == next;
    SettleReaders(next);
    TakeOne(v.pending, ReadRun(v.pending));
  }
}
