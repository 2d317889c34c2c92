/// The backup reading its link in the running system (src/registry_server.rs:217-264).

module BackupReads {
  import opened Common
  import opened Protocol
  import opened ServerSpec
  import opened Wire
  import opened Framing
  import opened Delivery
  import opened Replication
  import opened RegistrySystem
  import opened RegistryTheorems
  import opened ServeStep
  import opened BackupLink

  // What the environment decides when a read is handled: the holder that the hash set yields, and the wording of
  // a parse error.
  datatype Chance = Chance(pick: ProcId, wording: string)

  function Parsed(chunk: string, chance: Chance): Result<Message, string> {
    match FromSlice(chunk)
    case Some(m) => Ok(m)
    case None => Err(chance.wording)
  }

  // The backup after these reads of its link.
  function AfterReads(s: Server, chunks: seq<string>, chances: seq<Chance>): Server
    requires |chances| == |chunks|
    decreases |chunks|
  {
    if chunks == [] then s
    else
      AfterReads(HandleData(s, PRIMARY_TOKEN, Parsed(chunks[0], chances[0]), chances[0].pick).0, chunks[1..],
                 chances[1..])
  }

  // Its locks follow the messages read; a read that is no message changes none.
  lemma {:induction false} LocksFollowReads(s: Server, chunks: seq<string>, chances: seq<Chance>)
    requires |chances| == |chunks|
    ensures AfterReads(s, chunks, chances).manager.keys == Replay(s.manager.keys, ReadMessages(chunks))
    decreases |chunks|
  {
    if chunks != [] {
      var parsed, pick := Parsed(chunks[0], chances[0]), chances[0].pick;
      KeysFollowMessage(s, PRIMARY_TOKEN, parsed, pick);
      LocksFollowReads(HandleData(s, PRIMARY_TOKEN, parsed, pick).0, chunks[1..], chances[1..]);
      if parsed.Ok? {
        assert ([parsed.value] + ReadMessages(chunks[1..]))[1..] == ReadMessages(chunks[1..]);
      }
    }
  }

  ghost predicate LinkForwardable(s: System) {
    s.server.backup.Some? && AllForwardable(s.server.backup.value)
  }

  lemma ServeForwards(s: System, p: ProcId, pick: ProcId)
    requires SystemInv(s) && Enabled(s, Serve(p, pick)) && LinkForwardable(s)
    ensures LinkForwardable(AfterServe(s, p, pick))
  {
    SenderAsked(p, s.clients[p], s.up[p], s.server.streams[p], s.server.manager.keys);
    RequestEffect(s.server, p, AsOp(s.up[p][0]).value, pick);
  }

  lemma StepForwards(s: System, step: Step)
    requires SystemInv(s) && Enabled(s, step) && LinkForwardable(s)
    ensures LinkForwardable(Next(s, step))
  {
    if step.Serve? {
      ServeForwards(s, step.p, step.pick);
    }
  }

  lemma {:induction false} RunForwards(s: System, steps: seq<Step>, t: System)
    requires SystemInv(s) && LinkForwardable(s) && Reaches(s, steps, t)
    ensures LinkForwardable(t)
    decreases |steps|
  {
    if steps != [] {
      StepForwards(s, steps[0]);
      StepKeepsInv(s, steps[0]);
      RunForwards(Next(s, steps[0]), steps[1..], t);
    }
  }

  // In every reachable state and for every division into reads of what is on its way to the backup: the backup
  // reads exactly the forwarded messages, in order, if and only if every read that is not blank holds one whole
  // message; and then its locks are those of the primary.
  lemma BackupReadsExactlyWhen(s: System, steps: seq<Step>, t: System, chunks: seq<string>)
    requires Init(s) && Reaches(s, steps, t)
    requires t.server.backup.Some? && Concat(chunks) == Join(Bodies(t.server.backup.value))
    ensures ReadMessages(chunks) == t.server.backup.value <==> WholeBodies(chunks, t.server.backup.value)
    ensures WholeBodies(chunks, t.server.backup.value) ==>
              forall chances :: |chances| == |chunks| ==>
                AfterReads(t.backup, chunks, chances).manager.keys == t.server.manager.keys
  {
    InitHolds(s);
    RunForwards(s, steps, t);
    MessagesReadExactlyWhen(t.server.backup.value, chunks);
    BackupAgrees(s, steps, t);
    if WholeBodies(chunks, t.server.backup.value) {
      forall chances | |chances| == |chunks|
        ensures AfterReads(t.backup, chunks, chances).manager.keys == t.server.manager.keys
      {
        LocksFollowReads(t.backup, chunks, chances);
      }
    }
  }
}
