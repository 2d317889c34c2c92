/// Everything the registry ever wrote to a client: what each step adds, and what kind of stream it is.

module StreamHistory {
  import opened Common
  import opened Protocol
  import opened LockSpec
  import opened ServerSpec
  import opened ClientProtocol
  import opened Delivery
  import opened RegistrySystem
  import opened ServeStep
  import opened RegistryTheorems
  import opened Framing
  import opened Wire

  function Taken(log: seq<Exchange>): seq<Message> {
    if log == [] then [] else Taken(log[..|log| - 1]) + log[|log| - 1].answers
  }

  // Everything the server wrote to a client so far: what the client took off its stream and what is on it.
  function Written(p: ProcId, c: Client, down: seq<Message>): seq<Message> {
    if c.status.Connecting? then down else [Registry(Connection(p))] + Taken(c.log) + c.answers + down
  }

  function WrittenTo(s: System, p: ProcId): seq<Message> {
    if p in s.clients && p in s.server.streams then Written(p, s.clients[p], s.server.streams[p]) else []
  }

  // The messages that a step makes the server write to q.
  ghost function WrittenBy(s: System, step: Step, q: ProcId): seq<Message>
    requires Enabled(s, step)
  {
    match step
    case Connect(_) => if q == s.server.idCounter + 1 then [Registry(Connection(q))] else []
    case Serve(p, pick) =>
      if AsOp(s.up[p][0]).Some? && q in s.clients then Hears(s.server, p, AsOp(s.up[p][0]).value, pick, q) else []
    case _ => []
  }

  // Taking a message off the stream is no new writing.
  lemma TakeKeepsWritten(p: ProcId, c: Client, up: seq<Message>, down: seq<Message>,
                         keys: map<KeyId, Lock>)
    requires ClientOk(p, c, up, down, keys) && !c.status.Idle? && down != []
    ensures Written(p, TakeMessage(c, down[0]), down[1..]) == Written(p, c, down)
  {
    var c', first := TakeMessage(c, down[0]), [Registry(Connection(p))];
    assert down == [down[0]] + down[1..];
    if c.status.Connecting? {
      assert Taken(c'.log) + c'.answers == [];
    } else {
      ShiftAnswer(first, Taken(c.log), c.answers, down[0], down[1..]);
      assert c'.status.Idle? ==> c'.log[..|c'.log| - 1] == c.log;
    }
  }

  lemma ShiftAnswer(first: seq<Message>, heard: seq<Message>, answers: seq<Message>, msg: Message,
                    rest: seq<Message>)
    ensures first + heard + answers + ([msg] + rest) == first + heard + (answers + [msg]) + rest
    ensures first + heard + answers + ([msg] + rest) == first + (heard + (answers + [msg])) + [] + rest
  {
  }

  lemma WrittenAppend(p: ProcId, c: Client, down: seq<Message>, more: seq<Message>)
    ensures Written(p, c, down + more) == Written(p, c, down) + more
  {
    var first := [Registry(Connection(p))] + Taken(c.log) + c.answers;
    assert first + (down + more) == (first + down) + more;
  }

  // The server's part of a step: which messages are appended to the stream of q.
  lemma ServeWrites(s: System, p: ProcId, pick: ProcId, q: ProcId)
    requires SystemInv(s) && Enabled(s, Serve(p, pick)) && q in s.clients
    ensures var t := AfterServe(s, p, pick);
            && t.clients == s.clients && q in t.server.streams
            && t.server.streams[q] == s.server.streams[q] + WrittenBy(s, Serve(p, pick), q)
  {
    SenderAsked(p, s.clients[p], s.up[p], s.server.streams[p], s.server.manager.keys);
    RequestEffect(s.server, p, AsOp(s.up[p][0]).value, pick);
  }

  // What a step leaves on the stream of q.
  lemma StreamMoves(s: System, step: Step, q: ProcId)
    requires SystemInv(s) && Enabled(s, step) && q in s.clients
    ensures q in Next(s, step).clients && q in Next(s, step).server.streams
    ensures Next(s, step).server.streams[q] ==
              if step == Take(q) then s.server.streams[q][1..] else s.server.streams[q] + WrittenBy(s, step, q)
  {
    assert s.server.streams[q] + [] == s.server.streams[q];
    if step.Serve? {
      ServeWrites(s, step.p, step.pick, q);
    }
  }

  lemma ConnectWrites(s: System, addr: Address, q: ProcId)
    requires SystemInv(s) && Enabled(s, Connect(addr))
    ensures WrittenTo(AfterConnect(s, addr), q) == WrittenTo(s, q) + WrittenBy(s, Connect(addr), q)
  {
    assert WrittenTo(s, q) + [] == WrittenTo(s, q);
    if q == s.server.idCounter + 1 {
      assert WrittenTo(s, q) == [];
    }
  }

  // Every step adds to what was written to q exactly the messages that the server writes to q in that step.
  lemma WrittenGrows(s: System, step: Step, q: ProcId)
    requires SystemInv(s) && Enabled(s, step)
    ensures WrittenTo(Next(s, step), q) == WrittenTo(s, q) + WrittenBy(s, step, q)
  {
    assert WrittenTo(s, q) + [] == WrittenTo(s, q);
    match step
    case Connect(addr) => ConnectWrites(s, addr, q);
    case Ask(p, kind, key) =>
    case Serve(p, pick) =>
      if q in s.clients {
        ServeWrites(s, p, pick, q);
        WrittenAppend(q, s.clients[q], s.server.streams[q], WrittenBy(s, step, q));
      }
    case Take(p) =>
      if q == p {
        TakeKeepsWritten(p, s.clients[p], s.up[p], s.server.streams[p], s.server.manager.keys);
      }
    case Mirror(pick) =>
  }

  // Everything the server wrote to q in a run.
  ghost function WrittenIn(s: System, steps: seq<Step>, t: System, q: ProcId): seq<Message>
    requires Reaches(s, steps, t)
    decreases |steps|
  {
    if steps == [] then []
    else WrittenBy(s, steps[0], q) + WrittenIn(Next(s, steps[0]), steps[1..], t, q)
  }

  // What a client took and what is still on its stream are all that was written to it, in order, in every run.
  lemma {:induction false} WrittenInRun(s: System, steps: seq<Step>, t: System, q: ProcId)
    requires SystemInv(s) && Reaches(s, steps, t)
    ensures WrittenTo(t, q) == WrittenTo(s, q) + WrittenIn(s, steps, t, q)
    decreases |steps|
  {
    if steps == [] {
      assert WrittenTo(s, q) + [] == WrittenTo(s, q);
    } else {
      var next := Next(s, steps[0]);
      StepKeepsInv(s, steps[0]);
      WrittenGrows(s, steps[0], q);
      WrittenInRun(next, steps[1..], t, q);
      Regroup(WrittenTo(s, q), WrittenBy(s, steps[0], q), WrittenIn(next, steps[1..], t, q));
    }
  }

  // Everything on the way from a client to the server, if its ids are machine words, is one message that fits the
  // 256 bytes of one read and is read back as that message.
  lemma OneReadOneMessage(s: System, steps: seq<Step>, t: System, p: ProcId)
    requires Init(s) && Reaches(s, steps, t) && p in t.clients && p in t.up
    requires forall m :: m in t.up[p] && AsOp(m).Some? ==> AsOp(m).value.key < WORD
    ensures |t.up[p]| <= 1 && |Join(Bodies(t.up[p]))| <= 256
    ensures t.up[p] != [] ==> FromSlice(Join(Bodies(t.up[p]))) == Some(t.up[p][0])
  {
    InitHolds(s);
    RunKeepsInv(s, steps, t);
    if t.up[p] != [] {
      SenderAsked(p, t.clients[p], t.up[p], t.server.streams[p], t.server.manager.keys);
      var msg := t.up[p][0];
      assert msg in t.up[p];
      assert t.up[p] == [msg] && Bodies([msg]) == [Body(msg)];
      assert [Body(msg)][1..] == [] && Join([Body(msg)]) == ToVec(msg);
      RequestFrameLength(p, t.clients[p].status.kind, t.clients[p].status.key);
      RoundTrip(msg);
    } else {
      assert Bodies([]) == [];
    }
  }

  predicate Replies(ms: seq<Message>) {
    forall i :: 0 <= i < |ms| ==> IsReply(ms[i])
  }

  lemma {:induction false} TakenReplies(log: seq<Exchange>)
    requires forall e :: e in log ==> WellAnswered(e.kind, e.key, e.answers)
    ensures Replies(Taken(log))
  {
    if log != [] {
      TakenReplies(log[..|log| - 1]);
      assert log[|log| - 1] in log;
    }
  }

  lemma WrittenIsServerStream(p: ProcId, c: Client, up: seq<Message>, down: seq<Message>,
                              keys: map<KeyId, Lock>)
    requires ClientOk(p, c, up, down, keys)
    ensures ServerStream(Written(p, c, down))
  {
    if !c.status.Connecting? {
      TakenReplies(c.log);
      assert Replies(c.answers) && Replies(down);
    }
  }

  // Nothing a client reads blocks it, in any run and however the stream is chunked into reads of at most 37
  // bytes: once the bytes of the first k messages that the server wrote are there, k calls have returned, with
  // exactly those messages.
  lemma ClientNeverStalls(s: System, steps: seq<Step>, t: System, p: ProcId,
                          chunks: seq<string>, k: nat)
    requires Init(s) && Reaches(s, steps, t) && p in t.clients
    requires k <= |WrittenIn(s, steps, t, p)|
    requires Join(Bodies(WrittenIn(s, steps, t, p)[..k])) <= Concat(chunks)
    requires Concat(chunks) <= Join(Bodies(WrittenIn(s, steps, t, p)))
    requires forall i :: 0 <= i < |chunks| ==> |chunks[i]| <= SPACING
    ensures var ms := WrittenIn(s, steps, t, p);
            var (lines, carry) := Drain("", chunks);
            && k <= |lines| <= |ms| && '\n' !in carry
            && forall i :: 0 <= i < |lines| ==> Decode(Some(lines[i])) == Ok(ms[i])
  {
    InitHolds(s);
    RunKeepsInv(s, steps, t);
    var ms := WrittenIn(s, steps, t, p);
    WrittenInRun(s, steps, t, p);
    assert [] + ms == ms;
    assert ClientOk(p, t.clients[p], t.up[p], t.server.streams[p], t.server.manager.keys);
    WrittenIsServerStream(p, t.clients[p], t.up[p], t.server.streams[p], t.server.manager.keys);
    NeverStalls(ms, chunks, k);
    MessagesInOrder(ms, chunks);
  }
}
