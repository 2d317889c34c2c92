/// The link from the primary to its backup as the backup reads it: handle_data parses whatever one read returned
/// (src/registry_server.rs:229-253), with no carry-over.  This file says exactly which reads bring the messages.

module BackupLink {
  import opened Common
  import opened Protocol
  import opened Json
  import opened Wire
  import opened Framing

  // ---------------------------------------------------------------------------------- more text after a value

  lemma {:induction false} StringExtends(s: string, z: string)
    requires ParseString(s).Some?
    ensures ParseString(s + z) == Some((ParseString(s).value.0, ParseString(s).value.1 + z))
  {
    if s[0] == '"' {
      assert (s + z)[1..] == s[1..] + z;
    } else if s[0] == '\\' {
      if s[1] == 'u' {
        StringExtends(s[6..], z);
        assert (s + z)[6..] == s[6..] + z;
        assert s[2..][..4] == (s + z)[2..][..4];
      } else {
        StringExtends(s[2..], z);
        assert (s + z)[2..] == s[2..] + z;
      }
    } else {
      StringExtends(s[1..], z);
      assert (s + z)[1..] == s[1..] + z;
    }
  }

  lemma {:induction false} DigitRunExtends(s: string, z: string)
    requires DigitRun(s) < |s|
    ensures DigitRun(s + z) == DigitRun(s)
  {
    if IsDigit(s[0]) {
      DigitRunExtends(s[1..], z);
      assert (s + z)[1..] == s[1..] + z;
    }
  }

  // A value that is followed by something, or is no number, is read the same when more text comes.
  lemma {:induction false} ParseExtends(s: string, z: string)
    requires Parse(s).Some? && (Parse(s).value.1 != [] || !Parse(s).value.0.Num?)
    ensures Parse(s + z) == Some((Parse(s).value.0, Parse(s).value.1 + z))
    decreases |s|, 0
  {
    assert (s + z)[1..] == s[1..] + z;
    if IsDigit(s[0]) {
      DigitRunExtends(s, z);
      var n := DigitRun(s);
      assert (s + z)[..n] == s[..n] && (s + z)[n..] == s[n..] + z;
    } else if s[0] == '"' {
      StringExtends(s[1..], z);
    } else if s[0] == '[' {
      ItemsExtend(s[1..], z);
    } else {
      FieldsExtend(s[1..], z);
    }
  }

  lemma {:induction false} ItemsExtend(s: string, z: string)
    requires ParseItems(s).Some?
    ensures ParseItems(s + z) == Some((ParseItems(s).value.0, ParseItems(s).value.1 + z))
    decreases |s|, 1
  {
    ParseExtends(s, z);
    var rest := Parse(s).value.1;
    assert (rest + z)[1..] == rest[1..] + z;
    if rest[0] == ',' {
      ItemsExtend(rest[1..], z);
    }
  }

  lemma {:induction false} FieldsExtend(s: string, z: string)
    requires ParseFields(s).Some?
    ensures ParseFields(s + z) == Some((ParseFields(s).value.0, ParseFields(s).value.1 + z))
    decreases |s|, 1
  {
    assert (s + z)[1..] == s[1..] + z;
    StringExtends(s[1..], z);
    var colon := ParseString(s[1..]).value.1;
    assert (colon + z)[1..] == colon[1..] + z;
    ParseExtends(colon[1..], z);
    var rest := Parse(colon[1..]).value.1;
    assert (rest + z)[1..] == rest[1..] + z;
    if rest[0] == ',' {
      FieldsExtend(rest[1..], z);
    }
  }

  // ---------------------------------------------------------------------------------- no message inside a message

  predicate NoBrace(s: string) {
    '{' !in s
  }

  // No value in this one reads as a message, and no brace hides in a string.  What the primary forwards holds no
  // arrays.
  predicate Quiet(j: Json) {
    match j
    case Num(_) => true
    case Str(t) => NoBrace(Escape(t))
    case Arr(_) => false
    case Obj(fields) => JsonMessage(j).None? && QuietFields(fields)
  }

  predicate QuietFields(fields: Fields) {
    match fields
    case LastField(name, j) => NoBrace(Escape(name)) && Quiet(j)
    case Field(name, j, tail) => NoBrace(Escape(name)) && Quiet(j) && QuietFields(tail)
  }

  // No message starts here, however much of this text is there.
  predicate Dead(text: string) {
    text == [] || text[0] != '{' || (Parse(text).Some? && JsonMessage(Parse(text).value.0).None?)
  }

  lemma DeadStart(text: string, t: string)
    requires Dead(text) && t <= text && t != []
    ensures Parse(t).Some? ==> JsonMessage(Parse(t).value.0).None?
  {
    if t[0] == '{' && Parse(t).Some? {
      assert text == t + text[|t|..];
      ParseExtends(t, text[|t|..]);
    }
  }

  predicate Ends(x: string) {
    x != [] && !IsDigit(x[0])
  }

  lemma Skip(a: string, b: string, k: nat)
    requires |a| <= k <= |a + b|
    ensures (a + b)[k..] == b[k - |a|..]
  {
  }

  lemma SkipTwo(a: string, b: string, c: string, k: nat)
    requires |a| <= k <= |a| + |b| + |c|
    ensures (a + (b + c))[k..] == if k < |a| + |b| then (b + c)[k - |a|..] else c[k - |a| - |b|..]
  {
    Skip(a, b + c, k);
    if k >= |a| + |b| {
      Skip(b, c, k - |a|);
    }
  }

  // The text of an object behind its opening brace.
  lemma ObjectText(fields: Fields, x: string, k: nat)
    requires 0 < k <= |Print(Obj(fields)) + x|
    ensures (Print(Obj(fields)) + x)[k..] == (PrintFields(fields) + (['}'] + x))[k - 1..]
    ensures |Print(Obj(fields))| == |PrintFields(fields)| + 2
  {
    Bracketed(['{'], PrintFields(fields), ['}'], x);
    Skip(['{'], PrintFields(fields) + (['}'] + x), k);
  }

  lemma {:induction false} QuietInside(j: Json, x: string, k: nat)
    requires Quiet(j) && Ends(x) && k < |Print(j)|
    ensures Dead((Print(j) + x)[k..])
    decreases j, 0
  {
    assert (Print(j) + x)[k..][0] == Print(j)[k];
    match j
    case Num(n) =>
    case Str(t) =>
      assert k == 0 || k == |Print(j)| - 1 || Print(j)[k] == Escape(t)[k - 1];
    case Obj(fields) => QuietObject(fields, x, k);
  }

  lemma {:induction false} QuietObject(fields: Fields, x: string, k: nat)
    requires Quiet(Obj(fields)) && Ends(x) && k < |Print(Obj(fields))|
    ensures Dead((Print(Obj(fields)) + x)[k..])
    decreases fields, 2
  {
    if k == 0 {
      ParsePrint(Obj(fields), x);
      assert (Print(Obj(fields)) + x)[0..] == Print(Obj(fields)) + x;
    } else {
      ObjectText(fields, x, k);
      if k < |Print(Obj(fields))| - 1 {
        QuietInsideFields(fields, ['}'] + x, k - 1);
      } else {
        Skip(PrintFields(fields), ['}'] + x, k - 1);
      }
    }
  }

  // Inside the name of a field or its colon.
  lemma QuietName(name: string, rest: string, k: nat)
    requires NoBrace(Escape(name)) && k < |Quote(name)| + 1
    ensures Dead((Quote(name) + [':'] + rest)[k..])
  {
    var head := Quote(name) + [':'];
    assert (head + rest)[k..][0] == head[k];
    assert k == 0 || k >= |head| - 2 || head[k] == Escape(name)[k - 1];
  }

  // What follows the value of the first field.
  function Following(fields: Fields, x: string): string {
    if fields.LastField? then x else [','] + (PrintFields(fields.tail) + x)
  }

  lemma FieldsText(fields: Fields, x: string)
    ensures PrintFields(fields) + x == Quote(fields.name) + [':'] + (Print(fields.value) + Following(fields, x))
    ensures |PrintFields(fields)| ==
              |Quote(fields.name)| + 1 + |Print(fields.value)|
                + (if fields.LastField? then 0 else 1 + |PrintFields(fields.tail)|)
  {
    var head, p := Quote(fields.name) + [':'], Print(fields.value);
    if fields.LastField? {
      assert (head + p) + x == head + (p + x);
    } else {
      Rejoin(head, p, PrintFields(fields.tail), x);
    }
  }

  lemma Rejoin(head: string, p: string, tail: string, x: string)
    ensures head + p + [','] + tail + x == head + (p + ([','] + (tail + x)))
  {
  }

  lemma {:induction false} QuietInsideFields(fields: Fields, x: string, k: nat)
    requires QuietFields(fields) && Ends(x) && k < |PrintFields(fields)|
    ensures Dead((PrintFields(fields) + x)[k..])
    decreases fields, 1
  {
    var head, p := Quote(fields.name) + [':'], Print(fields.value);
    var y := Following(fields, x);
    FieldsText(fields, x);
    if k < |head| {
      QuietName(fields.name, p + y, k);
    } else {
      SkipTwo(head, p, y, k);
      if k < |head| + |p| {
        QuietInside(fields.value, y, k - |head|);
      } else {
        QuietAfter(fields, x, k - |head| - |p|);
      }
    }
  }

  lemma {:induction false} QuietAfter(fields: Fields, x: string, k: nat)
    requires QuietFields(fields) && Ends(x) && fields.Field? && k <= |PrintFields(fields.tail)|
    ensures Dead(([','] + (PrintFields(fields.tail) + x))[k..])
    decreases fields, 0
  {
    if k > 0 {
      Skip([','], PrintFields(fields.tail) + x, k);
      QuietInsideFields(fields.tail, x, k - 1);
    }
  }

  // ---------------------------------------------------------------------------------- what the primary forwards

  // The messages that are answered without an error, and so forwarded.
  predicate Forwardable(m: Message) {
    m.Registry? && (m.registry.ConnectionEstablished? || m.registry.Request?)
  }

  predicate AllForwardable(ms: seq<Message>) {
    forall i :: 0 <= i < |ms| ==> Forwardable(ms[i])
  }

  lemma QuietText(t: string)
    requires Plain(t) && NoBrace(t)
    ensures NoBrace(Escape(t))
  {
    PlainEscape(t);
  }

  predicate PlainName(t: string) {
    Plain(t) && NoBrace(t)
  }

  lemma RequestNames(kind: RequestType)
    ensures PlainName("proc_id") && PlainName("request_type") && PlainName("key_id") && PlainName(KindName(kind))
  {
  }

  lemma EnvelopeNames()
    ensures PlainName("Registry") && PlainName("Request") && PlainName("ConnectionEstablished")
  {
  }

  lemma QuietThree(a: string, p: nat, b: string, k: string, c: string, y: nat)
    requires PlainName(a) && PlainName(b) && PlainName(c) && PlainName(k)
    ensures Quiet(Obj(Field(a, Num(p), Field(b, Str(k), LastField(c, Num(y))))))
  {
    QuietText(a);
    QuietText(b);
    QuietText(c);
    QuietText(k);
    var last := LastField(c, Num(y));
    assert QuietFields(last);
    assert QuietFields(Field(b, Str(k), last));
  }

  lemma QuietOne(name: string, j: Json)
    requires PlainName(name) && Quiet(j)
    ensures QuietFields(LastField(name, j))
  {
    QuietText(name);
  }

  lemma QuietTag(name: string, j: Json)
    requires PlainName(name) && Quiet(j) && name != "Registry" && name != "Data"
    ensures Quiet(Tag(name, j))
  {
    QuietOne(name, j);
  }

  lemma QuietRequest(p: ProcId, kind: RequestType, key: KeyId)
    ensures Quiet(Obj(RequestFields(p, kind, key)))
  {
    RequestNames(kind);
    QuietThree("proc_id", p, "request_type", KindName(kind), "key_id", key);
  }

  // The value under the outer name of a forwarded message.
  lemma QuietContent(m: RegistryMessage)
    requires m.ConnectionEstablished? || m.Request?
    ensures Quiet(RegistryJson(m))
  {
    EnvelopeNames();
    if m.Request? {
      QuietRequest(m.proc, m.kind, m.key);
      QuietTag("Request", Obj(RequestFields(m.proc, m.kind, m.key)));
    } else {
      QuietTag("ConnectionEstablished", Num(m.id));
    }
  }

  // The fields of a forwarded message are quiet, though the message itself is not.
  lemma QuietMessage(m: Message)
    requires Forwardable(m)
    ensures MessageJson(m).Obj? && QuietFields(MessageJson(m).fields)
  {
    EnvelopeNames();
    QuietContent(m.registry);
    QuietOne("Registry", RegistryJson(m.registry));
  }

  lemma DeadInObject(fields: Fields, x: string, k: nat)
    requires QuietFields(fields) && Ends(x) && 0 < k <= |PrintFields(fields)| + 2 && k < |PrintFields(fields)| + 2 + |x|
    requires k == |PrintFields(fields)| + 2 ==> x[0] != '{'
    ensures Dead((Print(Obj(fields)) + x)[k..])
  {
    var n := |PrintFields(fields)|;
    ObjectText(fields, x, k);
    if k <= n {
      QuietInsideFields(fields, ['}'] + x, k - 1);
    } else {
      Skip(PrintFields(fields), ['}'] + x, k - 1);
    }
  }

  lemma FrameText(m: Message, more: string)
    ensures ToVec(m) + more == Print(MessageJson(m)) + (['\n'] + more)
  {
  }

  // No message starts inside the frame of a forwarded one.
  lemma DeadInside(m: Message, more: string, k: nat)
    requires Forwardable(m) && 0 < k <= |Body(m)|
    ensures Dead((ToVec(m) + more)[k..])
  {
    QuietMessage(m);
    DeadInObject(MessageJson(m).fields, ['\n'] + more, k);
    FrameText(m, more);
  }

  // ---------------------------------------------------------------------------------- reads

  // The messages that the reads bring; a read that is no message is answered with an error and forgotten.
  function ReadMessages(chunks: seq<string>): seq<Message> {
    if chunks == [] then []
    else
      match FromSlice(chunks[0])
      case None => ReadMessages(chunks[1..])
      case Some(m) => [m] + ReadMessages(chunks[1..])
  }

  // This text with white space around it.
  predicate Holds(chunk: string, body: string) {
    body <= SkipSpace(chunk) && Blank(SkipSpace(chunk)[|body|..])
  }

  // Apart from blank reads, each read holds exactly the next body.
  predicate WholeBodies(chunks: seq<string>, ms: seq<Message>) {
    if chunks == [] then ms == []
    else if Blank(chunks[0]) then WholeBodies(chunks[1..], ms)
    else ms != [] && Holds(chunks[0], Body(ms[0])) && WholeBodies(chunks[1..], ms[1..])
  }

  lemma {:induction false} SkipBlank(a: string, t: string)
    requires Blank(a) && (t == [] || !IsSpace(t[0]))
    ensures SkipSpace(a + t) == t
  {
    if a == [] {
      assert a + t == t;
    } else {
      SkipBlank(a[1..], t);
      assert (a + t)[1..] == a[1..] + t;
    }
  }

  lemma {:induction false} SkipToFirst(s: string) returns (i: nat)
    ensures i <= |s| && SkipSpace(s) == s[i..] && forall j :: 0 <= j < i ==> IsSpace(s[j])
  {
    if s != [] && IsSpace(s[0]) {
      i := SkipToFirst(s[1..]);
      i := i + 1;
    } else {
      i := 0;
      assert s[0..] == s;
    }
  }

  lemma BlankIsNothing(chunk: string)
    requires Blank(chunk)
    ensures FromSlice(chunk) == None
  {
    SkipBlank(chunk, []);
    assert chunk + [] == chunk;
  }

  lemma MessageStarts(m: Message)
    ensures Body(m) != [] && Body(m)[0] == '{'
  {
  }

  lemma HeldIsRead(chunk: string, m: Message)
    requires Holds(chunk, Body(m))
    ensures FromSlice(chunk) == Some(m)
  {
    var rest := SkipSpace(chunk)[|Body(m)|..];
    assert SkipSpace(chunk) == Body(m) + rest;
    JsonInverse(m);
    ParsePrint(MessageJson(m), rest);
  }

  // Reads that hold the bodies bring the messages.
  lemma {:induction false} WholeIsRead(chunks: seq<string>, ms: seq<Message>)
    requires WholeBodies(chunks, ms)
    ensures ReadMessages(chunks) == ms
  {
    if chunks != [] {
      if Blank(chunks[0]) {
        BlankIsNothing(chunks[0]);
        WholeIsRead(chunks[1..], ms);
      } else {
        HeldIsRead(chunks[0], ms[0]);
        WholeIsRead(chunks[1..], ms[1..]);
      }
    }
  }

  // An object that is cut short is no value.
  lemma ShortValue(j: Json, x: string, u: string)
    requires j.Obj? && Ends(x) && u <= Print(j) + x && 0 < |u| < |Print(j)|
    ensures Parse(u).None?
  {
    var text := Print(j) + x;
    var z := text[|u|..];
    assert text == u + z && text[0] == '{';
    ParsePrint(j, x);
    if Parse(u).Some? {
      ParseExtends(u, z);
    }
  }

  lemma BlankTail(more: string, w: string)
    requires w <= ['\n'] + more && (more == [] || !IsSpace(more[0]))
    ensures Blank(w) <==> |w| <= 1
  {
    if |w| > 1 {
      assert w[1] == more[0];
    }
  }

  lemma SplitFront(body: string, more: string, u: string)
    requires u <= body + ['\n'] + more && |u| >= |body|
    ensures u == body + u[|body|..] && u[|body|..] <= ['\n'] + more
    ensures u == body <==> |u| == |body|
    ensures u == body + ['\n'] <==> |u| == |body| + 1
  {
    var text := body + ['\n'] + more;
    assert text[..|body|] == body && text[|body|..] == ['\n'] + more;
    assert u[..|body|] == body;
    assert |u| == |body| + 1 ==> u == text[..|body| + 1] == body + ['\n'];
  }

  lemma ReadValue(s: string, j: Json, w: string, m: Message)
    requires SkipSpace(s) == Print(j) + w && (w == [] || !IsDigit(w[0])) && JsonMessage(j) == Some(m)
    ensures FromSlice(s) == if Blank(w) then Some(m) else None
  {
    ParsePrint(j, w);
  }

  lemma CutRead(m: Message, more: string, s: string)
    requires SkipSpace(s) <= ToVec(m) + more && 0 < |SkipSpace(s)| < |Body(m)|
    ensures FromSlice(s) == None
  {
    FrameText(m, more);
    ShortValue(MessageJson(m), ['\n'] + more, SkipSpace(s));
  }

  lemma LongRead(m: Message, more: string, s: string)
    requires SkipSpace(s) <= ToVec(m) + more && |SkipSpace(s)| >= |Body(m)| && (more == [] || !IsSpace(more[0]))
    ensures FromSlice(s) == if |SkipSpace(s)| <= |Body(m)| + 1 then Some(m) else None
  {
    var u, n := SkipSpace(s), |Body(m)|;
    SplitFront(Body(m), more, u);
    BlankTail(more, u[n..]);
    JsonInverse(m);
    ReadValue(s, MessageJson(m), u[n..], m);
  }

  // A read that starts at the front of a frame holds a message exactly if it stops at its end.
  lemma ReadFromFront(m: Message, more: string, a: string, u: string)
    requires u <= ToVec(m) + more && u != [] && Blank(a) && (more == [] || !IsSpace(more[0]))
    ensures FromSlice(a + u) == if |Body(m)| <= |u| <= |ToVec(m)| then Some(m) else None
  {
    MessageStarts(m);
    SkipBlank(a, u);
    if |u| < |Body(m)| {
      CutRead(m, more, a + u);
    } else {
      LongRead(m, more, a + u);
    }
  }

  // Two frames in one read are a parse error, whatever they are.
  lemma TwoFramesAreAnError(a: Message, b: Message)
    ensures FromSlice(ToVec(a) + ToVec(b)) == None
  {
    MessageStarts(b);
    ReadFromFront(a, ToVec(b), [], ToVec(a) + ToVec(b));
    assert [] + (ToVec(a) + ToVec(b)) == ToVec(a) + ToVec(b);
  }

  // ---------------------------------------------------------------------------------- a whole stream of reads

  // What may be left of a frame when a read stops after its first byte.
  ghost predicate Remainder(pre: string) {
    exists m, k :: Forwardable(m) && 0 < k <= |ToVec(m)| && pre == ToVec(m)[k..]
  }

  lemma RemainderOf(m: Message, k: nat)
    requires Forwardable(m) && 0 < k <= |ToVec(m)|
    ensures Remainder(ToVec(m)[k..])
  {
  }

  lemma RemainderShrinks(pre: string, k: nat)
    requires Remainder(pre) && k <= |pre|
    ensures Remainder(pre[k..])
  {
    var m, i :| Forwardable(m) && 0 < i <= |ToVec(m)| && pre == ToVec(m)[i..];
    assert pre[k..] == ToVec(m)[i + k..];
  }

  lemma RemainderDead(pre: string, more: string, i: nat)
    requires Remainder(pre) && i < |pre|
    ensures Dead((pre + more)[i..])
  {
    var m, k :| Forwardable(m) && 0 < k <= |ToVec(m)| && pre == ToVec(m)[k..];
    DeadInside(m, more, k + i);
    assert (pre + more)[i..] == (ToVec(m) + more)[k + i..];
  }

  // A read that starts inside a frame brings nothing, unless only white space is left of the frame.
  lemma ReadFromInside(pre: string, more: string, c: string)
    requires Remainder(pre) && c <= pre + more && !Blank(if |c| <= |pre| then c else pre)
    ensures FromSlice(c) == None
  {
    var i := SkipToFirst(c);
    var w := if |c| <= |pre| then c else pre;
    var j :| 0 <= j < |w| && !IsSpace(w[j]);
    assert w[j] == (pre + more)[j] == c[j];
    RemainderDead(pre, more, i);
    assert c[i..] <= (pre + more)[i..];
    DeadStart((pre + more)[i..], c[i..]);
  }

  lemma SplitStream(frame: string, later: string, u: string)
    requires u <= frame + later
    ensures |u| <= |frame| ==> u == frame[..|u|] && frame + later == u + (frame[|u|..] + later)
    ensures |u| > |frame| ==> u == frame + u[|frame|..] && u[|frame|..] <= later
  {
    assert (frame + later)[..|u|] == u;
    if |u| <= |frame| {
      assert frame == u + frame[|u|..];
    } else {
      assert u[..|frame|] == frame;
      assert (frame + later)[|frame|..|u|] == u[|frame|..];
    }
  }

  // Reading on over the frames that follow.
  lemma {:induction false} ReadOver(ms: seq<Message>, u: string) returns (pre: string, k: nat)
    requires AllForwardable(ms) && u != [] && u <= Join(Bodies(ms))
    ensures 0 < k <= |ms| && Remainder(pre)
    ensures Join(Bodies(ms)) == u + (pre + Join(Bodies(ms[k..])))
    ensures |u| <= |ToVec(ms[0])| ==> k == 1 && pre == ToVec(ms[0])[|u|..]
    decreases |ms|
  {
    var frame, later := ToVec(ms[0]), Join(Bodies(ms[1..]));
    StreamStarts(ms);
    SplitStream(frame, later, u);
    if |u| <= |frame| {
      pre, k := frame[|u|..], 1;
      RemainderOf(ms[0], |u|);
    } else {
      var v, i := u[|frame|..], 0;
      pre, i := ReadOver(ms[1..], v);
      k := i + 1;
      assert ms[1..][i..] == ms[k..];
      Regroup(frame, v, pre + Join(Bodies(ms[k..])));
    }
  }

  lemma NoBytesNoMessages(ms: seq<Message>)
    requires Join(Bodies(ms)) == []
    ensures ms == []
  {
  }

  lemma StreamStarts(ms: seq<Message>)
    ensures Join(Bodies(ms)) == [] || !IsSpace(Join(Bodies(ms))[0])
    ensures ms != [] ==> Bodies(ms)[1..] == Bodies(ms[1..])
    ensures ms != [] ==> Join(Bodies(ms)) == ToVec(ms[0]) + Join(Bodies(ms[1..]))
  {
    if ms != [] {
      MessageStarts(ms[0]);
      assert Bodies(ms)[1..] == Bodies(ms[1..]);
    }
  }

  ghost predicate Left(pre: string, chunks: seq<string>, ms: seq<Message>) {
    (pre == [] || Remainder(pre)) && AllForwardable(ms) && Concat(chunks) == pre + Join(Bodies(ms))
  }

  // A read inside what is left of a frame.
  lemma InsideStep(pre: string, chunks: seq<string>, ms: seq<Message>)
    requires Left(pre, chunks, ms) && chunks != [] && |chunks[0]| <= |pre|
    ensures FromSlice(chunks[0]) == None && Left(pre[|chunks[0]|..], chunks[1..], ms)
    ensures Blank(pre) ==> Blank(chunks[0]) && Blank(pre[|chunks[0]|..])
  {
    var c, stream := chunks[0], Join(Bodies(ms));
    assert (pre + stream)[..|c|] == c == pre[..|c|];
    assert (pre + stream)[|c|..] == Concat(chunks[1..]) == pre[|c|..] + stream;
    if Blank(c) {
      BlankIsNothing(c);
    } else {
      ReadFromInside(pre, stream, c);
    }
    if pre != [] {
      RemainderShrinks(pre, |c|);
    }
  }

  lemma CutStream(pre: string, stream: string, c: string, rest: string)
    requires c + rest == pre + stream && |c| > |pre|
    ensures c == pre + c[|pre|..] && c[|pre|..] + rest == stream
  {
    assert (pre + stream)[|pre|..] == stream && (c + rest)[|pre|..] == c[|pre|..] + rest;
    assert (pre + stream)[..|pre|] == pre == (c + rest)[..|pre|] == c[..|pre|];
  }

  lemma FrontHolds(m: Message, more: string, a: string, u: string)
    requires u <= ToVec(m) + more && Blank(a) && |Body(m)| <= |u| <= |ToVec(m)|
    ensures Holds(a + u, Body(m)) && !Blank(a + u) && Blank(ToVec(m)[|u|..])
  {
    MessageStarts(m);
    SkipBlank(a, u);
    assert (a + u)[|a|] == '{';
    assert u[|Body(m)|..] == ToVec(m)[|Body(m)|..|u|];
  }

  // Reading on from what is left of a frame brings the first of the frames that follow or nothing.
  lemma BeyondRead(pre: string, ms: seq<Message>, u: string)
    requires (pre == [] || Remainder(pre)) && ms != [] && u != [] && u <= Join(Bodies(ms))
    ensures FromSlice(pre + u).Some? ==>
              Blank(pre) && |u| <= |ToVec(ms[0])| && Blank(ToVec(ms[0])[|u|..]) && !Blank(pre + u)
              && Holds(pre + u, Body(ms[0]))
  {
    var stream, later := Join(Bodies(ms)), Join(Bodies(ms[1..]));
    StreamStarts(ms);
    StreamStarts(ms[1..]);
    if Blank(pre) {
      ReadFromFront(ms[0], later, pre, u);
      if |Body(ms[0])| <= |u| <= |ToVec(ms[0])| {
        FrontHolds(ms[0], later, pre, u);
      }
    } else {
      assert pre + u <= pre + stream;
      ReadFromInside(pre, stream, pre + u);
    }
  }

  // A read that goes on into the frames that follow.
  lemma BeyondStep(pre: string, chunks: seq<string>, ms: seq<Message>) returns (next: string, k: nat)
    requires Left(pre, chunks, ms) && chunks != [] && |chunks[0]| > |pre|
    ensures 0 < k <= |ms| && Left(next, chunks[1..], ms[k..])
    ensures FromSlice(chunks[0]).Some? ==>
              Blank(pre) && k == 1 && Blank(next) && !Blank(chunks[0]) && Holds(chunks[0], Body(ms[0]))
  {
    var c, rest := chunks[0], Concat(chunks[1..]);
    var u := c[|pre|..];
    CutStream(pre, Join(Bodies(ms)), c, rest);
    next, k := ReadOver(ms, u);
    assert rest == (u + rest)[|u|..] == next + Join(Bodies(ms[k..]));
    BeyondRead(pre, ms, u);
  }

  // No more messages are read than frames were written, and as many only if every read holds a whole body.
  lemma {:induction false} ReadsBounded(pre: string, chunks: seq<string>, ms: seq<Message>)
    requires Left(pre, chunks, ms)
    ensures |ReadMessages(chunks)| <= |ms|
    ensures Blank(pre) && |ReadMessages(chunks)| == |ms| ==> WholeBodies(chunks, ms)
    decreases |chunks|
  {
    if chunks == [] {
      NoBytesNoMessages(ms);
    } else if |chunks[0]| <= |pre| {
      InsideStep(pre, chunks, ms);
      ReadsBounded(pre[|chunks[0]|..], chunks[1..], ms);
    } else {
      var next, k := BeyondStep(pre, chunks, ms);
      ReadsBounded(next, chunks[1..], ms[k..]);
    }
  }

  // The backup reads the messages the primary wrote, all of them in order and no others, exactly when every read
  // that is not blank holds one whole message.
  lemma MessagesReadExactlyWhen(ms: seq<Message>, chunks: seq<string>)
    requires AllForwardable(ms) && Concat(chunks) == Join(Bodies(ms))
    ensures ReadMessages(chunks) == ms <==> WholeBodies(chunks, ms)
  {
    assert [] + Join(Bodies(ms)) == Join(Bodies(ms));
    ReadsBounded([], chunks, ms);
    if WholeBodies(chunks, ms) {
      WholeIsRead(chunks, ms);
    }
  }
}
