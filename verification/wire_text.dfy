/// The text of every message, written out (src/protocol.rs:19-103).

module WireText {
  import opened Common
  import opened Protocol
  import opened Json
  import opened Wire

  // ---------------------------------------------------------------------------------- numbers and strings

  // Numbers are decimal, without leading zeros.
  lemma Decimal(n: nat, d: nat)
    requires d < 10
    ensures Digits(d) == ["0123456789"[d]]
    ensures n > 0 ==> Digits(10 * n + d) == Digits(n) + ["0123456789"[d]]
  {
  }

  lemma {:induction false} EscapeConcat(a: string, b: string)
    ensures Escape(a + b) == Escape(a) + Escape(b)
  {
    if a == [] {
      assert a + b == b;
    } else {
      EscapeConcat(a[1..], b);
      assert (a + b)[1..] == a[1..] + b;
      Regroup(EscapeChar(a[0]), Escape(a[1..]), Escape(b));
    }
  }

  // A string is escaped character by character:
  lemma EscapeParts(a: string, c: char, b: string)
    ensures Escape(a + [c] + b) == Escape(a) + Escape([c]) + Escape(b)
    ensures Escape("") == ""
  {
    EscapeConcat(a, [c]);
    EscapeConcat(a + [c], b);
  }

  // the quote, the backslash and five control characters by a letter, the other control characters by their code in
  // lower-case hexadecimal, and nothing else.
  lemma EscapeOf(c: char)
    ensures c == '"' ==> Escape([c]) == "\\\""
    ensures c == '\\' ==> Escape([c]) == "\\\\"
    ensures c == '\n' ==> Escape([c]) == "\\n"
    ensures c == '\r' ==> Escape([c]) == "\\r"
    ensures c == '\t' ==> Escape([c]) == "\\t"
    ensures c as int == 8 ==> Escape([c]) == "\\b"
    ensures c as int == 12 ==> Escape([c]) == "\\f"
    ensures c as int < 32 && c as int !in {8, 9, 10, 12, 13} ==>
              Escape([c]) == "\\u00" + [if c as int < 16 then '0' else '1', "0123456789abcdef"[c as int % 16]]
    ensures c as int >= 32 && c != '"' && c != '\\' ==> Escape([c]) == [c]
  {
    OneCharacter(c);
    if c as int < 32 {
      assert Hex(c as int / 16) == if c as int < 16 then '0' else '1';
      assert Hex(c as int % 16) == "0123456789abcdef"[c as int % 16];
    }
  }

  lemma OneCharacter(c: char)
    ensures Escape([c]) == EscapeChar(c)
  {
    assert [c][1..] == [] && EscapeChar(c) + [] == EscapeChar(c);
  }

  // ---------------------------------------------------------------------------------- envelopes

  lemma Nest(a: string, b: string, x: string, c: string, d: string)
    ensures a + (b + x + c) + d == (a + b) + x + (c + d)
  {
  }

  lemma Flat(a: string, x: string, b: string, y: string, c: string)
    ensures a + (x + b + y) + c == a + x + b + y + c
  {
  }

  lemma TagText(name: string, j: Json)
    requires Plain(name)
    ensures Print(Tag(name, j)) == ("{\"" + name + "\":") + Print(j) + "}"
  {
    PlainEscape(name);
  }

  // The value x, whatever surrounds it, and the name of the tag around it.
  lemma InTag(name: string, j: Json, before: string, x: string, after: string, head: string, end: string)
    requires Plain(name) && Print(j) == before + x + after
    requires head == ("{\"" + name + "\":") + before && end == after + "}"
    ensures Print(Tag(name, j)) == head + x + end
  {
    TagText(name, j);
    Nest("{\"" + name + "\":", before, x, after, "}");
  }

  // A message is a tagged value and a newline.
  lemma Line(m: Message, name: string, j: Json, before: string, x: string, after: string, head: string, end: string)
    requires MessageJson(m) == Tag(name, j) && Plain(name) && Print(j) == before + x + after
    requires head == ("{\"" + name + "\":") + before && end == (after + "}") + "\n"
    ensures ToVec(m) == head + x + end
  {
    InTag(name, j, before, x, after, head, after + "}");
    Ends(head, x, after + "}", "\n");
  }

  lemma Ends(a: string, x: string, b: string, c: string)
    ensures (a + x + b) + c == a + x + (b + c)
  {
  }

  lemma ResponseNamesArePlain()
    ensures Plain("Registry") && Plain("Response") && Plain("Success") && Plain("Wait") && Plain("Holder")
    ensures Plain("Error") && Plain("Ack")
  {
  }

  // The opening of a tag.
  function Open(name: string): string {
    "{\"" + name + "\":"
  }

  // A value in three tags.
  lemma ThreeTags(m: Message, a: string, b: string, c: string, j: Json, before: string, x: string, after: string)
    requires MessageJson(m) == Tag(a, Tag(b, Tag(c, j))) && Plain(a) && Plain(b) && Plain(c)
    requires Print(j) == before + x + after
    ensures ToVec(m) == (Open(a) + (Open(b) + (Open(c) + before))) + x + ((((after + "}") + "}") + "}") + "\n")
  {
    var h1, e1 := Open(c) + before, after + "}";
    var h2, e2 := Open(b) + h1, e1 + "}";
    InTag(c, j, before, x, after, h1, e1);
    InTag(b, Tag(c, j), h1, x, e1, h2, e2);
    Line(m, a, Tag(b, Tag(c, j)), h2, x, e2, Open(a) + h2, (e2 + "}") + "\n");
  }

  lemma TwoTags(m: Message, a: string, b: string, j: Json, before: string, x: string, after: string)
    requires MessageJson(m) == Tag(a, Tag(b, j)) && Plain(a) && Plain(b) && Print(j) == before + x + after
    ensures ToVec(m) == (Open(a) + (Open(b) + before)) + x + (((after + "}") + "}") + "\n")
  {
    InTag(b, j, before, x, after, Open(b) + before, after + "}");
    Line(m, a, Tag(b, j), Open(b) + before, x, after + "}", Open(a) + (Open(b) + before), ((after + "}") + "}") + "\n");
  }

  lemma Closing(after: string)
    ensures (((after + "}") + "}") + "}") + "\n" == after + "}}}\n"
    ensures ((after + "}") + "}") + "\n" == after + "}}\n"
  {
  }

  // ---------------------------------------------------------------------------------- responses

  lemma PlainString(name: string)
    requires Plain(name)
    ensures Print(Str(name)) == "\"" + name + "\""
  {
    PlainEscape(name);
  }

  lemma AckJoins()
    ensures "{\"Registry\":{\"Response\":\"" + "Ack" + ("\"" + "}}\n") == "{\"Registry\":{\"Response\":\"Ack\"}}\n"
  {
  }

  lemma AckOpening()
    ensures Open("Registry") + (Open("Response") + "\"") == "{\"Registry\":{\"Response\":\""
  {
  }

  lemma SuccessOpening()
    ensures Open("Registry") + (Open("Response") + (Open("Success") + "")) ==
              "{\"Registry\":{\"Response\":{\"Success\":"
  {
  }

  lemma WaitOpening()
    ensures Open("Registry") + (Open("Response") + (Open("Wait") + "")) == "{\"Registry\":{\"Response\":{\"Wait\":"
  {
  }

  lemma HolderOpening()
    ensures Open("Registry") + (Open("Response") + (Open("Holder") + "[")) ==
              "{\"Registry\":{\"Response\":{\"Holder\":["
  {
  }

  lemma ErrorOpening()
    ensures Open("Registry") + (Open("Response") + (Open("Error") + "\"")) ==
              "{\"Registry\":{\"Response\":{\"Error\":\""
  {
  }

  lemma AckText()
    ensures ToVec(Registry(Response(Ack))) == "{\"Registry\":{\"Response\":\"Ack\"}}\n"
  {
    ResponseNamesArePlain();
    PlainString("Ack");
    TwoTags(Registry(Response(Ack)), "Registry", "Response", Str("Ack"), "\"", "Ack", "\"");
    AckOpening();
    Closing("\"");
    AckJoins();
  }

  lemma SuccessText(key: KeyId)
    ensures ToVec(Registry(Response(Success(key)))) ==
              "{\"Registry\":{\"Response\":{\"Success\":" + Digits(key) + "}}}\n"
  {
    ResponseNamesArePlain();
    ThreeTags(Registry(Response(Success(key))), "Registry", "Response", "Success", Num(key), "", Digits(key), "");
    SuccessOpening();
    Closing("");
  }

  lemma WaitText(key: KeyId)
    ensures ToVec(Registry(Response(Wait(key)))) == "{\"Registry\":{\"Response\":{\"Wait\":" + Digits(key) + "}}}\n"
  {
    ResponseNamesArePlain();
    ThreeTags(Registry(Response(Wait(key))), "Registry", "Response", "Wait", Num(key), "", Digits(key), "");
    WaitOpening();
    Closing("");
  }

  lemma PairText(key: KeyId, addr: Address)
    ensures Print(Arr(Item(Num(key), Last(Str(addr))))) == "[" + (Digits(key) + ",\"" + Escape(addr)) + "\"]"
  {
    var d, e := Digits(key), Escape(addr);
    var pair := Item(Num(key), Last(Str(addr)));
    assert PrintItems(pair.tail) == Print(Str(addr)) == ['"'] + e + ['"'];
    assert PrintItems(pair) == d + [','] + (['"'] + e + ['"']);
    Brackets(['['], d, [','], ['"'], e, [']']);
    assert [','] + ['"'] == ",\"" && ['"'] + [']'] == "\"]";
  }

  lemma Brackets(a: string, d: string, b: string, q: string, e: string, c: string)
    ensures a + (d + b + (q + e + q)) + c == a + (d + (b + q) + e) + (q + c)
  {
  }

  lemma HolderText(key: KeyId, addr: Address)
    ensures ToVec(Registry(Response(Holder(key, addr)))) ==
              "{\"Registry\":{\"Response\":{\"Holder\":[" + Digits(key) + ",\"" + Escape(addr) + "\"]}}}\n"
  {
    ResponseNamesArePlain();
    PairText(key, addr);
    ThreeTags(Registry(Response(Holder(key, addr))), "Registry", "Response", "Holder",
              Arr(Item(Num(key), Last(Str(addr)))), "[", Digits(key) + ",\"" + Escape(addr), "\"]");
    HolderOpening();
    Closing("\"]");
    assert "\"]" + "}}}\n" == "\"]}}}\n";
    Flat("{\"Registry\":{\"Response\":{\"Holder\":[", Digits(key), ",\"", Escape(addr), "\"]}}}\n");
  }

  lemma ErrorResponseText(text: string)
    ensures ToVec(Registry(Response(Error(text)))) ==
              "{\"Registry\":{\"Response\":{\"Error\":\"" + Escape(text) + "\"}}}\n"
  {
    ResponseNamesArePlain();
    ThreeTags(Registry(Response(Error(text))), "Registry", "Response", "Error", Str(text), "\"", Escape(text), "\"");
    ErrorOpening();
    Closing("\"");
  }

  // ---------------------------------------------------------------------------------- requests

  lemma RequestOpening()
    ensures Open("Registry") + (Open("Request") + ("{" + Named("proc_id"))) ==
              "{\"Registry\":{\"Request\":{\"proc_id\":"
  {
  }

  lemma FieldNames()
    ensures ("," + Named("request_type")) + "\"" == ",\"request_type\":\""
    ensures ("\"" + ",") + Named("key_id") == "\",\"key_id\":"
  {
  }

  // A field up to its value.
  function Named(name: string): string {
    "\"" + name + "\":"
  }

  lemma FieldsText(name: string, j: Json, tail: Fields)
    requires Plain(name)
    ensures PrintFields(Field(name, j, tail)) == Named(name) + Print(j) + "," + PrintFields(tail)
    ensures PrintFields(LastField(name, j)) == Named(name) + Print(j)
  {
    PlainEscape(name);
  }

  lemma Spread(a: string, p: string, b: string, q: string, kind: string, c: string, k: string)
    ensures "{" + (a + p + "," + (b + (q + kind + q) + "," + (c + k))) + "}" ==
              ("{" + a) + (p + ((("," + b) + q) + kind + ((q + ",") + c)) + k) + "}"
  {
  }

  lemma RequestFieldsText(p: ProcId, kind: string, key: KeyId, a: string, b: string, c: string)
    requires Plain(a) && Plain(b) && Plain(c) && Plain(kind)
    ensures Print(Obj(Field(a, Num(p), Field(b, Str(kind), LastField(c, Num(key)))))) ==
              ("{" + Named(a))
                + (Digits(p) + ((("," + Named(b)) + "\"") + kind + (("\"" + ",") + Named(c))) + Digits(key))
                + "}"
  {
    var last := LastField(c, Num(key));
    FieldsText(a, Num(p), Field(b, Str(kind), last));
    FieldsText(b, Str(kind), last);
    FieldsText(c, Num(key), last);
    PlainString(kind);
    Spread(Named(a), Digits(p), Named(b), "\"", kind, Named(c), Digits(key));
  }

  lemma RequestText(p: ProcId, kind: RequestType, key: KeyId, name: string, middle: string)
    requires name == KindName(kind) && middle == ",\"request_type\":\"" + name + "\",\"key_id\":"
    ensures ToVec(Registry(Request(p, kind, key))) ==
              "{\"Registry\":{\"Request\":{\"proc_id\":" + Digits(p) + middle + Digits(key) + "}}}\n"
  {
    RequestNamesArePlain(kind);
    EnvelopeNamesArePlain();
    RequestFieldsText(p, name, key, "proc_id", "request_type", "key_id");
    RequestOpening();
    FieldNames();
    var x := Digits(p) + middle + Digits(key);
    TwoTags(Registry(Request(p, kind, key)), "Registry", "Request", Obj(RequestFields(p, kind, key)),
            "{" + Named("proc_id"), x, "}");
    Closing("}");
    assert "}" + "}}\n" == "}}}\n";
    Flat("{\"Registry\":{\"Request\":{\"proc_id\":", Digits(p), middle, Digits(key), "}}}\n");
  }

  lemma CreateText(p: ProcId, key: KeyId)
    ensures ToVec(Registry(Request(p, Create, key))) ==
              "{\"Registry\":{\"Request\":{\"proc_id\":" + Digits(p) + ",\"request_type\":\"Create\",\"key_id\":"
                + Digits(key) + "}}}\n"
  {
    assert ",\"request_type\":\"" + "Create" + "\",\"key_id\":" == ",\"request_type\":\"Create\",\"key_id\":";
    RequestText(p, Create, key, "Create", ",\"request_type\":\"Create\",\"key_id\":");
  }

  lemma DeleteText(p: ProcId, key: KeyId)
    ensures ToVec(Registry(Request(p, Delete, key))) ==
              "{\"Registry\":{\"Request\":{\"proc_id\":" + Digits(p) + ",\"request_type\":\"Delete\",\"key_id\":"
                + Digits(key) + "}}}\n"
  {
    assert ",\"request_type\":\"" + "Delete" + "\",\"key_id\":" == ",\"request_type\":\"Delete\",\"key_id\":";
    RequestText(p, Delete, key, "Delete", ",\"request_type\":\"Delete\",\"key_id\":");
  }

  lemma ReadText(p: ProcId, key: KeyId)
    ensures ToVec(Registry(Request(p, Read, key))) ==
              "{\"Registry\":{\"Request\":{\"proc_id\":" + Digits(p) + ",\"request_type\":\"Read\",\"key_id\":"
                + Digits(key) + "}}}\n"
  {
    assert ",\"request_type\":\"" + "Read" + "\",\"key_id\":" == ",\"request_type\":\"Read\",\"key_id\":";
    RequestText(p, Read, key, "Read", ",\"request_type\":\"Read\",\"key_id\":");
  }

  lemma WriteText(p: ProcId, key: KeyId)
    ensures ToVec(Registry(Request(p, Write, key))) ==
              "{\"Registry\":{\"Request\":{\"proc_id\":" + Digits(p) + ",\"request_type\":\"Write\",\"key_id\":"
                + Digits(key) + "}}}\n"
  {
    assert ",\"request_type\":\"" + "Write" + "\",\"key_id\":" == ",\"request_type\":\"Write\",\"key_id\":";
    RequestText(p, Write, key, "Write", ",\"request_type\":\"Write\",\"key_id\":");
  }

  lemma ReleaseText(p: ProcId, key: KeyId)
    ensures ToVec(Registry(Request(p, Release, key))) ==
              "{\"Registry\":{\"Request\":{\"proc_id\":" + Digits(p) + ",\"request_type\":\"Release\",\"key_id\":"
                + Digits(key) + "}}}\n"
  {
    assert ",\"request_type\":\"" + "Release" + "\",\"key_id\":" == ",\"request_type\":\"Release\",\"key_id\":";
    RequestText(p, Release, key, "Release", ",\"request_type\":\"Release\",\"key_id\":");
  }

  // ---------------------------------------------------------------------------------- the other messages

  lemma ConnectionOpening()
    ensures Open("Registry") + (Open("Connection") + "") == "{\"Registry\":{\"Connection\":"
    ensures Plain("Registry") && Plain("Connection")
  {
  }

  lemma ConnectionText(id: ProcId)
    ensures ToVec(Registry(Connection(id))) == "{\"Registry\":{\"Connection\":" + Digits(id) + "}}\n"
  {
    ConnectionOpening();
    TwoTags(Registry(Connection(id)), "Registry", "Connection", Num(id), "", Digits(id), "");
    Closing("");
  }

  lemma EstablishedOpening()
    ensures Open("Registry") + (Open("ConnectionEstablished") + "") == "{\"Registry\":{\"ConnectionEstablished\":"
    ensures Plain("Registry") && Plain("ConnectionEstablished")
  {
  }

  lemma ConnectionEstablishedText(id: ProcId)
    ensures ToVec(Registry(ConnectionEstablished(id))) ==
              "{\"Registry\":{\"ConnectionEstablished\":" + Digits(id) + "}}\n"
  {
    EstablishedOpening();
    TwoTags(Registry(ConnectionEstablished(id)), "Registry", "ConnectionEstablished", Num(id), "", Digits(id), "");
    Closing("");
  }

  lemma StopJoins()
    ensures Plain("Registry") && Plain("StopRequest")
    ensures Open("Registry") + "\"" == "{\"Registry\":\""
    ensures "{\"Registry\":\"" + "StopRequest" + (("\"" + "}") + "\n") == "{\"Registry\":\"StopRequest\"}\n"
  {
  }

  lemma TagLine(m: Message, outer: string, name: string)
    requires MessageJson(m) == Tag(outer, Str(name)) && Plain(outer) && Plain(name)
    ensures ToVec(m) == (Open(outer) + "\"") + name + (("\"" + "}") + "\n")
  {
    PlainString(name);
    Line(m, outer, Str(name), "\"", name, "\"", Open(outer) + "\"", ("\"" + "}") + "\n");
  }

  lemma StopRequestText()
    ensures ToVec(Registry(StopRequest)) == "{\"Registry\":\"StopRequest\"}\n"
  {
    StopJoins();
    TagLine(Registry(StopRequest), "Registry", "StopRequest");
  }

  lemma DataNames()
    ensures Plain("Data") && Plain("Request") && Plain("Response") && Plain("key_id") && Plain("data")
  {
  }

  lemma DataRequestOpening()
    ensures Open("Data") + (Open("Request") + (Open("key_id") + "")) == "{\"Data\":{\"Request\":{\"key_id\":"
  {
  }

  lemma DataResponseOpening()
    ensures Open("Data") + (Open("Response") + (Open("data") + "\"")) == "{\"Data\":{\"Response\":{\"data\":\""
  {
  }

  lemma DataRequestText(key: KeyId)
    ensures ToVec(Data(DataRequest(key))) == "{\"Data\":{\"Request\":{\"key_id\":" + Digits(key) + "}}}\n"
  {
    DataNames();
    DataRequestOpening();
    ThreeTags(Data(DataRequest(key)), "Data", "Request", "key_id", Num(key), "", Digits(key), "");
    Closing("");
  }

  lemma DataResponseText(data: string)
    ensures ToVec(Data(DataResponse(data))) == "{\"Data\":{\"Response\":{\"data\":\"" + Escape(data) + "\"}}}\n"
  {
    DataNames();
    DataResponseOpening();
    ThreeTags(Data(DataResponse(data)), "Data", "Response", "data", Str(data), "\"", Escape(data), "\"");
    Closing("\"");
  }

  // ---------------------------------------------------------------------------------- what is read

  lemma ResponseOnly(j: Json, r: RegistryResponse)
    ensures JsonResponse(j) == Some(r) <==> j == ResponseJson(r)
  {
  }

  lemma RequestOnly(f: Fields, p: ProcId, kind: RequestType, key: KeyId)
    ensures JsonRequest(f) == Some(Request(p, kind, key)) <==> f == RequestFields(p, kind, key)
  {
    RequestInverse(kind);
  }

  lemma RegistryOnly(j: Json, m: RegistryMessage)
    ensures JsonRegistry(j) == Some(m) <==> j == RegistryJson(m)
  {
    if j.Obj? && j.fields.LastField? {
      var v := j.fields.value;
      if m.Response? {
        ResponseOnly(v, m.response);
      } else if m.Request? && v.Obj? {
        RequestOnly(v.fields, m.proc, m.kind, m.key);
      }
    }
  }

  // A value is read as a message exactly when it is the value of that message: no other names, kinds or shapes.
  lemma MessageOnly(j: Json, m: Message)
    ensures JsonMessage(j) == Some(m) <==> j == MessageJson(m)
  {
    if j.Obj? && j.fields.LastField? && m.Registry? {
      RegistryOnly(j.fields.value, m.registry);
    }
  }

  // from_slice reads a message exactly where there is one value, that of the message, with white space around it;
  lemma ReadExactlyWhen(s: string, m: Message)
    ensures FromSlice(s) == Some(m) <==>
              && Parse(SkipSpace(s)).Some?
              && Parse(SkipSpace(s)).value.0 == MessageJson(m)
              && Blank(Parse(SkipSpace(s)).value.1)
  {
    if Parse(SkipSpace(s)).Some? {
      MessageOnly(Parse(SkipSpace(s)).value.0, m);
    }
  }

  // and what is read as a value without escapes is that value as it is printed.
  lemma {:induction false} DigitsOfValue(d: string)
    requires d != [] && (forall i :: 0 <= i < |d| ==> IsDigit(d[i])) && (d[0] == '0' ==> |d| == 1)
    ensures Digits(Value(d)) == d
  {
    var n := |d| - 1;
    if n == 0 {
      assert Value(d[..0]) == 0;
    } else {
      DigitsOfValue(d[..n]);
      assert Value(d[..n]) > 0;
      assert d == d[..n] + [d[n]];
    }
  }

  lemma {:induction false} StringAsPrinted(s: string)
    requires '\\' !in s && ParseString(s).Some?
    ensures var (t, rest) := ParseString(s).value;
            Escape(t) == t && s == t + ['"'] + rest
  {
    if s[0] != '"' {
      assert s[0] in s;
      StringAsPrinted(s[1..]);
    }
  }

  lemma {:induction false} ValueAsPrinted(s: string)
    requires '\\' !in s && Parse(s).Some?
    ensures var (j, rest) := Parse(s).value; s == Print(j) + rest
    decreases |s|, 0
  {
    if IsDigit(s[0]) {
      DigitsOfValue(s[..DigitRun(s)]);
    } else if s[0] == '"' {
      StringAsPrinted(s[1..]);
    } else if s[0] == '[' {
      ItemsAsPrinted(s[1..]);
    } else {
      FieldsAsPrinted(s[1..]);
    }
  }

  lemma {:induction false} ItemsAsPrinted(s: string)
    requires '\\' !in s && ParseItems(s).Some?
    ensures var (items, rest) := ParseItems(s).value; s == PrintItems(items) + [']'] + rest
    decreases |s|, 1
  {
    ValueAsPrinted(s);
    var (j, rest) := Parse(s).value;
    if rest[0] == ',' {
      ItemsAsPrinted(rest[1..]);
    }
  }

  lemma Assemble(q: string, v: string, c: string, tail: string, r: string)
    ensures q + ([':'] + (v + (c + tail + r))) == (q + [':'] + v + c + tail) + r
    ensures q + ([':'] + (v + (c + r))) == (q + [':'] + v) + c + r
  {
  }

  lemma NameAsPrinted(s: string)
    requires '\\' !in s && s != [] && s[0] == '"' && ParseString(s[1..]).Some?
    ensures s == Quote(ParseString(s[1..]).value.0) + ParseString(s[1..]).value.1
  {
    StringAsPrinted(s[1..]);
    assert s == ['"'] + s[1..];
  }

  lemma LastAsPrinted(s: string, name: string, j: Json, rest: string)
    requires s == Quote(name) + ([':'] + (Print(j) + rest)) && rest != [] && rest[0] == '}'
    ensures s == PrintFields(LastField(name, j)) + ['}'] + rest[1..]
  {
    Assemble(Quote(name), Print(j), ['}'], [], rest[1..]);
    assert rest == ['}'] + rest[1..];
  }

  lemma FieldAsPrinted(s: string, name: string, j: Json, rest: string, tail: Fields, after: string)
    requires s == Quote(name) + ([':'] + (Print(j) + rest)) && rest != [] && rest[0] == ','
    requires rest[1..] == PrintFields(tail) + ['}'] + after
    ensures s == PrintFields(Field(name, j, tail)) + ['}'] + after
  {
    assert rest == [','] + PrintFields(tail) + (['}'] + after);
    Assemble(Quote(name), Print(j), [','], PrintFields(tail), ['}'] + after);
    assert (PrintFields(Field(name, j, tail)) + ['}']) + after == PrintFields(Field(name, j, tail)) + (['}'] + after);
  }

  lemma Suffix(s: string, a: string, b: string)
    requires '\\' !in s && s == a + b
    ensures '\\' !in b
  {
  }

  lemma {:induction false} FieldsAsPrinted(s: string)
    requires '\\' !in s && ParseFields(s).Some?
    ensures var (fields, rest) := ParseFields(s).value; s == PrintFields(fields) + ['}'] + rest
    decreases |s|, 1
  {
    NameAsPrinted(s);
    var (name, colon) := ParseString(s[1..]).value;
    Suffix(s, Quote(name), colon);
    Suffix(colon, [':'], colon[1..]);
    ValueAsPrinted(colon[1..]);
    var (j, rest) := Parse(colon[1..]).value;
    assert colon == [':'] + (Print(j) + rest);
    if rest[0] == '}' {
      LastAsPrinted(s, name, j, rest);
    } else {
      Suffix(colon[1..], Print(j), rest);
      FieldsAsPrinted(rest[1..]);
      FieldAsPrinted(s, name, j, rest, ParseFields(rest[1..]).value.0, ParseFields(rest[1..]).value.1);
    }
  }

  lemma {:induction false} SkipSpaceSuffix(s: string)
    requires '\\' !in s
    ensures '\\' !in SkipSpace(s)
  {
    if s != [] && IsSpace(s[0]) {
      SkipSpaceSuffix(s[1..]);
    }
  }

  // A text without escapes is read as a message exactly when it is the text of that message with white space around
  // it: to_vec prints the only form there is.
  lemma TextReadExactlyWhen(s: string, m: Message)
    requires '\\' !in s
    ensures FromSlice(s) == Some(m) <==> Body(m) <= SkipSpace(s) && Blank(SkipSpace(s)[|Body(m)|..])
  {
    var t := SkipSpace(s);
    ReadExactlyWhen(s, m);
    SkipSpaceSuffix(s);
    if FromSlice(s) == Some(m) {
      ValueAsPrinted(t);
    }
    if Body(m) <= t && Blank(t[|Body(m)|..]) {
      assert t == Body(m) + t[|Body(m)|..];
      ParsePrint(MessageJson(m), t[|Body(m)|..]);
    }
  }
}
