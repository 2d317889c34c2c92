/// The wire format: Message::to_vec and Message::from_slice (src/protocol.rs).
///
/// A message is an externally tagged JSON value printed without white space and followed by one newline.
/// A character stands for a byte; a string holds the UTF-8 bytes of its text.  String escapes are those of
/// section 7 of RFC 8259 in the form the serializer picks; numeric escapes that stand for more than one byte are
/// not read.

module Json {
  import opened Common

  datatype Json = Num(n: nat) | Str(s: string) | Arr(items: Items) | Obj(fields: Fields)

  // Arrays and objects with at least one member, the only ones the protocol uses.
  datatype Items = Last(only: Json) | Item(head: Json, tail: Items)

  datatype Fields = LastField(name: string, value: Json) | Field(name: string, value: Json, tail: Fields)

  // ---------------------------------------------------------------------------------- numbers

  predicate IsDigit(c: char) {
    '0' <= c <= '9'
  }

  function Digit(n: nat): (c: char)
    requires n < 10
    ensures IsDigit(c) && c as int - '0' as int == n
  {
    ('0' as int + n) as char
  }

  function Digits(n: nat): (s: string)
    ensures s != []
    ensures forall i :: 0 <= i < |s| ==> IsDigit(s[i])
    ensures n > 0 ==> s[0] != '0'
    ensures n == 0 ==> s == "0"
  {
    if n < 10 then [Digit(n)] else Digits(n / 10) + [Digit(n % 10)]
  }

  function DigitRun(s: string): (n: nat)
    ensures n <= |s|
    ensures forall i :: 0 <= i < n ==> IsDigit(s[i])
    ensures n < |s| ==> !IsDigit(s[n])
  {
    if s == [] || !IsDigit(s[0]) then 0 else 1 + DigitRun(s[1..])
  }

  function Value(s: string): nat
    requires forall i :: 0 <= i < |s| ==> IsDigit(s[i])
  {
    if s == [] then 0
    else
      assert IsDigit(s[|s| - 1]);
      10 * Value(s[..|s| - 1]) + (s[|s| - 1] as int - '0' as int)
  }

  lemma {:induction false} ValueOfDigits(n: nat)
    ensures Value(Digits(n)) == n
  {
    if n < 10 {
      assert Digits(n)[..0] == [];
    } else {
      ValueOfDigits(n / 10);
      assert Digits(n)[..|Digits(n)| - 1] == Digits(n / 10);
    }
  }

  // ---------------------------------------------------------------------------------- strings

  function Hex(n: nat): (c: char)
    requires n < 16
  {
    if n < 10 then Digit(n) else ('a' as int + (n - 10)) as char
  }

  function HexValue(c: char): Option<nat> {
    if IsDigit(c) then Some(c as int - '0' as int)
    else if 'a' <= c <= 'f' then Some(c as int - 'a' as int + 10)
    else if 'A' <= c <= 'F' then Some(c as int - 'A' as int + 10)
    else None
  }

  // The letter of a two-character escape.
  function Short(c: char): Option<char> {
    if c == '"' then Some('"')
    else if c == '\\' then Some('\\')
    else if c as int == 8 then Some('b')
    else if c == '\t' then Some('t')
    else if c == '\n' then Some('n')
    else if c as int == 12 then Some('f')
    else if c == '\r' then Some('r')
    else None
  }

  function Unshort(c: char): Option<char> {
    if c == '"' then Some('"')
    else if c == '\\' then Some('\\')
    else if c == '/' then Some('/')
    else if c == 'b' then Some(8 as char)
    else if c == 't' then Some('\t')
    else if c == 'n' then Some('\n')
    else if c == 'f' then Some(12 as char)
    else if c == 'r' then Some('\r')
    else None
  }

  function EscapeChar(c: char): (s: string)
    ensures s != []
  {
    if Short(c).Some? then ['\\', Short(c).value]
    else if (c as int) < 32 then ['\\', 'u', '0', '0', Hex(c as int / 16), Hex(c as int % 16)]
    else [c]
  }

  function Escape(t: string): (s: string)
    ensures |s| >= |t|
  {
    if t == [] then [] else EscapeChar(t[0]) + Escape(t[1..])
  }

  function Quote(t: string): (s: string)
    ensures |s| >= |t| + 2
  {
    ['"'] + Escape(t) + ['"']
  }

  // An escape that stands for one byte; those that stand for several are not read.
  function ParseHex4(s: string): Option<char> {
    if |s| < 4 then None
    else
      match (HexValue(s[0]), HexValue(s[1]), HexValue(s[2]), HexValue(s[3]))
      case (Some(a), Some(b), Some(c), Some(d)) =>
        var code := ((a * 16 + b) * 16 + c) * 16 + d;
        if code < 0x80 then Some(code as char) else None
      case _ => None
  }

  // The rest of a string literal after its opening quote: its value and what follows the closing quote.
  function ParseString(s: string): (r: Option<(string, string)>)
    ensures r.Some? ==> |r.value.1| < |s|
  {
    if s == [] then None
    else if s[0] == '"' then Some(([], s[1..]))
    else if s[0] == '\\' then
      if |s| < 2 then None
      else if s[1] == 'u' then
        match ParseHex4(s[2..])
        case None => None
        case Some(c) => Prepend(c, ParseString(s[6..]))
      else
        match Unshort(s[1])
        case None => None
        case Some(c) => Prepend(c, ParseString(s[2..]))
    else if (s[0] as int) < 32 then None
    else Prepend(s[0], ParseString(s[1..]))
  }

  function Prepend(c: char, r: Option<(string, string)>): Option<(string, string)> {
    match r
    case None => None
    case Some((t, rest)) => Some(([c] + t, rest))
  }

  lemma HexInverse(n: nat)
    requires n < 16
    ensures HexValue(Hex(n)) == Some(n)
  {
  }

  lemma ParseOneChar(c: char, tail: string)
    ensures ParseString(EscapeChar(c) + tail) == Prepend(c, ParseString(tail))
  {
    var s := EscapeChar(c) + tail;
    if Short(c).Some? {
      assert s[2..] == tail;
    } else if (c as int) < 32 {
      HexInverse(c as int / 16);
      HexInverse(c as int % 16);
      assert s[6..] == tail;
      assert s[2..][0] == '0' && s[2..][1] == '0' && s[2..][2] == Hex(c as int / 16) && s[2..][3] == Hex(c as int % 16);
    } else {
      assert s[1..] == tail;
    }
  }

  lemma Regroup(a: string, b: string, c: string)
    ensures (a + b) + c == a + (b + c)
  {
  }

  lemma ParseQuote(rest: string)
    ensures ParseString(['"'] + rest) == Some(([], rest))
  {
    assert (['"'] + rest)[1..] == rest;
  }

  lemma {:induction false} ParseEscaped(t: string, rest: string)
    ensures ParseString(Escape(t) + (['"'] + rest)) == Some((t, rest))
  {
    var end := ['"'] + rest;
    if t == [] {
      ParseQuote(rest);
      assert [] + end == end;
    } else {
      ParseEscaped(t[1..], rest);
      ParseOneChar(t[0], Escape(t[1..]) + end);
      Regroup(EscapeChar(t[0]), Escape(t[1..]), end);
      assert [t[0]] + t[1..] == t;
    }
  }

  // ---------------------------------------------------------------------------------- values

  function Print(j: Json): string {
    match j
    case Num(n) => Digits(n)
    case Str(t) => Quote(t)
    case Arr(items) => ['['] + PrintItems(items) + [']']
    case Obj(fields) => ['{'] + PrintFields(fields) + ['}']
  }

  function PrintItems(items: Items): string {
    match items
    case Last(j) => Print(j)
    case Item(j, tail) => Print(j) + [','] + PrintItems(tail)
  }

  function PrintFields(fields: Fields): string {
    match fields
    case LastField(name, j) => Quote(name) + [':'] + Print(j)
    case Field(name, j, tail) => Quote(name) + [':'] + Print(j) + [','] + PrintFields(tail)
  }

  function Parse(s: string): (r: Option<(Json, string)>)
    ensures r.Some? ==> |r.value.1| < |s|
    decreases |s|, 0
  {
    if s == [] then None
    else if IsDigit(s[0]) then
      var n := DigitRun(s);
      if s[0] == '0' && n > 1 then None else Some((Num(Value(s[..n])), s[n..]))
    else if s[0] == '"' then
      match ParseString(s[1..])
      case None => None
      case Some((t, rest)) => Some((Str(t), rest))
    else if s[0] == '[' then
      match ParseItems(s[1..])
      case None => None
      case Some((items, rest)) => Some((Arr(items), rest))
    else if s[0] == '{' then
      match ParseFields(s[1..])
      case None => None
      case Some((fields, rest)) => Some((Obj(fields), rest))
    else None
  }

  // The members of an array after its opening bracket.
  function ParseItems(s: string): (r: Option<(Items, string)>)
    ensures r.Some? ==> |r.value.1| < |s|
    decreases |s|, 1
  {
    match Parse(s)
    case None => None
    case Some((j, rest)) =>
      if rest == [] then None
      else if rest[0] == ']' then Some((Last(j), rest[1..]))
      else if rest[0] == ',' then
        match ParseItems(rest[1..])
        case None => None
        case Some((tail, after)) => Some((Item(j, tail), after))
      else None
  }

  // The members of an object after its opening brace.
  function ParseFields(s: string): (r: Option<(Fields, string)>)
    ensures r.Some? ==> |r.value.1| < |s|
    decreases |s|, 1
  {
    if s == [] || s[0] != '"' then None
    else
      match ParseString(s[1..])
      case None => None
      case Some((name, colon)) =>
        if colon == [] || colon[0] != ':' then None
        else
          match Parse(colon[1..])
          case None => None
          case Some((j, rest)) =>
            if rest == [] then None
            else if rest[0] == '}' then Some((LastField(name, j), rest[1..]))
            else if rest[0] == ',' then
              match ParseFields(rest[1..])
              case None => None
              case Some((tail, after)) => Some((Field(name, j, tail), after))
            else None
  }

  lemma {:induction false} DigitRunOf(d: string, rest: string)
    requires forall i :: 0 <= i < |d| ==> IsDigit(d[i])
    requires rest == [] || !IsDigit(rest[0])
    ensures DigitRun(d + rest) == |d|
  {
    if d == [] {
      assert d + rest == rest;
    } else {
      DigitRunOf(d[1..], rest);
      assert (d + rest)[1..] == d[1..] + rest;
    }
  }

  lemma ParseNumber(n: nat, rest: string)
    requires rest == [] || !IsDigit(rest[0])
    ensures Parse(Digits(n) + rest) == Some((Num(n), rest))
  {
    var d := Digits(n);
    DigitRunOf(d, rest);
    assert (d + rest)[..|d|] == d && (d + rest)[|d|..] == rest;
    ValueOfDigits(n);
  }

  lemma Bracketed(a: string, b: string, c: string, rest: string)
    ensures (a + b + c) + rest == a + (b + (c + rest))
  {
  }

  lemma FieldText(name: string, p: string, x: string)
    ensures (Quote(name) + [':'] + p) + x == ['"'] + (Escape(name) + (['"'] + ([':'] + (p + x))))
  {
    var q := Escape(name);
    assert (['"'] + q + ['"'] + [':'] + p) + x == ['"'] + (q + (['"'] + ([':'] + (p + x))));
  }

  lemma ReadStr(t: string, u: string, rest: string)
    requires ParseString(u) == Some((t, rest))
    ensures Parse(['"'] + u) == Some((Str(t), rest))
  {
    assert (['"'] + u)[1..] == u;
  }

  lemma ReadArr(items: Items, u: string, rest: string)
    requires ParseItems(u) == Some((items, rest))
    ensures Parse(['['] + u) == Some((Arr(items), rest))
  {
    assert (['['] + u)[1..] == u;
  }

  lemma ReadObj(fields: Fields, u: string, rest: string)
    requires ParseFields(u) == Some((fields, rest))
    ensures Parse(['{'] + u) == Some((Obj(fields), rest))
  {
    assert (['{'] + u)[1..] == u;
  }

  lemma ReadLastField(name: string, u: string, j: Json, w: string, rest: string)
    requires ParseString(u) == Some((name, [':'] + w)) && Parse(w) == Some((j, ['}'] + rest))
    ensures ParseFields(['"'] + u) == Some((LastField(name, j), rest))
  {
    assert (['"'] + u)[1..] == u && ([':'] + w)[1..] == w && (['}'] + rest)[1..] == rest;
  }

  lemma ReadField(name: string, u: string, j: Json, w: string, tail: Fields, x: string, rest: string)
    requires ParseString(u) == Some((name, [':'] + w)) && Parse(w) == Some((j, [','] + x))
    requires ParseFields(x) == Some((tail, rest))
    ensures ParseFields(['"'] + u) == Some((Field(name, j, tail), rest))
  {
    assert (['"'] + u)[1..] == u && ([':'] + w)[1..] == w && ([','] + x)[1..] == x;
  }

  // What is printed is read back, whatever follows it.
  lemma {:induction false} ParsePrint(j: Json, rest: string)
    requires rest == [] || !IsDigit(rest[0])
    ensures Parse(Print(j) + rest) == Some((j, rest))
    decreases j
  {
    match j
    case Num(n) => ParseNumber(n, rest);
    case Str(t) =>
      var u := Escape(t) + (['"'] + rest);
      ParseEscaped(t, rest);
      ReadStr(t, u, rest);
      Bracketed(['"'], Escape(t), ['"'], rest);
    case Arr(items) =>
      var u := PrintItems(items) + ([']'] + rest);
      ParsePrintItems(items, rest);
      ReadArr(items, u, rest);
      Bracketed(['['], PrintItems(items), [']'], rest);
    case Obj(fields) =>
      var u := PrintFields(fields) + (['}'] + rest);
      ParsePrintFields(fields, rest);
      ReadObj(fields, u, rest);
      Bracketed(['{'], PrintFields(fields), ['}'], rest);
  }

  lemma {:induction false} ParsePrintItems(items: Items, rest: string)
    ensures ParseItems(PrintItems(items) + ([']'] + rest)) == Some((items, rest))
    decreases items
  {
    match items
    case Last(j) =>
      ParsePrint(j, [']'] + rest);
      assert ([']'] + rest)[1..] == rest;
    case Item(j, tail) =>
      var more := [','] + (PrintItems(tail) + ([']'] + rest));
      ParsePrint(j, more);
      ParsePrintItems(tail, rest);
      assert PrintItems(items) + ([']'] + rest) == Print(j) + more;
      assert more[1..] == PrintItems(tail) + ([']'] + rest);
  }

  lemma {:induction false} ParsePrintFields(fields: Fields, rest: string)
    ensures ParseFields(PrintFields(fields) + (['}'] + rest)) == Some((fields, rest))
    decreases fields
  {
    match fields
    case LastField(name, j) =>
      var w := Print(j) + (['}'] + rest);
      var u := Escape(name) + (['"'] + ([':'] + w));
      ParsePrint(j, ['}'] + rest);
      ParseEscaped(name, [':'] + w);
      ReadLastField(name, u, j, w, rest);
      FieldText(name, Print(j), ['}'] + rest);
    case Field(name, j, tail) =>
      var x := PrintFields(tail) + (['}'] + rest);
      var w := Print(j) + ([','] + x);
      var u := Escape(name) + (['"'] + ([':'] + w));
      ParsePrint(j, [','] + x);
      ParsePrintFields(tail, rest);
      ParseEscaped(name, [':'] + w);
      ReadField(name, u, j, w, tail, x, rest);
      FieldText(name, Print(j), [','] + x);
      Bracketed(Quote(name) + [':'] + Print(j), [','], PrintFields(tail), ['}'] + rest);
  }

  // ---------------------------------------------------------------------------------- control characters

  ghost predicate Printable(s: string) {
    forall i :: 0 <= i < |s| ==> s[i] as int >= 32
  }

  lemma {:induction false} EscapePrintable(t: string)
    ensures Printable(Escape(t))
  {
    if t != [] {
      EscapePrintable(t[1..]);
      assert Printable(EscapeChar(t[0]));
    }
  }

  // Compact JSON holds no control character, in particular no newline.
  lemma {:induction false} PrintPrintable(j: Json)
    ensures Printable(Print(j))
    decreases j
  {
    match j
    case Num(n) =>
    case Str(t) => EscapePrintable(t);
    case Arr(items) => PrintItemsPrintable(items);
    case Obj(fields) => PrintFieldsPrintable(fields);
  }

  lemma {:induction false} PrintItemsPrintable(items: Items)
    ensures Printable(PrintItems(items))
    decreases items
  {
    match items
    case Last(j) => PrintPrintable(j);
    case Item(j, tail) =>
      PrintPrintable(j);
      PrintItemsPrintable(tail);
  }

  lemma {:induction false} PrintFieldsPrintable(fields: Fields)
    ensures Printable(PrintFields(fields))
    decreases fields
  {
    EscapePrintable(fields.name);
    PrintPrintable(fields.value);
    if fields.Field? {
      PrintFieldsPrintable(fields.tail);
    }
  }
}

module Wire {
  import opened Common
  import opened Protocol
  import opened Json

  function Tag(name: string, j: Json): Json {
    Obj(LastField(name, j))
  }

  function KindName(kind: RequestType): string {
    match kind
    case Create => "Create"
    case Delete => "Delete"
    case Read => "Read"
    case Write => "Write"
    case Release => "Release"
  }

  function KindOf(name: string): Option<RequestType> {
    if name == "Create" then Some(Create)
    else if name == "Delete" then Some(Delete)
    else if name == "Read" then Some(Read)
    else if name == "Write" then Some(Write)
    else if name == "Release" then Some(Release)
    else None
  }

  function ResponseJson(r: RegistryResponse): Json {
    match r
    case Ack => Str("Ack")
    case Success(key) => Tag("Success", Num(key))
    case Wait(key) => Tag("Wait", Num(key))
    case Holder(key, addr) => Tag("Holder", Arr(Item(Num(key), Last(Str(addr)))))
    case Error(text) => Tag("Error", Str(text))
  }

  function RequestFields(p: ProcId, kind: RequestType, key: KeyId): Fields {
    Field("proc_id", Num(p), Field("request_type", Str(KindName(kind)), LastField("key_id", Num(key))))
  }

  function RegistryJson(m: RegistryMessage): Json {
    match m
    case Connection(id) => Tag("Connection", Num(id))
    case ConnectionEstablished(id) => Tag("ConnectionEstablished", Num(id))
    case Request(p, kind, key) =>
      Tag("Request", Obj(RequestFields(p, kind, key)))
    case Response(r) => Tag("Response", ResponseJson(r))
    case StopRequest => Str("StopRequest")
  }

  function DataJson(m: DataMessage): Json {
    match m
    case DataRequest(key) => Tag("Request", Obj(LastField("key_id", Num(key))))
    case DataResponse(data) => Tag("Response", Obj(LastField("data", Str(data))))
  }

  function MessageJson(m: Message): Json {
    match m
    case Registry(r) => Tag("Registry", RegistryJson(r))
    case Data(d) => Tag("Data", DataJson(d))
  }

  function JsonResponse(j: Json): Option<RegistryResponse> {
    match j
    case Str(name) => if name == "Ack" then Some(Ack) else None
    case Obj(LastField(name, Num(key))) =>
      if name == "Success" then Some(Success(key)) else if name == "Wait" then Some(Wait(key)) else None
    case Obj(LastField(name, Arr(Item(Num(key), Last(Str(addr)))))) =>
      if name == "Holder" then Some(Holder(key, addr)) else None
    case Obj(LastField(name, Str(text))) =>
      if name == "Error" then Some(Error(text)) else None
    case _ => None
  }

  function JsonRequest(f: Fields): Option<RegistryMessage> {
    match f
    case Field(a, Num(p), Field(b, Str(kind), LastField(c, Num(key)))) =>
      if a == "proc_id" && b == "request_type" && c == "key_id" && KindOf(kind).Some?
      then Some(Request(p, KindOf(kind).value, key))
      else None
    case _ => None
  }

  function JsonRegistry(j: Json): Option<RegistryMessage> {
    match j
    case Str(name) => if name == "StopRequest" then Some(StopRequest) else None
    case Obj(LastField(name, v)) =>
      if name == "Response" then
        match JsonResponse(v)
        case Some(r) => Some(Response(r))
        case None => None
      else if name == "Request" then
        if v.Obj? then JsonRequest(v.fields) else None
      else if name == "Connection" then
        if v.Num? then Some(Connection(v.n)) else None
      else if name == "ConnectionEstablished" then
        if v.Num? then Some(ConnectionEstablished(v.n)) else None
      else None
    case _ => None
  }

  function JsonData(j: Json): Option<DataMessage> {
    match j
    case Obj(LastField(name, Obj(LastField(field, Num(key))))) =>
      if name == "Request" && field == "key_id" then Some(DataRequest(key)) else None
    case Obj(LastField(name, Obj(LastField(field, Str(data))))) =>
      if name == "Response" && field == "data" then Some(DataResponse(data)) else None
    case _ => None
  }

  function JsonMessage(j: Json): Option<Message> {
    match j
    case Obj(LastField(name, v)) =>
      if name == "Registry" then
        match JsonRegistry(v)
        case Some(r) => Some(Registry(r))
        case None => None
      else if name == "Data" then
        match JsonData(v)
        case Some(d) => Some(Data(d))
        case None => None
      else None
    case _ => None
  }

  // The text of a message without its newline.
  function Body(m: Message): string {
    Print(MessageJson(m))
  }

  function ToVec(m: Message): string {
    Body(m) + ['\n']
  }

  predicate IsSpace(c: char) {
    c == ' ' || c == '\n' || c == '\t' || c == '\r'
  }

  predicate Blank(s: string) {
    forall i :: 0 <= i < |s| ==> IsSpace(s[i])
  }

  function SkipSpace(s: string): (t: string)
    ensures |t| <= |s|
    ensures t != [] ==> !IsSpace(t[0])
  {
    if s != [] && IsSpace(s[0]) then SkipSpace(s[1..]) else s
  }

  // White space may stand around the value; the server passes the newline along, the client does not.
  function FromSlice(s: string): Option<Message> {
    match Parse(SkipSpace(s))
    case None => None
    case Some((j, rest)) => if Blank(rest) then JsonMessage(j) else None
  }

  lemma RequestInverse(kind: RequestType)
    ensures KindOf(KindName(kind)) == Some(kind)
  {
  }

  lemma JsonInverse(m: Message)
    ensures JsonMessage(MessageJson(m)) == Some(m)
  {
    if m.Registry? && m.registry.Request? {
      RequestInverse(m.registry.kind);
    }
  }

  lemma ReadBack(j: Json, rest: string, m: Message)
    requires rest == [] || rest == ['\n']
    requires JsonMessage(j) == Some(m)
    ensures FromSlice(Print(j) + rest) == Some(m)
  {
    ParsePrint(j, rest);
  }

  lemma BodyReadBack(m: Message)
    ensures FromSlice(Body(m)) == Some(m)
  {
    var j := MessageJson(m);
    JsonInverse(m);
    ReadBack(j, [], m);
    assert Print(j) + [] == Print(j);
  }

  // from_slice undoes to_vec, with the newline (as the server reads it) and without (as the client does).
  lemma RoundTrip(m: Message)
    ensures FromSlice(ToVec(m)) == Some(m)
    ensures FromSlice(Body(m)) == Some(m)
  {
    JsonInverse(m);
    ReadBack(MessageJson(m), ['\n'], m);
    BodyReadBack(m);
  }

  // The newline that ends a frame is the only one in it.
  lemma BodyHasNoNewline(m: Message)
    ensures forall i :: 0 <= i < |Body(m)| ==> Body(m)[i] != '\n'
  {
    PrintPrintable(MessageJson(m));
  }

  lemma TagLength(name: string, j: Json)
    ensures |Print(Tag(name, j))| >= |name| + 5 + |Print(j)|
  {
  }

  lemma ResponseEnvelope(r: RegistryResponse)
    ensures MessageJson(Registry(Response(r))) == Tag("Registry", Tag("Response", ResponseJson(r)))
  {
  }

  lemma EnvelopeLength(m: Message, j: Json)
    requires MessageJson(m) == Tag("Registry", Tag("Response", j))
    ensures |ToVec(m)| >= 27 + |Print(j)|
  {
    TagLength("Response", j);
    TagLength("Registry", Tag("Response", j));
  }

  lemma ResponseLength(r: RegistryResponse)
    ensures |Print(ResponseJson(r))| >= if r.Ack? then 5 else if r.Success? || r.Holder? then 13 else 10
  {
    match r
    case Ack =>
    case Success(key) => TagLength("Success", Num(key));
    case Wait(key) => TagLength("Wait", Num(key));
    case Holder(key, addr) => TagLength("Holder", Arr(Item(Num(key), Last(Str(addr)))));
    case Error(text) => TagLength("Error", Str(text));
  }

  // A response frame is never shorter than 32 bytes; one that settles or defers a client's request is never
  // shorter than 37, and one that grants an access never shorter than 40.
  lemma ResponseFrameLength(r: RegistryResponse)
    ensures |ToVec(Registry(Response(r)))| >= if r.Ack? then 32 else if r.Success? || r.Holder? then 40 else 37
  {
    ResponseLength(r);
    ResponseEnvelope(r);
    EnvelopeLength(Registry(Response(r)), ResponseJson(r));
  }

  // Text that needs no escape.
  predicate Plain(t: string) {
    forall i :: 0 <= i < |t| ==> t[i] as int >= 32 && t[i] != '"' && t[i] != '\\'
  }

  lemma {:induction false} PlainEscape(t: string)
    requires Plain(t)
    ensures Escape(t) == t
  {
    if t != [] {
      PlainEscape(t[1..]);
      assert [t[0]] + t[1..] == t;
    }
  }

  lemma PlainTagLength(name: string, j: Json)
    requires Plain(name)
    ensures |Print(Tag(name, j))| == |name| + 5 + |Print(j)|
  {
    PlainEscape(name);
  }

  lemma EnvelopeNamesArePlain()
    ensures Plain("Registry") && Plain("Response") && Plain("Request")
    ensures |"Registry"| == |"Response"| == 8 && |"Request"| == 7
  {
  }

  lemma ExactEnvelopeLength(m: Message, name: string, j: Json)
    requires MessageJson(m) == Tag("Registry", Tag(name, j)) && Plain(name)
    ensures |ToVec(m)| == |name| + 19 + |Print(j)|
  {
    EnvelopeNamesArePlain();
    PlainTagLength(name, j);
    PlainTagLength("Registry", Tag(name, j));
  }

  lemma NameLength(name: string)
    requires Plain(name)
    ensures |Print(Str(name))| == |name| + 2
  {
    PlainEscape(name);
  }

  lemma AckLength(r: RegistryResponse)
    requires r.Ack?
    ensures |ToVec(Registry(Response(r)))| == 32
  {
    EnvelopeNamesArePlain();
    NameLength("Ack");
    ResponseEnvelope(r);
    ExactEnvelopeLength(Registry(Response(r)), "Response", ResponseJson(r));
  }

  lemma KeyedLength(r: RegistryResponse, name: string)
    requires r.Wait? || r.Success?
    requires name == (if r.Wait? then "Wait" else "Success") && Plain(name)
    ensures |ToVec(Registry(Response(r)))| == 32 + |name| + |Digits(r.key)|
  {
    EnvelopeNamesArePlain();
    PlainTagLength(name, Num(r.key));
    ResponseEnvelope(r);
    ExactEnvelopeLength(Registry(Response(r)), "Response", ResponseJson(r));
  }

  // The shortest response of each kind meets its bound exactly.
  lemma ShortestFrames(r: RegistryResponse)
    requires r.Ack? || ((r.Wait? || r.Success?) && r.key < 10)
    ensures |ToVec(Registry(Response(r)))| == if r.Ack? then 32 else if r.Wait? then 37 else 40
  {
    if r.Ack? {
      AckLength(r);
    } else {
      KeyedLength(r, if r.Wait? then "Wait" else "Success");
    }
  }

  // ---------------------------------------------------------------------------------- requests

  function Pow10(k: nat): nat {
    if k == 0 then 1 else 10 * Pow10(k - 1)
  }

  lemma {:induction false} DigitsLength(n: nat, k: nat)
    requires 0 < k && n < Pow10(k)
    ensures |Digits(n)| <= k
  {
    if n >= 10 {
      assert k > 1;
      DigitsLength(n / 10, k - 1);
    }
  }

  const WORD: nat := 0x1_0000_0000_0000_0000

  lemma WordDigits(n: nat)
    requires n < WORD
    ensures |Digits(n)| <= 20
  {
    assert Pow10(5) == 100000;
    assert Pow10(10) == 100000 * Pow10(5);
    assert Pow10(15) == 100000 * Pow10(10);
    assert Pow10(20) == 100000 * Pow10(15);
    DigitsLength(n, 20);
  }

  lemma PlainFieldsLength(a: string, p: Json, b: string, k: Json, c: string, y: Json)
    requires Plain(a) && Plain(b) && Plain(c)
    ensures |PrintFields(Field(a, p, Field(b, k, LastField(c, y))))| ==
              |a| + |b| + |c| + 11 + |Print(p)| + |Print(k)| + |Print(y)|
  {
    PlainEscape(a);
    PlainEscape(b);
    PlainEscape(c);
    var last := LastField(c, y);
    assert |PrintFields(last)| == |c| + 3 + |Print(y)|;
    assert |PrintFields(Field(b, k, last))| == |b| + 4 + |Print(k)| + |PrintFields(last)|;
  }

  lemma RequestNamesArePlain(kind: RequestType)
    ensures Plain("proc_id") && Plain("request_type") && Plain("key_id")
    ensures |"proc_id"| + |"request_type"| + |"key_id"| == 25
    ensures Plain(KindName(kind)) && |KindName(kind)| <= 7
  {
  }

  lemma RequestFieldsLength(p: ProcId, kind: RequestType, key: KeyId)
    requires p < WORD && key < WORD
    ensures |PrintFields(RequestFields(p, kind, key))| <= 85
  {
    WordDigits(p);
    WordDigits(key);
    RequestNamesArePlain(kind);
    NameLength(KindName(kind));
    PlainFieldsLength("proc_id", Num(p), "request_type", Str(KindName(kind)), "key_id", Num(key));
  }

  // A request with machine-word ids fits the 256 bytes that the server reads at once.
  lemma RequestFrameLength(p: ProcId, kind: RequestType, key: KeyId)
    requires p < WORD && key < WORD
    ensures |ToVec(Registry(Request(p, kind, key)))| <= 113
  {
    var m, fields := Registry(Request(p, kind, key)), RequestFields(p, kind, key);
    RequestFieldsLength(p, kind, key);
    EnvelopeNamesArePlain();
    ExactEnvelopeLength(m, "Request", Obj(fields));
    assert |Print(Obj(fields))| == |PrintFields(fields)| + 2;
  }
}
