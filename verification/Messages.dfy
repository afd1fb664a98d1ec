/** The JSON messages of the handshake, one per line, as bytes. */
module Messages {
  import opened Wrappers
  import opened Codec

  type Text = seq<byte>

  datatype Message =
    | ClientHello(version: Text, clientName: Text, target: Text)
    | ServerHello(version: Text, head: Option<Text>, resumeToken: Option<Text>)
    | ServerStatus(ok: bool, message: Text)
    | ClientReady(ok: bool, message: Text)

  const NEWLINE: byte := 10
  const QUOTE: byte := 34
  const BACKSLASH: byte := 92

  function Ascii(s: string): Text {
    seq(|s|, i requires 0 <= i < |s| => s[i] as int % 128)
  }

  // ----- strings, section 7 of RFC 8259

  function HexDigit(n: nat): byte
    requires n < 16
  {
    if n < 10 then 48 + n else 87 + n
  }

  function HexValue(b: byte): Option<nat> {
    if 48 <= b <= 57 then Some(b - 48) else if 97 <= b <= 102 then Some(b - 87) else None
  }

  /** The letter of a two-character escape, if the byte has one. */
  function ShortEscape(b: byte): Option<byte> {
    if b == QUOTE then Some(QUOTE)
    else if b == BACKSLASH then Some(BACKSLASH)
    else if b == 8 then Some(98)
    else if b == 9 then Some(116)
    else if b == 10 then Some(110)
    else if b == 12 then Some(102)
    else if b == 13 then Some(114)
    else None
  }

  function FromShortEscape(c: byte): Option<byte> {
    if c == QUOTE then Some(QUOTE)
    else if c == BACKSLASH then Some(BACKSLASH)
    else if c == 98 then Some(8)
    else if c == 116 then Some(9)
    else if c == 110 then Some(10)
    else if c == 102 then Some(12)
    else if c == 114 then Some(13)
    else None
  }

  function EscapeByte(b: byte): Text {
    match ShortEscape(b)
    case Some(c) => [BACKSLASH, c]
    case None => if b < 32 then [BACKSLASH, 117, 48, 48, HexDigit(b / 16), HexDigit(b % 16)] else [b]
  }

  /** The two-character escapes of quote, backslash, backspace, tab, newline, form feed and carriage return;
      other control characters take four hexadecimal digits, and nothing else is escaped. */
  lemma EscapesAre(b: byte)
    ensures b == 34 ==> EscapeByte(b) == Ascii("\\\"")
    ensures b == 92 ==> EscapeByte(b) == Ascii("\\\\")
    ensures b == 8 ==> EscapeByte(b) == Ascii("\\b")
    ensures b == 9 ==> EscapeByte(b) == Ascii("\\t")
    ensures b == 10 ==> EscapeByte(b) == Ascii("\\n")
    ensures b == 12 ==> EscapeByte(b) == Ascii("\\f")
    ensures b == 13 ==> EscapeByte(b) == Ascii("\\r")
    ensures b == 31 ==> EscapeByte(b) == Ascii("\\u001f")
    ensures b >= 32 && b != 34 && b != 92 ==> EscapeByte(b) == [b]
  {
  }

  function EscapeAll(s: Text): Text {
    if s == [] then [] else EscapeByte(s[0]) + EscapeAll(s[1..])
  }

  function PrintString(s: Text): Text {
    [QUOTE] + (EscapeAll(s) + [QUOTE])
  }

  /** One character of a string body and the bytes after it. */
  function ParseChar(s: Text): (r: Option<(byte, Text)>)
    ensures r.Some? ==> |r.value.1| < |s|
  {
    if s == [] || s[0] == QUOTE || s[0] < 32 then None
    else if s[0] != BACKSLASH then Some((s[0], s[1..]))
    else if |s| >= 2 && FromShortEscape(s[1]).Some? then Some((FromShortEscape(s[1]).value, s[2..]))
    else if |s| >= 6 && s[1] == 117 && s[2] == 48 && s[3] == 48 then
      match (HexValue(s[4]), HexValue(s[5]))
      case (Some(h), Some(l)) => Some((16 * h + l, s[6..]))
      case _ => None
    else None
  }

  /** The rest of a string after its opening quote. */
  function ParseBody(s: Text): (r: Option<(Text, Text)>)
    ensures r.Some? ==> |r.value.1| < |s|
  {
    if s != [] && s[0] == QUOTE then Some(([], s[1..]))
    else
      match ParseChar(s)
      case None => None
      case Some((b, rest)) =>
        match ParseBody(rest)
        case None => None
        case Some((t, rest')) => Some(([b] + t, rest'))
  }

  lemma ParseEscaped(b: byte, rest: Text)
    ensures ParseChar(EscapeByte(b) + rest) == Some((b, rest))
    ensures EscapeByte(b)[0] != QUOTE
  {
    var e := EscapeByte(b);
    assert (e + rest)[|e|..] == rest;
    if ShortEscape(b).None? && b < 32 {
      assert e + rest == [BACKSLASH, 117, 48, 48, HexDigit(b / 16), HexDigit(b % 16)] + rest;
    }
  }

  lemma {:induction false} ParsePrinted(s: Text, rest: Text)
    ensures ParseBody(EscapeAll(s) + [QUOTE] + rest) == Some((s, rest))
  {
    if s == [] {
      assert EscapeAll(s) + [QUOTE] + rest == [QUOTE] + rest;
    } else {
      var tail := EscapeAll(s[1..]) + [QUOTE] + rest;
      assert EscapeAll(s) + [QUOTE] + rest == EscapeByte(s[0]) + tail;
      ParseEscaped(s[0], tail);
      ParsePrinted(s[1..], rest);
      assert [s[0]] + s[1..] == s;
    }
  }

  predicate OneLine(s: Text) {
    forall i :: 0 <= i < |s| ==> s[i] != NEWLINE
  }

  lemma {:induction false} EscapedIsOneLine(s: Text)
    ensures OneLine(EscapeAll(s))
  {
    if s != [] {
      EscapedIsOneLine(s[1..]);
    }
  }

  // ----- objects

  function Expect(literal: Text, s: Text): Option<Text> {
    if literal <= s then Some(s[|literal|..]) else None
  }

  function ParseString(s: Text): (r: Option<(Text, Text)>)
    ensures r.Some? ==> |r.value.1| < |s|
  {
    if s != [] && s[0] == QUOTE then ParseBody(s[1..]) else None
  }

  function PrintOption(o: Option<Text>): Text {
    match o
    case None => Ascii("null")
    case Some(s) => PrintString(s)
  }

  function ParseOption(s: Text): Option<(Option<Text>, Text)> {
    match Expect(Ascii("null"), s)
    case Some(rest) => Some((None, rest))
    case None =>
      match ParseString(s)
      case None => None
      case Some((t, rest)) => Some((Some(t), rest))
  }

  function PrintBool(b: bool): Text {
    if b then Ascii("true") else Ascii("false")
  }

  function ParseBool(s: Text): Option<(bool, Text)> {
    match Expect(Ascii("true"), s)
    case Some(rest) => Some((true, rest))
    case None =>
      match Expect(Ascii("false"), s)
      case Some(rest) => Some((false, rest))
      case None => None
  }

  /** The compact JSON object, fields in declaration order. */
  function Encode(m: Message): Text {
    match m
    case ClientHello(v, c, t) =>
      Ascii("{\"version\":") + (PrintString(v) + (Ascii(",\"client_name\":") + (PrintString(c)
        + (Ascii(",\"target\":") + (PrintString(t) + Ascii("}"))))))
    case ServerHello(v, h, r) =>
      Ascii("{\"version\":") + (PrintString(v) + (Ascii(",\"head\":") + (PrintOption(h)
        + (Ascii(",\"resume_token\":") + (PrintOption(r) + Ascii("}"))))))
    case ServerStatus(ok, msg) => EncodeOutcome(ok, msg)
    case ClientReady(ok, msg) => EncodeOutcome(ok, msg)
  }

  function EncodeOutcome(ok: bool, msg: Text): Text {
    Ascii("{\"ok\":") + (PrintBool(ok) + (Ascii(",\"message\":") + (PrintString(msg) + Ascii("}"))))
  }

  function Bind<A, B>(o: Option<A>, f: A -> Option<B>): Option<B> {
    match o
    case None => None
    case Some(a) => f(a)
  }

  function End<A>(a: A, s: Text): Option<A> {
    if s == Ascii("}") then Some(a) else None
  }

  function DecodeClientHello(s: Text): Option<Message> {
    Bind(Expect(Ascii("{\"version\":"), s), s1 =>
    Bind(ParseString(s1), (p: (Text, Text)) =>
    Bind(Expect(Ascii(",\"client_name\":"), p.1), s3 =>
    Bind(ParseString(s3), (q: (Text, Text)) =>
    Bind(Expect(Ascii(",\"target\":"), q.1), s5 =>
    Bind(ParseString(s5), (r: (Text, Text)) =>
    End(ClientHello(p.0, q.0, r.0), r.1)))))))
  }

  function DecodeServerHello(s: Text): Option<Message> {
    Bind(Expect(Ascii("{\"version\":"), s), s1 =>
    Bind(ParseString(s1), (p: (Text, Text)) =>
    Bind(Expect(Ascii(",\"head\":"), p.1), s3 =>
    Bind(ParseOption(s3), (q: (Option<Text>, Text)) =>
    Bind(Expect(Ascii(",\"resume_token\":"), q.1), s5 =>
    Bind(ParseOption(s5), (r: (Option<Text>, Text)) =>
    End(ServerHello(p.0, q.0, r.0), r.1)))))))
  }

  function DecodeOutcome(s: Text): Option<(bool, Text)> {
    Bind(Expect(Ascii("{\"ok\":"), s), s1 =>
    Bind(ParseBool(s1), (p: (bool, Text)) =>
    Bind(Expect(Ascii(",\"message\":"), p.1), s3 =>
    Bind(ParseString(s3), (q: (Text, Text)) =>
    End((p.0, q.0), q.1)))))
  }

  lemma ExpectSelf(literal: Text, rest: Text)
    ensures Expect(literal, literal + rest) == Some(rest)
  {
  }

  lemma StringRoundTrip(s: Text, rest: Text)
    ensures ParseString(PrintString(s) + rest) == Some((s, rest))
  {
    assert (PrintString(s) + rest)[1..] == EscapeAll(s) + [QUOTE] + rest;
    ParsePrinted(s, rest);
  }

  lemma OptionRoundTrip(o: Option<Text>, rest: Text)
    ensures ParseOption(PrintOption(o) + rest) == Some((o, rest))
  {
    if o.Some? {
      StringRoundTrip(o.value, rest);
      assert Ascii("null")[0] != QUOTE;
    } else {
      ExpectSelf(Ascii("null"), rest);
    }
  }

  lemma BoolRoundTrip(b: bool, rest: Text)
    ensures ParseBool(PrintBool(b) + rest) == Some((b, rest))
  {
    ExpectSelf(PrintBool(b), rest);
    assert Ascii("true")[0] != Ascii("false")[0];
  }

  lemma OutcomeRoundTrip(ok: bool, msg: Text)
    ensures DecodeOutcome(EncodeOutcome(ok, msg)) == Some((ok, msg))
  {
    var s4 := Ascii("}");
    var s3 := PrintString(msg) + s4;
    var s2 := Ascii(",\"message\":") + s3;
    var s1 := PrintBool(ok) + s2;
    ExpectSelf(Ascii("{\"ok\":"), s1);
    BoolRoundTrip(ok, s2);
    ExpectSelf(Ascii(",\"message\":"), s3);
    StringRoundTrip(msg, s4);
  }

  lemma ClientHelloRoundTrip(v: Text, c: Text, t: Text)
    ensures DecodeClientHello(Encode(ClientHello(v, c, t))) == Some(ClientHello(v, c, t))
  {
    var s6 := Ascii("}");
    var s5 := PrintString(t) + s6;
    var s4 := Ascii(",\"target\":") + s5;
    var s3 := PrintString(c) + s4;
    var s2 := Ascii(",\"client_name\":") + s3;
    var s1 := PrintString(v) + s2;
    ExpectSelf(Ascii("{\"version\":"), s1);
    StringRoundTrip(v, s2);
    ExpectSelf(Ascii(",\"client_name\":"), s3);
    StringRoundTrip(c, s4);
    ExpectSelf(Ascii(",\"target\":"), s5);
    StringRoundTrip(t, s6);
  }

  lemma ServerHelloRoundTrip(v: Text, h: Option<Text>, r: Option<Text>)
    ensures DecodeServerHello(Encode(ServerHello(v, h, r))) == Some(ServerHello(v, h, r))
  {
    var s6 := Ascii("}");
    var s5 := PrintOption(r) + s6;
    var s4 := Ascii(",\"resume_token\":") + s5;
    var s3 := PrintOption(h) + s4;
    var s2 := Ascii(",\"head\":") + s3;
    var s1 := PrintString(v) + s2;
    ExpectSelf(Ascii("{\"version\":"), s1);
    StringRoundTrip(v, s2);
    ExpectSelf(Ascii(",\"head\":"), s3);
    OptionRoundTrip(h, s4);
    ExpectSelf(Ascii(",\"resume_token\":"), s5);
    OptionRoundTrip(r, s6);
  }

  // ----- a message cut short never decodes

  lemma StableChar(s: Text, t: Text)
    requires ParseChar(s).Some?
    ensures ParseChar(s + t) == Some((ParseChar(s).value.0, ParseChar(s).value.1 + t))
  {
    assert forall i :: 0 <= i < |s| ==> (s + t)[i] == s[i];
    assert (s + t)[1..] == s[1..] + t;
    assert |s| >= 2 ==> (s + t)[2..] == s[2..] + t;
    assert |s| >= 6 ==> (s + t)[6..] == s[6..] + t;
  }

  lemma {:induction false} StableBody(s: Text, t: Text)
    requires ParseBody(s).Some?
    ensures ParseBody(s + t) == Some((ParseBody(s).value.0, ParseBody(s).value.1 + t))
    decreases |s|
  {
    if s[0] == QUOTE {
      assert (s + t)[1..] == s[1..] + t;
    } else {
      StableChar(s, t);
      StableBody(ParseChar(s).value.1, t);
    }
  }

  lemma StableString(s: Text, t: Text)
    requires ParseString(s).Some?
    ensures ParseString(s + t) == Some((ParseString(s).value.0, ParseString(s).value.1 + t))
  {
    assert (s + t)[1..] == s[1..] + t;
    StableBody(s[1..], t);
  }

  lemma StableExpect(literal: Text, s: Text, t: Text)
    requires Expect(literal, s).Some?
    ensures Expect(literal, s + t) == Some(Expect(literal, s).value + t)
  {
    assert (s + t)[..|literal|] == s[..|literal|] == literal;
    assert (s + t)[|literal|..] == s[|literal|..] + t;
  }

  lemma StableBool(s: Text, t: Text)
    requires ParseBool(s).Some?
    ensures ParseBool(s + t) == Some((ParseBool(s).value.0, ParseBool(s).value.1 + t))
  {
    if Expect(Ascii("true"), s).Some? {
      StableExpect(Ascii("true"), s, t);
    } else {
      StableExpect(Ascii("false"), s, t);
      assert Ascii("true")[0] != Ascii("false")[0] == s[0];
    }
  }

  lemma StableOption(s: Text, t: Text)
    requires ParseOption(s).Some?
    ensures ParseOption(s + t) == Some((ParseOption(s).value.0, ParseOption(s).value.1 + t))
  {
    if Expect(Ascii("null"), s).Some? {
      StableExpect(Ascii("null"), s, t);
    } else {
      StableString(s, t);
      assert Ascii("null")[0] != QUOTE == s[0];
    }
  }

  lemma CutOutcome(s: Text, t: Text)
    requires t != [] && DecodeOutcome(s).Some?
    ensures DecodeOutcome(s + t) == None
  {
    var s1 := Expect(Ascii("{\"ok\":"), s).value;
    var (b, s2) := ParseBool(s1).value;
    var s3 := Expect(Ascii(",\"message\":"), s2).value;
    StableExpect(Ascii("{\"ok\":"), s, t);
    StableBool(s1, t);
    StableExpect(Ascii(",\"message\":"), s2, t);
    StableString(s3, t);
  }

  lemma CutClientHello(s: Text, t: Text)
    requires t != [] && DecodeClientHello(s).Some?
    ensures DecodeClientHello(s + t) == None
  {
    var s1 := Expect(Ascii("{\"version\":"), s).value;
    var (v, s2) := ParseString(s1).value;
    var s3 := Expect(Ascii(",\"client_name\":"), s2).value;
    var (c, s4) := ParseString(s3).value;
    var s5 := Expect(Ascii(",\"target\":"), s4).value;
    StableExpect(Ascii("{\"version\":"), s, t);
    StableString(s1, t);
    StableExpect(Ascii(",\"client_name\":"), s2, t);
    StableString(s3, t);
    StableExpect(Ascii(",\"target\":"), s4, t);
    StableString(s5, t);
  }

  lemma CutServerHello(s: Text, t: Text)
    requires t != [] && DecodeServerHello(s).Some?
    ensures DecodeServerHello(s + t) == None
  {
    var s1 := Expect(Ascii("{\"version\":"), s).value;
    var (v, s2) := ParseString(s1).value;
    var s3 := Expect(Ascii(",\"head\":"), s2).value;
    var (h, s4) := ParseOption(s3).value;
    var s5 := Expect(Ascii(",\"resume_token\":"), s4).value;
    StableExpect(Ascii("{\"version\":"), s, t);
    StableString(s1, t);
    StableExpect(Ascii(",\"head\":"), s2, t);
    StableOption(s3, t);
    StableExpect(Ascii(",\"resume_token\":"), s4, t);
    StableOption(s5, t);
  }

  /** What the receiver of m decodes from a line. */
  predicate Decodes(line: Text, m: Message) {
    match m
    case ClientHello(_, _, _) => DecodeClientHello(line) == Some(m)
    case ServerHello(_, _, _) => DecodeServerHello(line) == Some(m)
    case ServerStatus(ok, msg) => DecodeOutcome(line) == Some((ok, msg))
    case ClientReady(ok, msg) => DecodeOutcome(line) == Some((ok, msg))
  }

  predicate DecodesAny(line: Text, like: Message) {
    match like
    case ClientHello(_, _, _) => DecodeClientHello(line).Some?
    case ServerHello(_, _, _) => DecodeServerHello(line).Some?
    case _ => DecodeOutcome(line).Some?
  }

  /** Every message decodes to itself, and no proper prefix of it decodes at all. */
  lemma MessageRoundTrip(m: Message, cut: nat)
    requires cut < |Encode(m)|
    ensures Decodes(Encode(m), m) && !DecodesAny(Encode(m)[..cut], m)
  {
    var s, t := Encode(m)[..cut], Encode(m)[cut..];
    assert s + t == Encode(m);
    match m
    case ClientHello(v, c, target) =>
      ClientHelloRoundTrip(v, c, target);
      if DecodeClientHello(s).Some? { CutClientHello(s, t); }
    case ServerHello(v, h, r) =>
      ServerHelloRoundTrip(v, h, r);
      if DecodeServerHello(s).Some? { CutServerHello(s, t); }
    case ServerStatus(ok, msg) =>
      OutcomeRoundTrip(ok, msg);
      if DecodeOutcome(s).Some? { CutOutcome(s, t); }
    case ClientReady(ok, msg) =>
      OutcomeRoundTrip(ok, msg);
      if DecodeOutcome(s).Some? { CutOutcome(s, t); }
  }

  // ----- lines

  function Line(m: Message): Text {
    Encode(m) + [NEWLINE]
  }

  /** The bytes up to the next newline or the end of input, and what follows; None at end of input. */
  function ReadLine(s: Text): Option<(Text, Text)> {
    if s == [] then None
    else if s[0] == NEWLINE then Some(([], s[1..]))
    else
      match ReadLine(s[1..])
      case None => Some((s, []))
      case Some((line, rest)) => Some(([s[0]] + line, rest))
  }

  lemma {:induction false} ReadOneLine(line: Text, rest: Text)
    requires OneLine(line)
    ensures ReadLine(line + [NEWLINE] + rest) == Some((line, rest))
  {
    var s := line + [NEWLINE] + rest;
    if line == [] {
      assert s[1..] == rest;
    } else {
      assert s[1..] == line[1..] + [NEWLINE] + rest;
      ReadOneLine(line[1..], rest);
      assert [line[0]] + line[1..] == line;
    }
  }

  lemma PrintedStringIsOneLine(s: Text)
    ensures OneLine(PrintString(s))
  {
    EscapedIsOneLine(s);
  }

  lemma PrintedOptionIsOneLine(o: Option<Text>)
    ensures OneLine(PrintOption(o))
  {
    if o.Some? { PrintedStringIsOneLine(o.value); }
  }

  lemma LiteralIsOneLine(s: string)
    requires forall i :: 0 <= i < |s| ==> ' ' <= s[i] <= '~'
    ensures OneLine(Ascii(s))
  {
  }

  lemma OneLineConcat(a: Text, b: Text)
    requires OneLine(a) && OneLine(b)
    ensures OneLine(a + b)
  {
  }

  lemma FieldsAreOneLine(a: Text, x: Text, b: Text, y: Text, c: Text)
    requires OneLine(a) && OneLine(x) && OneLine(b) && OneLine(y) && OneLine(c)
    ensures OneLine(a + (x + (b + (y + c))))
  {
    OneLineConcat(y, c);
    OneLineConcat(b, y + c);
    OneLineConcat(x, b + (y + c));
  }

  lemma OutcomeIsOneLine(ok: bool, msg: Text)
    ensures OneLine(EncodeOutcome(ok, msg))
  {
    PrintedStringIsOneLine(msg);
    LiteralIsOneLine("{\"ok\":");
    LiteralIsOneLine(if ok then "true" else "false");
    LiteralIsOneLine(",\"message\":");
    LiteralIsOneLine("}");
    FieldsAreOneLine(Ascii("{\"ok\":"), PrintBool(ok), Ascii(",\"message\":"), PrintString(msg), Ascii("}"));
  }

  /** No message text, whatever strings it carries, breaks the line framing. */
  lemma EncodedIsOneLine(m: Message)
    ensures OneLine(Encode(m))
  {
    match m
    case ClientHello(v, c, t) => ClientHelloIsOneLine(v, c, t);
    case ServerHello(v, h, r) => ServerHelloIsOneLine(v, h, r);
    case ServerStatus(ok, msg) => OutcomeIsOneLine(ok, msg);
    case ClientReady(ok, msg) => OutcomeIsOneLine(ok, msg);
  }

  lemma ClientHelloIsOneLine(v: Text, c: Text, t: Text)
    ensures OneLine(Encode(ClientHello(v, c, t)))
  {
    PrintedStringIsOneLine(v);
    PrintedStringIsOneLine(c);
    PrintedStringIsOneLine(t);
    LiteralIsOneLine("{\"version\":");
    LiteralIsOneLine(",\"client_name\":");
    LiteralIsOneLine(",\"target\":");
    LiteralIsOneLine("}");
    OneLineConcat(PrintString(t), Ascii("}"));
    OneLineConcat(Ascii(",\"target\":"), PrintString(t) + Ascii("}"));
    FieldsAreOneLine(Ascii("{\"version\":"), PrintString(v), Ascii(",\"client_name\":"), PrintString(c),
                     Ascii(",\"target\":") + (PrintString(t) + Ascii("}")));
  }

  lemma ServerHelloIsOneLine(v: Text, h: Option<Text>, r: Option<Text>)
    ensures OneLine(Encode(ServerHello(v, h, r)))
  {
    PrintedStringIsOneLine(v);
    PrintedOptionIsOneLine(h);
    PrintedOptionIsOneLine(r);
    LiteralIsOneLine("{\"version\":");
    LiteralIsOneLine(",\"head\":");
    LiteralIsOneLine(",\"resume_token\":");
    LiteralIsOneLine("}");
    OneLineConcat(PrintOption(r), Ascii("}"));
    OneLineConcat(Ascii(",\"resume_token\":"), PrintOption(r) + Ascii("}"));
    FieldsAreOneLine(Ascii("{\"version\":"), PrintString(v), Ascii(",\"head\":"), PrintOption(h),
                     Ascii(",\"resume_token\":") + (PrintOption(r) + Ascii("}")));
  }

  /** A message followed by anything: the reader gets the message and leaves the rest. */
  lemma LineRoundTrip(m: Message, rest: Text)
    ensures ReadLine(Line(m) + rest) == Some((Encode(m), rest)) && Decodes(Encode(m), m)
  {
    EncodedIsOneLine(m);
    ReadOneLine(Encode(m), rest);
    assert Encode(m) != [] by { assert |Ascii("}")| == 1; }
    MessageRoundTrip(m, 0);
  }

  /** The client's whole half of a transfer, hello, ready, chunk stream, is read back part by part. */
  lemma ClientHalfRoundTrip(hello: Message, ready: Message, data: seq<byte>, rest: seq<byte>)
    requires hello.ClientHello? && ready.ClientReady?
    ensures var wire := Line(hello) + (Line(ready) + (Wire(data) + rest));
            ReadLine(wire) == Some((Encode(hello), Line(ready) + (Wire(data) + rest)))
            && ReadLine(ReadLine(wire).value.1) == Some((Encode(ready), Wire(data) + rest))
            && Decodes(Encode(hello), hello) && Decodes(Encode(ready), ready)
            && Decode(ReadLine(ReadLine(wire).value.1).value.1, 0, NEVER) == Decoded(data, rest, Complete)
  {
    LineRoundTrip(hello, Line(ready) + (Wire(data) + rest));
    LineRoundTrip(ready, Wire(data) + rest);
    RoundTrip(data, rest);
  }
}
