/** The messages as a JSON library reads them: objects with members in any order, with white space, with
    members that are not asked for, and with optional members left out. */
module Json {
  import opened Wrappers
  import opened Codec
  import opened Messages

  datatype Value = Str(text: Text) | Bool(truth: bool) | Null

  type Member = (Text, Value)

  const COLON: byte := 58
  const COMMA: byte := 44
  const OPEN: byte := 123
  const CLOSE: byte := 125

  predicate IsSpace(b: byte) {
    b == 32 || b == 9 || b == 10 || b == 13
  }

  function SkipSpace(s: Text): (r: Text)
    ensures |r| <= |s| && (r != [] ==> !IsSpace(r[0]))
  {
    if s != [] && IsSpace(s[0]) then SkipSpace(s[1..]) else s
  }

  function ParseValue(s: Text): (r: Option<(Value, Text)>)
    ensures r.Some? ==> |r.value.1| <= |s|
  {
    match ParseString(s)
    case Some((t, rest)) => Some((Str(t), rest))
    case None =>
      match ParseBool(s)
      case Some((b, rest)) => Some((Bool(b), rest))
      case None =>
        match Expect(Ascii("null"), s)
        case Some(rest) => Some((Null, rest))
        case None => None
  }

  /** A key, a colon and a value. */
  function ParseMember(s: Text): (r: Option<(Member, Text)>)
    ensures r.Some? ==> |r.value.1| < |s|
  {
    match ParseString(s)
    case None => None
    case Some((key, rest)) =>
      var r := SkipSpace(rest);
      if r == [] || r[0] != COLON then None
      else
        match ParseValue(SkipSpace(r[1..]))
        case None => None
        case Some((value, rest')) => Some(((key, value), SkipSpace(rest')))
  }

  /** The members up to the closing brace, and what follows it. */
  function ParseMembers(s: Text): Option<(seq<Member>, Text)>
    decreases |s|
  {
    match ParseMember(s)
    case None => None
    case Some((m, rest)) =>
      if rest == [] then None
      else if rest[0] == CLOSE then Some(([m], rest[1..]))
      else if rest[0] == COMMA then
        match ParseMembers(SkipSpace(rest[1..]))
        case None => None
        case Some((ms, rest')) => Some(([m] + ms, rest'))
      else None
  }

  /** A whole line as an object. */
  function ParseObject(s: Text): Option<seq<Member>> {
    var r := SkipSpace(s);
    if r == [] || r[0] != OPEN then None
    else
      var inner := SkipSpace(r[1..]);
      if inner != [] && inner[0] == CLOSE then if SkipSpace(inner[1..]) == [] then Some([]) else None
      else
        match ParseMembers(inner)
        case None => None
        case Some((ms, rest)) => if SkipSpace(rest) == [] then Some(ms) else None
  }

  // ----- members into messages

  /** The values given for a key. */
  function ValuesOf(ms: seq<Member>, key: Text): seq<Value> {
    if ms == [] then [] else (if ms[0].0 == key then [ms[0].1] else []) + ValuesOf(ms[1..], key)
  }

  /** A required string: given exactly once. */
  function RequiredText(ms: seq<Member>, key: string): Option<Text> {
    var vs := ValuesOf(ms, Ascii(key));
    if |vs| == 1 && vs[0].Str? then Some(vs[0].text) else None
  }

  function RequiredBool(ms: seq<Member>, key: string): Option<bool> {
    var vs := ValuesOf(ms, Ascii(key));
    if |vs| == 1 && vs[0].Bool? then Some(vs[0].truth) else None
  }

  /** An optional string: `null` and nothing at all are the same. */
  function OptionalText(ms: seq<Member>, key: string): Option<Option<Text>> {
    var vs := ValuesOf(ms, Ascii(key));
    if vs == [] || vs == [Null] then Some(None)
    else if |vs| == 1 && vs[0].Str? then Some(Some(vs[0].text))
    else None
  }

  function ReadClientHello(ms: seq<Member>): Option<Message> {
    match (RequiredText(ms, "version"), RequiredText(ms, "client_name"), RequiredText(ms, "target"))
    case (Some(v), Some(c), Some(t)) => Some(ClientHello(v, c, t))
    case _ => None
  }

  function ReadServerHello(ms: seq<Member>): Option<Message> {
    match (RequiredText(ms, "version"), OptionalText(ms, "head"), OptionalText(ms, "resume_token"))
    case (Some(v), Some(h), Some(r)) => Some(ServerHello(v, h, r))
    case _ => None
  }

  function ReadOutcome(ms: seq<Member>): Option<(bool, Text)> {
    match (RequiredBool(ms, "ok"), RequiredText(ms, "message"))
    case (Some(ok), Some(msg)) => Some((ok, msg))
    case _ => None
  }

  /** The line read as the kind of message that m is. */
  function ReadLike(line: Text, m: Message): Option<Message> {
    match ParseObject(line)
    case None => None
    case Some(ms) =>
      match m
      case ClientHello(_, _, _) => ReadClientHello(ms)
      case ServerHello(_, _, _) => ReadServerHello(ms)
      case ServerStatus(_, _) =>
        (match ReadOutcome(ms) { case Some((ok, msg)) => Some(ServerStatus(ok, msg)) case None => None })
      case ClientReady(_, _) =>
        (match ReadOutcome(ms) { case Some((ok, msg)) => Some(ClientReady(ok, msg)) case None => None })
  }

  // ----- the encoder's texts are such objects

  function PrintValue(v: Value): Text {
    match v
    case Str(t) => PrintString(t)
    case Bool(b) => PrintBool(b)
    case Null => Ascii("null")
  }

  function PrintMember(m: Member): Text {
    PrintString(m.0) + ([COLON] + PrintValue(m.1))
  }

  function PrintMembers(ms: seq<Member>): Text
    requires ms != []
  {
    PrintMember(ms[0]) + (if |ms| == 1 then [CLOSE] else [COMMA] + PrintMembers(ms[1..]))
  }

  lemma NoSpace(s: Text)
    requires s != [] && !IsSpace(s[0])
    ensures SkipSpace(s) == s
  {
  }

  lemma StringIsNoSpace(t: Text, rest: Text)
    ensures SkipSpace(PrintString(t) + rest) == PrintString(t) + rest
  {
    assert (PrintString(t) + rest)[0] == QUOTE;
  }

  lemma ValueRoundTrip(v: Value, rest: Text)
    ensures SkipSpace(PrintValue(v) + rest) == PrintValue(v) + rest
    ensures ParseValue(PrintValue(v) + rest) == Some((v, rest))
  {
    var s := PrintValue(v) + rest;
    match v
    case Str(t) =>
      StringRoundTrip(t, rest);
      StringIsNoSpace(t, rest);
    case Bool(b) =>
      BoolRoundTrip(b, rest);
      assert s[0] == PrintBool(b)[0] && s[0] != QUOTE && !IsSpace(s[0]);
    case Null =>
      ExpectSelf(Ascii("null"), rest);
      assert s[0] == Ascii("null")[0] && s[0] != QUOTE && !IsSpace(s[0]);
      assert s[0] != Ascii("true")[0] && s[0] != Ascii("false")[0];
  }

  lemma MemberRoundTrip(m: Member, rest: Text)
    requires rest != [] && !IsSpace(rest[0])
    ensures ParseMember(PrintMember(m) + rest) == Some((m, rest))
  {
    var tail := [COLON] + PrintValue(m.1) + rest;
    assert PrintMember(m) + rest == PrintString(m.0) + tail;
    StringRoundTrip(m.0, tail);
    assert tail[1..] == PrintValue(m.1) + rest;
    ValueRoundTrip(m.1, rest);
    NoSpace(rest);
  }

  function AfterFirst(ms: seq<Member>, rest: Text): Text
    requires ms != []
  {
    (if |ms| == 1 then [CLOSE] else [COMMA] + PrintMembers(ms[1..])) + rest
  }

  lemma Punctuated(mark: byte, more: Text, rest: Text)
    ensures var s := [mark] + more + rest; s != [] && s[0] == mark && s[1..] == more + rest
  {
  }

  lemma AfterFirstShape(ms: seq<Member>, rest: Text)
    requires ms != []
    ensures AfterFirst(ms, rest) != [] && AfterFirst(ms, rest)[0] == (if |ms| == 1 then CLOSE else COMMA)
    ensures |ms| == 1 ==> AfterFirst(ms, rest)[1..] == rest
    ensures |ms| > 1 ==> AfterFirst(ms, rest)[1..] == PrintMembers(ms[1..]) + rest
  {
    if |ms| == 1 {
      Punctuated(CLOSE, [], rest);
      assert [CLOSE] + [] == [CLOSE] && [] + rest == rest;
    } else {
      Punctuated(COMMA, PrintMembers(ms[1..]), rest);
    }
  }

  lemma FirstMember(ms: seq<Member>, rest: Text)
    requires ms != []
    ensures ParseMember(PrintMembers(ms) + rest) == Some((ms[0], AfterFirst(ms, rest)))
  {
    AfterFirstShape(ms, rest);
    Associative(PrintMember(ms[0]), if |ms| == 1 then [CLOSE] else [COMMA] + PrintMembers(ms[1..]), rest);
    MemberRoundTrip(ms[0], AfterFirst(ms, rest));
  }

  lemma {:induction false} MembersRoundTrip(ms: seq<Member>, rest: Text)
    requires ms != []
    ensures ParseMembers(PrintMembers(ms) + rest) == Some((ms, rest))
  {
    FirstMember(ms, rest);
    AfterFirstShape(ms, rest);
    if |ms| > 1 {
      MembersStart(ms[1..], rest);
      MembersRoundTrip(ms[1..], rest);
      assert [ms[0]] + ms[1..] == ms;
    } else {
      assert [ms[0]] == ms;
    }
  }

  lemma MembersStart(ms: seq<Member>, rest: Text)
    requires ms != []
    ensures SkipSpace(PrintMembers(ms) + rest) == PrintMembers(ms) + rest
    ensures (PrintMembers(ms) + rest)[0] == QUOTE
  {
    assert (PrintMembers(ms) + rest)[0] == PrintString(ms[0].0)[0] == QUOTE;
  }

  lemma ObjectRoundTrip(ms: seq<Member>)
    requires ms != []
    ensures ParseObject([OPEN] + PrintMembers(ms)) == Some(ms)
  {
    var s := [OPEN] + PrintMembers(ms);
    NoSpace(s);
    assert s[1..] == PrintMembers(ms) == PrintMembers(ms) + [];
    MembersStart(ms, []);
    MembersRoundTrip(ms, []);
  }

  // ----- the messages

  function OptionValue(o: Option<Text>): Value {
    match o
    case None => Null
    case Some(t) => Str(t)
  }

  function MembersOf(m: Message): (ms: seq<Member>)
    ensures ms != []
  {
    match m
    case ClientHello(v, c, t) => [(Ascii("version"), Str(v)), (Ascii("client_name"), Str(c)), (Ascii("target"), Str(t))]
    case ServerHello(v, h, r) =>
      [(Ascii("version"), Str(v)), (Ascii("head"), OptionValue(h)), (Ascii("resume_token"), OptionValue(r))]
    case ServerStatus(ok, msg) => [(Ascii("ok"), Bool(ok)), (Ascii("message"), Str(msg))]
    case ClientReady(ok, msg) => [(Ascii("ok"), Bool(ok)), (Ascii("message"), Str(msg))]
  }

  /** Text without quotes, backslashes and control characters is printed as it is. */
  lemma {:induction false} PlainText(s: Text)
    requires forall i :: 0 <= i < |s| ==> s[i] >= 32 && s[i] != QUOTE && s[i] != BACKSLASH
    ensures EscapeAll(s) == s
  {
    if s != [] {
      PlainText(s[1..]);
    }
  }

  lemma KeyText(key: string)
    requires Key(key)
    ensures PrintString(Ascii(key)) == [QUOTE] + Ascii(key) + [QUOTE]
  {
    PlainText(Ascii(key));
  }

  lemma MoreMembers(m: Member, ms: seq<Member>)
    requires ms != []
    ensures PrintMembers([m] + ms) == PrintMember(m) + ([COMMA] + PrintMembers(ms))
    ensures PrintMembers([m]) == PrintMember(m) + [CLOSE]
  {
    assert ([m] + ms)[1..] == ms;
  }

  lemma ThreeMembers(a: Member, b: Member, c: Member)
    ensures PrintMembers([a, b, c])
         == PrintMember(a) + ([COMMA] + (PrintMember(b) + ([COMMA] + (PrintMember(c) + [CLOSE]))))
    ensures PrintMembers([a, b]) == PrintMember(a) + ([COMMA] + (PrintMember(b) + [CLOSE]))
  {
    MoreMembers(b, [c]);
    MoreMembers(c, [c]);
    MoreMembers(b, [b]);
    assert [b] + [c] == [b, c] && [a] + [b, c] == [a, b, c] && [a] + [b] == [a, b];
    MoreMembers(a, [b, c]);
    MoreMembers(a, [b]);
  }

  /** The literal before a value: what precedes it, the key and the colon. */
  lemma Literal(before: byte, key: string, all: string, value: Text, rest: Text)
    requires Introduces(before, key, all)
    ensures Ascii(all) + (value + rest) == [before] + (PrintString(Ascii(key)) + ([COLON] + value) + rest)
  {
    KeyText(key);
  }

  predicate Key(key: string) {
    forall i :: 0 <= i < |key| ==> 'a' <= key[i] <= 'z' || key[i] == '_'
  }

  /** `all` is the text before the value of this key. */
  predicate Introduces(before: byte, key: string, all: string) {
    Key(key) && Ascii(all) == [before] + ([QUOTE] + Ascii(key) + [QUOTE] + [COLON])
  }

  lemma TwoObject(k1: string, k2: string, l1: string, l2: string, v1: Value, v2: Value)
    requires Introduces(OPEN, k1, l1) && Introduces(COMMA, k2, l2)
    ensures Ascii(l1) + (PrintValue(v1) + (Ascii(l2) + (PrintValue(v2) + Ascii("}"))))
         == [OPEN] + PrintMembers([(Ascii(k1), v1), (Ascii(k2), v2)])
  {
    ThreeMembers((Ascii(k1), v1), (Ascii(k2), v2), (Ascii(k2), v2));
    assert Ascii("}") == [CLOSE];
    var r2 := Ascii(l2) + (PrintValue(v2) + Ascii("}"));
    Literal(COMMA, k2, l2, PrintValue(v2), Ascii("}"));
    Literal(OPEN, k1, l1, PrintValue(v1), r2);
  }

  lemma ThreeObject(k1: string, k2: string, k3: string, l1: string, l2: string, l3: string,
                    v1: Value, v2: Value, v3: Value)
    requires Introduces(OPEN, k1, l1) && Introduces(COMMA, k2, l2) && Introduces(COMMA, k3, l3)
    ensures Ascii(l1) + (PrintValue(v1) + (Ascii(l2) + (PrintValue(v2) + (Ascii(l3) + (PrintValue(v3) + Ascii("}"))))))
         == [OPEN] + PrintMembers([(Ascii(k1), v1), (Ascii(k2), v2), (Ascii(k3), v3)])
  {
    ThreeMembers((Ascii(k1), v1), (Ascii(k2), v2), (Ascii(k3), v3));
    assert Ascii("}") == [CLOSE];
    var r3 := Ascii(l3) + (PrintValue(v3) + Ascii("}"));
    Literal(COMMA, k3, l3, PrintValue(v3), Ascii("}"));
    var r2 := Ascii(l2) + (PrintValue(v2) + r3);
    Literal(COMMA, k2, l2, PrintValue(v2), r3);
    Literal(OPEN, k1, l1, PrintValue(v1), r2);
  }

  lemma HelloKeys()
    ensures Introduces(OPEN, "version", "{\"version\":")
    ensures Introduces(COMMA, "client_name", ",\"client_name\":")
    ensures Introduces(COMMA, "target", ",\"target\":")
  {
  }

  lemma ServerKeys()
    ensures Introduces(COMMA, "head", ",\"head\":")
    ensures Introduces(COMMA, "resume_token", ",\"resume_token\":")
  {
  }

  lemma OutcomeKeys()
    ensures Introduces(OPEN, "ok", "{\"ok\":")
    ensures Introduces(COMMA, "message", ",\"message\":")
  {
  }

  lemma OutcomeObject(ok: bool, msg: Text)
    ensures EncodeOutcome(ok, msg) == [OPEN] + PrintMembers([(Ascii("ok"), Bool(ok)), (Ascii("message"), Str(msg))])
  {
    OutcomeKeys();
    TwoObject("ok", "message", "{\"ok\":", ",\"message\":", Bool(ok), Str(msg));
  }

  lemma ClientHelloObject(v: Text, c: Text, t: Text)
    ensures Encode(ClientHello(v, c, t)) == [OPEN] + PrintMembers(MembersOf(ClientHello(v, c, t)))
  {
    HelloKeys();
    ThreeObject("version", "client_name", "target", "{\"version\":", ",\"client_name\":", ",\"target\":",
                Str(v), Str(c), Str(t));
  }

  lemma ServerHelloObject(v: Text, h: Option<Text>, r: Option<Text>)
    ensures Encode(ServerHello(v, h, r)) == [OPEN] + PrintMembers(MembersOf(ServerHello(v, h, r)))
  {
    HelloKeys();
    ServerKeys();
    ThreeObject("version", "head", "resume_token", "{\"version\":", ",\"head\":", ",\"resume_token\":",
                Str(v), OptionValue(h), OptionValue(r));
  }

  lemma EncodeIsObject(m: Message)
    ensures Encode(m) == [OPEN] + PrintMembers(MembersOf(m))
  {
    match m
    case ClientHello(v, c, t) => ClientHelloObject(v, c, t);
    case ServerHello(v, h, r) => ServerHelloObject(v, h, r);
    case ServerStatus(ok, msg) => OutcomeObject(ok, msg);
    case ClientReady(ok, msg) => OutcomeObject(ok, msg);
  }

  lemma EncodeParses(m: Message)
    ensures ParseObject(Encode(m)) == Some(MembersOf(m))
  {
    EncodeIsObject(m);
    ObjectRoundTrip(MembersOf(m));
  }

  // ----- what a line reads as

  lemma Differ(a: string, b: string)
    requires Key(a) && Key(b) && a != b
    ensures Ascii(a) != Ascii(b)
  {
    if |a| == |b| {
      var i :| 0 <= i < |a| && a[i] != b[i];
      assert Ascii(a)[i] != Ascii(b)[i];
    }
  }

  function One(m: Member, key: Text): seq<Value> {
    if m.0 == key then [m.1] else []
  }

  lemma ValuesStep(m: Member, ms: seq<Member>, key: Text)
    ensures ValuesOf([m] + ms, key) == One(m, key) + ValuesOf(ms, key)
  {
    assert ([m] + ms)[1..] == ms;
  }

  lemma ValuesOfTwo(a: Member, b: Member, key: Text)
    ensures ValuesOf([a, b], key) == One(a, key) + One(b, key)
  {
    assert [a, b] == [a] + ([b] + []);
    ValuesStep(b, [], key);
    ValuesStep(a, [b] + [], key);
    assert One(b, key) + [] == One(b, key);
  }

  lemma ValuesOfThree(a: Member, b: Member, c: Member, key: Text)
    ensures ValuesOf([a, b, c], key) == One(a, key) + (One(b, key) + One(c, key))
  {
    assert [a, b, c] == [a] + [b, c];
    ValuesOfTwo(b, c, key);
    ValuesStep(a, [b, c], key);
  }

  /** Of members with different keys, each key has its own value. */
  lemma OwnValues(a: Member, b: Member, c: Member)
    requires a.0 != b.0 && b.0 != c.0 && a.0 != c.0
    ensures ValuesOf([a, b, c], a.0) == [a.1] && ValuesOf([a, b, c], b.0) == [b.1] && ValuesOf([a, b, c], c.0) == [c.1]
    ensures ValuesOf([a, b], a.0) == [a.1] && ValuesOf([a, b], b.0) == [b.1]
  {
    ValuesOfThree(a, b, c, a.0);
    ValuesOfThree(a, b, c, b.0);
    ValuesOfThree(a, b, c, c.0);
    ValuesOfTwo(a, b, a.0);
    ValuesOfTwo(a, b, b.0);
  }

  lemma ClientHelloRead(v: Text, c: Text, t: Text)
    ensures ReadClientHello(MembersOf(ClientHello(v, c, t))) == Some(ClientHello(v, c, t))
  {
    Differ("version", "client_name");
    Differ("version", "target");
    Differ("client_name", "target");
    OwnValues((Ascii("version"), Str(v)), (Ascii("client_name"), Str(c)), (Ascii("target"), Str(t)));
  }

  lemma ServerHelloRead(v: Text, h: Option<Text>, r: Option<Text>)
    ensures ReadServerHello(MembersOf(ServerHello(v, h, r))) == Some(ServerHello(v, h, r))
  {
    Differ("version", "head");
    Differ("version", "resume_token");
    Differ("head", "resume_token");
    OwnValues((Ascii("version"), Str(v)), (Ascii("head"), OptionValue(h)), (Ascii("resume_token"), OptionValue(r)));
  }

  lemma OutcomeRead(ok: bool, msg: Text)
    ensures ReadOutcome([(Ascii("ok"), Bool(ok)), (Ascii("message"), Str(msg))]) == Some((ok, msg))
  {
    Differ("ok", "message");
    Differ("ok", "head");
    Differ("message", "head");
    OwnValues((Ascii("ok"), Bool(ok)), (Ascii("message"), Str(msg)), (Ascii("head"), Null));
  }

  /** Every message is read back as it was. */
  lemma ReadsBack(m: Message)
    ensures ReadLike(Encode(m), m) == Some(m)
  {
    EncodeParses(m);
    match m
    case ClientHello(v, c, t) => ClientHelloRead(v, c, t);
    case ServerHello(v, h, r) => ServerHelloRead(v, h, r);
    case ServerStatus(ok, msg) => OutcomeRead(ok, msg);
    case ClientReady(ok, msg) => OutcomeRead(ok, msg);
  }

  ghost predicate DistinctKeys(ms: seq<Member>) {
    forall i, j :: 0 <= i < j < |ms| ==> ms[i].0 != ms[j].0
  }

  lemma {:induction false} ValuesAre(ms: seq<Member>, key: Text)
    requires DistinctKeys(ms)
    ensures forall v :: (key, v) in ms ==> ValuesOf(ms, key) == [v]
    ensures (forall v :: (key, v) !in ms) ==> ValuesOf(ms, key) == []
  {
    if ms != [] {
      ValuesAre(ms[1..], key);
      assert ms == [ms[0]] + ms[1..];
      if ms[0].0 == key {
        NoValues(ms[1..], key);
      } else {
        assert forall v :: (key, v) in ms <==> (key, v) in ms[1..];
      }
    }
  }

  lemma SameValues(a: seq<Member>, b: seq<Member>, key: Text)
    requires DistinctKeys(a) && DistinctKeys(b) && multiset(a) == multiset(b)
    ensures ValuesOf(a, key) == ValuesOf(b, key)
  {
    ValuesAre(a, key);
    ValuesAre(b, key);
    forall m ensures m in a <==> m in b {
      assert m in a <==> m in multiset(a);
      assert m in b <==> m in multiset(b);
    }
  }

  /** The order of the members does not matter. */
  lemma OrderFree(a: seq<Member>, b: seq<Member>)
    requires DistinctKeys(a) && DistinctKeys(b) && multiset(a) == multiset(b)
    ensures ReadClientHello(a) == ReadClientHello(b) && ReadServerHello(a) == ReadServerHello(b)
    ensures ReadOutcome(a) == ReadOutcome(b)
  {
    SameValues(a, b, Ascii("version"));
    SameValues(a, b, Ascii("client_name"));
    SameValues(a, b, Ascii("target"));
    SameValues(a, b, Ascii("head"));
    SameValues(a, b, Ascii("resume_token"));
    SameValues(a, b, Ascii("ok"));
    SameValues(a, b, Ascii("message"));
  }

  /** No object without a version, in whatever order and layout, reads as a ServerHello. */
  lemma HelloNeedsVersion(line: Text, v: Text, h: Option<Text>, r: Option<Text>)
    requires ParseObject(line).Some? && forall i :: 0 <= i < |ParseObject(line).value| ==>
               ParseObject(line).value[i].0 != Ascii("version")
    ensures ReadLike(line, ServerHello(v, h, r)) == None
  {
    NoValues(ParseObject(line).value, Ascii("version"));
  }

  lemma {:induction false} NoValues(ms: seq<Member>, key: Text)
    requires forall i :: 0 <= i < |ms| ==> ms[i].0 != key
    ensures ValuesOf(ms, key) == []
  {
    if ms != [] {
      NoValues(ms[1..], key);
    }
  }

  lemma NoVersion(ok: bool, msg: Text)
    ensures var ms := MembersOf(ServerStatus(ok, msg)); forall i :: 0 <= i < |ms| ==> ms[i].0 != Ascii("version")
  {
    Differ("ok", "version");
    Differ("message", "version");
  }

  /** A ServerStatus sent where ServerHello is expected is refused. */
  lemma StatusIsNoHello(ok: bool, msg: Text, v: Text, h: Option<Text>, r: Option<Text>)
    ensures ReadLike(Encode(ServerStatus(ok, msg)), ServerHello(v, h, r)) == None
  {
    EncodeParses(ServerStatus(ok, msg));
    NoVersion(ok, msg);
    HelloNeedsVersion(Encode(ServerStatus(ok, msg)), v, h, r);
  }
}
