/** The invariant of a session, and that every step keeps it. */
module SessionProof {
  import opened Wrappers
  import opened Codec
  import opened Session

  /** The first k chunk tokens of the stream. */
  function Tokens(data: seq<byte>, k: nat): (r: seq<Upstream>)
    ensures |r| == k
  {
    seq(k, i requires 0 <= i < k => Chunk(Payload(data, i), More(data, i)))
  }

  function Streamed(data: seq<byte>, k: nat): (r: seq<Upstream>)
    ensures |r| == k + 2
  {
    [Hello, Ready(true)] + Tokens(data, k)
  }

  /** A pipe holds what was written and not read; once closed it may have lost its tail. */
  ghost predicate Queued<T>(p: Pipe<T>, out: seq<T>, n: nat, torn: T) {
    && n <= |out| && torn !in out
    && (p.open ==> p.queue == out[n..])
    && (p.queue <= out[n..]
        || (p.queue != [] && p.queue[|p.queue| - 1] == torn && p.queue[..|p.queue| - 1] <= out[n..]))
  }

  ghost predicate UpShape(out: seq<Upstream>, data: seq<byte>) {
    out <= Streamed(data, BlockCount(|data|)) || out == [Hello, Ready(false)]
  }

  ghost predicate DownShape(out: seq<Downstream>) {
    || out == [] || out == [Status(false)] || out == [Status(true)] || out == [Status(true), Status(false)]
    || out == [Status(true), ServerHello]
    || (|out| == 3 && out[0] == Status(true) && out[1] == ServerHello && out[2].Status?)
  }

  predicate Exited(c: Client) {
    c.Closing? || c.Waiting? || c.Gone?
  }

  ghost predicate Concluded(s: State, ok: bool) {
    |s.downOut| == 3 && s.downOut[2] == Status(ok)
  }

  /** The remote side has everything and zfs receive has succeeded. */
  ghost predicate Delivered(s: State) {
    s.received == s.data && s.finished
  }

  ghost predicate ClientInv(s: State) {
    match s.client
    case Greeting => s.upOut == [] && s.downIn == 0
    case AwaitVersion => s.upOut == [Hello] && s.downIn == 0
    case AwaitHello => s.upOut == [Hello] && s.downIn == 1
    case Deciding => s.upOut == [Hello] && s.downIn == 2
    case Declining(result) => s.upOut == [Hello] && s.downIn == 2 && (result == Sent(0) || result == Failed)
    case Readying => s.upOut == [Hello] && s.downIn == 2
    case Looking(k) => k < BlockCount(|s.data|) && s.upOut == Streamed(s.data, k) && s.downIn == 2
    case Pushing(k) => k < BlockCount(|s.data|) && s.upOut == Streamed(s.data, k) && s.downIn == 2
    case Checking(k) =>
      k < BlockCount(|s.data|) && s.upOut == Streamed(s.data, k + 1) && s.downIn == 2 && s.sent == Offset(s.data, k + 1)
    case AwaitFinal =>
      s.upOut == Streamed(s.data, BlockCount(|s.data|)) && s.downIn == 2 && s.sent == |s.data|
    case Draining => s.downIn == 2 && s.upOut != [] && |s.upOut| >= 2
    case Closing(result) => ExitInv(s, result)
    case Waiting(result) => ExitInv(s, result) && !s.up.open
    case Gone(result) => ExitInv(s, result) && !s.up.open && (s.server == Left || !s.down.open)
  }

  ghost predicate ExitInv(s: State, result: Outcome) {
    && (result.Sent? && result.bytes > 0 ==> Concluded(s, true) && result.bytes == |s.data|)
    && (s.down.open ==> s.downIn >= 2 || s.upOut == [] || (s.downOut == [Status(false)] && s.downIn == 1))
  }

  /** What the server has written when it is at `server` and not on its way out. */
  function DownAt(server: Server): seq<Downstream> {
    match server
    case AwaitGreeting => []
    case Judging => []
    case RefusingVersion => []
    case Accepting => []
    case Admitting => [Status(true)]
    case Refusing => [Status(true)]
    case Introducing => [Status(true)]
    case _ => [Status(true), ServerHello]
  }

  /** What the server has read and passed on when it is at `server`. */
  ghost predicate Progressed(server: Server, upIn: nat, upOut: seq<Upstream>, received: seq<byte>, data: seq<byte>,
                             finished: bool)
  {
    match server
    case AwaitGreeting => upIn == 0 && received == []
    case Spawning => upIn == 2 <= |upOut| && upOut[1] == Ready(true) && received == []
    case Receiving =>
      && 2 <= upIn < 2 + BlockCount(|data|) && 2 <= |upOut| && upOut[1] == Ready(true)
      && received == data[..Offset(data, upIn - 2)]
    case Finishing => upIn >= 2 && received == data
    case Failing => upIn >= 2
    case Concluding(ok) => upIn >= 2 && (ok ==> received == data && finished)
    case Leaving => true
    case Left => true
    case _ => upIn == 1 && received == []
  }

  ghost predicate ServerInv(s: State) {
    && (s.server != Leaving && s.server != Left ==> s.downOut == DownAt(s.server))
    && (s.server == Left ==> !s.up.open && !s.down.open)
    && Progressed(s.server, s.upIn, s.upOut, s.received, s.data, s.finished)
  }

  ghost predicate UpOk(p: Pipe<Upstream>, out: seq<Upstream>, n: nat, data: seq<byte>) {
    Queued(p, out, n, TornUp) && UpShape(out, data)
  }

  ghost predicate DownOk(p: Pipe<Downstream>, out: seq<Downstream>, n: nat) {
    Queued(p, out, n, TornDown) && DownShape(out)
  }

  ghost predicate PipesInv(s: State) {
    s.cap > 0 && UpOk(s.up, s.upOut, s.upIn, s.data) && DownOk(s.down, s.downOut, s.downIn)
  }

  ghost predicate DataInv(s: State) {
    (Concluded(s, true) ==> Delivered(s)) && s.received <= s.data
  }

  ghost predicate Inv(s: State) {
    PipesInv(s) && DataInv(s) && ClientInv(s) && ServerInv(s)
  }

  lemma InitialInv(cap: nat, data: seq<byte>)
    requires cap > 0
    ensures Inv(Initial(cap, data))
  {
  }

  // ----- pipe lemmas

  lemma PushKeeps<T>(p: Pipe<T>, out: seq<T>, n: nat, torn: T, t: T)
    requires Queued(p, out, n, torn) && p.open && t != torn
    ensures Queued(p.(queue := p.queue + [t]), out + [t], n, torn)
  {
    assert (out + [t])[n..] == out[n..] + [t];
  }

  lemma CloseKeeps<T>(p: Pipe<T>, out: seq<T>, n: nat, torn: T)
    requires Queued(p, out, n, torn)
    ensures Queued(p.(open := false), out, n, torn)
  {
  }

  lemma BreakKeeps<T>(p: Pipe<T>, out: seq<T>, n: nat, torn: T, keep: nat, cut: bool)
    requires Queued(p, out, n, torn) && p.open && keep <= |p.queue|
    ensures Queued(Pipe(p.queue[..keep] + (if cut then [torn] else []), false), out, n, torn)
  {
    var q := p.queue[..keep] + [torn];
    assert q[..|q| - 1] == p.queue[..keep];
    assert p.queue[..keep] + [] == p.queue[..keep];
  }

  /** The next token is the next one written, unless the pipe broke inside it. */
  lemma TakeKeeps<T>(p: Pipe<T>, out: seq<T>, n: nat, torn: T)
    requires Queued(p, out, n, torn) && p.queue != []
    ensures p.queue[0] != torn ==>
      n < |out| && p.queue[0] == out[n] && Queued(p.(queue := p.queue[1..]), out, n + 1, torn)
    ensures p.queue[0] == torn ==> !p.open && Queued(p.(queue := p.queue[1..]), out, n, torn)
  {
    var q := p.queue;
    var rest := out[n..];
    assert q <= rest ==> q[0] == out[n] && q[1..] <= rest[1..];
    assert |q| > 1 && q[..|q| - 1] <= rest ==> q[0] == q[..|q| - 1][0] == out[n];
    assert |q| > 1 ==> q[1..][..|q| - 2] == q[..|q| - 1][1..];
    assert rest != [] ==> rest[1..] == out[n + 1..];
  }

  lemma UpPush(p: Pipe<Upstream>, out: seq<Upstream>, n: nat, data: seq<byte>, t: Upstream)
    requires UpOk(p, out, n, data) && p.open && t != TornUp && UpShape(out + [t], data)
    ensures UpOk(p.(queue := p.queue + [t]), out + [t], n, data)
  {
    PushKeeps(p, out, n, TornUp, t);
  }

  lemma DownPush(p: Pipe<Downstream>, out: seq<Downstream>, n: nat, t: Downstream)
    requires DownOk(p, out, n) && p.open && t != TornDown && DownShape(out + [t])
    ensures DownOk(p.(queue := p.queue + [t]), out + [t], n)
  {
    PushKeeps(p, out, n, TornDown, t);
  }

  lemma UpTake(p: Pipe<Upstream>, out: seq<Upstream>, n: nat, data: seq<byte>)
    requires UpOk(p, out, n, data) && p.queue != []
    ensures UpOk(p.(queue := p.queue[1..]), out, if p.queue[0] == TornUp then n else n + 1, data)
    ensures p.queue[0] != TornUp ==> n < |out| && p.queue[0] == out[n]
  {
    TakeKeeps(p, out, n, TornUp);
  }

  lemma DownTake(p: Pipe<Downstream>, out: seq<Downstream>, n: nat)
    requires DownOk(p, out, n) && p.queue != []
    ensures DownOk(p.(queue := p.queue[1..]), out, if p.queue[0] == TornDown then n else n + 1)
    ensures p.queue[0] != TornDown ==> n < |out| && p.queue[0] == out[n]
  {
    TakeKeeps(p, out, n, TornDown);
  }

  lemma UpClose(p: Pipe<Upstream>, out: seq<Upstream>, n: nat, data: seq<byte>)
    requires UpOk(p, out, n, data)
    ensures UpOk(p.(open := false), out, n, data)
  {
    CloseKeeps(p, out, n, TornUp);
  }

  lemma DownClose(p: Pipe<Downstream>, out: seq<Downstream>, n: nat)
    requires DownOk(p, out, n)
    ensures DownOk(p.(open := false), out, n)
  {
    CloseKeeps(p, out, n, TornDown);
  }

  /** What a step that touches neither pipe leaves alone. */
  predicate PipesSame(s: State, t: State) {
    && t.cap == s.cap && t.up == s.up && t.down == s.down && t.upOut == s.upOut && t.downOut == s.downOut
    && t.upIn == s.upIn && t.downIn == s.downIn && t.data == s.data
  }

  lemma PipesFrame(s: State, t: State)
    requires PipesInv(s) && PipesSame(s, t)
    ensures PipesInv(t)
  {
  }

  // ----- every client step keeps the invariant

  /** What a client step leaves alone. */
  ghost predicate ServerSideSame(s: State, t: State) {
    && t.cap == s.cap && t.server == s.server && t.data == s.data && t.received == s.received
    && t.finished == s.finished
    && t.upIn == s.upIn && t.downOut == s.downOut && s.upOut <= t.upOut
    && (t.up.open ==> s.up.open) && (t.down.open ==> s.down.open)
  }

  /** What a client that opens or declines the stream writes, and where it goes next. */
  function Opening(c: Client): (r: (Upstream, Client, Client))
    requires Opens(c)
    ensures r.0 != TornUp
  {
    match c
    case Greeting => (Hello, AwaitVersion, Closing(Failed))
    case Declining(result) => (Ready(false), Closing(result), Closing(result))
    case Readying => (Ready(true), Looking(0), Closing(Failed))
  }

  lemma OpeningStep(s: State)
    requires Opens(s.client)
    ensures ClientStep(s, Go) == ClientWrite(s, Opening(s.client).0, Opening(s.client).1, Opening(s.client).2)
  {
  }

  lemma ClientReadSame(s: State)
    requires Reads(s.client) && ClientStep(s, Go).Some?
    ensures ServerSideSame(s, ClientStep(s, Go).value)
  {
  }

  lemma ClientWriteSame(s: State, t: Upstream, next: Client, onError: Client)
    requires ClientWrite(s, t, next, onError).Some?
    ensures ServerSideSame(s, ClientWrite(s, t, next, onError).value)
  {
  }

  lemma OpeningSame(s: State)
    requires Opens(s.client) && ClientStep(s, Go).Some?
    ensures ServerSideSame(s, ClientStep(s, Go).value)
  {
    var opening := Opening(s.client);
    OpeningStep(s);
    ClientWriteSame(s, opening.0, opening.1, opening.2);
  }

  lemma PushSame(s: State)
    requires s.client.Pushing? && ClientStep(s, Go).Some?
    ensures ServerSideSame(s, ClientStep(s, Go).value)
  {
    var k := s.client.k;
    ClientWriteSame(s, Chunk(Payload(s.data, k), More(s.data, k)), Checking(k), Draining);
  }

  lemma ClientLocalSame(s: State, m: ClientMove)
    requires !Reads(s.client) && !Opens(s.client) && !s.client.Pushing? && ClientStep(s, m).Some?
    ensures ServerSideSame(s, ClientStep(s, m).value)
  {
  }

  lemma ClientStepSame(s: State, m: ClientMove)
    requires ClientStep(s, m).Some?
    ensures ServerSideSame(s, ClientStep(s, m).value)
  {
    if Reads(s.client) {
      ClientReadSame(s);
    } else if Opens(s.client) {
      OpeningSame(s);
    } else if s.client.Pushing? {
      PushSame(s);
    } else {
      ClientLocalSame(s, m);
    }
  }

  lemma ServerInvFrame(s: State, t: State)
    requires DataInv(s) && ServerInv(s) && ServerSideSame(s, t)
    ensures ServerInv(t) && DataInv(t)
  {
    assert |s.upOut| >= 2 ==> t.upOut[1] == s.upOut[1];
  }

  lemma TokenAt(data: seq<byte>, k: nat)
    requires k < BlockCount(|data|)
    ensures Streamed(data, k) + [Chunk(Payload(data, k), More(data, k))] == Streamed(data, k + 1)
    ensures Streamed(data, k) <= Streamed(data, BlockCount(|data|))
    ensures Streamed(data, k + 1) <= Streamed(data, BlockCount(|data|))
  {
  }

  lemma OpeningShapes(data: seq<byte>)
    ensures UpShape([Hello], data) && UpShape([Hello, Ready(true)], data) && UpShape([Hello, Ready(false)], data)
    ensures Streamed(data, 0) == [Hello, Ready(true)]
  {
    TokenAt(data, 0);
  }

  lemma PushShape(data: seq<byte>, k: nat)
    requires k < BlockCount(|data|)
    ensures UpShape(Streamed(data, k) + [Chunk(Payload(data, k), More(data, k))], data)
  {
    TokenAt(data, k);
  }

  predicate Reads(c: Client) {
    c.AwaitVersion? || c.AwaitHello? || c.AwaitFinal? || c.Draining?
  }

  predicate Opens(c: Client) {
    c.Greeting? || c.Declining? || c.Readying?
  }

  lemma ReadPipes(s: State, next: Downstream -> Client)
    requires PipesInv(s) && ClientRead(s, next).Some?
    ensures PipesInv(ClientRead(s, next).value)
  {
    if s.down.queue != [] {
      DownTake(s.down, s.downOut, s.downIn);
    }
  }

  lemma ClientReadPipes(s: State)
    requires PipesInv(s) && Reads(s.client) && ClientStep(s, Go).Some?
    ensures PipesInv(ClientStep(s, Go).value)
  {
    match s.client
    case AwaitVersion => ReadPipes(s, t => if t == Status(true) then AwaitHello else Closing(Failed));
    case AwaitHello => ReadPipes(s, t => if t == ServerHello then Deciding else Closing(Failed));
    case AwaitFinal => ReadPipes(s, t => if t == Status(true) then Closing(Sent(s.sent)) else Closing(Failed));
    case Draining => ReadPipes(s, t => Closing(Failed));
  }

  ghost predicate DownHead(s: State) {
    s.down.queue != [] ==>
      if s.down.queue[0] == TornDown then !s.down.open
      else s.downIn < |s.downOut| && s.down.queue[0] == s.downOut[s.downIn]
  }

  lemma DownHeadIsNext(s: State)
    requires PipesInv(s)
    ensures DownHead(s)
  {
    if s.down.queue != [] {
      TakeKeeps(s.down, s.downOut, s.downIn, TornDown);
    }
  }

  lemma ClientReadOwn(s: State)
    requires ClientInv(s) && DownShape(s.downOut) && DownHead(s) && Reads(s.client) && ClientStep(s, Go).Some?
    ensures ClientInv(ClientStep(s, Go).value)
  {
  }

  lemma ClientWritePipes(s: State, t: Upstream, next: Client, onError: Client)
    requires PipesInv(s) && UpShape(s.upOut + [t], s.data) && t != TornUp
    requires ClientWrite(s, t, next, onError).Some?
    ensures PipesInv(ClientWrite(s, t, next, onError).value)
  {
    if s.up.open {
      UpPush(s.up, s.upOut, s.upIn, s.data, t);
    }
  }

  lemma OpeningShape(c: Client, data: seq<byte>)
    requires Opens(c)
    ensures UpShape((if c.Greeting? then [] else [Hello]) + [Opening(c).0], data)
  {
    OpeningShapes(data);
    match c
    case Greeting => assert [] + [Hello] == [Hello];
    case Declining(_) => assert [Hello] + [Ready(false)] == [Hello, Ready(false)];
    case Readying => assert [Hello] + [Ready(true)] == [Hello, Ready(true)];
  }

  lemma OpeningOwn(s: State)
    requires ClientInv(s) && Opens(s.client) && ClientStep(s, Go).Some?
    ensures ClientInv(ClientStep(s, Go).value)
  {
    OpeningShapes(s.data);
    CountBounds(|s.data|);
  }

  function PushWrite(s: State, token: Upstream): Option<State>
    requires s.client.Pushing?
  {
    ClientWrite(s, token, Checking(s.client.k), Draining)
  }

  lemma PushSplit(s: State) returns (token: Upstream)
    requires s.client.Pushing? && ClientStep(s, Go).Some?
    ensures token == Chunk(Payload(s.data, s.client.k), More(s.data, s.client.k)) && PushWrite(s, token).Some?
    ensures PipesSame(PushWrite(s, token).value, ClientStep(s, Go).value)
  {
    token := Chunk(Payload(s.data, s.client.k), More(s.data, s.client.k));
  }

  lemma PushPipes(s: State, token: Upstream, t: State)
    requires PipesInv(s) && s.client.Pushing? && PushWrite(s, token).Some?
    requires PipesSame(PushWrite(s, token).value, t)
    requires token != TornUp && UpShape(s.upOut + [token], s.data)
    ensures PipesInv(t)
  {
    ClientWritePipes(s, token, Checking(s.client.k), Draining);
    PipesFrame(PushWrite(s, token).value, t);
  }

  lemma PushOwn(s: State)
    requires ClientInv(s) && s.client.Pushing? && ClientStep(s, Go).Some?
    ensures ClientInv(ClientStep(s, Go).value)
  {
    TokenAt(s.data, s.client.k);
  }

  lemma LocalOwn(s: State, m: ClientMove)
    requires ClientInv(s) && (s.client.Deciding? || s.client.Looking?) && ClientStep(s, m).Some?
    ensures ClientInv(ClientStep(s, m).value)
  {
  }

  lemma CheckingOwn(s: State, m: ClientMove)
    requires ClientInv(s) && s.client.Checking? && ClientStep(s, m).Some?
    ensures ClientInv(ClientStep(s, m).value)
  {
    NextOrLast(s.data, s.client.k);
  }

  lemma NextOrLast(data: seq<byte>, k: nat)
    requires k < BlockCount(|data|)
    ensures if More(data, k) then k + 1 < BlockCount(|data|)
            else k + 1 == BlockCount(|data|) && Offset(data, k + 1) == |data|
  {
    CountBounds(|data|);
  }

  lemma ClosingOwn(s: State)
    requires ClientInv(s) && (s.client.Closing? || s.client.Waiting?) && ClientStep(s, Go).Some?
    ensures ClientInv(ClientStep(s, Go).value)
  {
  }

  lemma ClientLocal(s: State, m: ClientMove)
    requires !Reads(s.client) && !Opens(s.client) && !s.client.Pushing? && !s.client.Closing? && ClientStep(s, m).Some?
    ensures PipesSame(s, ClientStep(s, m).value)
  {
  }

  lemma ClosingPipes(s: State)
    requires PipesInv(s) && s.client.Closing? && ClientStep(s, Go).Some?
    ensures PipesInv(ClientStep(s, Go).value)
  {
    UpClose(s.up, s.upOut, s.upIn, s.data);
  }

  lemma ClientPipes(s: State, m: ClientMove)
    requires PipesInv(s) && ClientInv(s) && ClientStep(s, m).Some?
    ensures PipesInv(ClientStep(s, m).value)
  {
    if Reads(s.client) {
      ClientReadPipes(s);
    } else if Opens(s.client) {
      var opening := Opening(s.client);
      OpeningStep(s);
      OpeningShape(s.client, s.data);
      ClientWritePipes(s, opening.0, opening.1, opening.2);
    } else if s.client.Pushing? {
      PushShape(s.data, s.client.k);
      var token := PushSplit(s);
      PushPipes(s, token, ClientStep(s, m).value);
    } else if s.client.Closing? {
      ClosingPipes(s);
    } else {
      ClientLocal(s, m);
      PipesFrame(s, ClientStep(s, m).value);
    }
  }

  lemma ClientOwn(s: State, m: ClientMove)
    requires DownShape(s.downOut) && DownHead(s) && ClientInv(s) && ClientStep(s, m).Some?
    ensures ClientInv(ClientStep(s, m).value)
  {
    if Reads(s.client) {
      ClientReadOwn(s);
    } else if Opens(s.client) {
      OpeningOwn(s);
    } else if s.client.Pushing? {
      PushOwn(s);
    } else if s.client.Checking? {
      CheckingOwn(s, m);
    } else if s.client.Closing? || s.client.Waiting? {
      ClosingOwn(s);
    } else {
      LocalOwn(s, m);
    }
  }

  lemma ClientKeepsInv(s: State, m: ClientMove)
    requires Inv(s) && ClientStep(s, m).Some?
    ensures Inv(ClientStep(s, m).value)
  {
    var t := ClientStep(s, m).value;
    ClientPipes(s, m);
    DownHeadIsNext(s);
    ClientOwn(s, m);
    ClientStepSame(s, m);
    ServerInvFrame(s, t);
  }

  // ----- every server step keeps the invariant

  /** What a server step leaves alone. */
  ghost predicate ClientSideSame(s: State, t: State) {
    && t.cap == s.cap && t.client == s.client && t.data == s.data && t.sent == s.sent
    && t.downIn == s.downIn && t.upOut == s.upOut && s.downOut <= t.downOut
    && (t.up.open ==> s.up.open) && (t.down.open ==> s.down.open) && (s.server == Left ==> t.server == Left)
    && (s.downOut == [Status(false)] ==> t.downOut == s.downOut)
    && (Concluded(s, true) ==> Concluded(t, true))
  }

  lemma ClientInvFrame(s: State, t: State)
    requires ClientInv(s) && ClientSideSame(s, t)
    ensures ClientInv(t)
  {
  }

  predicate Writes(v: Server) {
    v.RefusingVersion? || v.Accepting? || v.Refusing? || v.Introducing? || v.Concluding?
  }

  predicate Takes(v: Server) {
    v.AwaitGreeting? || v.AwaitReady? || v.Receiving?
  }

  /** The message of a writing server and where it goes next. */
  function Reply(v: Server): (Downstream, Server)
    requires Writes(v)
  {
    match v
    case RefusingVersion => (Status(false), Leaving)
    case Accepting => (Status(true), Admitting)
    case Refusing => (Status(false), Leaving)
    case Introducing => (ServerHello, AwaitReady)
    case Concluding(ok) => (Status(ok), Leaving)
  }

  lemma ReplyStep(s: State)
    requires Writes(s.server)
    ensures ServerStep(s, Proceed) == ServerWrite(s, Reply(s.server).0, Reply(s.server).1)
  {
  }

  lemma ReplyShape(v: Server)
    requires Writes(v)
    ensures DownShape(DownAt(v) + [Reply(v).0]) && Reply(v).0 != TornDown
    ensures Reply(v).1 == Leaving || DownAt(v) + [Reply(v).0] == DownAt(Reply(v).1)
    ensures |DownAt(v)| < 3 && DownAt(v) != [Status(false)]
    ensures |DownAt(v)| == 2 ==> v.Concluding?
  {
  }

  lemma ServerWriteSame(s: State, t: Downstream, next: Server)
    requires s.downOut != [Status(false)] && |s.downOut| < 3 && s.server != Left && ServerWrite(s, t, next).Some?
    ensures ClientSideSame(s, ServerWrite(s, t, next).value)
  {
  }

  lemma ServerLocalSame(s: State, m: ServerMove)
    requires !Writes(s.server) && ServerStep(s, m).Some?
    ensures ClientSideSame(s, ServerStep(s, m).value)
  {
  }

  lemma ServerStepSame(s: State, m: ServerMove)
    requires ServerInv(s) && ServerStep(s, m).Some?
    ensures ClientSideSame(s, ServerStep(s, m).value)
  {
    if Writes(s.server) {
      ReplyStep(s);
      ReplyShape(s.server);
      ServerWriteSame(s, Reply(s.server).0, Reply(s.server).1);
    } else {
      ServerLocalSame(s, m);
    }
  }

  lemma ServerWritePipes(s: State, t: Downstream, next: Server)
    requires PipesInv(s) && DownShape(s.downOut + [t]) && t != TornDown && ServerWrite(s, t, next).Some?
    ensures PipesInv(ServerWrite(s, t, next).value)
  {
    if s.down.open {
      DownPush(s.down, s.downOut, s.downIn, t);
    }
  }

  lemma ServerTakePipes(s: State, m: ServerMove)
    requires PipesInv(s) && Takes(s.server) && ServerStep(s, m).Some?
    ensures PipesInv(ServerStep(s, m).value)
  {
    if s.up.queue != [] {
      UpTake(s.up, s.upOut, s.upIn, s.data);
    }
  }

  lemma ServerLocal(s: State, m: ServerMove)
    requires !Takes(s.server) && !Writes(s.server) && !s.server.Leaving? && ServerStep(s, m).Some?
    ensures PipesSame(s, ServerStep(s, m).value)
  {
  }

  lemma ServerLeavingPipes(s: State)
    requires PipesInv(s) && s.server.Leaving? && ServerStep(s, Proceed).Some?
    ensures PipesInv(ServerStep(s, Proceed).value)
  {
    UpClose(s.up, s.upOut, s.upIn, s.data);
    DownClose(s.down, s.downOut, s.downIn);
  }

  lemma ServerPipes(s: State, m: ServerMove)
    requires PipesInv(s) && ServerInv(s) && ServerStep(s, m).Some?
    ensures PipesInv(ServerStep(s, m).value)
  {
    if Takes(s.server) {
      ServerTakePipes(s, m);
    } else if Writes(s.server) {
      ReplyStep(s);
      ReplyShape(s.server);
      ServerWritePipes(s, Reply(s.server).0, Reply(s.server).1);
    } else if s.server.Leaving? {
      ServerLeavingPipes(s);
    } else {
      ServerLocal(s, m);
      PipesFrame(s, ServerStep(s, m).value);
    }
  }

  lemma ReplyOwn(s: State)
    requires ServerInv(s) && DataInv(s) && Writes(s.server) && ServerStep(s, Proceed).Some?
    ensures var t := ServerStep(s, Proceed).value; ServerInv(t) && DataInv(t)
  {
    ReplyShape(s.server);
  }

  lemma NextUp(s: State)
    requires PipesInv(s) && s.up.queue != []
    ensures s.up.queue[0] != TornUp ==> s.upIn < |s.upOut| && s.up.queue[0] == s.upOut[s.upIn]
  {
    UpTake(s.up, s.upOut, s.upIn, s.data);
  }

  lemma GreetedOwn(s: State)
    requires ServerInv(s) && DataInv(s) && (s.server.AwaitGreeting? || s.server.AwaitReady?)
    requires ServerStep(s, Proceed).Some?
    requires s.up.queue != [] && s.up.queue[0] != TornUp ==> s.upIn < |s.upOut| && s.up.queue[0] == s.upOut[s.upIn]
    ensures var t := ServerStep(s, Proceed).value; ServerInv(t) && DataInv(t)
  {
  }

  lemma SpawnedProgress(upOut: seq<Upstream>, received: seq<byte>, data: seq<byte>, finished: bool)
    requires Progressed(Spawning, 2, upOut, received, data, finished)
    ensures Progressed(Receiving, 2, upOut, received, data, finished)
  {
    CountBounds(|data|);
    assert data[..Offset(data, 0)] == [];
  }

  lemma SpawningOwn(s: State, m: ServerMove)
    requires ServerInv(s) && DataInv(s) && s.server.Spawning? && ServerStep(s, m).Some?
    ensures var t := ServerStep(s, m).value; ServerInv(t) && DataInv(t)
  {
    SpawnedProgress(s.upOut, s.received, s.data, s.finished);
  }

  lemma ServerLocalOwn(s: State, m: ServerMove)
    requires ServerInv(s) && DataInv(s) && !Takes(s.server) && !Writes(s.server) && !s.server.Spawning?
    requires ServerStep(s, m).Some?
    ensures var t := ServerStep(s, m).value; ServerInv(t) && DataInv(t)
  {
  }

  /** The block the server reads is the next chunk of the data. */
  lemma NextChunk(s: State)
    requires PipesInv(s) && s.up.queue != [] && s.up.queue[0].Chunk? && s.upIn >= 2
    ensures var j := s.upIn - 2;
            s.up.queue[0] == Chunk(Payload(s.data, j), More(s.data, j)) && s.upIn < |s.upOut|
  {
    NextUp(s);
    assert s.upOut <= Streamed(s.data, BlockCount(|s.data|));
  }

  lemma ReceivedGrows(data: seq<byte>, j: nat, part: nat)
    requires j < BlockCount(|data|) && part <= |Payload(data, j)|
    ensures data[..Offset(data, j)] + Payload(data, j) == data[..Offset(data, j + 1)]
    ensures data[..Offset(data, j)] + Payload(data, j)[..part] <= data
    ensures !More(data, j) ==> data[..Offset(data, j + 1)] == data
    ensures More(data, j) ==> j + 1 < BlockCount(|data|)
  {
    CountBounds(|data|);
  }

  lemma ProgressedTake(upIn: nat, upOut: seq<Upstream>, received: seq<byte>, data: seq<byte>, finished: bool)
    requires Progressed(Receiving, upIn, upOut, received, data, finished)
    ensures var j := upIn - 2;
            Progressed(if More(data, j) then Receiving else Finishing, upIn + 1, upOut, received + Payload(data, j),
                       data, finished)
            && received + Payload(data, j) <= data
  {
    ReceivedGrows(data, upIn - 2, 0);
  }

  lemma ProgressedPart(upIn: nat, upOut: seq<Upstream>, received: seq<byte>, data: seq<byte>, finished: bool, part: nat)
    requires Progressed(Receiving, upIn, upOut, received, data, finished) && part <= |Payload(data, upIn - 2)|
    ensures received + Payload(data, upIn - 2)[..part] <= data
  {
    ReceivedGrows(data, upIn - 2, part);
  }

  /** What handling a block leaves alone, apart from the pipes. */
  predicate BlockSame(s: State, t: State) {
    t.downOut == s.downOut && t.upOut == s.upOut && t.data == s.data && t.finished == s.finished
  }

  lemma AfterBlock(s: State, t: State)
    requires ServerInv(s) && s.server.Receiving? && BlockSame(s, t)
    requires t.server.Receiving? || t.server.Finishing? || t.server.Failing? || t.server.Leaving?
    requires Progressed(t.server, t.upIn, t.upOut, t.received, t.data, t.finished) && t.received <= t.data
    ensures ServerInv(t) && DataInv(t)
  {
  }

  /** How the server handles a block with this payload. */
  predicate BlockTaken(s: State, t: State, m: ServerMove, payload: seq<byte>, more: bool) {
    && BlockSame(s, t) && t.upIn == s.upIn + 1
    && match m
       case Proceed => t.server == (if more then Receiving else Finishing) && t.received == s.received + payload
       case SinkFails(part) => t.server == Failing && part <= |payload| && t.received == s.received + payload[..part]
       case _ => t.server == Leaving && t.received == s.received + payload
  }

  lemma BlockShape(s: State, m: ServerMove)
    requires s.up.queue != [] && s.up.queue[0].Chunk? && ServerReceive(s, m).Some?
    ensures BlockTaken(s, ServerReceive(s, m).value, m, s.up.queue[0].payload, s.up.queue[0].more)
  {
  }

  lemma BlockTakenInv(s: State, t: State, m: ServerMove)
    requires ServerInv(s) && s.server.Receiving?
    requires BlockTaken(s, t, m, Payload(s.data, s.upIn - 2), More(s.data, s.upIn - 2))
    ensures ServerInv(t) && DataInv(t)
  {
    if m.SinkFails? {
      ProgressedPart(s.upIn, s.upOut, s.received, s.data, s.finished, m.part);
    } else {
      ProgressedTake(s.upIn, s.upOut, s.received, s.data, s.finished);
    }
    AfterBlock(s, t);
  }

  lemma ServerBlockOwn(s: State, m: ServerMove)
    requires ServerInv(s) && s.server.Receiving? && s.up.queue != [] && ServerReceive(s, m).Some?
    requires s.up.queue[0] == Chunk(Payload(s.data, s.upIn - 2), More(s.data, s.upIn - 2))
    ensures var t := ServerReceive(s, m).value; ServerInv(t) && DataInv(t)
  {
    BlockShape(s, m);
    BlockTakenInv(s, ServerReceive(s, m).value, m);
  }

  /** The stream ends early, or something else than a chunk arrives. */
  lemma ServerCutOwn(s: State, m: ServerMove)
    requires ServerInv(s) && DataInv(s) && s.server.Receiving? && ServerReceive(s, m).Some?
    requires s.up.queue == [] || !s.up.queue[0].Chunk?
    ensures var t := ServerReceive(s, m).value; ServerInv(t) && DataInv(t)
  {
  }

  /** The waiting token is the next one written, and a chunk is the next chunk of the data. */
  ghost predicate UpHead(s: State) {
    s.up.queue != [] && s.up.queue[0] != TornUp ==>
      && s.upIn < |s.upOut| && s.up.queue[0] == s.upOut[s.upIn]
      && (s.up.queue[0].Chunk? && s.upIn >= 2 ==>
           s.up.queue[0] == Chunk(Payload(s.data, s.upIn - 2), More(s.data, s.upIn - 2)))
  }

  lemma UpHeadIsNext(s: State)
    requires PipesInv(s)
    ensures UpHead(s)
  {
    if s.up.queue != [] {
      NextUp(s);
      if s.up.queue[0].Chunk? && s.upIn >= 2 {
        NextChunk(s);
      }
    }
  }

  lemma ServerOwn(s: State, m: ServerMove)
    requires UpHead(s) && ServerInv(s) && DataInv(s) && ServerStep(s, m).Some?
    ensures var t := ServerStep(s, m).value; ServerInv(t) && DataInv(t)
  {
    if s.server.Receiving? {
      if s.up.queue != [] && s.up.queue[0].Chunk? {
        ServerBlockOwn(s, m);
      } else {
        ServerCutOwn(s, m);
      }
    } else if Takes(s.server) {
      GreetedOwn(s);
    } else if Writes(s.server) {
      ReplyOwn(s);
    } else if s.server.Spawning? {
      SpawningOwn(s, m);
    } else {
      ServerLocalOwn(s, m);
    }
  }

  lemma ServerKeepsInv(s: State, m: ServerMove)
    requires Inv(s) && ServerStep(s, m).Some?
    ensures Inv(ServerStep(s, m).value)
  {
    ServerPipes(s, m);
    UpHeadIsNext(s);
    ServerOwn(s, m);
    ServerStepSame(s, m);
    ClientInvFrame(s, ServerStep(s, m).value);
  }

  lemma BreakKeepsInv(s: State, a: Action)
    requires Inv(s) && (a.BreakUp? || a.BreakDown?) && Step(s, a).Some?
    ensures Inv(Step(s, a).value)
  {
    if a.BreakUp? {
      BreakKeeps(s.up, s.upOut, s.upIn, TornUp, a.keep, a.torn);
    } else {
      BreakKeeps(s.down, s.downOut, s.downIn, TornDown, a.keep, a.torn);
    }
    ServerInvFrame(s, Step(s, a).value);
    ClientInvFrame(s, Step(s, a).value);
  }

  lemma StepKeepsInv(s: State, a: Action)
    requires Inv(s) && Step(s, a).Some?
    ensures Inv(Step(s, a).value)
  {
    match a
    case ByClient(m) => ClientKeepsInv(s, m);
    case ByServer(m) => ServerKeepsInv(s, m);
    case _ => BreakKeepsInv(s, a);
  }

  lemma {:induction false} ExecInv(s: State, actions: seq<Action>)
    requires Inv(s) && Exec(s, actions).Some?
    ensures Inv(Exec(s, actions).value)
  {
    if actions != [] {
      ExecInv(s, actions[..|actions| - 1]);
      StepKeepsInv(Exec(s, actions[..|actions| - 1]).value, actions[|actions| - 1]);
    }
  }

  lemma ReachableInv(s: State)
    requires Reachable(s)
    ensures Inv(s)
  {
    var actions :| s.cap > 0 && Exec(Initial(s.cap, s.data), actions) == Some(s);
    InitialInv(s.cap, s.data);
    ExecInv(Initial(s.cap, s.data), actions);
  }
}
