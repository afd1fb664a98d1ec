/** What every session guarantees: delivery, a single way to get stuck, termination, and success when
    nothing fails. */
module SessionLaws {
  import opened Wrappers
  import opened Codec
  import opened Session
  import opened SessionProof

  predicate Over(s: State) {
    s.client.Gone? && s.server == Left
  }

  /** `send_on` has returned Ok(n). */
  predicate ClientReturned(s: State, n: nat) {
    Exited(s.client) && s.client.result == Sent(n)
  }

  /** Under every interleaving, pipe break and cancel point: if `send_on` returns Ok(n) with n > 0, or the
      server writes a final success, then zfs receive was given exactly the bytes read from zfs send and
      has succeeded, and n is their number. At any moment it was given a prefix of them. */
  lemma Delivery(s: State, n: nat)
    requires Reachable(s)
    ensures ClientReturned(s, n) && n > 0 ==> Delivered(s) && n == |s.data|
    ensures Concluded(s, true) ==> Delivered(s)
    ensures s.received <= s.data
  {
    ReachableInv(s);
  }

  // ----- progress

  ghost predicate ClientCanMove(s: State) {
    exists m: ClientMove :: ClientStep(s, m).Some?
  }

  ghost predicate ServerCanMove(s: State) {
    exists m: ServerMove :: ServerStep(s, m).Some?
  }

  /** Neither process can take a step, yet the session is not over. */
  ghost predicate Stuck(s: State) {
    !Over(s) && !ClientCanMove(s) && !ServerCanMove(s)
  }

  /** The one bad state: zfs send's output failed while the pipe still works, so the client waits for a
      status from a server that waits for the next chunk. */
  predicate MutualWait(s: State) {
    s.client == Draining && s.server == Receiving && s.up == Pipe([], true) && s.down == Pipe([], true)
  }

  /** A server that cannot move. */
  predicate ServerBlocked(s: State) {
    || s.server == Left
    || ((s.server == AwaitGreeting || s.server == AwaitReady || s.server == Receiving) && s.up == Pipe([], true))
    || (Writes(s.server) && s.down.open && |s.down.queue| >= s.cap)
  }

  lemma BlockedServerStays(s: State, m: ServerMove)
    requires ServerBlocked(s)
    ensures ServerStep(s, m).None?
  {
  }

  lemma FreeServerMoves(s: State)
    requires !ServerBlocked(s)
    ensures ServerStep(s, Proceed).Some?
  {
  }

  lemma ServerMoves(s: State)
    ensures ServerCanMove(s) <==> !ServerBlocked(s)
  {
    if !ServerBlocked(s) {
      FreeServerMoves(s);
    } else {
      forall m: ServerMove ensures ServerStep(s, m).None? {
        BlockedServerStays(s, m);
      }
    }
  }

  predicate ClientBlocked(s: State) {
    || s.client.Gone?
    || (Reads(s.client) && s.down == Pipe([], true))
    || ((s.client.Greeting? || s.client.Declining? || s.client.Readying? || s.client.Pushing?)
        && s.up.open && |s.up.queue| >= s.cap)
    || (s.client.Waiting? && s.server != Left && s.down.open)
  }

  lemma BlockedClientStays(s: State, m: ClientMove)
    requires ClientBlocked(s)
    ensures ClientStep(s, m).None?
  {
  }

  lemma FreeClientMoves(s: State)
    requires !ClientBlocked(s)
    ensures ClientStep(s, if s.client == Deciding then Stream else Go).Some?
  {
  }

  lemma ClientMoves(s: State)
    ensures ClientCanMove(s) <==> !ClientBlocked(s)
  {
    if !ClientBlocked(s) {
      FreeClientMoves(s);
    } else {
      forall m: ClientMove ensures ClientStep(s, m).None? {
        BlockedClientStays(s, m);
      }
    }
  }

  lemma UpDrained(s: State)
    requires PipesInv(s) && s.up == Pipe([], true)
    ensures s.upIn == |s.upOut|
  {
  }

  lemma DownDrained(s: State)
    requires PipesInv(s) && s.down.open && s.down.queue == []
    ensures s.downIn == |s.downOut|
  {
  }

  lemma BothRead(s: State)
    requires s.cap > 0 && ClientInv(s) && ServerInv(s) && ClientBlocked(s) && !s.client.Gone?
    requires (s.server == AwaitGreeting || s.server == AwaitReady || s.server == Receiving) && s.up == Pipe([], true)
    requires s.upIn == |s.upOut| && (s.down.open && s.down.queue == [] ==> s.downIn == |s.downOut|)
    ensures MutualWait(s)
  {
  }

  lemma ReaderBlocked(s: State)
    requires PipesInv(s) && ClientInv(s) && ServerInv(s) && ClientBlocked(s) && !s.client.Gone?
    requires (s.server == AwaitGreeting || s.server == AwaitReady || s.server == Receiving) && s.up == Pipe([], true)
    ensures MutualWait(s)
  {
    UpDrained(s);
    if s.down.open && s.down.queue == [] {
      DownDrained(s);
    }
    BothRead(s);
  }

  /** A server with a full pipe before it always has a client that can move. */
  lemma FullPipeIsRead(s: State)
    requires Inv(s) && Writes(s.server) && s.down.open && |s.down.queue| >= s.cap
    ensures !ClientBlocked(s)
  {
    assert s.downIn < |s.downOut|;
  }

  /** In every reachable state someone can move, unless the session is over or both sides wait for each
      other after a read error on zfs send's output. */
  lemma StuckIff(s: State)
    requires Reachable(s)
    ensures Stuck(s) <==> MutualWait(s)
  {
    ReachableInv(s);
    ClientMoves(s);
    ServerMoves(s);
    if Stuck(s) {
      if s.server == Left {
      } else if Writes(s.server) {
        FullPipeIsRead(s);
      } else if !s.client.Gone? {
        ReaderBlocked(s);
      }
    }
  }

  ghost predicate SourceHolds(actions: seq<Action>) {
    forall i :: 0 <= i < |actions| ==> actions[i] != ByClient(SourceFails)
  }

  /** What no step of the server ever changes. */
  ghost predicate Fixed(s: State, t: State) {
    t.client == s.client && t.cap == s.cap && t.data == s.data && (t.up.open ==> s.up.open) && t.faults >= s.faults
  }

  lemma ServerLocalFixed(s: State, m: ServerMove)
    requires !Writes(s.server) && ServerStep(s, m).Some?
    ensures Fixed(s, ServerStep(s, m).value)
  {
  }

  lemma ServerFixed(s: State, m: ServerMove)
    requires ServerStep(s, m).Some?
    ensures Fixed(s, ServerStep(s, m).value)
  {
    if Writes(s.server) {
      ReplyStep(s);
    } else {
      ServerLocalFixed(s, m);
    }
  }

  lemma ClientDraining(s: State, m: ClientMove)
    requires (s.client == Draining ==> !s.up.open) && m != SourceFails && ClientStep(s, m).Some?
    ensures var t := ClientStep(s, m).value; t.client == Draining ==> !t.up.open
  {
  }

  lemma DrainingStep(s: State, a: Action)
    requires (s.client == Draining ==> !s.up.open) && a != ByClient(SourceFails) && Step(s, a).Some?
    ensures var t := Step(s, a).value; t.client == Draining ==> !t.up.open
  {
    match a
    case ByClient(m) => ClientDraining(s, m);
    case ByServer(m) => ServerFixed(s, m);
    case _ =>
  }

  lemma {:induction false} DrainingOnlyAfterBreak(s: State, actions: seq<Action>)
    requires s.client != Draining && SourceHolds(actions) && Exec(s, actions).Some?
    ensures var t := Exec(s, actions).value; t.client == Draining ==> !t.up.open
  {
    if actions != [] {
      var init := actions[..|actions| - 1];
      DrainingOnlyAfterBreak(s, init);
      DrainingStep(Exec(s, init).value, actions[|actions| - 1]);
    }
  }

  /** As long as reading zfs send's output never fails, no run gets stuck. */
  lemma NoDeadlock(cap: nat, data: seq<byte>, actions: seq<Action>)
    requires cap > 0 && SourceHolds(actions) && Exec(Initial(cap, data), actions).Some?
    ensures !Stuck(Exec(Initial(cap, data), actions).value)
  {
    var s0, s := Initial(cap, data), Exec(Initial(cap, data), actions).value;
    InitialInv(cap, data);
    ExecFixed(s0, actions);
    DrainingOnlyAfterBreak(s0, actions);
    assert Reachable(s);
    StuckIff(s);
  }

  lemma {:induction false} ExecFixed(s: State, actions: seq<Action>)
    requires Exec(s, actions).Some?
    ensures Exec(s, actions).value.cap == s.cap && Exec(s, actions).value.data == s.data
  {
    if actions != [] {
      var init := actions[..|actions| - 1];
      ExecFixed(s, init);
      StepFixed(Exec(s, init).value, actions[|actions| - 1]);
    }
  }

  lemma StepFixed(s: State, a: Action)
    requires Step(s, a).Some?
    ensures Step(s, a).value.cap == s.cap && Step(s, a).value.data == s.data
  {
    match a
    case ByClient(m) => ClientStepSame(s, m);
    case ByServer(m) => ServerFixed(s, m);
    case _ =>
  }

  // ----- termination

  function ClientRank(c: Client, blocks: nat): int {
    match c
    case Greeting => 13 + 5 * blocks
    case AwaitVersion => 11 + 5 * blocks
    case AwaitHello => 10 + 5 * blocks
    case Deciding => 9 + 5 * blocks
    case Declining(_) => 5
    case Readying => 8 + 5 * blocks
    case Looking(k) => 6 + 5 * (blocks - k)
    case Pushing(k) => 5 + 5 * (blocks - k)
    case Checking(k) => 3 + 5 * (blocks - k)
    case AwaitFinal => 3
    case Draining => 3
    case Closing(_) => 2
    case Waiting(_) => 1
    case Gone(_) => 0
  }

  function ServerRank(v: Server): nat {
    match v
    case AwaitGreeting => 15
    case Judging => 14
    case RefusingVersion => 3
    case Accepting => 13
    case Admitting => 11
    case Refusing => 3
    case Introducing => 10
    case AwaitReady => 8
    case Spawning => 7
    case Receiving => 6
    case Finishing => 5
    case Failing => 4
    case Concluding(_) => 3
    case Leaving => 1
    case Left => 0
  }

  function PipeRank<T>(p: Pipe<T>): nat {
    |p.queue| + if p.open then 2 else 0
  }

  function Rank(s: State): int {
    ClientRank(s.client, BlockCount(|s.data|)) + ServerRank(s.server) + PipeRank(s.up) + PipeRank(s.down)
  }

  lemma RankIsNatural(s: State)
    requires Inv(s)
    ensures Rank(s) >= 0
  {
  }

  lemma ReadRankFalls(s: State, next: Downstream -> Client)
    requires ClientInv(s) && Reads(s.client) && ClientRead(s, next).Some?
    requires forall t :: ClientRank(next(t), BlockCount(|s.data|)) < ClientRank(s.client, BlockCount(|s.data|))
    requires ClientRank(s.client, BlockCount(|s.data|)) >= 3
    ensures Rank(ClientRead(s, next).value) < Rank(s)
  {
  }

  lemma ClientReadRankFalls(s: State)
    requires ClientInv(s) && Reads(s.client) && ClientStep(s, Go).Some?
    ensures Rank(ClientStep(s, Go).value) < Rank(s)
  {
    CountBounds(|s.data|);
    match s.client
    case AwaitVersion => ReadRankFalls(s, t => if t == Status(true) then AwaitHello else Closing(Failed));
    case AwaitHello => ReadRankFalls(s, t => if t == ServerHello then Deciding else Closing(Failed));
    case AwaitFinal => ReadRankFalls(s, t => if t == Status(true) then Closing(Sent(s.sent)) else Closing(Failed));
    case Draining => ReadRankFalls(s, t => Closing(Failed));
  }

  lemma PushedRank<T>(p: Pipe<T>, t: T)
    ensures PipeRank(p.(queue := p.queue + [t])) == PipeRank(p) + 1
  {
  }

  lemma ClientWriteRankFalls(s: State, t: Upstream, next: Client, onError: Client, r: int, r': int, e: int)
    requires ClientWrite(s, t, next, onError).Some?
    requires r == ClientRank(s.client, BlockCount(|s.data|))
    requires r' == ClientRank(next, BlockCount(|s.data|)) && e == ClientRank(onError, BlockCount(|s.data|))
    requires r' + 1 < r && e < r
    ensures Rank(ClientWrite(s, t, next, onError).value) < Rank(s)
  {
    PushedRank(s.up, t);
    var s' := ClientWrite(s, t, next, onError).value;
    assert s'.data == s.data && s'.server == s.server && s'.down == s.down;
    if s.up.open {
      assert s'.client == next && s'.up == s.up.(queue := s.up.queue + [t]);
    } else {
      assert s'.client == onError && s'.up == s.up;
    }
  }

  lemma PushRankFalls(s: State)
    requires ClientInv(s) && s.client.Pushing? && ClientStep(s, Go).Some?
    ensures Rank(ClientStep(s, Go).value) < Rank(s)
  {
    var k := s.client.k;
    var f := 5 * (BlockCount(|s.data|) - k);
    ClientWriteRankFalls(s, Chunk(Payload(s.data, k), More(s.data, k)), Checking(k), Draining, 5 + f, 3 + f, 3);
  }

  lemma OpeningRankFalls(s: State)
    requires (s.client.Greeting? || s.client.Declining? || s.client.Readying?) && ClientStep(s, Go).Some?
    ensures Rank(ClientStep(s, Go).value) < Rank(s)
  {
    var f := 5 * BlockCount(|s.data|);
    match s.client
    case Greeting => ClientWriteRankFalls(s, Hello, AwaitVersion, Closing(Failed), 13 + f, 11 + f, 2);
    case Declining(result) => ClientWriteRankFalls(s, Ready(false), Closing(result), Closing(result), 5, 2, 2);
    case Readying => ClientWriteRankFalls(s, Ready(true), Looking(0), Closing(Failed), 8 + f, 6 + f, 2);
  }

  lemma ClientRankFalls(s: State, m: ClientMove)
    requires ClientInv(s) && ClientStep(s, m).Some?
    ensures Rank(ClientStep(s, m).value) < Rank(s)
  {
    if Reads(s.client) {
      ClientReadRankFalls(s);
    } else if s.client.Pushing? {
      PushRankFalls(s);
    } else if s.client.Greeting? || s.client.Declining? || s.client.Readying? {
      OpeningRankFalls(s);
    } else {
      CountBounds(|s.data|);
    }
  }

  lemma ReceiveRankFalls(s: State, m: ServerMove)
    requires s.server == Receiving && ServerReceive(s, m).Some?
    ensures Rank(ServerReceive(s, m).value) < Rank(s)
  {
  }

  lemma WriteRankFalls(s: State, t: Downstream, next: Server)
    requires ServerRank(next) + 1 < ServerRank(s.server) && 1 < ServerRank(s.server) && ServerWrite(s, t, next).Some?
    ensures Rank(ServerWrite(s, t, next).value) < Rank(s)
  {
  }

  lemma ServerRankFalls(s: State, m: ServerMove)
    requires ServerStep(s, m).Some?
    ensures Rank(ServerStep(s, m).value) < Rank(s)
  {
    match s.server
    case Receiving => ReceiveRankFalls(s, m);
    case RefusingVersion => WriteRankFalls(s, Status(false), Leaving);
    case Accepting => WriteRankFalls(s, Status(true), Admitting);
    case Refusing => WriteRankFalls(s, Status(false), Leaving);
    case Introducing => WriteRankFalls(s, ServerHello, AwaitReady);
    case Concluding(ok) => WriteRankFalls(s, Status(ok), Leaving);
    case _ =>
  }

  /** Every step, including breaks and failures, uses up rank: no session runs forever. */
  lemma RankFalls(s: State, a: Action)
    requires Inv(s) && Step(s, a).Some?
    ensures 0 <= Rank(Step(s, a).value) < Rank(s)
  {
    StepKeepsInv(s, a);
    RankIsNatural(Step(s, a).value);
    match a
    case ByClient(m) => ClientRankFalls(s, m);
    case ByServer(m) => ServerRankFalls(s, m);
    case _ =>
  }

  /** No run of a session is longer than its initial rank, linear in the number of chunks. */
  lemma {:induction false} RunsAreShort(s: State, actions: seq<Action>)
    requires Inv(s) && Exec(s, actions).Some?
    ensures |actions| + Rank(Exec(s, actions).value) <= Rank(s)
  {
    if actions != [] {
      var init := actions[..|actions| - 1];
      RunsAreShort(s, init);
      ExecInv(s, init);
      RankFalls(Exec(s, init).value, actions[|actions| - 1]);
    }
  }

  lemma RunBound(cap: nat, data: seq<byte>, actions: seq<Action>)
    requires cap > 0 && Exec(Initial(cap, data), actions).Some?
    ensures |actions| <= 32 + 5 * BlockCount(|data|)
  {
    InitialInv(cap, data);
    RunsAreShort(Initial(cap, data), actions);
    ExecInv(Initial(cap, data), actions);
    RankIsNatural(Exec(Initial(cap, data), actions).value);
  }

  // ----- the same chunks as bytes

  function Bytes(tokens: seq<Upstream>): seq<byte> {
    if tokens == [] then []
    else
      var t := tokens[|tokens| - 1];
      Bytes(tokens[..|tokens| - 1])
      + (if t.Chunk? && |t.payload| <= CHUNK_SIZE then Block(t.payload, t.more) else [])
  }

  /** The chunk tokens of a session, as blocks, are exactly the bytes of the wire. */
  lemma {:induction false} TokensAreTheWire(data: seq<byte>, k: nat)
    ensures Bytes(Tokens(data, k)) == Blocks(data, k)
    ensures k == BlockCount(|data|) ==> Bytes(Tokens(data, k)) == Wire(data)
  {
    if k > 0 {
      TokensAreTheWire(data, k - 1);
      assert Tokens(data, k)[..k - 1] == Tokens(data, k - 1);
    }
  }
}
