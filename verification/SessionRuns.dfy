/** Runs over every source and every block, and what they settle: where a session can hang, and when a
    cancelled send has been received in full after all. */
module SessionRuns {
  import opened Wrappers
  import opened Codec
  import opened Session
  import opened SessionProof
  import opened SessionLaws

  /** Some run from i ends in s. */
  ghost predicate Leads(i: State, s: State) {
    exists actions :: Exec(i, actions) == Some(s)
  }

  lemma Start(i: State)
    ensures Leads(i, i)
  {
    assert Exec(i, []) == Some(i);
  }

  lemma Follow(i: State, s: State, a: Action) returns (t: State)
    requires Leads(i, s) && Step(s, a).Some?
    ensures Leads(i, t) && Step(s, a) == Some(t)
  {
    t := Step(s, a).value;
    var actions :| Exec(i, actions) == Some(s);
    assert (actions + [a])[..|actions|] == actions;
    assert Exec(i, actions + [a]) == Some(t);
  }

  lemma Arrived(cap: nat, data: seq<byte>, s: State)
    requires cap > 0 && Leads(Initial(cap, data), s)
    ensures Reachable(s) && s.cap == cap && s.data == data
  {
    var actions :| Exec(Initial(cap, data), actions) == Some(s);
    ExecFixed(Initial(cap, data), actions);
  }

  /** A session up to the answer to ClientHello. */
  lemma GreetingRun(cap: nat, data: seq<byte>) returns (s: State)
    requires cap > 0
    ensures Leads(Initial(cap, data), s)
    ensures s == Initial(cap, data).(client := AwaitHello, server := Admitting, upOut := [Hello], upIn := 1,
                                     downOut := [Status(true)], downIn := 1)
  {
    var i := Initial(cap, data);
    Start(i);
    s := Follow(i, i, ByClient(Go));
    s := Follow(i, s, ByServer(Proceed));
    s := Follow(i, s, ByServer(Proceed));
    s := Follow(i, s, ByServer(Proceed));
    s := Follow(i, s, ByClient(Go));
  }

  /** The same session, up to the client's decision. */
  lemma IntroducedRun(cap: nat, data: seq<byte>) returns (s: State)
    requires cap > 0
    ensures Leads(Initial(cap, data), s)
    ensures s == Initial(cap, data).(client := Deciding, server := AwaitReady, upOut := [Hello], upIn := 1,
                                     downOut := [Status(true), ServerHello], downIn := 2)
  {
    var i := Initial(cap, data);
    s := GreetingRun(cap, data);
    s := Follow(i, s, ByServer(Proceed));
    s := Follow(i, s, ByServer(Proceed));
    s := Follow(i, s, ByClient(Go));
  }

  /** The same session, up to ClientReady. */
  lemma ReadyRun(cap: nat, data: seq<byte>) returns (s: State)
    requires cap > 0
    ensures Leads(Initial(cap, data), s)
    ensures s == Initial(cap, data).(client := Looking(0), server := AwaitReady, upOut := [Hello, Ready(true)],
                                     upIn := 1, up := Pipe([Ready(true)], true),
                                     downOut := [Status(true), ServerHello], downIn := 2)
  {
    var i := Initial(cap, data);
    s := IntroducedRun(cap, data);
    s := Follow(i, s, ByClient(Stream));
    s := Follow(i, s, ByClient(Go));
  }

  /** Both sides are done with the first k blocks, and nothing is in flight. */
  function AtBlock(cap: nat, data: seq<byte>, k: nat): State {
    Initial(cap, data).(client := Looking(k), server := Receiving, upOut := Streamed(data, k), upIn := k + 2,
                        downOut := [Status(true), ServerHello], downIn := 2,
                        sent := Offset(data, k), received := data[..Offset(data, k)])
  }

  lemma StartOfStream(cap: nat, data: seq<byte>)
    ensures AtBlock(cap, data, 0)
         == Initial(cap, data).(client := Looking(0), server := Receiving, upOut := [Hello, Ready(true)], upIn := 2,
                                downOut := [Status(true), ServerHello], downIn := 2)
  {
    assert Streamed(data, 0) == [Hello, Ready(true)];
    assert data[..Offset(data, 0)] == [];
  }

  lemma FirstBlockRun(cap: nat, data: seq<byte>)
    requires cap > 0
    ensures Leads(Initial(cap, data), AtBlock(cap, data, 0))
  {
    var i := Initial(cap, data);
    var s := ReadyRun(cap, data);
    s := Follow(i, s, ByServer(Proceed));
    s := Follow(i, s, ByServer(Proceed));
    StartOfStream(cap, data);
  }

  /** Block k is written and waits for the server; the client is about to poll the cancel token. */
  function Written(cap: nat, data: seq<byte>, k: nat): State {
    AtBlock(cap, data, k).(client := Checking(k), sent := Offset(data, k + 1), upOut := Streamed(data, k + 1),
                           up := Pipe([Chunk(Payload(data, k), More(data, k))], true))
  }

  function Pushed(cap: nat, data: seq<byte>, k: nat): State {
    AtBlock(cap, data, k).(client := Pushing(k))
  }

  lemma WriteSteps(cap: nat, data: seq<byte>, k: nat)
    requires cap > 0 && k < BlockCount(|data|)
    ensures Step(AtBlock(cap, data, k), ByClient(Go)) == Some(Pushed(cap, data, k))
    ensures Step(Pushed(cap, data, k), ByClient(Go)) == Some(Written(cap, data, k))
  {
    TokenAt(data, k);
    assert [] + [Chunk(Payload(data, k), More(data, k))] == [Chunk(Payload(data, k), More(data, k))];
  }

  lemma TwoSteps(i: State, s: State, a: Action, t: State, b: Action, u: State)
    requires Leads(i, s) && Step(s, a) == Some(t) && Step(t, b) == Some(u)
    ensures Leads(i, u)
  {
    var t' := Follow(i, s, a);
    var u' := Follow(i, t, b);
  }

  lemma WriteRun(cap: nat, data: seq<byte>, k: nat)
    requires cap > 0 && k < BlockCount(|data|) && Leads(Initial(cap, data), AtBlock(cap, data, k))
    ensures Leads(Initial(cap, data), Written(cap, data, k))
  {
    WriteSteps(cap, data, k);
    TwoSteps(Initial(cap, data), AtBlock(cap, data, k), ByClient(Go), Pushed(cap, data, k), ByClient(Go),
             Written(cap, data, k));
  }

  /** Block k, not the last, is received; the client has not polled yet. */
  function Received(cap: nat, data: seq<byte>, k: nat): State {
    AtBlock(cap, data, k + 1).(client := Checking(k))
  }

  lemma ReceiveSteps(cap: nat, data: seq<byte>, k: nat)
    requires cap > 0 && k + 1 < BlockCount(|data|)
    ensures Step(Written(cap, data, k), ByServer(Proceed)) == Some(Received(cap, data, k))
    ensures Step(Received(cap, data, k), ByClient(Go)) == Some(AtBlock(cap, data, k + 1))
  {
    ReceivedGrows(data, k, 0);
    assert [Chunk(Payload(data, k), More(data, k))][1..] == [];
  }

  lemma OneBlockRun(cap: nat, data: seq<byte>, k: nat)
    requires cap > 0 && k + 1 < BlockCount(|data|) && Leads(Initial(cap, data), AtBlock(cap, data, k))
    ensures Leads(Initial(cap, data), AtBlock(cap, data, k + 1))
  {
    WriteRun(cap, data, k);
    ReceiveSteps(cap, data, k);
    TwoSteps(Initial(cap, data), Written(cap, data, k), ByServer(Proceed), Received(cap, data, k), ByClient(Go),
             AtBlock(cap, data, k + 1));
  }

  /** Every block of every source is reached without a fault. */
  lemma {:induction false} BlockRun(cap: nat, data: seq<byte>, k: nat)
    requires cap > 0 && k < BlockCount(|data|)
    ensures Leads(Initial(cap, data), AtBlock(cap, data, k))
  {
    if k == 0 {
      FirstBlockRun(cap, data);
    } else {
      BlockRun(cap, data, k - 1);
      OneBlockRun(cap, data, k - 1);
    }
  }

  // ----- the hang

  /** For every source, capacity and block, both sides wait for each other forever when reading the output
      of zfs send fails before that block, with no other fault in the session. */
  lemma DeadlockRun(cap: nat, data: seq<byte>, k: nat) returns (s: State)
    requires cap > 0 && k < BlockCount(|data|)
    ensures Reachable(s) && s.cap == cap && s.data == data && s.faults == 1
    ensures Stuck(s) && s.received == data[..Offset(data, k)]
  {
    BlockRun(cap, data, k);
    s := Follow(Initial(cap, data), AtBlock(cap, data, k), ByClient(SourceFails));
    Arrived(cap, data, s);
    StuckIff(s);
  }

  // ----- a receive that succeeded has the whole stream

  /** zfs receive is only waited for, and only succeeds, once every block has been read. */
  ghost predicate FullyRead(s: State) {
    && (s.server.Finishing? ==> s.upIn == 2 + BlockCount(|s.data|))
    && (s.finished ==>
          s.upIn == 2 + BlockCount(|s.data|) && s.received == s.data
          && (s.server.Concluding? || s.server.Leaving? || s.server == Left))
  }

  lemma LastBlockRead(s: State, m: ServerMove)
    requires ServerInv(s) && UpHead(s) && s.server.Receiving? && !s.finished && ServerReceive(s, m).Some?
    ensures FullyRead(ServerReceive(s, m).value)
  {
    if s.up.queue != [] && s.up.queue[0].Chunk? {
      NextOrLast(s.data, s.upIn - 2);
    }
  }

  lemma ServerFullyRead(s: State, m: ServerMove)
    requires FullyRead(s) && ServerInv(s) && UpHead(s) && ServerStep(s, m).Some?
    ensures FullyRead(ServerStep(s, m).value)
  {
    if s.server.Receiving? {
      LastBlockRead(s, m);
    }
  }

  lemma StepFullyRead(s: State, a: Action)
    requires FullyRead(s) && ServerInv(s) && UpHead(s) && Step(s, a).Some?
    ensures FullyRead(Step(s, a).value)
  {
    match a
    case ByClient(m) => ClientStepSame(s, m);
    case ByServer(m) => ServerFullyRead(s, m);
    case _ =>
  }

  lemma {:induction false} ExecFullyRead(s: State, actions: seq<Action>)
    requires Inv(s) && FullyRead(s) && Exec(s, actions).Some?
    ensures FullyRead(Exec(s, actions).value)
  {
    if actions != [] {
      var init := actions[..|actions| - 1];
      ExecFullyRead(s, init);
      ExecInv(s, init);
      UpHeadIsNext(Exec(s, init).value);
      StepFullyRead(Exec(s, init).value, actions[|actions| - 1]);
    }
  }

  /** Once zfs receive has succeeded, the client has written its whole stream. */
  lemma FinishedMeansSent(s: State)
    requires Reachable(s) && s.finished
    ensures s.upOut == Streamed(s.data, BlockCount(|s.data|)) && s.upIn == |s.upOut| && s.received == s.data
  {
    var actions :| s.cap > 0 && Exec(Initial(s.cap, s.data), actions) == Some(s);
    InitialInv(s.cap, s.data);
    ExecFullyRead(Initial(s.cap, s.data), actions);
    ReachableInv(s);
    WholeStream(s);
  }

  lemma WholeStream(s: State)
    requires PipesInv(s) && s.upIn == 2 + BlockCount(|s.data|)
    ensures s.upOut == Streamed(s.data, BlockCount(|s.data|)) && s.upIn == |s.upOut|
  {
  }

  // ----- cancelled sends

  predicate CancelledExit(c: Client) {
    Exited(c) && c.result == Cancelled
  }

  /** The send was cancelled at the poll after block k. */
  ghost predicate CancelledAfter(s: State, k: nat) {
    CancelledExit(s.client) && k < BlockCount(|s.data|) && s.upOut == Streamed(s.data, k + 1)
  }

  ghost predicate Traced(s: State) {
    CancelledExit(s.client) ==> exists k: nat :: CancelledAfter(s, k)
  }

  lemma TracedFrame(s: State, t: State)
    requires Traced(s) && t.data == s.data && t.upOut == s.upOut
    requires CancelledExit(t.client) ==> CancelledExit(s.client)
    ensures Traced(t)
  {
    if CancelledExit(t.client) {
      var k: nat :| CancelledAfter(s, k);
      assert CancelledAfter(t, k);
    }
  }

  lemma CancelTraced(s: State)
    requires ClientInv(s) && s.client.Checking? && ClientStep(s, Cancel).Some?
    ensures Traced(ClientStep(s, Cancel).value)
  {
    assert CancelledAfter(ClientStep(s, Cancel).value, s.client.k);
  }

  /** Only the poll after a block ends a client as cancelled. */
  lemma OtherExits(s: State, m: ClientMove)
    requires ClientInv(s) && !Exited(s.client) && m != Cancel && ClientStep(s, m).Some?
    ensures !CancelledExit(ClientStep(s, m).value.client)
  {
  }

  lemma ClientTraced(s: State, m: ClientMove)
    requires Traced(s) && ClientInv(s) && ClientStep(s, m).Some?
    ensures Traced(ClientStep(s, m).value)
  {
    if m == Cancel {
      CancelTraced(s);
    } else if Exited(s.client) {
      TracedFrame(s, ClientStep(s, m).value);
    } else {
      OtherExits(s, m);
    }
  }

  lemma {:induction false} ExecTraced(s: State, actions: seq<Action>)
    requires Inv(s) && Traced(s) && Exec(s, actions).Some?
    ensures Traced(Exec(s, actions).value)
  {
    if actions != [] {
      var init, a := actions[..|actions| - 1], actions[|actions| - 1];
      var mid := Exec(s, init).value;
      ExecTraced(s, init);
      ExecInv(s, init);
      match a
      case ByClient(m) => ClientTraced(mid, m);
      case ByServer(m) =>
        ServerStepSame(mid, m);
        TracedFrame(mid, Step(mid, a).value);
      case _ => TracedFrame(mid, Step(mid, a).value);
    }
  }

  /** Every cancelled send was cancelled at the poll after one of its blocks, and if the Remote has it in
      full nevertheless, that was the last block. */
  lemma CancelledDelivery(s: State)
    requires Reachable(s) && CancelledExit(s.client)
    ensures exists k: nat :: CancelledAfter(s, k) && (s.finished ==> k + 1 == BlockCount(|s.data|))
  {
    var actions :| s.cap > 0 && Exec(Initial(s.cap, s.data), actions) == Some(s);
    InitialInv(s.cap, s.data);
    ExecTraced(Initial(s.cap, s.data), actions);
    var k: nat :| CancelledAfter(s, k);
    if s.finished {
      FinishedMeansSent(s);
      assert |Streamed(s.data, k + 1)| == |s.upOut|;
    }
  }

  /** Cancelled at the last poll, with the last block still on its way. */
  function CancelledLast(cap: nat, data: seq<byte>): State {
    Written(cap, data, BlockCount(|data|) - 1).(client := Closing(Cancelled), faults := 1)
  }

  lemma LastPollRun(cap: nat, data: seq<byte>)
    requires cap > 0
    ensures Leads(Initial(cap, data), CancelledLast(cap, data))
  {
    var k := BlockCount(|data|) - 1;
    BlockRun(cap, data, k);
    WriteRun(cap, data, k);
    var s := Follow(Initial(cap, data), Written(cap, data, k), ByClient(Cancel));
  }

  lemma LastBlockStep(cap: nat, data: seq<byte>)
    requires cap > 0
    ensures Step(CancelledLast(cap, data), ByServer(Proceed))
         == Some(CancelledLast(cap, data).(server := Finishing, up := Pipe([], true),
                                           upIn := BlockCount(|data|) + 2, received := data))
  {
    var k := BlockCount(|data|) - 1;
    ReceivedGrows(data, k, 0);
    assert [Chunk(Payload(data, k), More(data, k))][1..] == [];
  }

  /** For every source and capacity, a send cancelled after its last block can still be received in full,
      final success status included. */
  lemma CancelledButDelivered(cap: nat, data: seq<byte>) returns (s: State)
    requires cap > 0
    ensures Reachable(s) && s.cap == cap && s.data == data
    ensures CancelledAfter(s, BlockCount(|data|) - 1) && Delivered(s) && Concluded(s, true)
  {
    var i := Initial(cap, data);
    LastPollRun(cap, data);
    LastBlockStep(cap, data);
    s := Follow(i, CancelledLast(cap, data), ByServer(Proceed));
    s := Follow(i, s, ByServer(Proceed));
    s := Follow(i, s, ByServer(Proceed));
    assert s.downOut == [Status(true), ServerHello] + [Status(true)];
    Arrived(cap, data, s);
  }

  /** A send of any source cancelled after block k can turn out to be delivered exactly when k is its last
      block. */
  lemma CancelledCanBeDeliveredIff(cap: nat, data: seq<byte>, k: nat)
    requires cap > 0 && k < BlockCount(|data|)
    ensures (exists s :: Reachable(s) && s.cap == cap && s.data == data && CancelledAfter(s, k) && Delivered(s))
       <==> k + 1 == BlockCount(|data|)
  {
    if k + 1 == BlockCount(|data|) {
      var s := CancelledButDelivered(cap, data);
    }
    forall s | Reachable(s) && s.data == data && CancelledAfter(s, k) && Delivered(s)
      ensures k + 1 == BlockCount(|data|)
    {
      FinishedMeansSent(s);
      assert |Streamed(data, k + 1)| == |s.upOut|;
    }
  }
}
