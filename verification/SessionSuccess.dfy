/** Sessions in which nothing fails succeed. */
module SessionSuccess {
  import opened Wrappers
  import opened Codec
  import opened Session
  import opened SessionProof
  import opened SessionLaws

  /** The client has announced a stream. */
  predicate Promised(s: State) {
    |s.upOut| >= 2 && s.upOut[1] == Ready(true)
  }

  predicate Introduced(s: State) {
    |s.downOut| >= 2 && s.downOut[1] == ServerHello
  }

  ghost predicate NothingLost(s: State) {
    && s.upIn <= |s.upOut| && s.up.queue == s.upOut[s.upIn..]
    && s.downIn <= |s.downOut| && s.down.queue == s.downOut[s.downIn..]
    && (!s.up.open ==> s.client.Waiting? || s.client.Gone? || s.server == Left)
    && (!s.down.open ==> s.server == Left)
  }

  ghost predicate ClientClean(s: State) {
    match s.client
    case Greeting => true
    case AwaitVersion => true
    case AwaitHello => true
    case Draining => false
    case Closing(result) => EndedClean(s, result)
    case Waiting(result) => EndedClean(s, result)
    case Gone(result) => EndedClean(s, result)
    case _ => Introduced(s)
  }

  ghost predicate EndedClean(s: State, result: Outcome) {
    s.upOut != [] && (Promised(s) ==> result == Sent(|s.data|) && Concluded(s, true))
  }

  ghost predicate ReadAll(s: State) {
    s.upIn == 2 + BlockCount(|s.data|)
  }

  ghost predicate ServerClean(s: State) {
    match s.server
    case Failing => false
    case Finishing => ReadAll(s)
    case Concluding(ok) => ok && ReadAll(s)
    case Leaving => LeftClean(s)
    case Left => LeftClean(s)
    case _ => true
  }

  ghost predicate LeftClean(s: State) {
    && s.upIn >= 1
    && (s.downOut == [Status(false)] || s.downOut == [Status(true), Status(false)]
        || (s.downOut == [Status(true), ServerHello] && Exited(s.client) && !Promised(s))
        || (Concluded(s, true) && ReadAll(s)))
  }

  ghost predicate NowClean(t: State) {
    NothingLost(t) && ClientClean(t) && ServerClean(t)
  }

  ghost predicate Clean(s: State) {
    Inv(s) && NowClean(s)
  }

  lemma TakeLost(s: State)
    requires NothingLost(s) && s.down.queue != []
    ensures s.downIn < |s.downOut| && s.down.queue[0] == s.downOut[s.downIn]
    ensures s.down.queue[1..] == s.downOut[s.downIn + 1..]
  {
  }

  lemma ReadVersionClean(s: State)
    requires NowClean(s) && s.upOut == [Hello] && s.client.AwaitVersion?
    requires TornDown !in s.downOut && ClientStep(s, Go).Some?
    ensures NowClean(ClientStep(s, Go).value)
  {
    if s.down.queue != [] {
      TakeLost(s);
    }
  }

  lemma ReadHelloClean(s: State)
    requires NowClean(s) && s.upOut == [Hello] && s.client.AwaitHello? && s.downIn == 1
    requires TornDown !in s.downOut && ClientStep(s, Go).Some?
    ensures NowClean(ClientStep(s, Go).value)
  {
    if s.down.queue != [] {
      TakeLost(s);
    }
  }

  lemma ReadFinalClean(s: State)
    requires NowClean(s) && ServerInv(s) && s.client.AwaitFinal? && s.downIn == 2 && s.sent == |s.data| && s.upOut != []
    requires TornDown !in s.downOut && ClientStep(s, Go).Some?
    ensures NowClean(ClientStep(s, Go).value)
  {
    if s.down.queue != [] {
      TakeLost(s);
      assert Concluded(s, true);
    }
  }

  lemma ReadClean(s: State)
    requires NowClean(s) && ClientInv(s) && ServerInv(s) && TornDown !in s.downOut && Reads(s.client)
    requires ClientStep(s, Go).Some?
    ensures NowClean(ClientStep(s, Go).value)
  {
    if s.client.AwaitFinal? {
      ReadFinalClean(s);
    } else if s.client.AwaitVersion? {
      ReadVersionClean(s);
    } else {
      ReadHelloClean(s);
    }
  }

  lemma Appended<T>(out: seq<T>, n: nat, t: T)
    requires n <= |out|
    ensures (out + [t])[n..] == out[n..] + [t]
  {
  }

  /** While the client still has something to say, its pipe works unless it declined. */
  lemma OpeningIsOpen(s: State)
    requires NowClean(s) && ClientInv(s) && Opens(s.client) && !s.client.Declining?
    ensures s.up.open
  {
  }

  lemma DeclinedClean(s: State)
    requires NowClean(s) && ClientInv(s) && s.client.Declining? && ClientStep(s, Go).Some?
    ensures NowClean(ClientStep(s, Go).value)
  {
    Appended(s.upOut, s.upIn, Ready(false));
  }

  lemma ClientWriteClean(s: State)
    requires NowClean(s) && ClientInv(s) && (s.client.Greeting? || s.client.Readying?) && ClientStep(s, Go).Some?
    ensures NowClean(ClientStep(s, Go).value)
  {
    OpeningIsOpen(s);
    Appended(s.upOut, s.upIn, if s.client.Greeting? then Hello else Ready(true));
  }

  lemma PushClean(s: State)
    requires NowClean(s) && ClientInv(s) && s.client.Pushing? && ClientStep(s, Go).Some?
    ensures NowClean(ClientStep(s, Go).value)
  {
    var k := s.client.k;
    Appended(s.upOut, s.upIn, Chunk(Payload(s.data, k), More(s.data, k)));
  }

  lemma DecidingClean(s: State, m: ClientMove)
    requires NowClean(s) && ClientInv(s) && (s.client.Deciding? || s.client.Looking? || s.client.Checking?)
    requires ClientStep(s, m).Some? && ClientStep(s, m).value.faults == s.faults
    ensures NowClean(ClientStep(s, m).value)
  {
  }

  lemma ClosingClean(s: State)
    requires NowClean(s) && (s.client.Closing? || s.client.Waiting?) && ClientStep(s, Go).Some?
    ensures NowClean(ClientStep(s, Go).value)
  {
  }

  lemma ClientKeepsClean(s: State, m: ClientMove)
    requires NowClean(s) && TornDown !in s.downOut && ClientInv(s) && ServerInv(s) && ClientStep(s, m).Some?
    requires ClientStep(s, m).value.faults == s.faults
    ensures NowClean(ClientStep(s, m).value)
  {
    if Reads(s.client) {
      ReadClean(s);
    } else if s.client.Declining? {
      DeclinedClean(s);
    } else if s.client.Greeting? || s.client.Readying? {
      ClientWriteClean(s);
    } else if s.client.Pushing? {
      PushClean(s);
    } else if s.client.Closing? || s.client.Waiting? {
      ClosingClean(s);
    } else {
      DecidingClean(s, m);
    }
  }

  lemma ServerGreetedClean(s: State)
    requires NowClean(s) && ServerInv(s) && UpShape(s.upOut, s.data) && s.server.AwaitGreeting?
    requires ServerStep(s, Proceed).Some?
    ensures NowClean(ServerStep(s, Proceed).value)
  {
    assert s.up.queue != [] ==>
      s.up.queue[0] == s.upOut[s.upIn] == Hello && s.upOut[s.upIn..][1..] == s.upOut[s.upIn + 1..];
  }

  lemma ServerReadyClean(s: State)
    requires NowClean(s) && ClientInv(s) && ServerInv(s) && UpShape(s.upOut, s.data) && s.server.AwaitReady?
    requires ServerStep(s, Proceed).Some?
    ensures NowClean(ServerStep(s, Proceed).value)
  {
    if s.up.queue != [] {
      assert s.up.queue[0] == s.upOut[s.upIn] && s.upOut[s.upIn..][1..] == s.upOut[s.upIn + 1..];
    }
  }

  lemma ChunkWaits(s: State)
    requires NothingLost(s) && ServerInv(s) && UpShape(s.upOut, s.data) && s.server.Receiving? && s.up.queue != []
    ensures s.up.queue[0].Chunk? && s.up.queue[1..] == s.upOut[s.upIn + 1..]
    ensures s.up.queue[0].more || s.upIn == 1 + BlockCount(|s.data|)
  {
    assert s.upOut <= Streamed(s.data, BlockCount(|s.data|));
    NextOrLast(s.data, s.upIn - 2);
  }

  lemma BlockReadClean(s: State, t: State, more: bool)
    requires NowClean(s) && s.server.Receiving? && s.up.queue != []
    requires t == s.(up := s.up.(queue := s.up.queue[1..]), upIn := s.upIn + 1, received := t.received,
                     server := if more then Receiving else Finishing)
    requires s.up.queue[1..] == s.upOut[s.upIn + 1..] && (more || t.upIn == 2 + BlockCount(|s.data|))
    ensures NowClean(t)
  {
  }

  lemma ReceiveBlockClean(s: State)
    requires NowClean(s) && s.server.Receiving? && s.up.queue != [] && s.up.queue[0].Chunk?
    requires s.up.queue[0].more || s.upIn == 1 + BlockCount(|s.data|)
    requires s.up.queue[1..] == s.upOut[s.upIn + 1..]
    ensures NowClean(ServerReceive(s, Proceed).value)
  {
    BlockReadClean(s, ServerReceive(s, Proceed).value, s.up.queue[0].more);
  }

  /** Without a fault the stream does not end early. */
  lemma StreamGoesOn(s: State)
    requires NowClean(s) && ServerInv(s) && s.server.Receiving? && s.up.queue == []
    ensures s.up.open
  {
  }

  lemma ServerReceiveClean(s: State)
    requires NowClean(s) && ServerInv(s) && UpShape(s.upOut, s.data) && s.server.Receiving?
    requires ServerStep(s, Proceed).Some?
    ensures NowClean(ServerStep(s, Proceed).value)
  {
    if s.up.queue == [] {
      StreamGoesOn(s);
    } else {
      ChunkWaits(s);
      ReceiveBlockClean(s);
    }
  }

  lemma ServerWriteClean(s: State)
    requires NowClean(s) && ServerInv(s) && Writes(s.server) && ServerStep(s, Proceed).Some?
    ensures NowClean(ServerStep(s, Proceed).value)
  {
    var t := if s.server.Introducing? then ServerHello
             else Status(s.server.Accepting? || (s.server.Concluding? && s.server.ok));
    Appended(s.downOut, s.downIn, t);
  }

  lemma ServerLocalClean(s: State, m: ServerMove)
    requires NowClean(s) && ServerInv(s) && ServerStep(s, m).Some? && ServerStep(s, m).value.faults == s.faults
    requires s.server.Judging? || s.server.Admitting? || s.server.Spawning? || s.server.Finishing?
    ensures NowClean(ServerStep(s, m).value)
  {
  }

  lemma ServerLeavingClean(s: State)
    requires NowClean(s) && s.server.Leaving? && ServerStep(s, Proceed).Some?
    ensures NowClean(ServerStep(s, Proceed).value)
  {
  }

  lemma ServerKeepsClean(s: State, m: ServerMove)
    requires NowClean(s) && UpShape(s.upOut, s.data) && ClientInv(s) && ServerInv(s) && ServerStep(s, m).Some?
    requires ServerStep(s, m).value.faults == s.faults
    ensures NowClean(ServerStep(s, m).value)
  {
    if s.server.AwaitGreeting? {
      ServerGreetedClean(s);
    } else if s.server.AwaitReady? {
      ServerReadyClean(s);
    } else if s.server.Receiving? {
      ServerReceiveClean(s);
    } else if Writes(s.server) {
      ServerWriteClean(s);
    } else if s.server.Leaving? {
      ServerLeavingClean(s);
    } else {
      ServerLocalClean(s, m);
    }
  }

  lemma ClientFaultsGrow(s: State, m: ClientMove)
    requires ClientStep(s, m).Some?
    ensures ClientStep(s, m).value.faults >= s.faults
  {
  }

  lemma FaultsGrow(s: State, a: Action)
    requires Step(s, a).Some?
    ensures Step(s, a).value.faults >= s.faults
    ensures a.BreakUp? || a.BreakDown? ==> Step(s, a).value.faults > s.faults
  {
    match a
    case ByClient(m) => ClientFaultsGrow(s, m);
    case ByServer(m) => ServerFixed(s, m);
    case _ =>
  }

  lemma {:induction false} CleanRun(s: State, actions: seq<Action>)
    requires Clean(s) && Exec(s, actions).Some? && Exec(s, actions).value.faults == s.faults
    ensures Clean(Exec(s, actions).value)
  {
    if actions != [] {
      var init, a := actions[..|actions| - 1], actions[|actions| - 1];
      var mid := Exec(s, init).value;
      FaultsGrow(mid, a);
      FaultsOnlyGrow(s, init);
      CleanRun(s, init);
      StepKeepsInv(mid, a);
      match a
      case ByClient(m) => ClientKeepsClean(mid, m);
      case ByServer(m) => ServerKeepsClean(mid, m);
      case _ =>
    }
  }

  lemma {:induction false} FaultsOnlyGrow(s: State, actions: seq<Action>)
    requires Exec(s, actions).Some?
    ensures Exec(s, actions).value.faults >= s.faults
  {
    if actions != [] {
      var init := actions[..|actions| - 1];
      FaultsOnlyGrow(s, init);
      FaultsGrow(Exec(s, init).value, actions[|actions| - 1]);
    }
  }

  /** In a run without a break, a cancel or a local failure, a client that announces a stream ends with
      Ok and the length of the data, and the remote side has all of it. */
  lemma FaultFreeSuccess(s: State)
    requires Reachable(s) && s.faults == 0 && s.client.Gone? && Promised(s)
    ensures s.client.result == Sent(|s.data|) && Delivered(s)
  {
    var actions :| Exec(Initial(s.cap, s.data), actions) == Some(s);
    InitialInv(s.cap, s.data);
    CleanRun(Initial(s.cap, s.data), actions);
  }
}
