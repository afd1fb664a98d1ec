/** What a client's result means, over every run: the moves behind each result, and the tokens it has read. */
module SessionResults {
  import opened Wrappers
  import opened Codec
  import opened Session
  import opened SessionProof
  import opened SessionLaws
  import opened SessionSuccess
  import opened SessionRuns

  /** The client's moves in a run. */
  function Moves(actions: seq<Action>): set<ClientMove> {
    set i | 0 <= i < |actions| && actions[i].ByClient? :: actions[i].cm
  }

  predicate Ended(c: Client, result: Outcome) {
    Exited(c) && c.result == result
  }

  /** What each move of the client leads to. */
  ghost predicate Consequences(s: State, done: set<ClientMove>) {
    && (Diverged in done ==> Ended(s.client, Failed))
    && (SpawnFails in done ==> s.client == Declining(Failed) || Ended(s.client, Failed))
    && (UpToDate in done ==> (s.client == Declining(Sent(0)) || Ended(s.client, Sent(0))) && !Promised(s))
    && (SourceFails in done ==> s.client == Draining || Ended(s.client, Failed))
    && (Cancel in done ==> Ended(s.client, Cancelled))
  }

  /** What stands behind each result. */
  ghost predicate Reasons(s: State, done: set<ClientMove>) {
    && (s.client == Declining(Sent(0)) ==> UpToDate in done)
    && (Ended(s.client, Cancelled) ==> Cancel in done)
    && (Exited(s.client) && s.client.result.Sent? ==>
          if Promised(s) then ReadTrue(s) && s.client.result.bytes == |s.data|
          else s.client.result.bytes == 0 && UpToDate in done)
  }

  /** The client has read the final status, and it was a success. */
  predicate ReadTrue(s: State) {
    s.downIn == 3 && |s.downOut| >= 3 && s.downOut[2] == Status(true)
  }

  /** The client has read a refusal or a failure. */
  predicate ReadFalse(s: State) {
    exists i :: 0 <= i < s.downIn && i < |s.downOut| && s.downOut[i] == Status(false)
  }

  /** What the client has read decides. */
  ghost predicate Readings(s: State) {
    && (ReadFalse(s) ==> Ended(s.client, Failed))
    && (s.downIn >= 3 ==> Exited(s.client))
    && (ReadTrue(s) && |s.upOut| == 2 + BlockCount(|s.data|) ==> Ended(s.client, Sent(|s.data|)))
    && (s.client == Draining ==> |s.upOut| < 2 + BlockCount(|s.data|))
  }

  ghost predicate Story(s: State, done: set<ClientMove>) {
    Consequences(s, done) && Reasons(s, done) && Readings(s)
  }

  /** Steps that leave the client and what it has read and written alone. */
  lemma ElsewhereStory(s: State, t: State, done: set<ClientMove>)
    requires Story(s, done) && PipesCount(s) && t.client == s.client && t.data == s.data && t.upOut == s.upOut
    requires t.downIn == s.downIn && s.downOut <= t.downOut
    ensures Story(t, done)
  {
    if ReadFalse(t) {
      var i :| 0 <= i < t.downIn && i < |t.downOut| && t.downOut[i] == Status(false);
      assert s.downOut[i] == Status(false);
    }
  }

  /** No more tokens are read than were written. */
  ghost predicate PipesCount(s: State) {
    s.downIn <= |s.downOut|
  }

  lemma WrittenStory(s: State, t: State, m: ClientMove, done: set<ClientMove>)
    requires Story(s, done) && ClientInv(s) && Opens(s.client) && ClientStep(s, m) == Some(t)
    ensures Story(t, done + {m})
  {
    assert m == Go;
    assert t.downIn == s.downIn && t.downOut == s.downOut;
    assert ReadFalse(t) <==> ReadFalse(s);
  }

  lemma PushedStory(s: State, t: State, m: ClientMove, done: set<ClientMove>)
    requires Story(s, done) && ClientInv(s) && s.client.Pushing? && ClientStep(s, m) == Some(t)
    ensures Story(t, done + {m})
  {
    assert m == Go;
    assert t.downIn == s.downIn && t.downOut == s.downOut;
    assert ReadFalse(t) <==> ReadFalse(s);
  }

  lemma LocalStory(s: State, t: State, m: ClientMove, done: set<ClientMove>)
    requires Story(s, done) && ClientInv(s) && (s.client.Deciding? || s.client.Looking? || s.client.Checking?)
    requires ClientStep(s, m) == Some(t)
    ensures Story(t, done + {m})
  {
    assert t.downIn == s.downIn && t.downOut == s.downOut && t.upOut == s.upOut;
    assert ReadFalse(t) <==> ReadFalse(s);
  }

  lemma EndingStory(s: State, t: State, m: ClientMove, done: set<ClientMove>)
    requires Story(s, done) && Exited(s.client) && ClientStep(s, m) == Some(t)
    ensures Story(t, done + {m})
  {
    assert m == Go;
    assert t.downIn == s.downIn && t.downOut == s.downOut && t.upOut == s.upOut;
    assert ReadFalse(t) <==> ReadFalse(s);
  }

  /** The state after a read: one more token is read, or the pipe is at its end. */
  lemma ReadMore(s: State, t: State)
    requires t.downOut == s.downOut && s.downIn <= t.downIn <= s.downIn + 1 && s.downIn < |s.downOut|
    ensures ReadFalse(t) <==> ReadFalse(s) || (t.downIn > s.downIn && s.downOut[s.downIn] == Status(false))
  {
    if ReadFalse(s) {
      var i :| 0 <= i < s.downIn && i < |s.downOut| && s.downOut[i] == Status(false);
      assert t.downOut[i] == Status(false);
    }
    if t.downIn > s.downIn && s.downOut[s.downIn] == Status(false) {
      assert t.downOut[s.downIn] == Status(false);
    }
  }

  lemma ReadEarlyStory(s: State, t: State, m: ClientMove, done: set<ClientMove>)
    requires Story(s, done) && ClientInv(s) && DownHead(s) && (s.client.AwaitVersion? || s.client.AwaitHello?)
    requires ClientStep(s, m) == Some(t)
    ensures Story(t, done + {m})
  {
    assert m == Go;
    assert t.upOut == s.upOut && t.downOut == s.downOut && t.data == s.data;
    if s.down.queue != [] && s.down.queue[0] != TornDown {
      ReadMore(s, t);
    } else {
      assert t.downIn == s.downIn;
      assert ReadFalse(t) <==> ReadFalse(s);
    }
  }

  lemma ReadLastStory(s: State, t: State, m: ClientMove, done: set<ClientMove>)
    requires Story(s, done) && ClientInv(s) && DownShape(s.downOut) && DownHead(s)
    requires s.client.AwaitFinal? || s.client.Draining?
    requires ClientStep(s, m) == Some(t)
    ensures Story(t, done + {m})
  {
    assert m == Go;
    assert t.upOut == s.upOut && t.downOut == s.downOut && t.data == s.data;
    if s.down.queue != [] && s.down.queue[0] != TornDown {
      ReadMore(s, t);
    } else {
      assert t.downIn == s.downIn;
      assert ReadFalse(t) <==> ReadFalse(s);
    }
  }

  lemma ClientStory(s: State, m: ClientMove, done: set<ClientMove>)
    requires Story(s, done) && PipesInv(s) && ClientInv(s) && ClientStep(s, m).Some?
    ensures Story(ClientStep(s, m).value, done + {m})
  {
    var t := ClientStep(s, m).value;
    if Reads(s.client) {
      DownHeadIsNext(s);
      if s.client.AwaitFinal? || s.client.Draining? {
        ReadLastStory(s, t, m, done);
      } else {
        ReadEarlyStory(s, t, m, done);
      }
    } else if Opens(s.client) {
      WrittenStory(s, t, m, done);
    } else if s.client.Pushing? {
      PushedStory(s, t, m, done);
    } else if Exited(s.client) {
      EndingStory(s, t, m, done);
    } else {
      LocalStory(s, t, m, done);
    }
  }

  lemma LastMove(actions: seq<Action>)
    requires actions != []
    ensures var init, a := actions[..|actions| - 1], actions[|actions| - 1];
            Moves(actions) == Moves(init) + if a.ByClient? then {a.cm} else {}
  {
    var init, a := actions[..|actions| - 1], actions[|actions| - 1];
    forall m ensures m in Moves(actions) <==> m in Moves(init) || (a.ByClient? && a.cm == m) {
      if m in Moves(init) {
        var i :| 0 <= i < |init| && init[i].ByClient? && init[i].cm == m;
        assert actions[i] == init[i];
      }
      if m in Moves(actions) {
        var i :| 0 <= i < |actions| && actions[i].ByClient? && actions[i].cm == m;
        assert i < |init| ==> init[i] == actions[i];
      }
      if a.ByClient? && a.cm == m {
        assert actions[|actions| - 1].ByClient?;
      }
    }
  }

  lemma OtherStory(s: State, a: Action, done: set<ClientMove>)
    requires Story(s, done) && PipesInv(s) && ServerInv(s) && !a.ByClient? && Step(s, a).Some?
    ensures Story(Step(s, a).value, done)
  {
    var t := Step(s, a).value;
    if a.ByServer? {
      ServerStepSame(s, a.sm);
    }
    ElsewhereStory(s, t, done);
  }

  lemma {:induction false} RunStory(cap: nat, data: seq<byte>, actions: seq<Action>)
    requires cap > 0 && Exec(Initial(cap, data), actions).Some?
    ensures Story(Exec(Initial(cap, data), actions).value, Moves(actions))
  {
    if actions != [] {
      var init, a := actions[..|actions| - 1], actions[|actions| - 1];
      var mid := Exec(Initial(cap, data), init).value;
      RunStory(cap, data, init);
      InitialInv(cap, data);
      ExecInv(Initial(cap, data), init);
      LastMove(actions);
      match a
      case ByClient(m) => ClientStory(mid, m, Moves(init));
      case _ => OtherStory(mid, a, Moves(init));
    }
  }

  /** Every result of a client, exactly: cancelled if and only if it took the cancel; a success without a
      stream if and only if it found the Remote up to date, and then Ok(0); a success with a stream if and only
      if it read a successful final status, and then the length of the data. Everything else is a failure. */
  lemma ResultIs(cap: nat, data: seq<byte>, actions: seq<Action>, s: State)
    requires cap > 0 && Exec(Initial(cap, data), actions) == Some(s) && Exited(s.client)
    ensures s.client.result == Cancelled <==> ByClient(Cancel) in actions
    ensures s.client.result.Sent? && !Promised(s) <==> ByClient(UpToDate) in actions
    ensures s.client.result.Sent? && !Promised(s) ==> s.client.result.bytes == 0
    ensures s.client.result.Sent? && Promised(s) <==> ReadTrue(s)
    ensures s.client.result.Sent? && Promised(s) ==> s.client.result.bytes == |data|
  {
    RunStory(cap, data, actions);
    InMoves(actions, Cancel);
    InMoves(actions, UpToDate);
    ExecFixed(Initial(cap, data), actions);
    if ReadTrue(s) {
      assert Reachable(s);
      WholeStreamRead(s);
    }
  }

  lemma InMoves(actions: seq<Action>, m: ClientMove)
    ensures m in Moves(actions) <==> ByClient(m) in actions
  {
    if ByClient(m) in actions {
      var i :| 0 <= i < |actions| && actions[i] == ByClient(m);
      assert actions[i].ByClient? && actions[i].cm == m;
    }
  }

  /** A successful final status is written only after the whole stream was. */
  lemma WholeStreamRead(s: State)
    requires Reachable(s) && ReadTrue(s)
    ensures |s.upOut| == 2 + BlockCount(|s.data|) && Concluded(s, true) && Delivered(s) && Promised(s)
  {
    ReachableInv(s);
    Delivery(s, 0);
    FinishedMeansSent(s);
    PromisedStream(s.data, BlockCount(|s.data|));
  }

  lemma PromisedStream(data: seq<byte>, k: nat)
    ensures Streamed(data, k)[1] == Ready(true)
  {
  }

  /** Ok(n) after an announced stream means that zfs receive has got all of it and succeeded, also for an
      empty stream. */
  lemma ReturnedMeansDelivered(s: State, n: nat)
    requires Reachable(s) && ClientReturned(s, n) && Promised(s)
    ensures Concluded(s, true) && Delivered(s) && n == |s.data|
  {
    var actions :| s.cap > 0 && Exec(Initial(s.cap, s.data), actions) == Some(s);
    ResultIs(s.cap, s.data, actions, s);
    WholeStreamRead(s);
  }

  /** Ok without a stream is Ok(0), and only for a Remote that was up to date. */
  lemma ReturnedWithoutStream(cap: nat, data: seq<byte>, actions: seq<Action>, n: nat)
    requires cap > 0 && Exec(Initial(cap, data), actions).Some?
    requires var s := Exec(Initial(cap, data), actions).value; ClientReturned(s, n) && !Promised(s)
    ensures n == 0 && ByClient(UpToDate) in actions
  {
    ResultIs(cap, data, actions, Exec(Initial(cap, data), actions).value);
  }

  /** A client that diverged, could not start zfs send, failed to read its output, or has read a refusal or a
      failure from the server ends as failed. */
  lemma FailureIsReported(cap: nat, data: seq<byte>, actions: seq<Action>, s: State)
    requires cap > 0 && Exec(Initial(cap, data), actions) == Some(s) && Exited(s.client)
    requires ByClient(Diverged) in actions || ByClient(SpawnFails) in actions || ByClient(SourceFails) in actions
             || ReadFalse(s)
    ensures s.client.result == Failed
  {
    RunStory(cap, data, actions);
    InMoves(actions, Diverged);
    InMoves(actions, SpawnFails);
    InMoves(actions, SourceFails);
  }

  // ----- the server's side

  function ServerMoves(actions: seq<Action>): set<ServerMove> {
    set i | 0 <= i < |actions| && actions[i].ByServer? :: actions[i].sm
  }

  predicate Leaves(v: Server) {
    v.Leaving? || v.Left?
  }

  predicate NoSuccess(s: State) {
    |s.downOut| == 3 ==> s.downOut[2] != Status(true)
  }

  /** A bad version is refused, and nothing else is said. */
  predicate VersionRefused(s: State) {
    || (s.server.RefusingVersion? && s.downOut == [])
    || (Leaves(s.server) && (s.downOut == [] || s.downOut == [Status(false)]))
  }

  /** After another refusal there is no success. */
  predicate Refused(s: State) {
    !s.finished && (s.server.Refusing? || s.server == Concluding(false) || (Leaves(s.server) && NoSuccess(s)))
  }

  /** Nor after a failure to pass a block on. */
  predicate SinkFailed(s: State) {
    !s.finished && (s.server.Failing? || s.server == Concluding(false) || (Leaves(s.server) && NoSuccess(s)))
  }

  /** After an abort or a hang-up there is no final status at all. */
  predicate LeftEarly(s: State) {
    Leaves(s.server) && |s.downOut| < 3
  }

  /** After a successful receive no failure is reported. */
  predicate NoFalseAlarm(s: State) {
    s.server == Concluding(true) || (Leaves(s.server) && (|s.downOut| == 3 ==> s.downOut[2] == Status(true)))
  }

  ghost predicate ServerConsequences(s: State, done: set<ServerMove>) {
    && (BadVersion in done ==> VersionRefused(s))
    && (Reject in done ==> Refused(s))
    && ((exists part :: SinkFails(part) in done) ==> SinkFailed(s))
    && (Abort in done || Hangup in done ==> LeftEarly(s))
    && (s.finished ==> NoFalseAlarm(s))
    && (Started(s.server) || s.received != [] || s.finished ==> Promised(s))
  }

  /** zfs receive is started or about to be. */
  predicate Started(v: Server) {
    v.Spawning? || v.Receiving? || v.Finishing? || v.Failing? || v.Concluding?
  }

  lemma ServerWritesOn(s: State, t: State, m: ServerMove, done: set<ServerMove>)
    requires ServerConsequences(s, done) && ServerInv(s) && Writes(s.server)
    requires ServerStep(s, m) == Some(t) && ServerInv(t)
    ensures ServerConsequences(t, done + {m})
  {
    assert m == Proceed;
  }

  lemma ServerReadsOn(s: State, t: State, m: ServerMove, done: set<ServerMove>)
    requires ServerConsequences(s, done) && ServerInv(s) && Takes(s.server)
    requires ServerStep(s, m) == Some(t) && ServerInv(t)
    ensures ServerConsequences(t, done + {m})
  {
  }

  lemma ServerGoesOn(s: State, t: State, m: ServerMove, done: set<ServerMove>)
    requires ServerConsequences(s, done) && ServerInv(s) && !Takes(s.server) && !Writes(s.server)
    requires ServerStep(s, m) == Some(t) && ServerInv(t)
    ensures ServerConsequences(t, done + {m})
  {
  }

  lemma ServerStory(s: State, m: ServerMove, done: set<ServerMove>)
    requires ServerConsequences(s, done) && ServerInv(s) && ServerStep(s, m).Some? && ServerInv(ServerStep(s, m).value)
    ensures ServerConsequences(ServerStep(s, m).value, done + {m})
  {
    var t := ServerStep(s, m).value;
    if Writes(s.server) {
      ServerWritesOn(s, t, m, done);
    } else if Takes(s.server) {
      ServerReadsOn(s, t, m, done);
    } else {
      ServerGoesOn(s, t, m, done);
    }
  }

  lemma ServerLastMove(actions: seq<Action>)
    requires actions != []
    ensures var init, a := actions[..|actions| - 1], actions[|actions| - 1];
            ServerMoves(actions) == ServerMoves(init) + if a.ByServer? then {a.sm} else {}
  {
    var init, a := actions[..|actions| - 1], actions[|actions| - 1];
    forall m ensures m in ServerMoves(actions) <==> m in ServerMoves(init) || (a.ByServer? && a.sm == m) {
      if m in ServerMoves(init) {
        var i :| 0 <= i < |init| && init[i].ByServer? && init[i].sm == m;
        assert actions[i] == init[i];
      }
      if m in ServerMoves(actions) {
        var i :| 0 <= i < |actions| && actions[i].ByServer? && actions[i].sm == m;
        assert i < |init| ==> init[i] == actions[i];
      }
      if a.ByServer? && a.sm == m {
        assert actions[|actions| - 1].ByServer?;
      }
    }
  }

  lemma ServerUntouched(s: State, t: State, done: set<ServerMove>)
    requires ServerConsequences(s, done) && t.server == s.server && t.downOut == s.downOut && s.upOut <= t.upOut
    requires t.received == s.received && t.finished == s.finished
    ensures ServerConsequences(t, done)
  {
  }

  lemma StepServerStory(s: State, a: Action, done: set<ServerMove>)
    requires ServerConsequences(s, done) && Inv(s) && Step(s, a).Some?
    ensures ServerConsequences(Step(s, a).value, done + if a.ByServer? then {a.sm} else {})
  {
    assert done + {} == done;
    match a
    case ByServer(m) =>
      ServerKeepsInv(s, m);
      ServerStory(s, m, done);
    case ByClient(m) =>
      ClientStepSame(s, m);
      ServerUntouched(s, ClientStep(s, m).value, done);
    case _ => ServerUntouched(s, Step(s, a).value, done);
  }

  lemma StartServerStory(cap: nat, data: seq<byte>)
    ensures ServerConsequences(Initial(cap, data), {})
  {
  }

  lemma {:induction false} RunServerStory(cap: nat, data: seq<byte>, actions: seq<Action>)
    requires cap > 0 && Exec(Initial(cap, data), actions).Some?
    ensures ServerConsequences(Exec(Initial(cap, data), actions).value, ServerMoves(actions))
  {
    if actions == [] {
      StartServerStory(cap, data);
      assert ServerMoves(actions) == {};
    } else {
      var init := actions[..|actions| - 1];
      RunServerStory(cap, data, init);
      InitialInv(cap, data);
      ExecInv(Initial(cap, data), init);
      ServerLastMove(actions);
      StepServerStory(Exec(Initial(cap, data), init).value, actions[|actions| - 1], ServerMoves(init));
    }
  }

  lemma InServerMoves(actions: seq<Action>, m: ServerMove)
    ensures ByServer(m) in actions ==> m in ServerMoves(actions)
  {
    if ByServer(m) in actions {
      var i :| 0 <= i < |actions| && actions[i] == ByServer(m);
      assert actions[i].ByServer? && actions[i].sm == m;
    }
  }

  lemma SaysAtMost(s: State, done: set<ServerMove>)
    requires ServerConsequences(s, done) && ServerInv(s)
    ensures BadVersion in done ==> s.downOut == [] || s.downOut == [Status(false)]
    ensures Reject in done ==> !Concluded(s, true) && !s.finished
    ensures (exists part :: SinkFails(part) in done) ==> !Concluded(s, true) && !s.finished
    ensures Abort in done || Hangup in done ==> |s.downOut| < 3
    ensures s.finished ==> !Concluded(s, false)
    ensures s.received != [] || s.finished ==> Promised(s)
  {
  }

  /** What the server says, over every run. A bad version is answered by its refusal at most, and no other
      message. Another refusal, a failed block or a failed receive is never followed by a success; a successful
      receive never by a failure. After an abort or a hang-up there is no final status. And zfs receive is only
      started for an announced stream. */
  lemma ServerSays(cap: nat, data: seq<byte>, actions: seq<Action>, s: State)
    requires cap > 0 && Exec(Initial(cap, data), actions) == Some(s)
    ensures ByServer(BadVersion) in actions ==> s.downOut == [] || s.downOut == [Status(false)]
    ensures ByServer(Reject) in actions ==> !Concluded(s, true) && !s.finished
    ensures forall part :: ByServer(SinkFails(part)) in actions ==> !Concluded(s, true) && !s.finished
    ensures ByServer(Abort) in actions || ByServer(Hangup) in actions ==> |s.downOut| < 3
    ensures s.finished ==> !Concluded(s, false)
    ensures s.received != [] || s.finished ==> Promised(s)
  {
    RunServerStory(cap, data, actions);
    InitialInv(cap, data);
    ExecInv(Initial(cap, data), actions);
    SaysAtMost(s, ServerMoves(actions));
    InServerMoves(actions, BadVersion);
    InServerMoves(actions, Reject);
    InServerMoves(actions, Abort);
    InServerMoves(actions, Hangup);
    forall part | ByServer(SinkFails(part)) in actions ensures !Concluded(s, true) && !s.finished {
      InServerMoves(actions, SinkFails(part));
    }
  }
}
