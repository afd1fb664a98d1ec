/** The shared base: the Remote's head, held on both sides. What keeps it, what destroys it, and what sends
    that overlap do to it. */
module SharedBase {
  import opened Wrappers
  import opened Zfs
  import opened Holds
  import opened Replication
  import Naming

  /** The head of a Remote that is not empty is tagged for it on the Source and as received on the Remote. */
  predicate Anchored(s: State, r: string)
    requires r in s.remotes
  {
    var head := Last(s.remotes[r].snaps);
    head.Some? ==> (head.value, RemoteTag(r)) in s.holds && (head.value, RECEIVED) in s.remotes[r].holds
  }

  lemma AnchoredIsProtected(s: State, r: string)
    requires WellFormed(s) && r in s.remotes && Anchored(s, r)
    ensures Protected(s, r)
  {
    TaggedHeadProtects(s, r);
  }

  /** Where the head is held on the Remote, the two conditions are one. */
  lemma AnchoredIffProtected(s: State, r: string)
    requires WellFormed(s) && r in s.remotes && s.remotes[r].snaps != []
    requires (Last(s.remotes[r].snaps).value, RECEIVED) in s.remotes[r].holds
    ensures Anchored(s, r) <==> Protected(s, r)
  {
    HeadIsHead(s.remotes[r], s.clock);
    if Anchored(s, r) {
      TaggedHeadProtects(s, r);
    }
  }

  /** Whether an event takes one of the two holds from the head: a completed transfer to r that does not leave
      what was received held on both sides, or a late hold that takes the tag from the head. */
  predicate Unanchors(s: State, e: Event, r: string)
    requires r in s.remotes
  {
    match e
    case Send(q, outcome) =>
      q == r && outcome.Completed? && Target(s, r).Some? && s.source != []
      && !(outcome.remoteHold && Stays(s, r, outcome, Target(s, r).value))
    case LateHold(q, x, left) =>
      q == r && s.remotes[r].snaps != [] && !StaysBeside(s, r, x, left, Last(s.remotes[r].snaps).value)
    case _ => false
  }

  /** A sound transfer anchors what was received, whatever went before. */
  lemma SoundAnchors(s: State, r: string, outcome: Outcome)
    requires WellFormed(s) && r in s.remotes && outcome.Completed? && Target(s, r).Some? && Sound(s, r, outcome)
    ensures s.source != [] && !Unanchors(s, Send(r, outcome), r)
  {
    TargetIsNew(s, r);
  }

  /** A completed transfer, from any state, leaves the Remote anchored exactly when it leaves what was received
      held on both sides. */
  lemma CompletedAnchorsIff(s: State, r: string, outcome: Outcome)
    requires WellFormed(s) && r in s.remotes && outcome.Completed? && Target(s, r).Some? && s.source != []
    ensures r in AfterSend(s, r, outcome).remotes
    ensures Anchored(AfterSend(s, r, outcome), r) <==> !Unanchors(s, Send(r, outcome), r)
  {
    TargetIsNew(s, r);
    var t := Target(s, r).value;
    TaggedAfter(s, r, outcome, t);
    NotReceivedBefore(s, r, t);
    var after := AfterSend(s, r, outcome).remotes[r];
    assert after.snaps == s.remotes[r].snaps + [t];
    assert t in AsSet(after.snaps);
  }

  lemma NotReceivedBefore(s: State, r: string, t: int)
    requires WellFormed(s) && r in s.remotes
    requires s.remotes[r].snaps != [] ==> Last(s.remotes[r].snaps).value < t
    ensures t !in s.remotes[r].snaps && (t, RECEIVED) !in s.remotes[r].holds
  {
    if t in s.remotes[r].snaps {
      LastIsMax(s.remotes[r].snaps, t);
    }
    assert forall h :: h in s.remotes[r].holds ==> h.0 in s.remotes[r].snaps;
  }

  /** No prune of either side, of any candidates, touches the base of an anchored Remote: its head stays its
      head, held on both sides, and stays on the Source. */
  lemma PruneKeepsBase(s: State, e: Event, r: string)
    requires WellFormed(s) && r in s.remotes && Anchored(s, r) && (e.PruneSource? || e.PruneRemote?)
    ensures r in Next(s, e).remotes && Anchored(Next(s, e), r)
    ensures Last(Next(s, e).remotes[r].snaps) == Last(s.remotes[r].snaps)
    ensures var head := Last(s.remotes[r].snaps); head.Some? ==> head.value in Next(s, e).source
  {
    var remote := s.remotes[r];
    if remote.snaps != [] {
      var head := Last(remote.snaps).value;
      assert (head, RECEIVED).0 in HeldTimes(remote.holds);
      assert (head, RemoteTag(r)).0 in HeldTimes(s.holds) && (head, RemoteTag(r)).0 in s.source;
      match e
      case PruneSource(candidates) => PrunedIs(s.source, candidates, s.holds);
      case PruneRemote(q, candidates, _) =>
        if q == r {
          PrunedLast(remote.snaps, candidates, remote.holds);
        }
    }
  }

  /** A step keeps an anchored Remote anchored exactly when it is not one of those; then the head does not get
      older. */
  lemma StepAnchorsIff(s: State, e: Event, r: string)
    requires WellFormed(s) && Enabled(s, e) && r in s.remotes && Anchored(s, r)
    ensures r in Next(s, e).remotes
    ensures Anchored(Next(s, e), r) <==> !Unanchors(s, e, r)
    ensures NotOlder(Last(s.remotes[r].snaps), Last(Next(s, e).remotes[r].snaps))
  {
    match e
    case TakeSnapshot(_) =>
    case Send(q, outcome) => SendAnchorsIff(s, q, outcome, r);
    case LateHold(q, x, left) =>
      if q == r {
        if s.remotes[r].snaps != [] {
          TaggedAfterHold(s, r, x, left, Last(s.remotes[r].snaps).value);
        }
      } else {
        OtherTagUnmoved(s, q, r, x, left);
      }
    case _ => PruneKeepsBase(s, e, r);
  }

  /** A head is there if there was one before, and is not older. */
  predicate NotOlder(before: Option<int>, after: Option<int>) {
    before.Some? ==> after.Some? && before.value <= after.value
  }

  lemma SendAnchorsIff(s: State, q: string, outcome: Outcome, r: string)
    requires WellFormed(s) && r in s.remotes && Anchored(s, r)
    ensures r in AfterSend(s, q, outcome).remotes
    ensures Anchored(AfterSend(s, q, outcome), r) <==> !Unanchors(s, Send(q, outcome), r)
    ensures NotOlder(Last(s.remotes[r].snaps), Last(AfterSend(s, q, outcome).remotes[r].snaps))
  {
    if Target(s, q).Some? {
      TargetIsNew(s, q);
    }
    if q != r {
      OtherSends(s, q, outcome, r);
    } else if outcome.Completed? && Target(s, r).Some? {
      CompletedAnchorsIff(s, r, outcome);
    }
  }

  // ----- whole runs

  ghost predicate AnchoredRun(s: State, events: seq<Event>, r: string, final: State)
    requires r in s.remotes
    decreases |events|
  {
    if events == [] then final == s
    else
      && Enabled(s, events[0]) && !Unanchors(s, events[0], r)
      && r in Next(s, events[0]).remotes && AnchoredRun(Next(s, events[0]), events[1..], r, final)
  }

  lemma {:induction false} RunAnchors(s: State, events: seq<Event>, r: string, final: State)
    requires WellFormed(s) && r in s.remotes && Anchored(s, r) && AnchoredRun(s, events, r, final)
    ensures WellFormed(final) && r in final.remotes && Anchored(final, r)
    ensures NotOlder(Last(s.remotes[r].snaps), Last(final.remotes[r].snaps))
    decreases |events|
  {
    if events != [] {
      StepAnchorsIff(s, events[0], r);
      StepWellFormed(s, events[0]);
      RunAnchors(Next(s, events[0]), events[1..], r, final);
    }
  }

  /** Independent pruning never destroys the shared base: in every run in which no transfer and no late hold
      takes a hold from r's head, with any prunes of both sides and anything happening to the other Remotes, a
      Remote that is not empty has its head on the Source, tagged there and tagged as received here; the head
      never falls back, and a send to r never reports a divergence. */
  lemma BaseSurvives(s: State, events: seq<Event>, r: string, final: State)
    requires WellFormed(s) && r in s.remotes && Anchored(s, r) && AnchoredRun(s, events, r, final)
    ensures r in final.remotes && Anchored(final, r)
    ensures var head := Last(final.remotes[r].snaps); head.Some? ==> head.value in final.source
    ensures NotOlder(Last(s.remotes[r].snaps), Last(final.remotes[r].snaps))
    ensures final.source != [] ==> Decide(final, r).Ok?
  {
    RunAnchors(s, events, r, final);
    AnchoredIsProtected(final, r);
    HeadOnSource(final, r);
    if final.source != [] {
      ProtectedNeverDiverges(final, r);
    }
  }

  /** Each completed transfer to r in the run is sound, and each of its holds is part of its send. */
  ghost predicate SoundRun(s: State, events: seq<Event>, r: string, final: State)
    requires r in s.remotes
    decreases |events|
  {
    if events == [] then final == s
    else
      && Enabled(s, events[0]) && SoundEvent(s, events[0], r)
      && r in Next(s, events[0]).remotes && SoundRun(Next(s, events[0]), events[1..], r, final)
  }

  predicate SoundEvent(s: State, e: Event, r: string) {
    match e
    case Send(q, outcome) => q == r && outcome.Completed? && Target(s, r).Some? ==> Sound(s, r, outcome)
    case LateHold(q, _, _) => q != r
    case _ => true
  }

  lemma {:induction false} SoundRunsAnchor(s: State, events: seq<Event>, r: string, final: State)
    requires WellFormed(s) && r in s.remotes && SoundRun(s, events, r, final)
    ensures AnchoredRun(s, events, r, final)
    decreases |events|
  {
    if events != [] {
      var e := events[0];
      if e.Send? && e.remote == r && e.outcome.Completed? && Target(s, r).Some? {
        SoundAnchors(s, r, e.outcome);
      }
      StepWellFormed(s, e);
      SoundRunsAnchor(Next(s, e), events[1..], r, final);
    }
  }

  /** From any configuration before its first snapshot, with every acknowledgement delivered, every hold
      placed, and every token of the latest snapshot: the base survives every run. */
  lemma SoundRunKeepsBase(dataset: string, targets: map<string, string>, clock: int, events: seq<Event>, r: string,
                          final: State)
    requires '@' !in dataset && (forall q :: q in targets ==> '@' !in targets[q]) && r in targets
    requires SoundRun(Fresh(dataset, targets, clock), events, r, final)
    ensures r in final.remotes && Anchored(final, r)
    ensures var head := Last(final.remotes[r].snaps); head.Some? ==> head.value in final.source
    ensures final.source != [] ==> Decide(final, r).Ok?
  {
    var s := Fresh(dataset, targets, clock);
    FreshIsProtected(dataset, targets, clock);
    SoundRunsAnchor(s, events, r, final);
    BaseSurvives(s, events, r, final);
  }

  // ----- sends that overlap

  /** A completed and acknowledged send is its receive followed at once by its hold on the latest snapshot. */
  lemma SendIsReceiveThenHold(s: State, r: string, remoteHold: bool, remoteLeft: set<int>, left: set<int>)
    requires WellFormed(s) && r in s.remotes && Target(s, r).Some?
    ensures s.source != []
    ensures AfterSend(s, r, Completed(remoteHold, remoteLeft, true, true, left))
         == AfterHold(AfterSend(s, r, Completed(remoteHold, remoteLeft, false, false, {})), r,
                      Last(s.source).value, left)
  {
    TargetIsNew(s, r);
  }

  /** The holds of several sends to r, one after the other, with nothing left behind. */
  function HoldAll(s: State, r: string, order: seq<int>): State {
    if order == [] then s
    else AfterHold(HoldAll(s, r, order[..|order| - 1]), r, order[|order| - 1], {})
  }

  lemma {:induction false} LastHoldStays(s: State, r: string, order: seq<int>)
    requires order != [] && (forall i :: 0 <= i < |order| ==> order[i] in s.source)
    requires (order[0], RemoteTag(r)) !in s.holds
    ensures var t := HoldAll(s, r, order);
            && t == s.(holds := t.holds)
            && Carriers(t.holds, RemoteTag(r)) == {order[|order| - 1]}
            && forall h: (int, string) :: h.1 != RemoteTag(r) ==> (h in t.holds <==> h in s.holds)
  {
    var init, x := order[..|order| - 1], order[|order| - 1];
    var mid := HoldAll(s, r, init);
    if init != [] {
      LastHoldStays(s, r, init);
      CarrierIs(mid.holds, RemoteTag(r), x);
    }
    MovedExactly(mid.holds, AsSet(mid.source), x, RemoteTag(r), {});
  }

  lemma CarrierIs(holds: set<(int, string)>, tag: string, x: int)
    ensures (x, tag) in holds <==> x in Carriers(holds, tag)
  {
    if x in Carriers(holds, tag) {
      var h :| h in holds && h.1 == tag && h.0 == x;
      assert h == (x, tag);
    }
  }

  /** When the receives of several sends to r are done, their holds decide: the Remote is anchored exactly when
      the last hold is on its head. A slow send that holds its own, older snapshot last takes the tag back,
      with no command failing. */
  lemma OverlapAnchorsIff(s: State, r: string, order: seq<int>)
    requires WellFormed(s) && r in s.remotes && s.remotes[r].snaps != []
    requires (Last(s.remotes[r].snaps).value, RECEIVED) in s.remotes[r].holds
    requires order != [] && (forall i :: 0 <= i < |order| ==> order[i] in s.source)
    requires (order[0], RemoteTag(r)) !in s.holds
    ensures r in HoldAll(s, r, order).remotes
    ensures Anchored(HoldAll(s, r, order), r) <==> order[|order| - 1] == Last(s.remotes[r].snaps).value
  {
    LastHoldStays(s, r, order);
    CarrierIs(HoldAll(s, r, order).holds, RemoteTag(r), Last(s.remotes[r].snaps).value);
  }

  lemma HoldAllSurroundings(s: State, r: string, order: seq<int>)
    requires Surroundings(s, r) && order != [] && (order[0], RemoteTag(r)) !in s.holds
    requires forall i :: 0 <= i < |order| ==> order[i] in s.source
    ensures Surroundings(HoldAll(s, r, order), r)
  {
    var t := HoldAll(s, r, order);
    LastHoldStays(s, r, order);
    forall h | h in t.holds ensures h.0 in s.source && exists q :: q in s.remotes && h.1 == RemoteTag(q) {
      if h.1 == RemoteTag(r) {
        CarrierIs(t.holds, RemoteTag(r), h.0);
      }
    }
    forall q | q in s.remotes && q != r ensures Protected(t, q) {
      TagsDiffer(q, r);
    }
  }

  lemma AnchoredIffCannotDiverge(s: State, r: string)
    requires Surroundings(s, r) && s.remotes[r].snaps != [] && Naming.PrintableYear(s.clock + 1)
    requires (Last(s.remotes[r].snaps).value, RECEIVED) in s.remotes[r].holds
    ensures !CanDiverge(s, r) <==> Anchored(s, r)
  {
    AnchoredIffProtected(s, r);
    ProtectedIff(s, r);
  }

  lemma SafeAfterHolds(s: State, t: State, r: string)
    requires Surroundings(t, r) && r in s.remotes && t == s.(holds := t.holds)
    requires s.remotes[r].snaps != [] && Naming.PrintableYear(s.clock + 1)
    requires (Last(s.remotes[r].snaps).value, RECEIVED) in s.remotes[r].holds
    ensures !CanDiverge(t, r) <==> Anchored(t, r)
  {
    AnchoredIffCannotDiverge(t, r);
  }

  /** And exactly then no later run without a further endangering step diverges. */
  lemma OverlapSafeIff(s: State, r: string, order: seq<int>)
    requires Surroundings(s, r) && s.remotes[r].snaps != [] && Naming.PrintableYear(s.clock + 1)
    requires (Last(s.remotes[r].snaps).value, RECEIVED) in s.remotes[r].holds
    requires order != [] && (forall i :: 0 <= i < |order| ==> order[i] in s.source)
    requires (order[0], RemoteTag(r)) !in s.holds
    ensures r in HoldAll(s, r, order).remotes
    ensures !CanDiverge(HoldAll(s, r, order), r) <==> order[|order| - 1] == Last(s.remotes[r].snaps).value
  {
    HoldAllSurroundings(s, r, order);
    OverlapAnchorsIff(s, r, order);
    LastHoldStays(s, r, order);
    SafeAfterHolds(s, HoldAll(s, r, order), r);
  }
}
