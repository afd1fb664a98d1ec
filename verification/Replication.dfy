/** One Source and any number of Remotes over whole runs: snapshots, sends that complete, break or lose
    their acknowledgement, and prunes on either side. Snapshots are known by their instants. */
module Replication {
  import opened Wrappers
  import opened Zfs
  import opened Holds
  import opened Transfer
  import Naming

  datatype Remote = Remote(dataset: string, snaps: seq<int>, holds: set<(int, string)>, token: Option<int>)

  datatype State = State(
    dataset: string, source: seq<int>, holds: set<(int, string)>, remotes: map<string, Remote>, clock: int)

  /** How a transfer ends. Completed: zfs receive succeeded; then the Remote's hold is placed or not, the
      final status reaches the client or not, and the Source's hold is placed or not. The old holds in
      `remoteLeft` and `sourceLeft` stay behind on their side: a lookup or a release failed, or a crash came
      between the new hold and the releases. */
  datatype Outcome =
    | Completed(remoteHold: bool, remoteLeft: set<int>, acknowledged: bool, sourceHold: bool, sourceLeft: set<int>)
    | Interrupted
    | NotStarted

  /** A LateHold is the Source's hold of a send whose receive came earlier, with other events in between: the
      send itself is then a Completed one without the acknowledgement. */
  datatype Event =
    | TakeSnapshot(at: int)
    | Send(remote: string, outcome: Outcome)
    | LateHold(remote: string, snap: int, left: set<int>)
    | PruneSource(candidates: set<int>)
    | PruneRemote(remote: string, candidates: set<int>, abortToken: bool)

  function Last(s: seq<int>): Option<int> {
    if s == [] then None else Some(s[|s| - 1])
  }

  function AsSet(s: seq<int>): set<int> {
    set x | x in s
  }

  /** The snapshots left when every candidate without a hold is destroyed. */
  function Pruned(s: seq<int>, candidates: set<int>, holds: set<(int, string)>): seq<int> {
    if s == [] then []
    else (if s[0] in candidates && s[0] !in HeldTimes(holds) then [] else [s[0]]) + Pruned(s[1..], candidates, holds)
  }

  function HeldTimes(holds: set<(int, string)>): set<int> {
    set h | h in holds :: h.0
  }

  /** What `decide_transfer` makes of this Remote's hello. */
  function Decide(s: State, r: string): Result<Decision, string>
    requires r in s.remotes && s.source != []
  {
    var remote := s.remotes[r];
    DecideTransfer(NameAt(remote.dataset, Last(remote.snaps)), if remote.token.Some? then Some("token") else None,
                   NamesAt(s.dataset, s.source), Naming.NewName(s.dataset, Last(s.source).value))
  }

  /** The same choice in terms of instants. */
  datatype Plan = UpToDate | Full | Resume | Incremental(base: int) | Diverged(head: int)

  function PlanFor(s: State, r: string): Plan
    requires r in s.remotes && s.source != []
  {
    var remote := s.remotes[r];
    var head := Last(remote.snaps);
    if head == Last(s.source) then UpToDate
    else if remote.token.Some? then Resume
    else if head.None? then Full
    else if head.value in s.source then Incremental(head.value)
    else Diverged(head.value)
  }

  function Named(dataset: string, plan: Plan): Result<Decision, string> {
    match plan
    case UpToDate => Ok(AlreadyUpToDate)
    case Full => Ok(FullSend)
    case Resume => Ok(ResumeSend("token"))
    case Incremental(base) => Ok(IncrementalSend(Naming.NewName(dataset, base)))
    case Diverged(head) => Err(Naming.PREFIX + Naming.Stamp(head))
  }

  /** The snapshot the stream would create, or None when nothing can be sent or received. */
  function Target(s: State, r: string): Option<int> {
    if r !in s.remotes || s.source == [] then None
    else
      match PlanFor(s, r)
      case Diverged(_) => None
      case UpToDate => None
      case Resume =>
        var t := s.remotes[r].token.value;
        if t in s.source && (s.remotes[r].snaps == [] || Last(s.remotes[r].snaps).value < t) then Some(t) else None
      case _ => Last(s.source)
  }

  function Received(remote: Remote, t: int, holdWorks: bool, left: set<int>): Remote {
    var snaps := remote.snaps + [t];
    remote.(snaps := snaps, token := None,
            holds := if holdWorks then Moved(remote.holds, AsSet(snaps), t, RECEIVED, left) else remote.holds)
  }

  function AfterSend(s: State, r: string, outcome: Outcome): State {
    var target := Target(s, r);
    if target.None? then s
    else
      match outcome
      case NotStarted => s
      case Interrupted => s.(remotes := s.remotes[r := s.remotes[r].(token := target)])
      case Completed(remoteHold, remoteLeft, acknowledged, sourceHold, sourceLeft) =>
        // The Source's hold goes on its latest snapshot, whatever was resumed.
        s.(remotes := s.remotes[r := Received(s.remotes[r], target.value, remoteHold, remoteLeft)],
           holds := if acknowledged && sourceHold
                    then Moved(s.holds, AsSet(s.source), Last(s.source).value, RemoteTag(r), sourceLeft)
                    else s.holds)
  }

  /** The Source's hold of a send to r moves to x. */
  function AfterHold(s: State, r: string, x: int, left: set<int>): State {
    s.(holds := Moved(s.holds, AsSet(s.source), x, RemoteTag(r), left))
  }

  function Next(s: State, e: Event): State {
    match e
    case TakeSnapshot(t) => s.(source := s.source + [t], clock := t)
    case Send(r, outcome) => AfterSend(s, r, outcome)
    case LateHold(r, x, left) => if r in s.remotes then AfterHold(s, r, x, left) else s
    case PruneSource(candidates) => s.(source := Pruned(s.source, candidates, s.holds))
    case PruneRemote(r, candidates, abortToken) =>
      if r !in s.remotes then s
      else
        var remote := s.remotes[r];
        s.(remotes := s.remotes[r := remote.(snaps := Pruned(remote.snaps, candidates, remote.holds),
                                             token := if abortToken then None else remote.token)])
  }

  ghost predicate Increasing(s: seq<int>) {
    forall i, j :: 0 <= i < j < |s| ==> s[i] < s[j]
  }

  ghost predicate ListedBy(s: seq<int>, dataset: string, clock: int) {
    Increasing(s) && AllNameable(dataset, s) && '@' !in dataset && forall t :: t in s ==> t <= clock
  }

  ghost predicate RemoteOk(remote: Remote, clock: int) {
    && ListedBy(remote.snaps, remote.dataset, clock)
    && forall h :: h in remote.holds ==> h.0 in remote.snaps
  }

  ghost predicate WellFormed(s: State) {
    && ListedBy(s.source, s.dataset, s.clock)
    && (forall h :: h in s.holds ==> h.0 in s.source)
    && (forall r :: r in s.remotes ==> RemoteOk(s.remotes[r], s.clock))
  }

  /** The clock moves forward, within the years a name can print. */
  predicate Enabled(s: State, e: Event) {
    e.TakeSnapshot? ==> e.at > s.clock && Naming.PrintableYear(e.at)
  }

  /** The snapshots that are the Remote's head or can become it by pruning: nothing newer is held there. */
  ghost function Heads(remote: Remote): set<int> {
    set x | x in remote.snaps && forall y :: y in remote.snaps && y in HeldTimes(remote.holds) ==> y <= x
  }

  /** Every snapshot that is or can become the Remote's head is tagged for it on the Source. */
  ghost predicate Protected(s: State, r: string)
    requires r in s.remotes
  {
    forall x :: x in Heads(s.remotes[r]) ==> (x, RemoteTag(r)) in s.holds
  }

  // ----- well-formedness

  lemma {:induction false} PrunedIs(s: seq<int>, candidates: set<int>, holds: set<(int, string)>)
    ensures forall x :: x in Pruned(s, candidates, holds) <==> x in s && !(x in candidates && x !in HeldTimes(holds))
  {
    if s != [] {
      PrunedIs(s[1..], candidates, holds);
    }
  }

  lemma {:induction false} PrunedIncreasing(s: seq<int>, candidates: set<int>, holds: set<(int, string)>)
    requires Increasing(s)
    ensures Increasing(Pruned(s, candidates, holds))
  {
    if s != [] {
      var rest := Pruned(s[1..], candidates, holds);
      PrunedIncreasing(s[1..], candidates, holds);
      PrunedIs(s[1..], candidates, holds);
      forall i | 0 <= i < |rest| ensures s[0] < rest[i] {
        assert rest[i] in rest;
        var j :| 1 <= j < |s| && s[j] == rest[i];
      }
    }
  }

  /** The newest snapshot is never pruned while it is held. */
  lemma {:induction false} PrunedLast(s: seq<int>, candidates: set<int>, holds: set<(int, string)>)
    requires s != [] && s[|s| - 1] in HeldTimes(holds)
    ensures Last(Pruned(s, candidates, holds)) == Last(s)
  {
    if |s| > 1 {
      PrunedLast(s[1..], candidates, holds);
    }
  }

  lemma PrunedListed(s: seq<int>, dataset: string, clock: int, candidates: set<int>, holds: set<(int, string)>)
    requires ListedBy(s, dataset, clock)
    ensures ListedBy(Pruned(s, candidates, holds), dataset, clock)
    ensures forall h :: h in holds && h.0 in s ==> h.0 in Pruned(s, candidates, holds)
  {
    PrunedIncreasing(s, candidates, holds);
    PrunedIs(s, candidates, holds);
  }

  lemma PlanUnfolded(s: State, r: string)
    requires r in s.remotes && s.source != []
    ensures var remote := s.remotes[r];
            var head := Last(remote.snaps);
            var latest := Last(s.source).value;
            Named(s.dataset, PlanFor(s, r)) ==
              if head == Some(latest) then Ok(AlreadyUpToDate)
              else if remote.token.Some? then Ok(ResumeSend("token"))
              else if head.None? then Ok(FullSend)
              else if head.value in s.source then Ok(IncrementalSend(Naming.NewName(s.dataset, head.value)))
              else Err(Naming.PREFIX + Naming.Stamp(head.value))
  {
  }

  /** What the code decides from the names is the plan on the instants. */
  lemma DecideIs(s: State, r: string)
    requires WellFormed(s) && r in s.remotes && s.source != []
    ensures Decide(s, r) == Named(s.dataset, PlanFor(s, r))
    ensures Decide(s, r).Err? <==> PlanFor(s, r).Diverged?
  {
    var remote := s.remotes[r];
    var head := Last(remote.snaps);
    assert Last(s.source).value in s.source;
    assert head.Some? ==> head.value in remote.snaps;
    PlanUnfolded(s, r);
    DecideOnTimes(s.dataset, s.source, Last(s.source).value, remote.dataset, head,
                  if remote.token.Some? then Some("token") else None);
  }

  lemma LastIsMax(s: seq<int>, x: int)
    requires Increasing(s) && x in s
    ensures s != [] && x <= Last(s).value
  {
  }

  lemma TargetIsNew(s: State, r: string)
    requires WellFormed(s) && Target(s, r).Some?
    ensures r in s.remotes && s.source != [] && Target(s, r).value in s.source
    ensures Last(s.remotes[r].snaps) != Last(s.source)
    ensures s.remotes[r].snaps != [] ==> Last(s.remotes[r].snaps).value < Target(s, r).value
  {
    var snaps := s.remotes[r].snaps;
    if snaps != [] && Last(snaps).value in s.source {
      LastIsMax(s.source, Last(snaps).value);
    }
  }

  lemma ReceivedOk(remote: Remote, t: int, holdWorks: bool, left: set<int>, clock: int)
    requires RemoteOk(remote, clock) && t <= clock && Naming.PrintableYear(t)
    requires remote.snaps != [] ==> Last(remote.snaps).value < t
    ensures RemoteOk(Received(remote, t, holdWorks, left), clock)
  {
    forall x | x in remote.snaps ensures x < t {
      LastIsMax(remote.snaps, x);
    }
  }

  lemma SentRemoteOk(s: State, r: string, outcome: Outcome)
    requires WellFormed(s) && Target(s, r).Some? && r in s.remotes
    ensures r in AfterSend(s, r, outcome).remotes && RemoteOk(AfterSend(s, r, outcome).remotes[r], s.clock)
  {
    TargetIsNew(s, r);
    var t := Target(s, r).value;
    if outcome.Completed? {
      ReceivedOk(s.remotes[r], t, outcome.remoteHold, outcome.remoteLeft, s.clock);
    }
    assert RemoteOk(s.remotes[r].(token := Some(t)), s.clock);
  }

  lemma SentHolds(s: State, r: string, outcome: Outcome)
    requires Target(s, r).Some? && s.source != [] && forall h :: h in s.holds ==> h.0 in s.source
    ensures forall h :: h in AfterSend(s, r, outcome).holds ==> h.0 in s.source
  {
    assert Last(s.source).value in s.source;
  }

  lemma SentElsewhere(s: State, r: string, outcome: Outcome)
    ensures var t := AfterSend(s, r, outcome);
            t.source == s.source && t.dataset == s.dataset && t.clock == s.clock
            && forall q :: q in t.remotes && q != r ==> q in s.remotes && t.remotes[q] == s.remotes[q]
  {
  }

  lemma SendWellFormed(s: State, r: string, outcome: Outcome)
    requires WellFormed(s)
    ensures WellFormed(AfterSend(s, r, outcome))
  {
    if Target(s, r).Some? {
      TargetIsNew(s, r);
      SentRemoteOk(s, r, outcome);
      SentHolds(s, r, outcome);
      SentElsewhere(s, r, outcome);
    }
  }

  lemma TakeWellFormed(s: State, t: int)
    requires WellFormed(s) && Enabled(s, TakeSnapshot(t))
    ensures WellFormed(Next(s, TakeSnapshot(t)))
  {
    forall i | 0 <= i < |s.source| ensures s.source[i] < t {
      assert s.source[i] in s.source;
    }
  }

  lemma HoldWellFormed(s: State, r: string, x: int, left: set<int>)
    requires WellFormed(s)
    ensures WellFormed(AfterHold(s, r, x, left))
  {
  }

  lemma PruneWellFormed(s: State, e: Event)
    requires WellFormed(s) && (e.PruneSource? || e.PruneRemote?)
    ensures WellFormed(Next(s, e))
  {
    match e
    case PruneSource(candidates) => PrunedListed(s.source, s.dataset, s.clock, candidates, s.holds);
    case PruneRemote(r, candidates, _) =>
      if r in s.remotes {
        PrunedListed(s.remotes[r].snaps, s.remotes[r].dataset, s.clock, candidates, s.remotes[r].holds);
      }
    case _ =>
  }

  lemma StepWellFormed(s: State, e: Event)
    requires WellFormed(s) && Enabled(s, e)
    ensures WellFormed(Next(s, e))
  {
    match e
    case TakeSnapshot(t) => TakeWellFormed(s, t);
    case Send(r, outcome) => SendWellFormed(s, r, outcome);
    case LateHold(r, x, left) => HoldWellFormed(s, r, x, left);
    case _ => PruneWellFormed(s, e);
  }

  // ----- protection

  lemma HeadIsHead(remote: Remote, clock: int)
    requires RemoteOk(remote, clock) && remote.snaps != []
    ensures Last(remote.snaps).value in Heads(remote)
  {
    forall y | y in remote.snaps ensures y <= Last(remote.snaps).value {
      LastIsMax(remote.snaps, y);
    }
  }

  /** It is enough that the head is tagged on both sides. */
  lemma TaggedHeadProtects(s: State, r: string)
    requires WellFormed(s) && r in s.remotes
    requires s.remotes[r].snaps != [] ==>
      var head := Last(s.remotes[r].snaps).value;
      (head, RemoteTag(r)) in s.holds && (head, RECEIVED) in s.remotes[r].holds
    ensures Protected(s, r)
  {
    var remote := s.remotes[r];
    if remote.snaps != [] {
      var head := Last(remote.snaps).value;
      assert head in remote.snaps && head in HeldTimes(remote.holds);
      forall x | x in Heads(remote) ensures x == head {
        LastIsMax(remote.snaps, x);
      }
    }
  }

  /** Pruning the Remote makes no new heads possible. */
  lemma PrunedHeads(remote: Remote, candidates: set<int>, token: Option<int>)
    ensures Heads(remote.(snaps := Pruned(remote.snaps, candidates, remote.holds), token := token)) <= Heads(remote)
  {
    var after := remote.(snaps := Pruned(remote.snaps, candidates, remote.holds), token := token);
    PrunedIs(remote.snaps, candidates, remote.holds);
    forall x | x in Heads(after) ensures x in Heads(remote) {
      assert forall y :: y in remote.snaps && y in HeldTimes(remote.holds) ==> y in after.snaps;
    }
  }

  /** Snapshots and prunes, on either side and of anything, keep every Remote protected. */
  lemma OtherStepsProtect(s: State, e: Event, r: string)
    requires !e.Send? && !e.LateHold? && r in s.remotes && Protected(s, r)
    ensures r in Next(s, e).remotes && Protected(Next(s, e), r)
  {
    if e.PruneRemote? && e.remote == r {
      PrunedHeads(s.remotes[r], e.candidates, if e.abortToken then None else s.remotes[r].token);
    }
  }

  lemma OtherTagUnmoved(s: State, q: string, r: string, onto: int, left: set<int>)
    requires q != r
    ensures forall x :: (x, RemoteTag(r)) in AfterHold(s, q, onto, left).holds <==> (x, RemoteTag(r)) in s.holds
  {
    TagsDiffer(r, q);
  }

  /** A send to another Remote does not touch this one, whatever its outcome. */
  lemma OtherSends(s: State, q: string, outcome: Outcome, r: string)
    requires r in s.remotes && q != r && (Target(s, q).Some? ==> s.source != [])
    ensures var t := AfterSend(s, q, outcome);
            r in t.remotes && t.remotes[r] == s.remotes[r]
            && forall x :: (x, RemoteTag(r)) in t.holds <==> (x, RemoteTag(r)) in s.holds
  {
    if Target(s, q).Some? && outcome.Completed? {
      OtherTagUnmoved(s, q, r, Last(s.source).value, outcome.sourceLeft);
    }
  }

  /** The tag of r is on x after its move onto another snapshot: the move puts it there, or it was there and
      is not released. */
  predicate StaysBeside(s: State, r: string, onto: int, left: set<int>, x: int) {
    if onto in s.source && (onto, RemoteTag(r)) !in s.holds
    then x == onto || ((x, RemoteTag(r)) in s.holds && x in left)
    else (x, RemoteTag(r)) in s.holds
  }

  /** The tag of r is on x after a completed transfer to r. */
  predicate Stays(s: State, r: string, outcome: Outcome, x: int)
    requires outcome.Completed? && s.source != []
  {
    if outcome.acknowledged && outcome.sourceHold
    then StaysBeside(s, r, Last(s.source).value, outcome.sourceLeft, x)
    else (x, RemoteTag(r)) in s.holds
  }

  /** A completed transfer after which what the Remote received stays tagged on the Source and, unless it is
      held on the Remote as well, so does every head that the Remote could fall back to. */
  ghost predicate Harmless(s: State, r: string, outcome: Outcome)
    requires outcome.Completed? && Target(s, r).Some? && r in s.remotes && s.source != []
  {
    && Stays(s, r, outcome, Target(s, r).value)
    && (outcome.remoteHold || forall x :: x in Heads(s.remotes[r]) ==> Stays(s, r, outcome, x))
  }

  lemma TaggedAfterHold(s: State, r: string, onto: int, left: set<int>, x: int)
    ensures (x, RemoteTag(r)) in AfterHold(s, r, onto, left).holds <==> StaysBeside(s, r, onto, left, x)
  {
  }

  lemma TaggedAfter(s: State, r: string, outcome: Outcome, x: int)
    requires WellFormed(s) && r in s.remotes && outcome.Completed? && Target(s, r).Some? && s.source != []
    ensures (x, RemoteTag(r)) in AfterSend(s, r, outcome).holds <==> Stays(s, r, outcome, x)
  {
    TaggedAfterHold(s, r, Last(s.source).value, outcome.sourceLeft, x);
  }

  /** What can be the head after a transfer: what was received, and the old ones unless it is held. */
  lemma HeadsAfter(s: State, r: string, outcome: Outcome)
    requires WellFormed(s) && r in s.remotes && outcome.Completed? && Target(s, r).Some?
    ensures r in AfterSend(s, r, outcome).remotes
    ensures Heads(AfterSend(s, r, outcome).remotes[r])
         == {Target(s, r).value} + if outcome.remoteHold then {} else Heads(s.remotes[r])
  {
    TargetIsNew(s, r);
    ReceivedHeads(s.remotes[r], Target(s, r).value, outcome.remoteHold, outcome.remoteLeft, s.clock);
  }

  lemma ReceivedHeads(remote: Remote, t: int, holdWorks: bool, left: set<int>, clock: int)
    requires RemoteOk(remote, clock) && (remote.snaps != [] ==> Last(remote.snaps).value < t)
    ensures Heads(Received(remote, t, holdWorks, left)) == {t} + if holdWorks then {} else Heads(remote)
  {
    forall x | x in remote.snaps ensures x < t {
      LastIsMax(remote.snaps, x);
    }
    var after := Received(remote, t, holdWorks, left);
    assert forall x :: x in after.snaps <==> x in remote.snaps || x == t;
    if holdWorks {
      assert (t, RECEIVED) in after.holds && t in HeldTimes(after.holds);
    } else {
      assert t !in HeldTimes(remote.holds);
    }
  }

  /** Exactly the harmless transfers leave the Remote protected, whatever went before. */
  lemma CompletedProtectsIff(s: State, r: string, outcome: Outcome)
    requires WellFormed(s) && r in s.remotes && outcome.Completed? && Target(s, r).Some? && s.source != []
    ensures r in AfterSend(s, r, outcome).remotes
    ensures Protected(AfterSend(s, r, outcome), r) <==> Harmless(s, r, outcome)
  {
    HeadsAfter(s, r, outcome);
    forall x ensures (x, RemoteTag(r)) in AfterSend(s, r, outcome).holds <==> Stays(s, r, outcome, x) {
      TaggedAfter(s, r, outcome, x);
    }
  }

  /** A late hold keeps the Remote protected exactly when it takes the tag from none of its possible heads. */
  lemma HoldProtectsIff(s: State, r: string, x: int, left: set<int>)
    requires r in s.remotes
    ensures Protected(AfterHold(s, r, x, left), r)
       <==> forall y :: y in Heads(s.remotes[r]) ==> StaysBeside(s, r, x, left, y)
  {
    forall y ensures (y, RemoteTag(r)) in AfterHold(s, r, x, left).holds <==> StaysBeside(s, r, x, left, y) {
      TaggedAfterHold(s, r, x, left, y);
    }
  }

  /** Whether an event endangers this Remote: a completed transfer to it that is not harmless, or a late hold
      that takes its tag from a possible head. */
  ghost predicate Endangers(s: State, e: Event, r: string)
    requires r in s.remotes
  {
    match e
    case Send(q, outcome) =>
      q == r && outcome.Completed? && Target(s, r).Some? && s.source != [] && !Harmless(s, r, outcome)
    case LateHold(q, x, left) =>
      q == r && exists y :: y in Heads(s.remotes[r]) && !StaysBeside(s, r, x, left, y)
    case _ => false
  }

  lemma StepProtectsIff(s: State, e: Event, r: string)
    requires WellFormed(s) && Enabled(s, e) && r in s.remotes && Protected(s, r)
    ensures r in Next(s, e).remotes
    ensures Protected(Next(s, e), r) <==> !Endangers(s, e, r)
  {
    match e
    case Send(q, outcome) => SendProtectsIff(s, q, outcome, r);
    case LateHold(q, x, left) =>
      if q == r {
        HoldProtectsIff(s, r, x, left);
      } else {
        OtherTagUnmoved(s, q, r, x, left);
      }
    case _ => OtherStepsProtect(s, e, r);
  }

  lemma SendProtectsIff(s: State, q: string, outcome: Outcome, r: string)
    requires WellFormed(s) && r in s.remotes && Protected(s, r)
    ensures r in AfterSend(s, q, outcome).remotes
    ensures Protected(AfterSend(s, q, outcome), r) <==> !Endangers(s, Send(q, outcome), r)
  {
    if Target(s, q).Some? {
      TargetIsNew(s, q);
    }
    if q != r {
      OtherSends(s, q, outcome, r);
    } else if outcome.Completed? && Target(s, r).Some? {
      CompletedProtectsIff(s, r, outcome);
    }
  }

  lemma HeadOnSource(s: State, r: string)
    requires WellFormed(s) && r in s.remotes && Protected(s, r)
    ensures var head := Last(s.remotes[r].snaps);
            head.Some? ==> head.value in s.source && s.source != [] && head.value <= Last(s.source).value
  {
    var head := Last(s.remotes[r].snaps);
    if head.Some? {
      HeadIsHead(s.remotes[r], s.clock);
      assert (head.value, RemoteTag(r)).0 in s.source;
      LastIsMax(s.source, head.value);
    }
  }

  lemma PlanOfProtected(s: State, r: string)
    requires WellFormed(s) && r in s.remotes && s.source != [] && Protected(s, r)
    ensures !PlanFor(s, r).Diverged?
    ensures PlanFor(s, r).Incremental? ==>
      Some(PlanFor(s, r).base) == Last(s.remotes[r].snaps) && PlanFor(s, r).base < Last(s.source).value
  {
    HeadOnSource(s, r);
  }

  /** While a Remote is protected, its send never meets a divergence, and an incremental base is the
      Remote's head and strictly older than the latest snapshot. */
  lemma ProtectedNeverDiverges(s: State, r: string)
    requires WellFormed(s) && r in s.remotes && s.source != [] && Protected(s, r)
    ensures Decide(s, r) == Named(s.dataset, PlanFor(s, r)) && Decide(s, r).Ok?
    ensures PlanFor(s, r).Incremental? ==>
      Some(PlanFor(s, r).base) == Last(s.remotes[r].snaps) && PlanFor(s, r).base < Last(s.source).value
  {
    PlanOfProtected(s, r);
    DecideIs(s, r);
  }

  /** A transfer of the latest snapshot in which every hold is placed and the final status arrives, whatever
      old holds stay behind. */
  predicate Sound(s: State, r: string, outcome: Outcome)
    requires outcome.Completed?
  {
    outcome.remoteHold && outcome.acknowledged && outcome.sourceHold && Target(s, r) == Last(s.source)
  }

  /** A sound transfer repairs: whatever went before, it leaves the Remote protected. */
  lemma SoundRecovers(s: State, r: string, outcome: Outcome)
    requires WellFormed(s) && r in s.remotes && outcome.Completed? && Target(s, r).Some? && Sound(s, r, outcome)
    ensures r in AfterSend(s, r, outcome).remotes && Protected(AfterSend(s, r, outcome), r)
  {
    TargetIsNew(s, r);
    CompletedProtectsIff(s, r, outcome);
  }

  /** The condition where nothing stays behind and what is received is not tagged yet: the final status
      arrives, the Source's hold is placed, the token was of the latest snapshot, and the Remote's hold is
      placed or the Remote was empty. */
  lemma HarmlessIs(s: State, r: string, outcome: Outcome)
    requires WellFormed(s) && r in s.remotes && outcome.Completed? && Target(s, r).Some? && s.source != []
    requires outcome.sourceLeft == {} && (Target(s, r).value, RemoteTag(r)) !in s.holds
    ensures Harmless(s, r, outcome)
       <==> outcome.acknowledged && outcome.sourceHold && Target(s, r) == Last(s.source)
            && (outcome.remoteHold || s.remotes[r].snaps == [])
  {
    TargetIsNew(s, r);
    if s.remotes[r].snaps != [] {
      HeadIsHead(s.remotes[r], s.clock);
    }
  }

  // ----- whole runs

  ghost predicate Run(s: State, events: seq<Event>, r: string, final: State)
    requires r in s.remotes
    decreases |events|
  {
    if events == [] then final == s
    else
      && Enabled(s, events[0]) && !Endangers(s, events[0], r)
      && r in Next(s, events[0]).remotes && Run(Next(s, events[0]), events[1..], r, final)
  }

  lemma {:induction false} RunProtects(s: State, events: seq<Event>, r: string, final: State)
    requires WellFormed(s) && r in s.remotes && Protected(s, r) && Run(s, events, r, final)
    ensures WellFormed(final) && r in final.remotes && Protected(final, r)
    decreases |events|
  {
    if events != [] {
      StepProtectsIff(s, events[0], r);
      StepWellFormed(s, events[0]);
      RunProtects(Next(s, events[0]), events[1..], r, final);
    }
  }

  /** In every run without an endangering transfer or late hold for r, whatever happens to the other Remotes,
      whichever old holds stay behind, and however both sides prune, r stays protected; so a send to it never
      reports a divergence. */
  lemma NoDivergence(s: State, events: seq<Event>, r: string, final: State)
    requires WellFormed(s) && r in s.remotes && Protected(s, r) && Run(s, events, r, final)
    ensures r in final.remotes && Protected(final, r)
    ensures final.source != [] ==> Decide(final, r).Ok?
  {
    RunProtects(s, events, r, final);
    if final.source != [] {
      ProtectedNeverDiverges(final, r);
    }
  }

  /** A Source and Remotes before the first snapshot. */
  function Fresh(dataset: string, targets: map<string, string>, clock: int): State {
    State(dataset, [], {}, map r | r in targets :: Remote(targets[r], [], {}, None), clock)
  }

  /** Before the first snapshot every Remote is protected, so the runs above start from any configuration. */
  lemma FreshIsProtected(dataset: string, targets: map<string, string>, clock: int)
    requires '@' !in dataset && forall r :: r in targets ==> '@' !in targets[r]
    ensures var s := Fresh(dataset, targets, clock);
            WellFormed(s) && s.remotes.Keys == targets.Keys && forall r :: r in s.remotes ==> Protected(s, r)
  {
  }

  // ----- what an endangering transfer leads to

  /** An interrupted transfer changes nothing but the token, and the next send resumes the same snapshot. */
  lemma InterruptedResumes(s: State, r: string)
    requires WellFormed(s) && Target(s, r).Some?
    ensures var t := AfterSend(s, r, Interrupted);
            && t.source == s.source && t.holds == s.holds && t.clock == s.clock && t.remotes.Keys == s.remotes.Keys
            && (forall q :: q in s.remotes && q != r ==> t.remotes[q] == s.remotes[q])
            && t.remotes[r].snaps == s.remotes[r].snaps && t.remotes[r].holds == s.remotes[r].holds
            && PlanFor(t, r) == Resume && Target(t, r) == Target(s, r)
  {
    TargetIsNew(s, r);
  }

  lemma ResumesAt(s: State, r: string, t: int)
    requires WellFormed(s) && r in s.remotes && s.remotes[r].token == Some(t) && t in s.source
    requires forall x :: x in s.remotes[r].snaps ==> x < t
    ensures Target(s, r) == Some(t) && PlanFor(s, r) == Resume
  {
    LastIsMax(s.source, t);
    var snaps := s.remotes[r].snaps;
    assert snaps != [] ==> snaps[|snaps| - 1] in snaps;
  }

  /** Nothing is received in between. */
  lemma NoneReceived(s: State, r: string, e: Event)
    requires r in s.remotes
    requires !(e.Send? && e.remote == r) && !(e.PruneRemote? && e.remote == r && e.abortToken)
    ensures r in Next(s, e).remotes && Next(s, e).remotes[r].token == s.remotes[r].token
    ensures forall x :: x in Next(s, e).remotes[r].snaps ==> x in s.remotes[r].snaps
  {
    if e.PruneRemote? && e.remote == r {
      PrunedIs(s.remotes[r].snaps, e.candidates, s.remotes[r].holds);
    }
  }

  /** It stays so until that Remote is sent to, its token is aborted, or the Source has destroyed the snapshot. */
  lemma ResumeStays(s: State, r: string, e: Event, t: int)
    requires WellFormed(s) && Enabled(s, e) && Target(s, r) == Some(t) && PlanFor(s, r) == Resume
    requires !(e.Send? && e.remote == r) && !(e.PruneRemote? && e.remote == r && e.abortToken)
    ensures r in Next(s, e).remotes && Next(s, e).remotes[r].token == Some(t)
    ensures t in Next(s, e).source ==> Target(Next(s, e), r) == Some(t) && PlanFor(Next(s, e), r) == Resume
  {
    TargetIsNew(s, r);
    forall x | x in s.remotes[r].snaps ensures x < t {
      LastIsMax(s.remotes[r].snaps, x);
    }
    NoneReceived(s, r, e);
    StepWellFormed(s, e);
    if t in Next(s, e).source {
      ResumesAt(Next(s, e), r, t);
    }
  }

  /** Sending again to an up-to-date Remote repairs nothing: it gets no hold. */
  lemma ResendRepairsNothing(s: State, r: string, outcome: Outcome)
    requires WellFormed(s) && r in s.remotes && s.source != [] && Last(s.remotes[r].snaps) == Last(s.source)
    ensures AfterSend(s, r, outcome) == s
  {
  }

  /** The Remote's head is held for nobody on the Source. */
  ghost predicate Exposed(s: State, r: string)
    requires r in s.remotes
  {
    var head := Last(s.remotes[r].snaps);
    head.Some? && head.value in s.source && head.value !in HeldTimes(s.holds) && s.remotes[r].token.None?
  }

  /** A lost final status, a failed hold on the Source, or a token of an older snapshot leaves what the
      Remote received without a hold on the Source, unless some tag happens to be there. */
  lemma UnsoundExposes(s: State, r: string, outcome: Outcome)
    requires WellFormed(s) && r in s.remotes && outcome.Completed? && Target(s, r).Some?
    requires !(outcome.acknowledged && outcome.sourceHold) || Target(s, r) != Last(s.source)
    requires Target(s, r).value !in HeldTimes(s.holds)
    ensures r in AfterSend(s, r, outcome).remotes && Exposed(AfterSend(s, r, outcome), r)
  {
    TargetIsNew(s, r);
    var after, t := AfterSend(s, r, outcome), Target(s, r).value;
    assert after.remotes[r].snaps == s.remotes[r].snaps + [t];
    assert forall h: (int, string) :: h in after.holds ==> h in s.holds || h == (Last(s.source).value, RemoteTag(r));
  }

  lemma ExposedPlan(s: State, r: string)
    requires WellFormed(s) && r in s.remotes && Exposed(s, r) && Naming.PrintableYear(s.clock + 1)
    ensures var head := Last(s.remotes[r].snaps).value;
            var t := Next(Next(s, TakeSnapshot(s.clock + 1)), PruneSource({head}));
            t.source != [] && r in t.remotes && WellFormed(t) && PlanFor(t, r) == Diverged(head)
  {
    var head := Last(s.remotes[r].snaps).value;
    var mid := Next(s, TakeSnapshot(s.clock + 1));
    var t := Next(mid, PruneSource({head}));
    StepWellFormed(s, TakeSnapshot(s.clock + 1));
    StepWellFormed(mid, PruneSource({head}));
    PrunedIs(mid.source, {head}, mid.holds);
    assert s.clock + 1 in mid.source && head != s.clock + 1;
    assert s.clock + 1 in t.source && head !in t.source;
    assert Last(t.source).value in t.source;
  }

  /** From an exposed head one more snapshot and one prune of the Source lead to divergence. */
  lemma ExposedDiverges(s: State, r: string)
    requires WellFormed(s) && r in s.remotes && Exposed(s, r) && Naming.PrintableYear(s.clock + 1)
    ensures var head := Last(s.remotes[r].snaps).value;
            var t := Next(Next(s, TakeSnapshot(s.clock + 1)), PruneSource({head}));
            t.source != [] && r in t.remotes && Decide(t, r).Err?
  {
    ExposedPlan(s, r);
    var head := Last(s.remotes[r].snaps).value;
    DecideIs(Next(Next(s, TakeSnapshot(s.clock + 1)), PruneSource({head})), r);
  }

  /** Some run without a further endangering transfer ends there. */
  ghost predicate Reaches(s: State, r: string, final: State)
    requires r in s.remotes
  {
    exists events :: Run(s, events, r, final)
  }

  /** A send to r at this point would diverge. */
  predicate Refused(s: State, r: string) {
    r in s.remotes && s.source != [] && PlanFor(s, r).Diverged?
  }

  ghost predicate CanDiverge(s: State, r: string)
    requires r in s.remotes
  {
    exists final :: Reaches(s, r, final) && Refused(final, r)
  }

  lemma {:induction false} RunWellFormed(s: State, events: seq<Event>, r: string, final: State)
    requires WellFormed(s) && r in s.remotes && Run(s, events, r, final)
    ensures WellFormed(final)
    decreases |events|
  {
    if events != [] {
      StepWellFormed(s, events[0]);
      RunWellFormed(Next(s, events[0]), events[1..], r, final);
    }
  }

  lemma ReachesWellFormed(s: State, r: string, final: State)
    requires WellFormed(s) && r in s.remotes && Reaches(s, r, final)
    ensures WellFormed(final)
  {
    var events :| Run(s, events, r, final);
    RunWellFormed(s, events, r, final);
  }

  lemma RefusedIff(s: State, r: string)
    requires WellFormed(s) && r in s.remotes && s.source != []
    ensures Refused(s, r) <==> Decide(s, r).Err?
  {
    DecideIs(s, r);
  }

  /** To be able to diverge is to be able to reach a state in which the code reports a divergence. */
  lemma CanDivergeIs(s: State, r: string)
    requires WellFormed(s) && r in s.remotes
    ensures CanDiverge(s, r)
       <==> exists final :: Reaches(s, r, final) && r in final.remotes && final.source != [] && Decide(final, r).Err?
  {
    forall final | Reaches(s, r, final) && r in final.remotes && final.source != []
      ensures Refused(final, r) <==> Decide(final, r).Err?
    {
      ReachesWellFormed(s, r, final);
      RefusedIff(final, r);
    }
  }

  lemma ReachesSelf(s: State, r: string)
    requires r in s.remotes
    ensures Reaches(s, r, s)
  {
    assert Run(s, [], r, s);
  }

  lemma DivergedNow(s: State, r: string)
    requires WellFormed(s) && r in s.remotes && s.source != [] && PlanFor(s, r).Diverged?
    ensures CanDiverge(s, r)
  {
    ReachesSelf(s, r);
  }

  lemma ReachesFrom(s: State, e: Event, r: string, final: State)
    requires r in s.remotes && Enabled(s, e) && !Endangers(s, e, r)
    requires r in Next(s, e).remotes && Reaches(Next(s, e), r, final)
    ensures Reaches(s, r, final)
  {
    var events :| Run(Next(s, e), events, r, final);
    assert ([e] + events)[1..] == events;
    assert Run(s, [e] + events, r, final);
  }

  lemma Before(s: State, e: Event, r: string)
    requires r in s.remotes && Enabled(s, e) && !Endangers(s, e, r)
    requires r in Next(s, e).remotes && CanDiverge(Next(s, e), r)
    ensures CanDiverge(s, r)
  {
    var final :| Reaches(Next(s, e), r, final) && Refused(final, r);
    ReachesFrom(s, e, r, final);
  }

  /** Every hold on the Source is the tag of a Remote that is configured. */
  ghost predicate OnlyRemoteTags(s: State) {
    forall h :: h in s.holds ==> exists q :: q in s.remotes && h.1 == RemoteTag(q)
  }

  ghost predicate OthersProtected(s: State, r: string) {
    forall q :: q in s.remotes && q != r ==> Protected(s, q)
  }

  /** What holds of everything but r itself. */
  ghost predicate Surroundings(s: State, r: string) {
    WellFormed(s) && r in s.remotes && OnlyRemoteTags(s) && OthersProtected(s, r)
  }

  lemma SurroundingsStay(s: State, e: Event, r: string)
    requires Surroundings(s, r) && Enabled(s, e) && !e.Send? && !e.LateHold?
    ensures Surroundings(Next(s, e), r)
  {
    StepWellFormed(s, e);
    forall q | q in s.remotes && q != r ensures q in Next(s, e).remotes && Protected(Next(s, e), q) {
      OtherStepsProtect(s, e, q);
    }
    assert Next(s, e).remotes.Keys == s.remotes.Keys;
  }

  /** The Remotes whose tag keeps x on the Source. */
  ghost function Keepers(s: State, x: int): set<string> {
    set q | q in s.remotes && (x, RemoteTag(q)) in s.holds
  }

  /** r's head is x and not tagged for it; a newer snapshot n exists, which no keeper of x has received. */
  ghost predicate Clearing(s: State, r: string, x: int, n: int) {
    && Surroundings(s, r)
    && Last(s.remotes[r].snaps) == Some(x) && s.remotes[r].token.None? && r !in Keepers(s, x)
    && Last(s.source) == Some(n) && n != x
    && forall q :: q in Keepers(s, x) ==> n !in s.remotes[q].snaps && (n, RemoteTag(q)) !in s.holds
  }

  /** When no other Remote keeps x, the Source prunes it, and r has diverged. */
  lemma PruneHead(s: State, r: string, x: int, n: int)
    requires Clearing(s, r, x, n) && Keepers(s, x) == {}
    ensures CanDiverge(s, r)
  {
    var e := PruneSource({x});
    var t := Next(s, e);
    forall h | h in s.holds ensures h.0 != x {
      var q :| q in s.remotes && h.1 == RemoteTag(q);
      assert h == (h.0, RemoteTag(q)) && q !in Keepers(s, x);
    }
    StepWellFormed(s, e);
    PrunedIs(s.source, {x}, s.holds);
    assert n in s.source && n in t.source && x !in t.source;
    assert Last(t.source).value in t.source;
    DivergedNow(t, r);
    Before(s, e, r);
  }

  /** The send that moves another Remote's tag from x to the latest snapshot. */
  const CLEAN := Completed(true, {}, true, true, {})

  lemma ClearingTarget(s: State, r: string, x: int, n: int, q: string)
    requires Clearing(s, r, x, n) && q in Keepers(s, x) && s.remotes[q].token.None?
    ensures q != r && Target(s, q) == Some(n)
  {
    HeadOnSource(s, q);
    var snaps := s.remotes[q].snaps;
    assert snaps != [] ==> Last(snaps).value in snaps;
  }

  lemma CleanMove(s: State, q: string, n: int)
    requires WellFormed(s) && q in s.remotes && s.source != [] && Target(s, q) == Last(s.source) == Some(n)
    requires (n, RemoteTag(q)) !in s.holds
    ensures var t := AfterSend(s, q, CLEAN);
            && t.source == s.source && t.remotes.Keys == s.remotes.Keys
            && forall h :: h in t.holds <==> (h in s.holds && h.1 != RemoteTag(q)) || h == (n, RemoteTag(q))
  {
    assert n in AsSet(s.source);
  }

  lemma SendKeepsSurroundings(s: State, r: string, q: string, n: int)
    requires Surroundings(s, r) && q in s.remotes && q != r && s.source != []
    requires Target(s, q) == Last(s.source) == Some(n) && (n, RemoteTag(q)) !in s.holds
    ensures Surroundings(AfterSend(s, q, CLEAN), r)
  {
    var t := AfterSend(s, q, CLEAN);
    SendWellFormed(s, q, CLEAN);
    CleanMove(s, q, n);
    SoundRecovers(s, q, CLEAN);
    forall p | p in t.remotes && p != r && p != q ensures Protected(t, p) {
      OtherSends(s, q, CLEAN, p);
    }
  }

  lemma KeepersAfter(s: State, r: string, x: int, n: int, q: string)
    requires Clearing(s, r, x, n) && q in Keepers(s, x) && s.remotes[q].token.None?
    ensures var t := AfterSend(s, q, CLEAN); Clearing(t, r, x, n) && Keepers(t, x) == Keepers(s, x) - {q}
  {
    var t := AfterSend(s, q, CLEAN);
    ClearingTarget(s, r, x, n, q);
    SendKeepsSurroundings(s, r, q, n);
    CleanMove(s, q, n);
    OtherSends(s, q, CLEAN, r);
    forall p | p in s.remotes ensures p in Keepers(t, x) <==> p in Keepers(s, x) && p != q {
      if p != q {
        TagsDiffer(p, q);
      }
    }
    forall p | p in Keepers(t, x) ensures n !in t.remotes[p].snaps && (n, RemoteTag(p)) !in t.holds {
      OtherSends(s, q, CLEAN, p);
    }
  }

  lemma {:induction false} NothingPruned(s: seq<int>, holds: set<(int, string)>)
    ensures Pruned(s, {}, holds) == s
  {
    if s != [] {
      NothingPruned(s[1..], holds);
    }
  }

  function WithoutToken(s: State, q: string): State
    requires q in s.remotes
  {
    s.(remotes := s.remotes[q := s.remotes[q].(token := None)])
  }

  lemma AbortIs(s: State, q: string)
    requires q in s.remotes
    ensures Next(s, PruneRemote(q, {}, true)) == WithoutToken(s, q)
  {
    NothingPruned(s.remotes[q].snaps, s.remotes[q].holds);
  }

  lemma ClearingStays(s: State, r: string, x: int, n: int, q: string)
    requires Clearing(s, r, x, n) && q in s.remotes && Surroundings(WithoutToken(s, q), r)
    ensures Clearing(WithoutToken(s, q), r, x, n) && Keepers(WithoutToken(s, q), x) == Keepers(s, x)
  {
  }

  /** A token of the keeper is aborted first, so that its next send is of the latest snapshot. */
  lemma AbortToken(s: State, r: string, x: int, n: int, q: string)
    requires Clearing(s, r, x, n) && q in Keepers(s, x)
    ensures var t := Next(s, PruneRemote(q, {}, true));
            Clearing(t, r, x, n) && Keepers(t, x) == Keepers(s, x) && t.remotes[q].token.None?
  {
    SurroundingsStay(s, PruneRemote(q, {}, true), r);
    AbortIs(s, q);
    ClearingStays(s, r, x, n, q);
  }

  /** The state after a keeper has aborted its token and received the newest snapshot. */
  ghost function MovedOn(s: State, q: string): State {
    AfterSend(Next(s, PruneRemote(q, {}, true)), q, CLEAN)
  }

  lemma KeeperMovesOn(s: State, r: string, x: int, n: int, q: string)
    requires Clearing(s, r, x, n) && q in Keepers(s, x)
    ensures Clearing(MovedOn(s, q), r, x, n) && Keepers(MovedOn(s, q), x) == Keepers(s, x) - {q}
  {
    AbortToken(s, r, x, n, q);
    KeepersAfter(Next(s, PruneRemote(q, {}, true)), r, x, n, q);
  }

  lemma BeforeMovingOn(s: State, r: string, q: string)
    requires r in s.remotes && q in s.remotes && q != r && r in MovedOn(s, q).remotes && CanDiverge(MovedOn(s, q), r)
    ensures CanDiverge(s, r)
  {
    var a := Next(s, PruneRemote(q, {}, true));
    Before(a, Send(q, CLEAN), r);
    Before(s, PruneRemote(q, {}, true), r);
  }

  /** One keeper after another moves its tag on; then the head is pruned. */
  lemma {:induction false} ClearAll(s: State, r: string, x: int, n: int)
    requires Clearing(s, r, x, n)
    ensures CanDiverge(s, r)
    decreases |Keepers(s, x)|
  {
    if q :| q in Keepers(s, x) {
      KeeperMovesOn(s, r, x, n, q);
      ClearAll(MovedOn(s, q), r, x, n);
      BeforeMovingOn(s, r, q);
    } else {
      PruneHead(s, r, x, n);
    }
  }

  /** Everything newer than x is pruned from a Remote on which nothing newer is held. */
  lemma {:induction false} PrunedDown(s: seq<int>, x: int, candidates: set<int>, holds: set<(int, string)>)
    requires Increasing(s) && x in s && x !in candidates
    requires forall y :: y in s && y > x ==> y in candidates && y !in HeldTimes(holds)
    ensures Last(Pruned(s, candidates, holds)) == Some(x)
  {
    var p := Pruned(s, candidates, holds);
    PrunedIs(s, candidates, holds);
    PrunedIncreasing(s, candidates, holds);
    LastIsMax(p, x);
    assert Last(p).value in p;
  }

  lemma FallBack(s: State, r: string, x: int) returns (e: Event)
    requires Surroundings(s, r) && x in Heads(s.remotes[r]) && (x, RemoteTag(r)) !in s.holds
    ensures e.PruneRemote? && Surroundings(Next(s, e), r) && Last(Next(s, e).remotes[r].snaps) == Some(x)
    ensures Next(s, e).remotes[r].token.None? && Next(s, e).holds == s.holds && Next(s, e).clock == s.clock
  {
    var remote := s.remotes[r];
    var newer := set y | y in remote.snaps && y > x;
    e := PruneRemote(r, newer, true);
    SurroundingsStay(s, e, r);
    PrunedDown(remote.snaps, x, newer, remote.holds);
  }

  lemma NewSnapshot(s: State, r: string, x: int)
    requires Surroundings(s, r) && Last(s.remotes[r].snaps) == Some(x) && s.remotes[r].token.None?
    requires (x, RemoteTag(r)) !in s.holds && Naming.PrintableYear(s.clock + 1)
    ensures Clearing(Next(s, TakeSnapshot(s.clock + 1)), r, x, s.clock + 1)
  {
    var n := s.clock + 1;
    SurroundingsStay(s, TakeSnapshot(n), r);
    assert x in s.remotes[r].snaps;
    assert n !in s.source;
    forall q | q in s.remotes ensures n !in s.remotes[q].snaps && (n, RemoteTag(q)) !in s.holds {
      assert (n, RemoteTag(q)).0 == n;
    }
  }

  lemma FallenBackCanDiverge(s: State, r: string, x: int)
    requires Surroundings(s, r) && Last(s.remotes[r].snaps) == Some(x) && s.remotes[r].token.None?
    requires (x, RemoteTag(r)) !in s.holds && Naming.PrintableYear(s.clock + 1)
    ensures CanDiverge(s, r)
  {
    var e := TakeSnapshot(s.clock + 1);
    NewSnapshot(s, r, x);
    ClearAll(Next(s, e), r, x, s.clock + 1);
    Before(s, e, r);
  }

  /** A possible head without the tag can come to divergence, however many other Remotes have their tags on
      it: the Remote falls back to it, every other Remote moves on to a newer snapshot, and the Source prunes
      it. */
  lemma UnprotectedCanDiverge(s: State, r: string)
    requires Surroundings(s, r) && !Protected(s, r) && Naming.PrintableYear(s.clock + 1)
    ensures CanDiverge(s, r)
  {
    var x :| x in Heads(s.remotes[r]) && (x, RemoteTag(r)) !in s.holds;
    var e := FallBack(s, r, x);
    FallBackFirst(s, r, x, e);
  }

  lemma FallBackFirst(s: State, r: string, x: int, e: Event)
    requires r in s.remotes && e.PruneRemote? && Surroundings(Next(s, e), r)
    requires Last(Next(s, e).remotes[r].snaps) == Some(x) && Next(s, e).remotes[r].token.None?
    requires (x, RemoteTag(r)) !in Next(s, e).holds && Naming.PrintableYear(Next(s, e).clock + 1)
    ensures CanDiverge(s, r)
  {
    FallenBackCanDiverge(Next(s, e), r, x);
    Before(s, e, r);
  }

  /** Exactly the protected Remotes cannot diverge. */
  lemma ProtectedIff(s: State, r: string)
    requires Surroundings(s, r) && Naming.PrintableYear(s.clock + 1)
    ensures !CanDiverge(s, r) <==> Protected(s, r)
  {
    if Protected(s, r) {
      forall final | Reaches(s, r, final) ensures !Refused(final, r) {
        var events :| Run(s, events, r, final);
        RunProtects(s, events, r, final);
        if final.source != [] {
          PlanOfProtected(final, r);
        }
      }
    } else {
      UnprotectedCanDiverge(s, r);
    }
  }

  lemma SentTags(s: State, r: string, outcome: Outcome)
    requires OnlyRemoteTags(s) && r in s.remotes
    ensures OnlyRemoteTags(AfterSend(s, r, outcome))
  {
    var t := AfterSend(s, r, outcome);
    assert t.remotes.Keys == s.remotes.Keys;
    assert forall h :: h in t.holds ==> h in s.holds || h.1 == RemoteTag(r);
  }

  lemma SentSurroundings(s: State, r: string, outcome: Outcome)
    requires Surroundings(s, r)
    ensures Surroundings(AfterSend(s, r, outcome), r) && AfterSend(s, r, outcome).clock == s.clock
  {
    var t := AfterSend(s, r, outcome);
    SendWellFormed(s, r, outcome);
    SentTags(s, r, outcome);
    SentElsewhere(s, r, outcome);
    if Target(s, r).Some? {
      TargetIsNew(s, r);
    }
    forall q | q in t.remotes && q != r ensures Protected(t, q) {
      OtherSends(s, r, outcome, q);
    }
    assert r in t.remotes;
  }

  lemma SafeIffProtected(s: State, r: string, outcome: Outcome)
    requires Surroundings(s, r) && Naming.PrintableYear(s.clock + 1)
    ensures r in AfterSend(s, r, outcome).remotes
    ensures !CanDiverge(AfterSend(s, r, outcome), r) <==> Protected(AfterSend(s, r, outcome), r)
  {
    SentSurroundings(s, r, outcome);
    ProtectedIff(AfterSend(s, r, outcome), r);
  }

  /** Among any number of Remotes whose others are protected, exactly the harmless transfers leave a state
      from which no run without a further endangering transfer diverges. */
  lemma SafeIffHarmless(s: State, r: string, outcome: Outcome)
    requires Surroundings(s, r) && outcome.Completed? && Target(s, r).Some? && Naming.PrintableYear(s.clock + 1)
    ensures s.source != [] && r in AfterSend(s, r, outcome).remotes
    ensures !CanDiverge(AfterSend(s, r, outcome), r) <==> Harmless(s, r, outcome)
  {
    TargetIsNew(s, r);
    CompletedProtectsIff(s, r, outcome);
    SafeIffProtected(s, r, outcome);
  }

  /** The same where no old hold of the Source stays behind and what is received is not tagged yet: the
      final status arrives, the Source's hold is placed, the token was of the latest snapshot, and the
      Remote's hold is placed or the Remote was empty. */
  lemma SafeIff(s: State, r: string, outcome: Outcome)
    requires Surroundings(s, r) && outcome.Completed? && Target(s, r).Some? && Naming.PrintableYear(s.clock + 1)
    requires outcome.sourceLeft == {} && (Target(s, r).value, RemoteTag(r)) !in s.holds
    ensures s.source != [] && r in AfterSend(s, r, outcome).remotes
    ensures !CanDiverge(AfterSend(s, r, outcome), r)
       <==> outcome.acknowledged && outcome.sourceHold && Target(s, r) == Last(s.source)
            && (outcome.remoteHold || s.remotes[r].snaps == [])
  {
    SafeIffHarmless(s, r, outcome);
    HarmlessIs(s, r, outcome);
  }
}
