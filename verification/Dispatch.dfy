/** Sending one dataset to several Remotes at once: tasks, their interleaving, and the overall result. */
module Dispatch {
  import opened Wrappers
  import opened Zfs
  import opened Holds

  /** How one `send_to_remote` ends. */
  datatype TransferResult = Sent | UpToDate | Failed | Cancelled

  // ----- which tasks run, and what they add up to

  /** The remote is selected by the filter. */
  predicate Selected(remote: string, remoteFilter: Option<seq<string>>) {
    remoteFilter.None? || remote in remoteFilter.value
  }

  function SelectedTargets(targets: seq<(string, string)>, n: nat, remoteFilter: Option<seq<string>>)
    : seq<(string, string)>
    requires n <= |targets|
  {
    if n == 0 then []
    else SelectedTargets(targets, n - 1, remoteFilter)
         + (if Selected(targets[n - 1].0, remoteFilter) then [targets[n - 1]] else [])
  }

  /** The targets at these rising places below n, in order. */
  ghost predicate PickedAt(targets: seq<(string, string)>, n: nat, at: seq<nat>, picked: seq<(string, string)>)
    requires n <= |targets|
  {
    && |at| == |picked| && (forall j, k :: 0 <= j < k < |at| ==> at[j] < at[k])
    && forall k :: 0 <= k < |at| ==> at[k] < n && picked[k] == targets[at[k]]
  }

  lemma PickNext(targets: seq<(string, string)>, n: nat, at: seq<nat>, picked: seq<(string, string)>)
    requires n < |targets| && PickedAt(targets, n, at, picked)
    ensures PickedAt(targets, n + 1, at, picked)
    ensures PickedAt(targets, n + 1, at + [n], picked + [targets[n]])
  {
  }

  /** The places are those of the remotes in the filter. */
  ghost predicate FilterAt(targets: seq<(string, string)>, n: nat, at: seq<nat>, remotes: seq<string>)
    requires n <= |targets|
  {
    forall i: nat :: i in at <==> i < n && targets[i].0 in remotes
  }

  lemma FilterNext(targets: seq<(string, string)>, n: nat, at: seq<nat>, remotes: seq<string>)
    requires n < |targets| && FilterAt(targets, n, at, remotes)
    ensures targets[n].0 in remotes ==> FilterAt(targets, n + 1, at + [n], remotes)
    ensures targets[n].0 !in remotes ==> FilterAt(targets, n + 1, at, remotes)
  {
  }

  lemma SelectedStep(targets: seq<(string, string)>, n: nat, remotes: seq<string>)
    requires n < |targets|
    ensures SelectedTargets(targets, n + 1, Some(remotes))
         == if targets[n].0 in remotes then SelectedTargets(targets, n, Some(remotes)) + [targets[n]]
            else SelectedTargets(targets, n, Some(remotes))
  {
  }

  /** With a filter, exactly the targets whose remote occurs in it are selected, in order. */
  lemma {:induction false} SelectedAre(targets: seq<(string, string)>, n: nat, remotes: seq<string>)
    returns (at: seq<nat>)
    requires n <= |targets|
    ensures PickedAt(targets, n, at, SelectedTargets(targets, n, Some(remotes)))
    ensures FilterAt(targets, n, at, remotes)
  {
    if n == 0 {
      at := [];
    } else {
      var before := SelectedAre(targets, n - 1, remotes);
      SelectedStep(targets, n - 1, remotes);
      PickNext(targets, n - 1, before, SelectedTargets(targets, n - 1, Some(remotes)));
      FilterNext(targets, n - 1, before, remotes);
      if targets[n - 1].0 in remotes {
        at := before + [n - 1];
      } else {
        at := before;
      }
    }
  }

  /** Without a filter, all of them. */
  lemma {:induction false} AllSelected(targets: seq<(string, string)>, n: nat)
    requires n <= |targets|
    ensures SelectedTargets(targets, n, None) == targets[..n]
  {
    if n > 0 {
      AllSelected(targets, n - 1);
    }
  }

  /** The selected remotes with their targets, in order; Err names one that has no configuration. */
  method CollectTasks(targets: seq<(string, string)>, remoteFilter: Option<seq<string>>, configured: set<string>)
    returns (r: Result<seq<(string, string)>, string>)
    ensures r.Ok? ==> r.value == SelectedTargets(targets, |targets|, remoteFilter)
    ensures r.Ok? <==> forall t :: t in targets && Selected(t.0, remoteFilter) ==> t.0 in configured
    ensures r.Err? ==> r.error !in configured && Selected(r.error, remoteFilter)
  {
    var tasks := [];
    for i := 0 to |targets|
      invariant tasks == SelectedTargets(targets, i, remoteFilter)
      invariant forall t :: t in targets[..i] && Selected(t.0, remoteFilter) ==> t.0 in configured
    {
      assert targets[..i + 1] == targets[..i] + [targets[i]];
      var (remote, target) := targets[i];
      if !Selected(remote, remoteFilter) {
        continue;
      }
      if remote !in configured {
        assert targets[i] in targets;
        return Err(remote);
      }
      tasks := tasks + [(remote, target)];
    }
    assert targets[..|targets|] == targets;
    return Ok(tasks);
  }

  /** A joined task: what it returned, or a panic. */
  datatype Joined = Returned(result: TransferResult) | Panicked

  /** The parallel join loop, in whatever order tasks finish: an error exactly when some task returned a
      failure that is not a cancellation. Panics are dropped. */
  method JoinAll(joined: seq<Joined>) returns (ok: bool)
    ensures ok <==> Returned(Failed) !in joined
  {
    var anyFailed := false;
    for i := 0 to |joined|
      invariant anyFailed <==> Returned(Failed) in joined[..i]
    {
      assert joined[..i + 1] == joined[..i] + [joined[i]];
      if joined[i] == Returned(Failed) {
        anyFailed := true;
      }
    }
    assert joined[..|joined|] == joined;
    return !anyFailed;
  }

  // ----- the interleaving of the tasks' steps

  /** One task; everything outside the Source's holds is decided by its own Remote: the result, the head the
      Remote ends with, and which of its hold commands fail. */
  datatype Task = Task(remote: string, result: TransferResult, head: Option<string>,
                       findFails: bool, holdFails: bool, releaseFails: set<string>)

  datatype Pc = Start | Finding | Placing(olds: seq<string>) | Releasing(olds: seq<string>) | Done

  /** The Source as all tasks see it: its listing and the snapshot being sent. */
  datatype Source = Source(listing: seq<string>, latest: string)

  datatype State = State(holds: set<Hold>, heads: seq<Option<string>>, pcs: seq<Pc>)

  /** The names that carry the tag, in listing order, without the latest. */
  function Carrying(listing: seq<string>, carriers: set<string>, latest: string): seq<string> {
    if listing == [] then []
    else (if listing[0] in carriers && listing[0] != latest then [listing[0]] else [])
         + Carrying(listing[1..], carriers, latest)
  }

  ghost predicate Ready(tasks: seq<Task>, s: State) {
    && |s.pcs| == |s.heads| == |tasks|
    && forall i, j :: 0 <= i < j < |tasks| ==> tasks[i].remote != tasks[j].remote
  }

  /** The old holds that task i finds on the shared state. */
  function Found(src: Source, task: Task, holds: set<Hold>): seq<string> {
    if task.findFails then [] else Carrying(src.listing, Carriers(holds, RemoteTag(task.remote)), src.latest)
  }

  /** Let task i take one step on the shared state: transfer; find the old holds; hold the latest; release
      an old one; finish. */
  function StepTask(src: Source, tasks: seq<Task>, s: State, i: nat): State
    requires i < |tasks| && |s.pcs| == |s.heads| == |tasks|
  {
    var task, tag := tasks[i], RemoteTag(tasks[i].remote);
    match s.pcs[i]
    case Start => s.(heads := s.heads[i := task.head], pcs := s.pcs[i := if task.result == Sent then Finding else Done])
    case Finding => s.(pcs := s.pcs[i := Placing(Found(src, task, s.holds))])
    case Placing(olds) =>
      if task.holdFails || src.latest !in src.listing || (src.latest, tag) in s.holds then s.(pcs := s.pcs[i := Done])
      else s.(pcs := s.pcs[i := Releasing(olds)], holds := s.holds + {(src.latest, tag)})
    case Releasing(olds) =>
      if olds == [] then s.(pcs := s.pcs[i := Done])
      else if olds[0] in task.releaseFails then s.(pcs := s.pcs[i := Releasing(olds[1..])])
      else s.(pcs := s.pcs[i := Releasing(olds[1..])], holds := s.holds - {(olds[0], tag)})
    case Done => s
  }

  /** What concerns one task alone. */
  datatype View = View(pc: Pc, head: Option<string>, carriers: set<string>)

  function ViewOf(tasks: seq<Task>, s: State, i: nat): View
    requires i < |tasks| && |s.pcs| == |s.heads| == |tasks|
  {
    View(s.pcs[i], s.heads[i], Carriers(s.holds, RemoteTag(tasks[i].remote)))
  }

  /** One step of a task as its own view sees it. */
  function Advance(src: Source, task: Task, v: View): View {
    match v.pc
    case Start => View(if task.result == Sent then Finding else Done, task.head, v.carriers)
    case Finding => v.(pc := Placing(if task.findFails then [] else Carrying(src.listing, v.carriers, src.latest)))
    case Placing(olds) =>
      if task.holdFails || src.latest !in src.listing || src.latest in v.carriers then v.(pc := Done)
      else v.(pc := Releasing(olds), carriers := v.carriers + {src.latest})
    case Releasing(olds) =>
      if olds == [] then v.(pc := Done)
      else v.(pc := Releasing(olds[1..]),
              carriers := if olds[0] in task.releaseFails then v.carriers else v.carriers - {olds[0]})
    case Done => v
  }

  /** A schedule names existing tasks only. */
  predicate Legal(schedule: seq<nat>, n: nat) {
    forall k :: 0 <= k < |schedule| ==> schedule[k] < n
  }

  function Run(src: Source, tasks: seq<Task>, s: State, schedule: seq<nat>): (t: State)
    requires |s.pcs| == |s.heads| == |tasks| && Legal(schedule, |tasks|)
    ensures |t.pcs| == |t.heads| == |tasks|
    decreases |schedule|
  {
    if schedule == [] then s else Run(src, tasks, StepTask(src, tasks, s, schedule[0]), schedule[1..])
  }

  function Count(schedule: seq<nat>, i: nat): nat {
    if schedule == [] then 0 else (if schedule[0] == i then 1 else 0) + Count(schedule[1..], i)
  }

  function Iterate(src: Source, task: Task, v: View, n: nat): View
    decreases n
  {
    if n == 0 then v else Iterate(src, task, Advance(src, task, v), n - 1)
  }

  lemma HeldCarriers(holds: set<Hold>, name: string, tag: string, other: string)
    ensures Carriers(holds + {(name, tag)}, other) == Carriers(holds, other) + if other == tag then {name} else {}
    ensures Carriers(holds - {(name, tag)}, other) == Carriers(holds, other) - if other == tag then {name} else {}
  {
    var h: Hold := (name, tag);
    forall x
      ensures x in Carriers(holds + {h}, other) <==> x in Carriers(holds, other) || (other == tag && x == name)
      ensures x in Carriers(holds - {h}, other) <==> x in Carriers(holds, other) && !(other == tag && x == name)
    {
      assert x in Carriers(holds, other) <==> (x, other) in holds;
      assert x in Carriers(holds + {h}, other) <==> (x, other) in holds + {h};
      assert x in Carriers(holds - {h}, other) <==> (x, other) in holds - {h};
    }
  }

  /** What a step does to the carriers of each tag. */
  lemma StepCarriers(src: Source, tasks: seq<Task>, s: State, i: nat, tag: string)
    requires i < |tasks| && |s.pcs| == |s.heads| == |tasks|
    ensures Carriers(StepTask(src, tasks, s, i).holds, tag)
         == if tag == RemoteTag(tasks[i].remote) then Advance(src, tasks[i], ViewOf(tasks, s, i)).carriers
            else Carriers(s.holds, tag)
  {
    var own := RemoteTag(tasks[i].remote);
    match s.pcs[i]
    case Placing(_) => HeldCarriers(s.holds, src.latest, own, tag);
    case Releasing(olds) =>
      if olds != [] {
        HeldCarriers(s.holds, olds[0], own, tag);
      }
    case _ =>
  }

  /** A step of one task is a step of its own view and leaves every other view alone. */
  lemma StepIsLocal(src: Source, tasks: seq<Task>, s: State, i: nat, j: nat)
    requires Ready(tasks, s) && i < |tasks| && j < |tasks|
    ensures ViewOf(tasks, StepTask(src, tasks, s, i), j)
         == if i == j then Advance(src, tasks[j], ViewOf(tasks, s, j)) else ViewOf(tasks, s, j)
  {
    if i != j {
      TagsDiffer(tasks[i].remote, tasks[j].remote);
    }
    StepCarriers(src, tasks, s, i, RemoteTag(tasks[j].remote));
  }

  /** However the steps interleave, a task ends where its own steps take it. */
  lemma {:induction false} RunIsLocal(src: Source, tasks: seq<Task>, s: State, schedule: seq<nat>, j: nat)
    requires Ready(tasks, s) && j < |tasks| && Legal(schedule, |tasks|)
    ensures ViewOf(tasks, Run(src, tasks, s, schedule), j)
         == Iterate(src, tasks[j], ViewOf(tasks, s, j), Count(schedule, j))
    decreases |schedule|
  {
    if schedule != [] {
      StepIsLocal(src, tasks, s, schedule[0], j);
      RunIsLocal(src, tasks, StepTask(src, tasks, s, schedule[0]), schedule[1..], j);
    }
  }

  /** The tag of no task. */
  ghost predicate Foreign(tasks: seq<Task>, tag: string) {
    forall i :: 0 <= i < |tasks| ==> RemoteTag(tasks[i].remote) != tag
  }

  lemma {:induction false} ForeignHoldsStay(src: Source, tasks: seq<Task>, s: State, schedule: seq<nat>, h: Hold)
    requires Ready(tasks, s) && Foreign(tasks, h.1) && Legal(schedule, |tasks|)
    ensures h in Run(src, tasks, s, schedule).holds <==> h in s.holds
    decreases |schedule|
  {
    if schedule != [] {
      ForeignHoldsStay(src, tasks, StepTask(src, tasks, s, schedule[0]), schedule[1..], h);
    }
  }

  lemma {:induction false} DoneStays(src: Source, task: Task, v: View, n: nat)
    requires v.pc == Done
    ensures Iterate(src, task, v, n) == v
    decreases n
  {
    if n > 0 {
      DoneStays(src, task, v, n - 1);
    }
  }

  lemma {:induction false} IterateSplit(src: Source, task: Task, v: View, m: nat, n: nat)
    ensures Iterate(src, task, v, m + n) == Iterate(src, task, Iterate(src, task, v, m), n)
    decreases m
  {
    if m > 0 {
      IterateSplit(src, task, Advance(src, task, v), m - 1, n);
    }
  }

  lemma DoneAgree(src: Source, task: Task, v: View, m: nat, n: nat)
    requires Iterate(src, task, v, m).pc == Done && Iterate(src, task, v, n).pc == Done
    ensures Iterate(src, task, v, m) == Iterate(src, task, v, n)
  {
    if m <= n {
      IterateSplit(src, task, v, m, n - m);
      DoneStays(src, task, Iterate(src, task, v, m), n - m);
    } else {
      IterateSplit(src, task, v, n, m - n);
      DoneStays(src, task, Iterate(src, task, v, n), m - n);
    }
  }

  ghost predicate AllDone(s: State) {
    forall i :: 0 <= i < |s.pcs| ==> s.pcs[i] == Done
  }

  lemma SameView(src: Source, tasks: seq<Task>, s: State, a: seq<nat>, b: seq<nat>, j: nat)
    requires Ready(tasks, s) && j < |tasks| && Legal(a, |tasks|) && Legal(b, |tasks|)
    requires AllDone(Run(src, tasks, s, a)) && AllDone(Run(src, tasks, s, b))
    ensures ViewOf(tasks, Run(src, tasks, s, a), j) == ViewOf(tasks, Run(src, tasks, s, b), j)
  {
    RunIsLocal(src, tasks, s, a, j);
    RunIsLocal(src, tasks, s, b, j);
    DoneAgree(src, tasks[j], ViewOf(tasks, s, j), Count(a, j), Count(b, j));
  }

  /** Any two complete interleavings end in the same holds and the same Remotes. */
  lemma InterleavingsAgree(src: Source, tasks: seq<Task>, s: State, a: seq<nat>, b: seq<nat>)
    requires Ready(tasks, s) && Legal(a, |tasks|) && Legal(b, |tasks|)
    requires AllDone(Run(src, tasks, s, a)) && AllDone(Run(src, tasks, s, b))
    ensures Run(src, tasks, s, a) == Run(src, tasks, s, b)
  {
    var x, y := Run(src, tasks, s, a), Run(src, tasks, s, b);
    forall j | 0 <= j < |tasks| ensures ViewOf(tasks, x, j) == ViewOf(tasks, y, j) {
      SameView(src, tasks, s, a, b, j);
    }
    assert x.heads == y.heads by {
      forall j | 0 <= j < |tasks| ensures x.heads[j] == y.heads[j] {
        assert ViewOf(tasks, x, j) == ViewOf(tasks, y, j);
      }
    }
    assert x.pcs == y.pcs;
    forall h: Hold ensures h in x.holds <==> h in y.holds {
      if Foreign(tasks, h.1) {
        ForeignHoldsStay(src, tasks, s, a, h);
        ForeignHoldsStay(src, tasks, s, b, h);
      } else {
        var j :| 0 <= j < |tasks| && RemoteTag(tasks[j].remote) == h.1;
        assert ViewOf(tasks, x, j).carriers == ViewOf(tasks, y, j).carriers;
        assert h in x.holds <==> h.0 in Carriers(x.holds, h.1);
        assert h in y.holds <==> h.0 in Carriers(y.holds, h.1);
      }
    }
  }

  // ----- one task after the other

  function Repeat(i: nat, n: nat): seq<nat> {
    if n == 0 then [] else [i] + Repeat(i, n - 1)
  }

  /** The first n tasks one after the other, each with `steps` steps. */
  function Sequential(n: nat, steps: nat): seq<nat> {
    if n == 0 then [] else Sequential(n - 1, steps) + Repeat(n - 1, steps)
  }

  lemma {:induction false} CountConcat(a: seq<nat>, b: seq<nat>, i: nat)
    ensures Count(a + b, i) == Count(a, i) + Count(b, i)
  {
    if a == [] {
      assert a + b == b;
    } else {
      CountConcat(a[1..], b, i);
      assert (a + b)[1..] == a[1..] + b;
    }
  }

  lemma {:induction false} RepeatCounts(j: nat, n: nat, i: nat)
    ensures Count(Repeat(j, n), i) == if i == j then n else 0
    ensures forall k :: 0 <= k < |Repeat(j, n)| ==> Repeat(j, n)[k] == j
  {
    if n > 0 {
      RepeatCounts(j, n - 1, i);
      assert Repeat(j, n)[1..] == Repeat(j, n - 1);
    }
  }

  lemma {:induction false} SequentialCounts(n: nat, steps: nat, i: nat)
    ensures Count(Sequential(n, steps), i) == if i < n then steps else 0
    ensures forall k :: 0 <= k < |Sequential(n, steps)| ==> Sequential(n, steps)[k] < n
  {
    if n > 0 {
      SequentialCounts(n - 1, steps, i);
      RepeatCounts(n - 1, steps, i);
      CountConcat(Sequential(n - 1, steps), Repeat(n - 1, steps), i);
    }
  }

  function StepsLeft(src: Source, pc: Pc): nat {
    match pc
    case Start => |src.listing| + 5
    case Finding => |src.listing| + 4
    case Placing(olds) => |olds| + 3
    case Releasing(olds) => |olds| + 1
    case Done => 0
  }

  lemma {:induction false} CarryingLength(listing: seq<string>, carriers: set<string>, latest: string)
    ensures |Carrying(listing, carriers, latest)| <= |listing|
  {
    if listing != [] {
      CarryingLength(listing[1..], carriers, latest);
    }
  }

  lemma {:induction false} SoloFinishes(src: Source, task: Task, v: View, n: nat)
    requires n >= StepsLeft(src, v.pc)
    ensures Iterate(src, task, v, n).pc == Done
    decreases n
  {
    if v.pc == Done {
      DoneStays(src, task, v, n);
    } else {
      CarryingLength(src.listing, v.carriers, src.latest);
      SoloFinishes(src, task, Advance(src, task, v), n - 1);
    }
  }

  lemma {:induction false} ReleasesAll(src: Source, task: Task, v: View)
    requires v.pc.Releasing? && task.releaseFails == {}
    ensures Iterate(src, task, v, |v.pc.olds| + 1) == View(Done, v.head, v.carriers - (set x | x in v.pc.olds))
    decreases |v.pc.olds|
  {
    if v.pc.olds != [] {
      var olds := v.pc.olds;
      ReleasesAll(src, task, Advance(src, task, v));
      assert v.carriers - {olds[0]} - (set x | x in olds[1..]) == v.carriers - (set x | x in olds);
    } else {
      assert Iterate(src, task, v, 1) == Advance(src, task, v);
    }
  }

  lemma {:induction false} CarryingMembers(listing: seq<string>, carriers: set<string>, latest: string)
    ensures forall x :: x in Carrying(listing, carriers, latest) <==> x in listing && x in carriers && x != latest
  {
    if listing != [] {
      CarryingMembers(listing[1..], carriers, latest);
    }
  }

  /** A task in which nothing fails leaves its tag on the latest snapshot alone. */
  lemma CleanTaskMovesTag(src: Source, task: Task, v: View)
    requires v.pc == Start && task.result == Sent && !task.findFails && !task.holdFails && task.releaseFails == {}
    requires src.latest in src.listing && src.latest !in v.carriers && forall x :: x in v.carriers ==> x in src.listing
    ensures exists n: nat :: Iterate(src, task, v, n) == View(Done, task.head, {src.latest})
  {
    var olds := Carrying(src.listing, v.carriers, src.latest);
    CarryingMembers(src.listing, v.carriers, src.latest);
    var w := View(Releasing(olds), task.head, v.carriers + {src.latest});
    assert Iterate(src, task, v, 3) == w by {
      var a := Advance(src, task, v);
      var b := Advance(src, task, a);
      assert Advance(src, task, b) == w;
      assert Iterate(src, task, w, 0) == w;
      assert Iterate(src, task, b, 1) == Iterate(src, task, w, 0);
      assert Iterate(src, task, a, 2) == Iterate(src, task, b, 1);
    }
    IterateSplit(src, task, v, 3, |olds| + 1);
    ReleasesAll(src, task, w);
    assert w.carriers - (set x | x in olds) == {src.latest};
  }

  /** The old holds are released one by one, except where the release fails. */
  lemma {:induction false} ReleaseEffect(src: Source, task: Task, v: View, n: nat)
    requires v.pc.Releasing? && Iterate(src, task, v, n).pc == Done
    ensures Iterate(src, task, v, n)
         == View(Done, v.head, v.carriers - (set x | x in v.pc.olds && x !in task.releaseFails))
    decreases n
  {
    var olds, w := v.pc.olds, Advance(src, task, v);
    if olds == [] {
      DoneStays(src, task, w, n - 1);
    } else {
      ReleaseEffect(src, task, w, n - 1);
      assert (set x | x in olds && x !in task.releaseFails)
          == (set x | x in olds[1..] && x !in task.releaseFails)
             + (if olds[0] in task.releaseFails then {} else {olds[0]});
    }
  }

  lemma PlaceEffect(src: Source, task: Task, v: View, n: nat)
    requires v.pc.Placing? && src.latest !in v.pc.olds && Iterate(src, task, v, n).pc == Done
    ensures Iterate(src, task, v, n)
         == View(Done, v.head,
              if task.holdFails || src.latest !in src.listing || src.latest in v.carriers then v.carriers
              else (set x | x in v.carriers && (x !in v.pc.olds || x in task.releaseFails)) + {src.latest})
  {
    var w := Advance(src, task, v);
    if w.pc == Done {
      DoneStays(src, task, w, n - 1);
    } else {
      ReleaseEffect(src, task, w, n - 1);
    }
  }

  /** Where a task ends, whatever of it fails: its Remote has the new head; a send that was acknowledged puts
      the tag on the latest snapshot, if that can be held and is not yet, and takes it from the listed ones
      it found, except where a release failed. */
  lemma TaskEffect(src: Source, task: Task, v: View, n: nat)
    requires v.pc == Start && Iterate(src, task, v, n).pc == Done
    ensures Iterate(src, task, v, n)
         == View(Done, task.head,
              if task.result != Sent || task.holdFails || src.latest !in src.listing || src.latest in v.carriers
              then v.carriers
              else (set x | x in v.carriers && (task.findFails || x !in src.listing || x in task.releaseFails))
                   + {src.latest})
  {
    var w := Advance(src, task, v);
    if task.result != Sent {
      DoneStays(src, task, w, n - 1);
    } else {
      CarryingMembers(src.listing, v.carriers, src.latest);
      PlaceEffect(src, task, Advance(src, task, w), n - 2);
    }
  }

  /** Parallel equals sequential: every complete interleaving ends exactly as sending to one Remote after
      the other does, with the same holds on the Source and the same Remotes. */
  lemma ParallelIsSequential(src: Source, tasks: seq<Task>, s: State, schedule: seq<nat>)
    requires Ready(tasks, s) && (forall i :: 0 <= i < |s.pcs| ==> s.pcs[i] == Start)
    requires Legal(schedule, |tasks|) && AllDone(Run(src, tasks, s, schedule))
    ensures var one := Sequential(|tasks|, |src.listing| + 5);
            Legal(one, |tasks|) && Run(src, tasks, s, schedule) == Run(src, tasks, s, one)
  {
    var steps := |src.listing| + 5;
    var one := Sequential(|tasks|, steps);
    SequentialCounts(|tasks|, steps, 0);
    forall j | 0 <= j < |tasks| ensures Run(src, tasks, s, one).pcs[j] == Done {
      SequentialCounts(|tasks|, steps, j);
      RunIsLocal(src, tasks, s, one, j);
      SoloFinishes(src, tasks[j], ViewOf(tasks, s, j), steps);
    }
    InterleavingsAgree(src, tasks, s, schedule, one);
  }
}
