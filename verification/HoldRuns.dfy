/** Hold moves as they interleave: any number of movers, for the same tag too, with prunes, new snapshots,
    failures of every command, and crashes at every point. */
module HoldRuns {
  import opened Wrappers
  import opened Zfs

  /** Where one move of a tag stands. */
  datatype Mover =
    | Ready(tag: string, olds: set<string>, snap: string)      // old holds looked up
    | Releasing(tag: string, olds: set<string>, snap: string)  // new hold placed, old ones still to release

  /** Movers are known by a number of their own. */
  datatype State = State(snapshots: set<string>, holds: set<Hold>, movers: map<nat, Mover>)

  datatype Step =
    | Find(id: nat, tag: string, snap: string, found: set<string>)
    | Place(id: nat, fails: bool)
    | Release(id: nat, old': string, fails: bool)
    | Leave(id: nat)                  // finished, or crashed
    | Destroy(snap: string)
    | Create(snap: string)

  function Without(m: map<nat, Mover>, id: nat): map<nat, Mover> {
    m - {id}
  }

  /** The state after a step, or None when the step cannot happen. A lookup lists the snapshots and then their
      holds, and may fail: it finds some of the other carriers, possibly none. */
  function Next(s: State, step: Step): Option<State> {
    match step
    case Find(id, tag, snap, found) =>
      if id in s.movers || !(found <= Carriers(s.holds, tag) - {snap}) then None
      else Some(s.(movers := s.movers[id := Ready(tag, found, snap)]))
    case Place(id, fails) =>
      if id !in s.movers || !s.movers[id].Ready? then None
      else
        var m := s.movers[id];
        if fails || m.snap !in s.snapshots || (m.snap, m.tag) in s.holds then Some(s.(movers := Without(s.movers, id)))
        else Some(s.(holds := s.holds + {(m.snap, m.tag)}, movers := s.movers[id := Releasing(m.tag, m.olds, m.snap)]))
    case Release(id, x, fails) =>
      if id !in s.movers || !s.movers[id].Releasing? || x !in s.movers[id].olds then None
      else
        var m := s.movers[id];
        Some(s.(holds := if fails then s.holds else s.holds - {(x, m.tag)},
                movers := s.movers[id := Releasing(m.tag, m.olds - {x}, m.snap)]))
    case Leave(id) => Some(s.(movers := Without(s.movers, id)))
    case Destroy(snap) =>
      if Held(s.holds, snap) then Some(s) else Some(s.(snapshots := s.snapshots - {snap}))
    case Create(snap) => Some(s.(snapshots := s.snapshots + {snap}))
  }

  // ----- one move of a tag at a time

  /** No move of this tag is under way. */
  ghost predicate Free(s: State, tag: string) {
    forall id :: id in s.movers ==> s.movers[id].tag != tag
  }

  /** A run in which a move of the tag starts only when no other is under way. */
  ghost predicate Run(s: State, steps: seq<Step>, tag: string, t: State)
    decreases |steps|
  {
    if steps == [] then t == s
    else
      && (steps[0].Find? && steps[0].tag == tag ==> Free(s, tag))
      && Next(s, steps[0]).Some? && Run(Next(s, steps[0]).value, steps[1..], tag, t)
  }

  ghost predicate HoldsExist(s: State) {
    forall h :: h in s.holds ==> h.0 in s.snapshots
  }

  /** At most one move of the tag; its own hold is not among those it releases, and is there once placed. */
  ghost predicate Inv(s: State, tag: string) {
    && HoldsExist(s)
    && (forall i, j :: i in s.movers && j in s.movers && s.movers[i].tag == s.movers[j].tag == tag ==> i == j)
    && (forall id :: id in s.movers && s.movers[id].tag == tag ==>
          s.movers[id].snap !in s.movers[id].olds
          && (s.movers[id].Releasing? ==> (s.movers[id].snap, tag) in s.holds))
  }

  lemma StepKeeps(s: State, step: Step, tag: string)
    requires Inv(s, tag) && Next(s, step).Some? && (step.Find? && step.tag == tag ==> Free(s, tag))
    ensures Inv(Next(s, step).value, tag)
    ensures Carriers(s.holds, tag) != {} ==> Carriers(Next(s, step).value.holds, tag) != {}
  {
    var t := Next(s, step).value;
    if x :| x in Carriers(s.holds, tag) {
      assert (x, tag) in s.holds;
      if step.Release? && s.movers[step.id].tag == tag {
        assert (s.movers[step.id].snap, tag) in t.holds;
        assert s.movers[step.id].snap in Carriers(t.holds, tag);
      } else {
        assert (x, tag) in t.holds;
        assert x in Carriers(t.holds, tag);
      }
    }
  }

  /** A tag once carried by some snapshot is carried by an existing one in every later state, at every
      intermediate step and after every crash, whatever moves of other tags do at the same time. */
  lemma {:induction false} HoldContinuity(s: State, steps: seq<Step>, t: State, tag: string)
    requires Inv(s, tag) && Run(s, steps, tag, t) && Carriers(s.holds, tag) != {}
    ensures Inv(t, tag) && Carriers(t.holds, tag) != {} && Carriers(t.holds, tag) <= t.snapshots
    decreases |steps|
  {
    if steps != [] {
      StepKeeps(s, steps[0], tag);
      HoldContinuity(Next(s, steps[0]).value, steps[1..], t, tag);
    }
  }

  // ----- overlapping moves of one tag

  /** No old hold that the mover finds is on a snapshot as new as its own. */
  ghost predicate Forward(s: State, step: Step, tag: string, age: string -> int) {
    step.Find? && step.tag == tag ==> forall x :: x in step.found ==> age(x) < age(step.snap)
  }

  ghost predicate ForwardRun(s: State, steps: seq<Step>, tag: string, age: string -> int, t: State)
    decreases |steps|
  {
    if steps == [] then t == s
    else
      && Forward(s, steps[0], tag, age)
      && Next(s, steps[0]).Some? && ForwardRun(Next(s, steps[0]).value, steps[1..], tag, age, t)
  }

  /** Some carrier is at least as new as every snapshot that a mover of the tag has placed its hold on. */
  ghost predicate Led(s: State, tag: string, age: string -> int, top: string) {
    && (top, tag) in s.holds
    && forall id :: id in s.movers && s.movers[id].tag == tag && s.movers[id].Releasing? ==>
         age(s.movers[id].snap) <= age(top)
  }

  ghost predicate ForwardInv(s: State, tag: string, age: string -> int) {
    && HoldsExist(s)
    && (exists top :: Led(s, tag, age, top))
    && (forall id, x :: id in s.movers && s.movers[id].tag == tag && x in s.movers[id].olds ==>
          age(x) < age(s.movers[id].snap))
  }

  lemma ForwardStep(s: State, step: Step, tag: string, age: string -> int)
    requires ForwardInv(s, tag, age) && Next(s, step).Some? && Forward(s, step, tag, age)
    ensures ForwardInv(Next(s, step).value, tag, age)
  {
    var t := Next(s, step).value;
    var top :| Led(s, tag, age, top);
    if step.Place? && t.holds != s.holds && s.movers[step.id].tag == tag && age(s.movers[step.id].snap) > age(top) {
      assert Led(t, tag, age, s.movers[step.id].snap);
    } else {
      assert Led(t, tag, age, top);
    }
  }

  /** Moves of one tag may overlap as they like, as long as none of them finds a hold on a snapshot as new
      as its own: the tag is never left on nothing. */
  lemma {:induction false} OverlapContinuity(s: State, steps: seq<Step>, t: State, tag: string, age: string -> int)
    requires ForwardInv(s, tag, age) && ForwardRun(s, steps, tag, age, t)
    ensures ForwardInv(t, tag, age) && Carriers(t.holds, tag) != {} && Carriers(t.holds, tag) <= t.snapshots
    decreases |steps|
  {
    if steps == [] {
      var top :| Led(s, tag, age, top);
      assert top in Carriers(s.holds, tag);
    } else {
      ForwardStep(s, steps[0], tag, age);
      OverlapContinuity(Next(s, steps[0]).value, steps[1..], t, tag, age);
    }
  }

  /** The condition holds at the start of any run on a dataset whose tag is carried. */
  lemma ForwardStarts(s: State, tag: string, age: string -> int)
    requires HoldsExist(s) && s.movers == map[] && Carriers(s.holds, tag) != {}
    ensures ForwardInv(s, tag, age)
  {
    var top :| top in Carriers(s.holds, tag);
    assert Led(s, tag, age, top);
  }

  // ----- which moves can lose the tag

  /** The moves of one tag that are still to begin, each with its target, beside the state. */
  datatype Config = Config(state: State, todo: map<nat, string>)

  /** A step of a run in which each move of the tag happens once, to its own target. */
  function NextOf(c: Config, step: Step, tag: string): Option<Config> {
    var t := Next(c.state, step);
    if t.None? then None
    else if step.Find? && step.tag == tag then
      if step.id in c.todo && c.todo[step.id] == step.snap then Some(Config(t.value, c.todo - {step.id})) else None
    else Some(Config(t.value, c.todo))
  }

  function Exec(c: Config, steps: seq<Step>, tag: string): Option<Config> {
    if steps == [] then Some(c)
    else
      match Exec(c, steps[..|steps| - 1], tag)
      case None => None
      case Some(mid) => NextOf(mid, steps[|steps| - 1], tag)
  }

  /** Some interleaving leads from c to d. */
  ghost predicate Leads(c: Config, d: Config, tag: string) {
    exists steps :: Exec(c, steps, tag) == Some(d)
  }

  /** Some interleaving leaves the tag on nothing. */
  ghost predicate CanLose(c: Config, tag: string) {
    exists d :: Leads(c, d, tag) && Carriers(d.state.holds, tag) == {}
  }

  // ----- moves to fresh and different targets

  /** Move `id` has not placed its hold on y yet. */
  ghost predicate Waits(c: Config, tag: string, id: nat, y: string) {
    || (id in c.todo && c.todo[id] == y)
    || (id in c.state.movers && c.state.movers[id].Ready? && c.state.movers[id].tag == tag
        && c.state.movers[id].snap == y)
  }

  /** No move of the tag is to release its hold on x. */
  ghost predicate Unclaimed(s: State, tag: string, x: string) {
    forall id :: id in s.movers && s.movers[id].tag == tag ==> x !in s.movers[id].olds
  }

  /** A carrier that no move under way releases. */
  ghost predicate Safe(s: State, tag: string, x: string) {
    && (x, tag) in s.holds
    && forall id :: id in s.movers && s.movers[id].tag == tag && s.movers[id].Releasing? ==> x !in s.movers[id].olds
  }

  /** What waits for its hold is to carry the tag for the first time, and no two moves wait for the same. */
  ghost predicate FreshInv(c: Config, tag: string) {
    && (forall id :: id in c.todo && id in c.state.movers ==> c.state.movers[id].tag != tag)
    && (exists x :: Safe(c.state, tag, x))
    && (forall id, y :: Waits(c, tag, id, y) ==> (y, tag) !in c.state.holds && Unclaimed(c.state, tag, y))
    && (forall i, j, y :: Waits(c, tag, i, y) && Waits(c, tag, j, y) ==> i == j)
  }

  lemma WaitsBefore(c: Config, step: Step, tag: string, id: nat, y: string)
    requires NextOf(c, step, tag).Some? && Waits(NextOf(c, step, tag).value, tag, id, y)
    ensures Waits(c, tag, id, y)
  {
  }

  lemma StillSafe(c: Config, step: Step, tag: string)
    requires FreshInv(c, tag) && NextOf(c, step, tag).Some?
    ensures exists x :: Safe(NextOf(c, step, tag).value.state, tag, x)
  {
    var d := NextOf(c, step, tag).value;
    var x :| Safe(c.state, tag, x);
    if step.Place? && d.state.holds != c.state.holds && c.state.movers[step.id].tag == tag {
      var y := c.state.movers[step.id].snap;
      assert Waits(c, tag, step.id, y);
      assert Safe(d.state, tag, y);
    } else {
      assert Safe(d.state, tag, x);
    }
  }

  lemma StillFresh(c: Config, step: Step, tag: string, id: nat, y: string)
    requires FreshInv(c, tag) && NextOf(c, step, tag).Some? && Waits(NextOf(c, step, tag).value, tag, id, y)
    ensures (y, tag) !in NextOf(c, step, tag).value.state.holds
    ensures Unclaimed(NextOf(c, step, tag).value.state, tag, y)
  {
    WaitsBefore(c, step, tag, id, y);
    if step.Place? && step.id in c.state.movers && c.state.movers[step.id].tag == tag {
      assert Waits(c, tag, step.id, c.state.movers[step.id].snap);
    }
    if step.Find? && step.tag == tag {
      assert y in step.found ==> (y, tag) in c.state.holds;
    }
  }

  lemma FreshStep(c: Config, step: Step, tag: string)
    requires FreshInv(c, tag) && NextOf(c, step, tag).Some?
    ensures FreshInv(NextOf(c, step, tag).value, tag)
  {
    var d := NextOf(c, step, tag).value;
    StillSafe(c, step, tag);
    forall id, y | Waits(d, tag, id, y) ensures (y, tag) !in d.state.holds && Unclaimed(d.state, tag, y) {
      StillFresh(c, step, tag, id, y);
    }
    forall i, j, y | Waits(d, tag, i, y) && Waits(d, tag, j, y) ensures i == j {
      WaitsBefore(c, step, tag, i, y);
      WaitsBefore(c, step, tag, j, y);
    }
  }

  lemma {:induction false} FreshRun(c: Config, steps: seq<Step>, tag: string)
    requires FreshInv(c, tag) && Exec(c, steps, tag).Some?
    ensures FreshInv(Exec(c, steps, tag).value, tag)
  {
    if steps != [] {
      FreshRun(c, steps[..|steps| - 1], tag);
      FreshStep(Exec(c, steps[..|steps| - 1], tag).value, steps[|steps| - 1], tag);
    }
  }

  // ----- moves between two targets

  /** Move `id` is about to release its hold on x. */
  ghost predicate Claims(s: State, tag: string, id: nat, x: string) {
    id in s.movers && s.movers[id].tag == tag && s.movers[id].Releasing? && x in s.movers[id].olds
  }

  ghost predicate Carried(s: State, tag: string, x: string) {
    (x, tag) in s.holds
  }

  /** Every move of the tag goes to u or to v, and does not release its own target. */
  ghost predicate Between(c: Config, tag: string, u: string, v: string) {
    && u != v
    && (forall id :: id in c.todo ==> c.todo[id] == u || c.todo[id] == v)
    && (forall id :: id in c.state.movers && c.state.movers[id].tag == tag ==>
          (c.state.movers[id].snap == u || c.state.movers[id].snap == v)
          && c.state.movers[id].snap !in c.state.movers[id].olds)
  }

  /** Before the first hold on either. */
  ghost predicate Opening(s: State, tag: string, first: string, u: string, v: string) {
    && Carried(s, tag, first) && !Carried(s, tag, u) && !Carried(s, tag, v)
    && forall id :: id in s.movers && s.movers[id].tag == tag ==>
         s.movers[id].Ready? && u !in s.movers[id].olds && v !in s.movers[id].olds
  }

  /** From then on one of the two is carried, and a move that is about to release either has the place to
      itself while both are. */
  ghost predicate Toggling(s: State, tag: string, u: string, v: string) {
    && (Carried(s, tag, u) || Carried(s, tag, v))
    && (forall id :: Claims(s, tag, id, u) || Claims(s, tag, id, v) ==> Carried(s, tag, u) && Carried(s, tag, v))
    && (forall i, j :: (Claims(s, tag, i, u) || Claims(s, tag, i, v)) && (Claims(s, tag, j, u) || Claims(s, tag, j, v))
          ==> i == j)
  }

  ghost predicate TwoInv(c: Config, tag: string, first: string, u: string, v: string) {
    Between(c, tag, u, v) && (Opening(c.state, tag, first, u, v) || Toggling(c.state, tag, u, v))
  }

  lemma BetweenStep(c: Config, step: Step, tag: string, u: string, v: string)
    requires Between(c, tag, u, v) && NextOf(c, step, tag).Some?
    ensures Between(NextOf(c, step, tag).value, tag, u, v)
  {
  }

  lemma OpeningStep(c: Config, step: Step, tag: string, first: string, u: string, v: string)
    requires Between(c, tag, u, v) && Opening(c.state, tag, first, u, v) && NextOf(c, step, tag).Some?
    ensures var t := NextOf(c, step, tag).value.state; Opening(t, tag, first, u, v) || Toggling(t, tag, u, v)
  {
    if step.Find? && step.tag == tag {
      assert u in step.found ==> (u, tag) in c.state.holds;
      assert v in step.found ==> (v, tag) in c.state.holds;
    }
  }

  /** Steps that place nothing and release nothing of the tag. */
  lemma TogglingSame(s: State, t: State, tag: string, u: string, v: string)
    requires Toggling(s, tag, u, v)
    requires forall x :: Carried(t, tag, x) <==> Carried(s, tag, x)
    requires forall id, x :: Claims(t, tag, id, x) ==> Claims(s, tag, id, x)
    ensures Toggling(t, tag, u, v)
  {
  }

  lemma TogglingPlace(c: Config, step: Step, tag: string, u: string, v: string)
    requires Between(c, tag, u, v) && Toggling(c.state, tag, u, v) && NextOf(c, step, tag).Some?
    requires step.Place? && c.state.movers[step.id].tag == tag
    ensures Toggling(NextOf(c, step, tag).value.state, tag, u, v)
  {
    var s, t := c.state, NextOf(c, step, tag).value.state;
    var m := s.movers[step.id];
    assert forall id, x :: Claims(t, tag, id, x) ==>
      Claims(s, tag, id, x) || (id == step.id && x in m.olds && !Carried(s, tag, m.snap) && Carried(t, tag, m.snap));
  }

  lemma TogglingRelease(c: Config, step: Step, tag: string, u: string, v: string)
    requires Between(c, tag, u, v) && Toggling(c.state, tag, u, v) && NextOf(c, step, tag).Some?
    requires step.Release? && c.state.movers[step.id].tag == tag
    ensures Toggling(NextOf(c, step, tag).value.state, tag, u, v)
  {
    var s, t := c.state, NextOf(c, step, tag).value.state;
    assert step.old' == u ==> Claims(s, tag, step.id, u);
    assert step.old' == v ==> Claims(s, tag, step.id, v);
    assert forall id, x :: Claims(t, tag, id, x) ==> Claims(s, tag, id, x);
  }

  lemma TogglingStep(c: Config, step: Step, tag: string, u: string, v: string)
    requires Between(c, tag, u, v) && Toggling(c.state, tag, u, v) && NextOf(c, step, tag).Some?
    ensures Toggling(NextOf(c, step, tag).value.state, tag, u, v)
  {
    if step.Place? && c.state.movers[step.id].tag == tag {
      TogglingPlace(c, step, tag, u, v);
    } else if step.Release? && c.state.movers[step.id].tag == tag {
      TogglingRelease(c, step, tag, u, v);
    } else {
      TogglingSame(c.state, NextOf(c, step, tag).value.state, tag, u, v);
    }
  }

  lemma {:induction false} TwoRun(c: Config, steps: seq<Step>, tag: string, first: string, u: string, v: string)
    requires TwoInv(c, tag, first, u, v) && Exec(c, steps, tag).Some?
    ensures TwoInv(Exec(c, steps, tag).value, tag, first, u, v)
  {
    if steps != [] {
      TwoRun(c, steps[..|steps| - 1], tag, first, u, v);
      var mid, step := Exec(c, steps[..|steps| - 1], tag).value, steps[|steps| - 1];
      BetweenStep(mid, step, tag, u, v);
      if Opening(mid.state, tag, first, u, v) {
        OpeningStep(mid, step, tag, first, u, v);
      } else {
        TogglingStep(mid, step, tag, u, v);
      }
    }
  }

  // ----- a run that loses the tag

  lemma Here(c: Config, tag: string)
    ensures Leads(c, c, tag)
  {
    assert Exec(c, [], tag) == Some(c);
  }

  lemma Follow(i: Config, c: Config, step: Step, d: Config, tag: string)
    requires Leads(i, c, tag) && NextOf(c, step, tag) == Some(d)
    ensures Leads(i, d, tag)
  {
    var steps :| Exec(i, steps, tag) == Some(c);
    assert (steps + [step])[..|steps|] == steps;
    assert Exec(i, steps + [step], tag) == Some(d);
  }

  /** The holds of other tags, and these carriers of the tag. */
  function Tagged(others: set<Hold>, tag: string, carriers: set<string>): set<Hold> {
    others + (set c | c in carriers :: (c, tag))
  }

  ghost predicate Foreign(others: set<Hold>, tag: string) {
    forall h :: h in others ==> h.1 != tag
  }

  function At(all: set<string>, others: set<Hold>, tag: string, carriers: set<string>, movers: map<nat, Mover>,
              todo: map<nat, string>): Config
  {
    Config(State(all, Tagged(others, tag, carriers), movers), todo)
  }

  lemma TaggedCarriers(others: set<Hold>, tag: string, carriers: set<string>)
    requires Foreign(others, tag)
    ensures Carriers(Tagged(others, tag, carriers), tag) == carriers
  {
    var holds := Tagged(others, tag, carriers);
    forall c ensures c in Carriers(holds, tag) <==> c in carriers {
      assert c in carriers ==> (c, tag) in holds;
    }
  }

  lemma Creates(i: Config, all: set<string>, others: set<Hold>, tag: string, carriers: set<string>,
                todo: map<nat, string>, y: string)
    requires Leads(i, At(all, others, tag, carriers, map[], todo), tag)
    ensures Leads(i, At(all + {y}, others, tag, carriers, map[], todo), tag)
  {
    Follow(i, At(all, others, tag, carriers, map[], todo), Create(y),
           At(all + {y}, others, tag, carriers, map[], todo), tag);
  }

  lemma Finds(i: Config, all: set<string>, others: set<Hold>, tag: string, carriers: set<string>,
              movers: map<nat, Mover>, todo: map<nat, string>, id: nat)
    requires Leads(i, At(all, others, tag, carriers, movers, todo), tag) && Foreign(others, tag)
    requires id !in movers && id in todo && todo[id] !in carriers
    ensures Leads(i, At(all, others, tag, carriers, movers[id := Ready(tag, carriers, todo[id])], todo - {id}), tag)
  {
    TaggedCarriers(others, tag, carriers);
    Follow(i, At(all, others, tag, carriers, movers, todo), Find(id, tag, todo[id], carriers),
           At(all, others, tag, carriers, movers[id := Ready(tag, carriers, todo[id])], todo - {id}), tag);
  }

  lemma Places(i: Config, all: set<string>, others: set<Hold>, tag: string, carriers: set<string>,
               movers: map<nat, Mover>, todo: map<nat, string>, id: nat)
    requires Leads(i, At(all, others, tag, carriers, movers, todo), tag) && Foreign(others, tag)
    requires id in movers && movers[id].Ready? && movers[id].tag == tag
    requires movers[id].snap in all && movers[id].snap !in carriers
    ensures var m := movers[id];
            Leads(i, At(all, others, tag, carriers + {m.snap}, movers[id := Releasing(tag, m.olds, m.snap)], todo), tag)
  {
    var m := movers[id];
    var d := At(all, others, tag, carriers + {m.snap}, movers[id := Releasing(tag, m.olds, m.snap)], todo);
    assert Tagged(others, tag, carriers) + {(m.snap, tag)} == d.state.holds;
    Follow(i, At(all, others, tag, carriers, movers, todo), Place(id, false), d, tag);
  }

  lemma Releases(i: Config, all: set<string>, others: set<Hold>, tag: string, carriers: set<string>,
                 movers: map<nat, Mover>, todo: map<nat, string>, id: nat, c: string)
    requires Leads(i, At(all, others, tag, carriers, movers, todo), tag) && Foreign(others, tag)
    requires id in movers && movers[id].Releasing? && movers[id].tag == tag && c in movers[id].olds
    ensures var m := movers[id];
            var after := movers[id := Releasing(tag, m.olds - {c}, m.snap)];
            Leads(i, At(all, others, tag, carriers - {c}, after, todo), tag)
  {
    var m := movers[id];
    var d := At(all, others, tag, carriers - {c}, movers[id := Releasing(tag, m.olds - {c}, m.snap)], todo);
    assert Tagged(others, tag, carriers) - {(c, tag)} == d.state.holds;
    Follow(i, At(all, others, tag, carriers, movers, todo), Release(id, c, false), d, tag);
  }

  /** One whole move from x to its target, while others wait between their lookup and their hold. */
  lemma WholeMove(i: Config, all: set<string>, others: set<Hold>, tag: string, x: string,
                  movers: map<nat, Mover>, todo: map<nat, string>, id: nat) returns (after: map<nat, Mover>)
    requires Leads(i, At(all, others, tag, {x}, movers, todo), tag) && Foreign(others, tag)
    requires id !in movers && id in todo && todo[id] != x && todo[id] in all
    ensures after.Keys == movers.Keys + {id} && (forall j :: j in movers ==> after[j] == movers[j])
    ensures Leads(i, At(all, others, tag, {todo[id]}, after, todo - {id}), tag)
  {
    var z := todo[id];
    Finds(i, all, others, tag, {x}, movers, todo, id);
    after := movers[id := Ready(tag, {x}, z)];
    Places(i, all, others, tag, {x}, after, todo - {id}, id);
    after := after[id := Releasing(tag, {x}, z)];
    Releases(i, all, others, tag, {x} + {z}, after, todo - {id}, id, x);
    after := after[id := Releasing(tag, {x} - {x}, z)];
    assert {x} + {z} - {x} == {z};
  }

  /** With x the only carrier, three moves to x, y and z lose the tag, with no command failing: the move to y
      looks up x and is overtaken by the one to z; then the one to x releases y and z, and the first one x. */
  lemma ThreeMovesLose(i: Config, all: set<string>, others: set<Hold>, tag: string, x: string,
                       movers: map<nat, Mover>, todo: map<nat, string>, toX: nat, toY: nat, toZ: nat)
    requires Leads(i, At(all, others, tag, {x}, movers, todo), tag) && Foreign(others, tag)
    requires toX in todo && toY in todo && toZ in todo && todo[toX] == x
    requires x != todo[toY] && todo[toY] != todo[toZ] && x != todo[toZ]
    requires toX !in movers && toY !in movers && toZ !in movers
    requires x in all && todo[toY] in all && todo[toZ] in all
    ensures CanLose(i, tag)
  {
    var y, z := todo[toY], todo[toZ];
    Finds(i, all, others, tag, {x}, movers, todo, toY);
    var ms := movers[toY := Ready(tag, {x}, y)];
    var left := todo - {toY};
    ms := WholeMove(i, all, others, tag, x, ms, left, toZ);
    left := left - {toZ};
    Places(i, all, others, tag, {z}, ms, left, toY);
    ms := ms[toY := Releasing(tag, {x}, y)];
    var both := {z} + {y};
    Finds(i, all, others, tag, both, ms, left, toX);
    ms := ms[toX := Ready(tag, both, x)];
    left := left - {toX};
    Places(i, all, others, tag, both, ms, left, toX);
    ms := ms[toX := Releasing(tag, both, x)];
    Releases(i, all, others, tag, both + {x}, ms, left, toX, z);
    ms := ms[toX := Releasing(tag, both - {z}, x)];
    Releases(i, all, others, tag, both + {x} - {z}, ms, left, toX, y);
    ms := ms[toX := Releasing(tag, both - {z} - {y}, x)];
    Releases(i, all, others, tag, both + {x} - {z} - {y}, ms, left, toY, x);
    ms := ms[toY := Releasing(tag, {x} - {x}, y)];
    var none := both + {x} - {z} - {y} - {x};
    TaggedCarriers(others, tag, none);
    assert none == {};
    assert Carriers(At(all, others, tag, none, ms, left).state.holds, tag) == {};
  }

  // ----- exactly when

  predicate Injective(todo: map<nat, string>) {
    forall i, j :: i in todo && j in todo && todo[i] == todo[j] ==> i == j
  }

  lemma PickTwo(a: set<string>) returns (y: string, z: string)
    requires |a| >= 2
    ensures y in a && z in a && y != z
  {
    y :| y in a;
    assert |a - {y}| >= 1;
    z :| z in a - {y};
  }

  /** Any two names that cover a set of at most two. */
  lemma CoverTwo(a: set<string>) returns (u: string, v: string)
    requires |a| <= 2
    ensures u != v && a <= {u, v}
  {
    if a == {} {
      u, v := "", "v";
    } else {
      u :| u in a;
      var rest := a - {u};
      if rest == {} {
        v := u + "v";
        assert a == {u};
      } else {
        v :| v in rest;
        assert |rest - {v}| == 0;
        assert a == {u, v};
      }
    }
  }

  lemma AsAt(s: State, todo: map<nat, string>, tag: string, c: string) returns (others: set<Hold>)
    requires s.movers == map[] && Carriers(s.holds, tag) == {c}
    ensures Foreign(others, tag) && Config(s, todo) == At(s.snapshots, others, tag, {c}, map[], todo)
  {
    others := set h | h in s.holds && h.1 != tag;
    forall h ensures h in s.holds <==> h in Tagged(others, tag, {c}) {
      if h in s.holds && h.1 == tag {
        assert h.0 in Carriers(s.holds, tag) && h == (c, tag);
      }
      if h == (c, tag) {
        assert c in Carriers(s.holds, tag);
        var g :| g in s.holds && g.1 == tag && g.0 == c;
        assert g == h;
      }
    }
  }

  lemma LosesFromTarget(s: State, todo: map<nat, string>, tag: string, c: string)
    requires HoldsExist(s) && s.movers == map[] && Carriers(s.holds, tag) == {c}
    requires c in todo.Values && |todo.Values| >= 3
    ensures CanLose(Config(s, todo), tag)
  {
    var i := Config(s, todo);
    var others := AsAt(s, todo, tag, c);
    var toX :| toX in todo && todo[toX] == c;
    assert |todo.Values - {c}| >= 2;
    var y, z := PickTwo(todo.Values - {c});
    var toY :| toY in todo && todo[toY] == y;
    var toZ :| toZ in todo && todo[toZ] == z;
    Here(i, tag);
    Creates(i, s.snapshots, others, tag, {c}, todo, y);
    Creates(i, s.snapshots + {y}, others, tag, {c}, todo, z);
    CarrierExists(s, tag, c);
    ThreeMovesLose(i, s.snapshots + {y} + {z}, others, tag, c, map[], todo, toX, toY, toZ);
  }

  lemma CarrierExists(s: State, tag: string, c: string)
    requires HoldsExist(s) && Carriers(s.holds, tag) == {c}
    ensures (c, tag) in s.holds && c in s.snapshots
  {
    assert c in Carriers(s.holds, tag);
    var h :| h in s.holds && h.1 == tag && h.0 == c;
    assert h == (c, tag);
  }

  lemma LosesFromRepeat(s: State, todo: map<nat, string>, tag: string, c: string)
    requires HoldsExist(s) && s.movers == map[] && Carriers(s.holds, tag) == {c}
    requires c !in todo.Values && |todo.Values| >= 3 && !Injective(todo)
    ensures CanLose(Config(s, todo), tag)
  {
    var i := Config(s, todo);
    var others := AsAt(s, todo, tag, c);
    var first, toX :| first in todo && toX in todo && todo[first] == todo[toX] && first != toX;
    var x := todo[first];
    assert |todo.Values - {x}| >= 2;
    var y, z := PickTwo(todo.Values - {x});
    var toY :| toY in todo && todo[toY] == y;
    var toZ :| toZ in todo && todo[toZ] == z;
    Here(i, tag);
    Creates(i, s.snapshots, others, tag, {c}, todo, x);
    Creates(i, s.snapshots + {x}, others, tag, {c}, todo, y);
    Creates(i, s.snapshots + {x} + {y}, others, tag, {c}, todo, z);
    var all := s.snapshots + {x} + {y} + {z};
    assert x in todo.Values;
    var ms := WholeMove(i, all, others, tag, c, map[], todo, first);
    ThreeMovesLose(i, all, others, tag, x, ms, todo - {first}, toX, toY, toZ);
  }

  lemma FreshKeeps(s: State, todo: map<nat, string>, tag: string, c: string)
    requires HoldsExist(s) && s.movers == map[] && Carriers(s.holds, tag) == {c}
    requires c !in todo.Values && Injective(todo)
    ensures !CanLose(Config(s, todo), tag)
  {
    var i := Config(s, todo);
    CarrierExists(s, tag, c);
    assert Safe(s, tag, c);
    forall id, y | Waits(i, tag, id, y) ensures (y, tag) !in s.holds {
      assert y in todo.Values;
      assert (y, tag) in s.holds ==> y in Carriers(s.holds, tag);
    }
    forall d | Leads(i, d, tag) ensures Carriers(d.state.holds, tag) != {} {
      var steps :| Exec(i, steps, tag) == Some(d);
      FreshRun(i, steps, tag);
      var x :| Safe(d.state, tag, x);
      assert x in Carriers(d.state.holds, tag);
    }
  }

  lemma TwoStart(s: State, todo: map<nat, string>, tag: string, c: string, u: string, v: string)
    requires HoldsExist(s) && s.movers == map[] && Carriers(s.holds, tag) == {c}
    requires u != v && todo.Values <= {u, v}
    ensures TwoInv(Config(s, todo), tag, c, u, v)
  {
    CarrierExists(s, tag, c);
    forall y ensures Carried(s, tag, y) <==> y == c {
      assert (y, tag) in s.holds ==> y in Carriers(s.holds, tag);
    }
    assert forall id :: id in todo ==> todo[id] in todo.Values;
  }

  lemma CarriedIsCarrier(s: State, tag: string, x: string)
    requires Carried(s, tag, x)
    ensures Carriers(s.holds, tag) != {}
  {
    assert x in Carriers(s.holds, tag);
  }

  lemma TwoCarried(d: Config, tag: string, c: string, u: string, v: string)
    requires TwoInv(d, tag, c, u, v)
    ensures Carriers(d.state.holds, tag) != {}
  {
    CarriedIsCarrier(d.state, tag, if Carried(d.state, tag, u) then u else if Carried(d.state, tag, v) then v else c);
  }

  lemma TwoKeep(s: State, todo: map<nat, string>, tag: string, c: string)
    requires HoldsExist(s) && s.movers == map[] && Carriers(s.holds, tag) == {c} && |todo.Values| <= 2
    ensures !CanLose(Config(s, todo), tag)
  {
    var i := Config(s, todo);
    var u, v := CoverTwo(todo.Values);
    TwoStart(s, todo, tag, c, u, v);
    forall d | Leads(i, d, tag) ensures Carriers(d.state.holds, tag) != {} {
      var steps :| Exec(i, steps, tag) == Some(d);
      TwoRun(i, steps, tag, c, u, v);
      TwoCarried(d, tag, c, u, v);
    }
  }

  /** Which overlapping moves of one tag can lose it, with any failures, prunes and moves of other tags in
      between: from one carrier c, some interleaving leaves the tag on nothing if and only if the moves have
      at least three different targets, and c is one of them or two moves share one. */
  lemma CanLoseIff(s: State, todo: map<nat, string>, tag: string, c: string)
    requires HoldsExist(s) && s.movers == map[] && Carriers(s.holds, tag) == {c}
    ensures CanLose(Config(s, todo), tag)
       <==> |todo.Values| >= 3 && (c in todo.Values || !Injective(todo))
  {
    if |todo.Values| <= 2 {
      TwoKeep(s, todo, tag, c);
    } else if c in todo.Values {
      LosesFromTarget(s, todo, tag, c);
    } else if Injective(todo) {
      FreshKeeps(s, todo, tag, c);
    } else {
      LosesFromRepeat(s, todo, tag, c);
    }
  }
}
