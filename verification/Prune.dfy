/** Pruning one dataset: the resume-token decision, the retention policy, and the Transfer Holds that
    stand in its way. */
module Prune {
  import opened Wrappers
  import opened Zfs
  import opened Listing
  import opened Retention
  import opened RetentionLaws
  import Naming
  import Calendar

  datatype ResumeDecision = Idle | Wait | Expire

  function DecideResume(hasToken: bool, since: Option<int>, now: int, holdDays: Option<nat>): ResumeDecision {
    if !hasToken then Idle
    else if since.None? then Wait
    else
      match holdDays
      case None => Expire
      case Some(days) => if now - since.value >= days * Calendar.SECONDS_PER_DAY then Expire else Wait
  }

  function EffectiveDecision(hasToken: bool, since: Option<int>, now: int, holdDays: Option<nat>,
                             abortResume: bool): ResumeDecision
  {
    var d := DecideResume(hasToken, since, now, holdDays);
    if abortResume && d == Wait then Expire else d
  }

  /** The decision, by what is pending, noted, configured and asked for. */
  lemma DecisionIs(hasToken: bool, since: Option<int>, now: int, holdDays: Option<nat>, abortResume: bool)
    ensures EffectiveDecision(hasToken, since, now, holdDays, abortResume)
         == if !hasToken then Idle
            else if abortResume then Expire
            else if since == None then Wait
            else if holdDays.Some? && now - since.value < holdDays.value * 86400 then Wait
            else Expire
  {
  }

  // ----- holds

  predicate IsZrbTag(tag: string) {
    "zrb:" <= tag
  }

  function ZrbHoldsFromTags(tags: seq<string>): (r: seq<string>)
    ensures forall t :: t in r <==> t in tags && IsZrbTag(t)
  {
    if tags == [] then []
    else (if IsZrbTag(tags[0]) then [tags[0]] else []) + ZrbHoldsFromTags(tags[1..])
  }

  ghost predicate Distinct<T(!new)>(s: seq<T>) {
    forall i, j :: 0 <= i < j < |s| ==> s[i] != s[j]
  }

  /** The map tells, for the given names, exactly the tags that hold them, each once. */
  ghost predicate MapsHolds(m: map<string, seq<string>>, holds: set<Hold>, names: seq<string>) {
    && (forall s :: s in m ==> m[s] != [] && Distinct(m[s]))
    && (forall s, t: string :: (s in m && t in m[s]) <==> ((s, t) in holds && s in names))
  }

  function AddRow(m: map<string, seq<string>>, row: Hold): map<string, seq<string>> {
    m[row.0 := (if row.0 in m then m[row.0] else []) + [row.1]]
  }

  ghost predicate MapsRows(m: map<string, seq<string>>, rows: seq<Hold>) {
    && (forall s :: s in m ==> m[s] != [] && Distinct(m[s]))
    && (forall s, t: string :: (s in m && t in m[s]) <==> (s, t) in rows)
  }

  lemma AddRowMaps(m: map<string, seq<string>>, rows: seq<Hold>, row: Hold)
    requires MapsRows(m, rows) && row !in rows
    ensures MapsRows(AddRow(m, row), rows + [row])
  {
    var m' := AddRow(m, row);
    forall s, t: string ensures (s in m' && t in m'[s]) <==> (s, t) in rows + [row] {
      assert (s, t) in rows + [row] <==> (s, t) in rows || (s, t) == row;
    }
  }

  /** One `zfs holds` call for all names, grouped by snapshot. */
  method BatchSnapshotHolds(ds: Dataset, names: seq<string>) returns (r: Result<map<string, seq<string>>, ZfsError>)
    modifies ds`faults
    ensures ds.faults >= old(ds.faults) && (r.Err? <==> ds.faults > old(ds.faults))
    ensures r.Ok? ==> MapsHolds(r.value, ds.holds, names)
  {
    if names == [] {
      return Ok(map[]);
    }
    var rows := ds.HoldRows(names);
    if rows.Err? {
      return Err(CommandFailed);
    }
    var m: map<string, seq<string>> := map[];
    for i := 0 to |rows.value|
      invariant MapsRows(m, rows.value[..i]) && ds.faults == old(ds.faults)
    {
      assert rows.value[..i + 1] == rows.value[..i] + [rows.value[i]];
      AddRowMaps(m, rows.value[..i], rows.value[i]);
      m := AddRow(m, rows.value[i]);
    }
    assert rows.value[..|rows.value|] == rows.value;
    return Ok(m);
  }

  // ----- classification of the candidates

  function TagsOf(m: map<string, seq<string>>, snap: string): seq<string> {
    ZrbHoldsFromTags(if snap in m then m[snap] else [])
  }

  function Pairs(snap: string, tags: seq<string>): (r: seq<Hold>)
    ensures |r| == |tags| && forall i :: 0 <= i < |r| ==> r[i] == (snap, tags[i])
  {
    seq(|tags|, i requires 0 <= i < |tags| => (snap, tags[i]))
  }

  /** The first n candidates that no Transfer Hold protects. */
  function Unheld(candidates: seq<string>, n: nat, m: map<string, seq<string>>): seq<string>
    requires n <= |candidates|
  {
    if n == 0 then []
    else Unheld(candidates, n - 1, m) + (if TagsOf(m, candidates[n - 1]) == [] then [candidates[n - 1]] else [])
  }

  /** One pair for each Transfer Hold on the first n candidates. */
  function Skips(candidates: seq<string>, n: nat, m: map<string, seq<string>>): seq<Hold>
    requires n <= |candidates|
  {
    if n == 0 then []
    else Skips(candidates, n - 1, m) + Pairs(candidates[n - 1], TagsOf(m, candidates[n - 1]))
  }

  method AddPairs(skipped: seq<Hold>, snap: string, tags: seq<string>) returns (r: seq<Hold>)
    ensures r == skipped + Pairs(snap, tags)
  {
    r := skipped;
    for j := 0 to |tags|
      invariant r == skipped + Pairs(snap, tags[..j])
    {
      r := r + [(snap, tags[j])];
    }
    assert tags[..|tags|] == tags;
  }

  /** Split the candidates into those to destroy and the Transfer Holds that protect the others. */
  method ClassifyCandidates(candidates: seq<string>, holdsMap: map<string, seq<string>>)
    returns (toDelete: seq<string>, holdSkipped: seq<Hold>)
    ensures toDelete == Unheld(candidates, |candidates|, holdsMap)
    ensures holdSkipped == Skips(candidates, |candidates|, holdsMap)
  {
    toDelete, holdSkipped := [], [];
    for i := 0 to |candidates|
      invariant toDelete == Unheld(candidates, i, holdsMap)
      invariant holdSkipped == Skips(candidates, i, holdsMap)
    {
      var zrbHolds := TagsOf(holdsMap, candidates[i]);
      if zrbHolds == [] {
        toDelete := toDelete + [candidates[i]];
      } else {
        holdSkipped := AddPairs(holdSkipped, candidates[i], zrbHolds);
      }
    }
  }

  ghost predicate ZrbHeld(holds: set<Hold>, snap: string) {
    exists t :: (snap, t) in holds && IsZrbTag(t)
  }

  lemma {:induction false} ZrbHoldsDistinct(tags: seq<string>)
    requires Distinct(tags)
    ensures Distinct(ZrbHoldsFromTags(tags))
  {
    if tags != [] {
      ZrbHoldsDistinct(tags[1..]);
    }
  }

  lemma TagsAre(m: map<string, seq<string>>, holds: set<Hold>, names: seq<string>, snap: string)
    requires MapsHolds(m, holds, names) && snap in names
    ensures forall t :: t in TagsOf(m, snap) <==> (snap, t) in holds && IsZrbTag(t)
    ensures Distinct(TagsOf(m, snap)) && (TagsOf(m, snap) == [] <==> !ZrbHeld(holds, snap))
  {
    if snap in m {
      ZrbHoldsDistinct(m[snap]);
    }
    if TagsOf(m, snap) != [] {
      assert TagsOf(m, snap)[0] in TagsOf(m, snap);
    }
  }

  /** The chosen ones of the first n names, in order. */
  function Pick(s: seq<string>, n: nat, f: string -> bool): seq<string>
    requires n <= |s|
  {
    if n == 0 then []
    else if f(s[n - 1]) then Pick(s, n - 1, f) + [s[n - 1]]
    else Pick(s, n - 1, f)
  }

  lemma {:induction false} PickIs(s: seq<string>, n: nat, f: string -> bool)
    requires n <= |s|
    ensures forall x :: x in Pick(s, n, f) <==> x in s[..n] && f(x)
    ensures Distinct(s) ==> Distinct(Pick(s, n, f))
  {
    if n > 0 {
      PickIs(s, n - 1, f);
      assert s[..n] == s[..n - 1] + [s[n - 1]];
      var rest := Pick(s, n - 1, f);
      assert forall k :: 0 <= k < |rest| ==> rest[k] in s[..n - 1];
    }
  }

  /** The first n candidates without a Transfer Hold, in order. */
  ghost function Destroyable(candidates: seq<string>, n: nat, holds: set<Hold>): seq<string>
    requires n <= |candidates|
  {
    Pick(candidates, n, x => !ZrbHeld(holds, x))
  }

  lemma {:induction false} UnheldPick(candidates: seq<string>, n: nat, m: map<string, seq<string>>, f: string -> bool)
    requires n <= |candidates| && forall x :: x in candidates ==> (TagsOf(m, x) == [] <==> f(x))
    ensures Unheld(candidates, n, m) == Pick(candidates, n, f)
  {
    if n > 0 {
      UnheldPick(candidates, n - 1, m, f);
      assert candidates[n - 1] in candidates;
    }
  }

  /** With the true holds in the map, exactly the candidates without a Transfer Hold are destroyed. */
  lemma UnheldIs(candidates: seq<string>, n: nat, m: map<string, seq<string>>, holds: set<Hold>)
    requires n <= |candidates| && MapsHolds(m, holds, candidates)
    ensures Unheld(candidates, n, m) == Destroyable(candidates, n, holds)
  {
    forall x | x in candidates ensures TagsOf(m, x) == [] <==> !ZrbHeld(holds, x) {
      TagsAre(m, holds, candidates, x);
    }
    UnheldPick(candidates, n, m, x => !ZrbHeld(holds, x));
  }

  lemma DestroyableIs(candidates: seq<string>, n: nat, holds: set<Hold>)
    requires n <= |candidates|
    ensures forall x :: x in Destroyable(candidates, n, holds) <==> x in candidates[..n] && !ZrbHeld(holds, x)
    ensures Distinct(candidates) ==> Distinct(Destroyable(candidates, n, holds))
  {
    PickIs(candidates, n, x => !ZrbHeld(holds, x));
  }

  /** All Transfer Holds on the given candidates, each once. */
  ghost predicate SkipsExactly(skipped: seq<Hold>, candidates: seq<string>, holds: set<Hold>) {
    Distinct(skipped) && forall h :: h in skipped <==> h in holds && h.0 in candidates && IsZrbTag(h.1)
  }

  lemma SkipMore(skipped: seq<Hold>, candidates: seq<string>, i: nat, holds: set<Hold>, tags: seq<string>)
    requires i < |candidates| && Distinct(candidates) && SkipsExactly(skipped, candidates[..i], holds)
    requires Distinct(tags) && forall t :: t in tags <==> (candidates[i], t) in holds && IsZrbTag(t)
    ensures SkipsExactly(skipped + Pairs(candidates[i], tags), candidates[..i + 1], holds)
  {
    var snap, more := candidates[i], Pairs(candidates[i], tags);
    assert candidates[..i + 1] == candidates[..i] + [snap];
    forall h: Hold ensures h in more <==> h.0 == snap && h.1 in tags {
      if h.0 == snap && h.1 in tags {
        var k :| 0 <= k < |tags| && tags[k] == h.1;
        assert more[k] == h;
      }
    }
    forall k | 0 <= k < |skipped| ensures skipped[k] !in more {
      assert skipped[k] in skipped;
    }
  }

  lemma SkipsStep(candidates: seq<string>, n: nat, m: map<string, seq<string>>, holds: set<Hold>)
    requires n < |candidates| && Distinct(candidates) && MapsHolds(m, holds, candidates)
    requires SkipsExactly(Skips(candidates, n, m), candidates[..n], holds)
    ensures SkipsExactly(Skips(candidates, n + 1, m), candidates[..n + 1], holds)
  {
    TagsAre(m, holds, candidates, candidates[n]);
    SkipMore(Skips(candidates, n, m), candidates, n, holds, TagsOf(m, candidates[n]));
  }

  lemma {:induction false} SkipsAre(candidates: seq<string>, n: nat, m: map<string, seq<string>>, holds: set<Hold>)
    requires n <= |candidates| && Distinct(candidates) && MapsHolds(m, holds, candidates)
    ensures SkipsExactly(Skips(candidates, n, m), candidates[..n], holds)
  {
    if n > 0 {
      SkipsAre(candidates, n - 1, m, holds);
      SkipsStep(candidates, n - 1, m, holds);
    }
  }

  // ----- prune

  datatype PruneResult = PruneResult(
    kept: seq<(string, KeepReason)>, deleted: seq<string>, resumeSkipped: bool, holdSkipped: seq<Hold>)

  const WAITING := PruneResult([], [], true, [])

  /** The managed snapshots of a raw listing, oldest first, as the policy sees them. */
  ghost function Listed(raw: seq<string>): seq<Snap> {
    SortByTime(Entries(List(raw)))
  }

  ghost function Candidates(raw: seq<string>, p: Policy): seq<string> {
    Names(Deleted(Listed(raw), |Listed(raw)|, p))
  }

  /** What a prune that does not wait reports: the policy's verdicts, the candidates that no Transfer Hold
      protects, and every Transfer Hold on the others. */
  ghost predicate Reports(r: PruneResult, raw: seq<string>, p: Policy, holds: set<Hold>) {
    && !r.resumeSkipped
    && r.kept == Label(Kept(Listed(raw), |Listed(raw)|, p))
    && r.deleted == Destroyable(Candidates(raw, p), |Candidates(raw, p)|, holds)
    && SkipsExactly(r.holdSkipped, Candidates(raw, p), holds)
  }

  /** What a prune with this resume decision reports. */
  ghost predicate Answers(r: PruneResult, decision: ResumeDecision, raw: seq<string>, p: Policy, holds: set<Hold>) {
    if decision == Wait then r == WAITING else Reports(r, raw, p, holds)
  }

  /** Some candidate without a Transfer Hold is held by a tag that is not zrb's. */
  ghost predicate ForeignlyHeld(raw: seq<string>, p: Policy, holds: set<Hold>) {
    exists x :: x in Candidates(raw, p) && Held(holds, x) && !ZrbHeld(holds, x)
  }

  // ----- the candidates are distinct managed names

  lemma {:induction false} CountAtMostOne<T(!new)>(s: seq<T>, x: T)
    requires Distinct(s)
    ensures multiset(s)[x] <= 1
  {
    if s != [] {
      assert s == [s[0]] + s[1..];
      CountAtMostOne(s[1..], x);
    }
  }

  lemma TwiceCounts<T(!new)>(s: seq<T>, i: nat, j: nat)
    requires i < j < |s| && s[i] == s[j]
    ensures multiset(s)[s[i]] >= 2
  {
    assert s == s[..i] + [s[i]] + s[i + 1..j] + [s[j]] + s[j + 1..];
  }

  lemma DistinctPart<T(!new)>(s: seq<T>, part: seq<T>)
    requires Distinct(s) && multiset(part) <= multiset(s)
    ensures Distinct(part)
  {
    forall i, j | 0 <= i < j < |part| ensures part[i] != part[j] {
      if part[i] == part[j] {
        TwiceCounts(part, i, j);
        CountAtMostOne(s, part[i]);
      }
    }
  }

  lemma {:induction false} FilterDistinct(names: seq<string>)
    requires Distinct(names)
    ensures Distinct(FilterZrb(names))
  {
    if names != [] {
      FilterDistinct(names[1..]);
      var rest := FilterZrb(names[1..]);
      assert forall k :: 0 <= k < |rest| ==> rest[k] in names[1..];
    }
  }

  lemma ListDistinct(raw: seq<string>)
    requires Distinct(raw)
    ensures Distinct(List(raw))
  {
    FilterDistinct(raw);
    ChronologicalPermutes(FilterZrb(raw));
    DistinctPart(FilterZrb(raw), List(raw));
  }

  lemma CandidatesAreManaged(raw: seq<string>, p: Policy)
    requires Distinct(raw)
    ensures Distinct(Candidates(raw, p))
    ensures forall x :: x in Candidates(raw, p) ==> x in raw && Naming.IsZrb(x) && DestroyGuard(x)
  {
    ListDistinct(raw);
    Partition(List(raw), p);
    DistinctPart(List(raw), Candidates(raw, p));
    forall x | x in Candidates(raw, p) ensures x in raw && Naming.IsZrb(x) && DestroyGuard(x) {
      assert x in multiset(Candidates(raw, p)) && x in multiset(List(raw));
      ListMembers(raw, x);
      Naming.ManagedNameShape(x);
    }
  }

  /** Destroy the given snapshots in order, stopping at the first failure. */
  method DestroyAll(ds: Dataset, names: seq<string>) returns (ok: bool)
    requires ds.Valid() && Distinct(names) && forall x :: x in names ==> DestroyGuard(x)
    modifies ds`snapshots, ds`faults
    ensures ds.Valid() && ds.faults >= old(ds.faults)
    ensures forall x :: x in old(ds.snapshots) - ds.snapshots ==> x in names && !Held(ds.holds, x)
    ensures ds.snapshots <= old(ds.snapshots)
    ensures exists k :: 0 <= k <= |names| && ds.snapshots == old(ds.snapshots) - (set x | x in names[..k])
    ensures ok ==> ds.snapshots == old(ds.snapshots) - (set x | x in names)
    ensures !ok && ds.faults == old(ds.faults) ==>
      exists x :: x in names && (x !in old(ds.snapshots) || Held(ds.holds, x))
    ensures ok ==> forall x :: x in names ==> !Held(ds.holds, x)
  {
    for i := 0 to |names|
      invariant ds.Valid() && ds.faults >= old(ds.faults)
      invariant ds.snapshots == old(ds.snapshots) - (set x | x in names[..i])
      invariant forall x :: x in names[..i] ==> !Held(ds.holds, x)
    {
      assert names[..i + 1] == names[..i] + [names[i]];
      var done := ds.DestroySnapshot(names[i]);
      if !done {
        return false;
      }
    }
    assert names[..|names|] == names;
    return true;
  }

  /** The token and `since` after a real prune with this decision. */
  predicate TokenAfter(decision: ResumeDecision, token: Option<string>, since: Option<int>,
                       token': Option<string>, since': Option<int>) {
    match decision
    case Idle => token' == token && since' == None
    case Wait => token' == token && since' == since
    case Expire => token' == None && since' == None
  }

  /** Prune one dataset. `raw` is the listing the run saw. */
  method PruneDataset(ds: Dataset, config: Config, holdDays: Option<nat>, dryRun: bool, abortResume: bool, now: int,
                      later: int)
    returns (r: Result<PruneResult, ZfsError>, ghost raw: seq<string>)
    requires ds.Valid()
    modifies ds
    ensures ds.Valid() && ds.holds == old(ds.holds) && ds.snapshots <= old(ds.snapshots)
    // A dry run changes nothing.
    ensures dryRun ==> ds.snapshots == old(ds.snapshots) && ds.token == old(ds.token) && ds.since == old(ds.since)
    // Whatever is destroyed satisfies the guard and carries no hold of any kind.
    ensures forall x :: x in old(ds.snapshots) - ds.snapshots ==> DestroyGuard(x) && !Held(ds.holds, x)
    // A pending token that is not to expire yet stops everything, whatever fails; a command that fails
    // leaves token and note as they were or as the decision wants them.
    ensures var decision := EffectiveDecision(old(ds.token).Some?, old(ds.since), now, holdDays, abortResume);
            && (decision == Wait ==> ds.snapshots == old(ds.snapshots))
            && (ds.token == old(ds.token) || (decision == Expire && ds.token == None))
            && (ds.since == old(ds.since) || (decision != Wait && ds.since == None))
            && (r.Ok? && !dryRun ==> TokenAfter(decision, old(ds.token), old(ds.since), ds.token, ds.since))
    // The report follows the policy and the holds, and a real run destroys what it reports.
    ensures var decision := EffectiveDecision(old(ds.token).Some?, old(ds.since), now, holdDays, abortResume);
            r.Ok? ==> Answers(r.value, decision, raw, PolicyAt(later, config), old(ds.holds))
                      && (decision != Wait ==> Enumerates(raw, old(ds.snapshots)))
                      && (!dryRun ==> ds.snapshots == old(ds.snapshots) - (set x | x in r.value.deleted))
    // Without a failed command, exactly a candidate with a foreign hold makes it fail, in a real run.
    ensures var decision := EffectiveDecision(old(ds.token).Some?, old(ds.since), now, holdDays, abortResume);
            ds.faults == old(ds.faults) ==>
              (decision != Wait ==> Enumerates(raw, old(ds.snapshots)))
              && (r.Err? <==> decision != Wait && !dryRun && ForeignlyHeld(raw, PolicyAt(later, config), old(ds.holds)))
  {
    raw := [];
    var token := ds.GetToken();
    if token.Err? {
      return Err(CommandFailed), raw;
    }
    var since := ds.GetSince();
    if since.Err? {
      return Err(CommandFailed), raw;
    }
    var decision := DecideResume(token.value.Some?, since.value, now, holdDays);
    if abortResume && decision == Wait {
      decision := Expire;
    }
    match decision {
      case Idle =>
        if since.value.Some? && !dryRun {
          var ok := ds.SetSince(None);
          if !ok {
            return Err(CommandFailed), raw;
          }
        }
      case Wait =>
        return Ok(WAITING), raw;
      case Expire =>
        if !dryRun {
          var ok := ds.AbortResume();
          if !ok {
            return Err(CommandFailed), raw;
          }
          ok := ds.SetSince(None);
          if !ok {
            return Err(CommandFailed), raw;
          }
        }
    }
    r, raw := PruneListed(ds, config, dryRun, later);
  }

  /** The part after the token: list, classify, destroy. */
  method PruneListed(ds: Dataset, config: Config, dryRun: bool, now: int)
    returns (r: Result<PruneResult, ZfsError>, ghost raw: seq<string>)
    requires ds.Valid()
    modifies ds`snapshots, ds`faults
    ensures ds.Valid() && ds.faults >= old(ds.faults) && ds.snapshots <= old(ds.snapshots)
    ensures dryRun ==> ds.snapshots == old(ds.snapshots)
    ensures forall x :: x in old(ds.snapshots) - ds.snapshots ==> DestroyGuard(x) && !Held(ds.holds, x)
    ensures r.Ok? ==> Enumerates(raw, old(ds.snapshots)) && Reports(r.value, raw, PolicyAt(now, config), ds.holds)
    ensures r.Ok? && !dryRun ==> ds.snapshots == old(ds.snapshots) - (set x | x in r.value.deleted)
    ensures ds.faults == old(ds.faults) ==>
      Enumerates(raw, old(ds.snapshots))
      && (r.Err? <==> !dryRun && ForeignlyHeld(raw, PolicyAt(now, config), ds.holds))
  {
    raw := [];
    var names := ds.ListSnapshots();
    if names.Err? {
      return Err(CommandFailed), raw;
    }
    raw := names.value;
    var kept, candidates := Apply(List(names.value), now, config);
    CandidatesAreManaged(raw, PolicyAt(now, config));
    var holdsMap := BatchSnapshotHolds(ds, candidates);
    if holdsMap.Err? {
      return Err(CommandFailed), raw;
    }
    var toDelete, holdSkipped := ClassifyCandidates(candidates, holdsMap.value);
    UnheldIs(candidates, |candidates|, holdsMap.value, ds.holds);
    SkipsAre(candidates, |candidates|, holdsMap.value, ds.holds);
    DestroyableIs(candidates, |candidates|, ds.holds);
    assert candidates[..|candidates|] == candidates;
    if !dryRun {
      var ok := DestroyAll(ds, toDelete);
      if !ok {
        return Err(CommandFailed), raw;
      }
    }
    return Ok(PruneResult(kept, toDelete, false, holdSkipped)), raw;
  }
}
