/** What a prune's report amounts to. */
module PruneLaws {
  import opened Wrappers
  import opened Zfs
  import opened Listing
  import opened Retention
  import opened RetentionLaws
  import opened Prune
  import opened Holds
  import Naming

  /** d and q together are all, duplicates included. */
  ghost predicate Parts(d: seq<string>, q: seq<string>, all: seq<string>) {
    multiset(d) + multiset(q) == multiset(all)
  }

  lemma AddTo(d: seq<string>, q: seq<string>, s: seq<string>, n: nat)
    requires n < |s| && Parts(d, q, s[..n])
    ensures Parts(d + [s[n]], q, s[..n + 1]) && Parts(d, q + [s[n]], s[..n + 1])
  {
    assert s[..n + 1] == s[..n] + [s[n]];
  }

  /** What is chosen and what is not are all of it. */
  lemma {:induction false} PickSplits(s: seq<string>, n: nat, f: string -> bool, g: string -> bool)
    requires n <= |s| && forall x :: g(x) == !f(x)
    ensures Parts(Pick(s, n, f), Pick(s, n, g), s[..n])
  {
    if n > 0 {
      PickSplits(s, n - 1, f, g);
      AddTo(Pick(s, n - 1, f), Pick(s, n - 1, g), s, n - 1);
    }
  }

  /** The candidates with a Transfer Hold, in order. */
  ghost function Protected(candidates: seq<string>, holds: set<Hold>): seq<string> {
    Pick(candidates, |candidates|, x => ZrbHeld(holds, x))
  }

  lemma ProtectedIs(candidates: seq<string>, holds: set<Hold>)
    ensures forall x :: x in Protected(candidates, holds) <==> x in candidates && ZrbHeld(holds, x)
    ensures Parts(Destroyable(candidates, |candidates|, holds), Protected(candidates, holds), candidates)
  {
    PickIs(candidates, |candidates|, x => ZrbHeld(holds, x));
    PickSplits(candidates, |candidates|, x => !ZrbHeld(holds, x), x => ZrbHeld(holds, x));
    assert candidates[..|candidates|] == candidates;
  }

  /** The names that a report shows as held back. */
  ghost function HeldBack(raw: seq<string>, p: Policy, holds: set<Hold>): seq<string> {
    Protected(Candidates(raw, p), holds)
  }

  lemma SumOfThree(a: multiset<string>, b: multiset<string>, c: multiset<string>, d: multiset<string>,
                   all: multiset<string>)
    requires a + d == all && b + c == d
    ensures a + b + c == all
  {
  }

  /** Kept, deleted and held-back names together are exactly the managed listing, and the held-back names
      are exactly those the report gives a hold for. */
  lemma Conservation(r: PruneResult, raw: seq<string>, p: Policy, holds: set<Hold>)
    requires Reports(r, raw, p, holds)
    ensures multiset(Firsts(r.kept)) + multiset(r.deleted) + multiset(HeldBack(raw, p, holds)) == multiset(List(raw))
    ensures forall x :: x in HeldBack(raw, p, holds) <==> exists h :: h in r.holdSkipped && h.0 == x
  {
    var c := Candidates(raw, p);
    Partition(List(raw), p);
    ProtectedIs(c, holds);
    SumOfThree(multiset(Firsts(r.kept)), multiset(r.deleted), multiset(HeldBack(raw, p, holds)), multiset(c),
               multiset(List(raw)));
    forall x | x in HeldBack(raw, p, holds) ensures exists h :: h in r.holdSkipped && h.0 == x {
      var t :| (x, t) in holds && IsZrbTag(t);
      assert (x, t) in r.holdSkipped;
    }
    forall x | exists h :: h in r.holdSkipped && h.0 == x ensures x in HeldBack(raw, p, holds) {
      var h :| h in r.holdSkipped && h.0 == x;
      assert (x, h.1) in holds;
    }
  }

  lemma ListedAreManaged(raw: seq<string>, i: nat)
    requires i < |Listed(raw)|
    ensures Listed(raw)[i].ts.Some? && Listed(raw)[i].name in List(raw)
  {
    var s := Listed(raw);
    SortMembers(Entries(List(raw)), s[i]);
    var j :| 0 <= j < |List(raw)| && Entries(List(raw))[j] == s[i];
    assert s[i] == Entry(List(raw)[j]);
    ListMembers(raw, List(raw)[j]);
  }

  /** Only managed snapshots are listed, so nothing is ever reported as Unmanaged. */
  lemma NothingUnmanaged(r: PruneResult, raw: seq<string>, p: Policy, holds: set<Hold>, i: nat)
    requires Reports(r, raw, p, holds) && i < |r.kept|
    ensures r.kept[i].1 != Unmanaged
  {
    var s := Listed(raw);
    KeptReason(s, |s|, i, p);
    var j :| 0 <= j < |s| && Verdict(s, j, p) == Some(Kept(s, |s|, p)[i].1);
    ListedAreManaged(raw, j);
    ManagedReason(s, j, p);
  }

  lemma ManagedReason(s: seq<Snap>, j: nat, p: Policy)
    requires j < |s| && s[j].ts.Some?
    ensures Verdict(s, j, p) != Some(Unmanaged)
  {
  }

  lemma {:induction false} KeptReason(s: seq<Snap>, n: nat, i: nat, p: Policy)
    requires n <= |s| && i < |Kept(s, n, p)|
    ensures exists j :: 0 <= j < |s| && Verdict(s, j, p) == Some(Kept(s, n, p)[i].1)
  {
    if i < |Kept(s, n - 1, p)| {
      KeptReason(s, n - 1, i, p);
    } else {
      assert Verdict(s, n - 1, p) == Some(Kept(s, n, p)[i].1);
    }
  }

  // ----- dry runs

  lemma SameMultiset<T(!new)>(a: seq<T>, b: seq<T>)
    requires Distinct(a) && Distinct(b) && forall x :: x in a <==> x in b
    ensures multiset(a) == multiset(b)
  {
    forall x ensures multiset(a)[x] == multiset(b)[x] {
      CountAtMostOne(a, x);
      CountAtMostOne(b, x);
      assert x in multiset(a) <==> x in a;
      assert x in multiset(b) <==> x in b;
    }
  }

  lemma SameListing(raw: seq<string>, raw': seq<string>, snapshots: set<string>)
    requires Enumerates(raw, snapshots) && Enumerates(raw', snapshots)
    requires DistinctTimes(SortByTime(Entries(FilterZrb(raw))))
    ensures List(raw) == List(raw')
  {
    FilterDistinct(raw);
    FilterDistinct(raw');
    SameMultiset(FilterZrb(raw), FilterZrb(raw'));
    OrderIndependent(FilterZrb(raw), FilterZrb(raw'));
  }

  /** A dry run and a real run at the same state and clock answer the same: both wait for a pending token,
      or both report the same verdicts, deletions and holds, whatever order the listing and the holds came
      in, if no two managed snapshots have the same timestamp. */
  lemma DryRunFidelity(dry: PruneResult, actual: PruneResult, decision: ResumeDecision, raw: seq<string>,
                       raw': seq<string>, snapshots: set<string>, holds: set<Hold>, p: Policy)
    requires decision != Wait ==> Enumerates(raw, snapshots) && Enumerates(raw', snapshots)
    requires decision != Wait ==> DistinctTimes(SortByTime(Entries(FilterZrb(raw))))
    requires Answers(dry, decision, raw, p, holds) && Answers(actual, decision, raw', p, holds)
    ensures dry.resumeSkipped == actual.resumeSkipped == (decision == Wait)
    ensures dry.kept == actual.kept && dry.deleted == actual.deleted
    ensures multiset(dry.holdSkipped) == multiset(actual.holdSkipped)
  {
    if decision != Wait {
      SameListing(raw, raw', snapshots);
      SameMultiset(dry.holdSkipped, actual.holdSkipped);
    }
  }

  /** After a real prune a managed snapshot is still there exactly when the policy keeps it or a Transfer
      Hold protects it. */
  lemma SurvivesIff(r: PruneResult, raw: seq<string>, p: Policy, snapshots: set<string>, holds: set<Hold>, i: nat)
    requires Enumerates(raw, snapshots) && Reports(r, raw, p, holds) && i < |Listed(raw)|
    ensures Listed(raw)[i].name in snapshots - (set x | x in r.deleted)
       <==> Verdict(Listed(raw), i, p).Some? || ZrbHeld(holds, Listed(raw)[i].name)
  {
    var s, c := Listed(raw), Candidates(raw, p);
    ListedAreManaged(raw, i);
    ListMembers(raw, s[i].name);
    DestroyableIs(c, |c|, holds);
    assert c[..|c|] == c;
    DeletedAre(raw, p, i);
  }

  lemma {:induction false} DeletedMembers(s: seq<Snap>, n: nat, p: Policy, x: Snap)
    requires n <= |s|
    ensures x in Deleted(s, n, p) <==> exists j :: 0 <= j < n && s[j] == x && Verdict(s, j, p).None?
  {
    if n > 0 {
      DeletedMembers(s, n - 1, p, x);
      if x == s[n - 1] && Verdict(s, n - 1, p).None? {
        assert x in Deleted(s, n, p);
      }
    }
  }

  /** Listed names are distinct, so a name stands for one snapshot. */
  lemma NamesAreDistinct(raw: seq<string>, i: nat, j: nat)
    requires Distinct(raw) && i < |Listed(raw)| && j < |Listed(raw)| && Listed(raw)[i].name == Listed(raw)[j].name
    ensures i == j
  {
    ListDistinct(raw);
    ChronologicalPermutes(List(raw));
    DistinctPart(List(raw), Chronological(List(raw)));
    assert Names(Listed(raw))[i] == Names(Listed(raw))[j];
  }

  lemma DeletedAre(raw: seq<string>, p: Policy, i: nat)
    requires Distinct(raw) && i < |Listed(raw)|
    ensures Listed(raw)[i].name in Candidates(raw, p) <==> Verdict(Listed(raw), i, p).None?
  {
    var s := Listed(raw);
    var d := Deleted(s, |s|, p);
    if s[i].name in Candidates(raw, p) {
      var k :| 0 <= k < |d| && Names(d)[k] == s[i].name;
      DeletedMembers(s, |s|, p, d[k]);
      var j :| 0 <= j < |s| && s[j] == d[k] && Verdict(s, j, p).None?;
      NamesAreDistinct(raw, i, j);
    }
    if Verdict(s, i, p).None? {
      DeletedMembers(s, |s|, p, s[i]);
      var k :| 0 <= k < |d| && d[k] == s[i];
      assert Names(d)[k] == s[i].name;
    }
  }

  // ----- the tags that zrb places

  /** A tag is a Transfer Hold exactly when it begins with these four characters. */
  lemma ZrbTagIs(tag: string)
    ensures IsZrbTag(tag) <==> |tag| >= 4 && tag[0] == 'z' && tag[1] == 'r' && tag[2] == 'b' && tag[3] == ':'
  {
  }

  /** The Source's tag of a Remote, and the Remote's own; both are Transfer Holds. */
  lemma PlacedTags(remote: string)
    ensures RemoteTag(remote) == "zrb:" + remote && RECEIVED == "zrb:received"
    ensures IsZrbTag(RemoteTag(remote)) && IsZrbTag(RECEIVED)
  {
    assert ("zrb:" + remote)[..4] == "zrb:";
    assert RECEIVED[..4] == "zrb:";
  }

  /** No prune reports a snapshot with a Transfer Hold as deleted, and a candidate is shown with its tag. */
  lemma TaggedIsKeptBack(r: PruneResult, raw: seq<string>, p: Policy, holds: set<Hold>, x: string, tag: string)
    requires Reports(r, raw, p, holds) && (x, tag) in holds && "zrb:" <= tag
    ensures x !in r.deleted && (x in Candidates(raw, p) ==> (x, tag) in r.holdSkipped)
  {
    var c := Candidates(raw, p);
    DestroyableIs(c, |c|, holds);
    assert IsZrbTag(tag);
    assert ZrbHeld(holds, x);
  }

  /** The Source's prune leaves the snapshot on which a send has just placed its hold. */
  lemma PlacedHoldProtects(r: PruneResult, raw: seq<string>, p: Policy, remote: string, left: set<string>,
                           before: set<Hold>, after: set<Hold>, snapshots: set<string>, x: string)
    requires MoveResult(true, left, before, after, snapshots, x, RemoteTag(remote)) && Reports(r, raw, p, after)
    ensures x !in r.deleted && (x in Candidates(raw, p) ==> (x, "zrb:" + remote) in r.holdSkipped)
  {
    PlacedTags(remote);
    TaggedIsKeptBack(r, raw, p, after, x, "zrb:" + remote);
  }

  /** The Remote's prune leaves the snapshot it has just received, if its hold was placed. */
  lemma ReceivedHoldProtects(r: PruneResult, raw: seq<string>, p: Policy, before: set<string>, x: string,
                             listing: seq<string>, left: set<string>, holds: set<Hold>, after: set<Hold>)
    requires Naming.IsZrb(x) && Enumerates(listing, before + {x})
    requires forall y :: y in before && Naming.IsZrb(y) ==> Naming.Parse(y).value < Naming.Parse(x).value
    requires Newest(listing).Some?
    requires MoveResult(true, left, holds, after, before + {x}, Newest(listing).value, RECEIVED)
    requires Reports(r, raw, p, after)
    ensures (x, "zrb:received") in after
    ensures x !in r.deleted && (x in Candidates(raw, p) ==> (x, "zrb:received") in r.holdSkipped)
  {
    ReceivedIsNewest(listing, before, x);
    PlacedTags("");
    TaggedIsKeptBack(r, raw, p, after, x, "zrb:received");
  }
}
