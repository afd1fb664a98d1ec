/** What the retention policy guarantees: partition, order independence, idempotence, coverage. */
module RetentionLaws {
  import opened Wrappers
  import opened Calendar
  import opened Listing
  import opened Retention

  function Snaps(kept: seq<(Snap, KeepReason)>): (r: seq<Snap>)
    ensures |r| == |kept|
    ensures forall i :: 0 <= i < |r| ==> r[i] == kept[i].0
  {
    seq(|kept|, i requires 0 <= i < |kept| => kept[i].0)
  }

  function Firsts(keep: seq<(string, KeepReason)>): (r: seq<string>)
    ensures |r| == |keep|
    ensures forall i :: 0 <= i < |r| ==> r[i] == keep[i].0
  {
    seq(|keep|, i requires 0 <= i < |keep| => keep[i].0)
  }

  // ----- the outputs, place by place

  ghost predicate Rising(at: seq<nat>, n: nat) {
    (forall j, k :: 0 <= j < k < |at| ==> at[j] < at[k]) && forall k :: 0 <= k < |at| ==> at[k] < n
  }

  /** What is kept, in listing order: the snapshots with a verdict, each with its reason. */
  lemma {:induction false} KeptInOrder(s: seq<Snap>, n: nat, p: Policy) returns (at: seq<nat>)
    requires n <= |s|
    ensures Rising(at, n) && |Kept(s, n, p)| == |at|
    ensures forall i: nat :: i in at <==> i < n && Verdict(s, i, p).Some?
    ensures forall k :: 0 <= k < |at| ==> Kept(s, n, p)[k] == (s[at[k]], Verdict(s, at[k], p).value)
  {
    at := [];
    if n > 0 {
      at := KeptInOrder(s, n - 1, p);
      if Verdict(s, n - 1, p).Some? {
        at := at + [n - 1];
      }
    }
  }

  /** What is deleted, in listing order: the others. */
  lemma {:induction false} DeletedInOrder(s: seq<Snap>, n: nat, p: Policy) returns (at: seq<nat>)
    requires n <= |s|
    ensures Rising(at, n) && |Deleted(s, n, p)| == |at|
    ensures forall i: nat :: i in at <==> i < n && Verdict(s, i, p) == None
    ensures forall k :: 0 <= k < |at| ==> Deleted(s, n, p)[k] == s[at[k]]
  {
    at := [];
    if n > 0 {
      at := DeletedInOrder(s, n - 1, p);
      if Verdict(s, n - 1, p).None? {
        at := at + [n - 1];
      }
    }
  }

  // ----- partition

  lemma OutcomeStep(s: seq<Snap>, n: nat, p: Policy)
    requires n < |s|
    ensures var stays := Verdict(s, n, p).Some?;
            Snaps(Kept(s, n + 1, p)) == Snaps(Kept(s, n, p)) + One(stays, s[n])
            && Deleted(s, n + 1, p) == Deleted(s, n, p) + One(!stays, s[n])
  {
  }

  function One(here: bool, x: Snap): seq<Snap> {
    if here then [x] else []
  }

  lemma AddOne(a: seq<Snap>, b: seq<Snap>, c: seq<Snap>, x: Snap, left: bool)
    requires multiset(a) + multiset(b) == multiset(c)
    ensures multiset(a + One(left, x)) + multiset(b + One(!left, x)) == multiset(c + [x])
  {
    if left {
      assert b + One(!left, x) == b;
    } else {
      assert a + One(left, x) == a;
    }
  }

  ghost predicate Partitioned(s: seq<Snap>, n: nat, p: Policy)
    requires n <= |s|
  {
    multiset(Snaps(Kept(s, n, p))) + multiset(Deleted(s, n, p)) == multiset(s[..n])
  }

  lemma PartitionStep(s: seq<Snap>, n: nat, p: Policy)
    requires n < |s| && Partitioned(s, n, p)
    ensures Partitioned(s, n + 1, p)
  {
    OutcomeStep(s, n, p);
    AddOne(Snaps(Kept(s, n, p)), Deleted(s, n, p), s[..n], s[n], Verdict(s, n, p).Some?);
    assert s[..n + 1] == s[..n] + [s[n]];
  }

  lemma PartitionStart(s: seq<Snap>, p: Policy)
    ensures Partitioned(s, 0, p)
  {
  }

  lemma {:induction false} PartitionFrom(s: seq<Snap>, n: nat, p: Policy)
    requires n <= |s| && Partitioned(s, n, p)
    ensures Partitioned(s, |s|, p)
    decreases |s| - n
  {
    if n < |s| {
      PartitionStep(s, n, p);
      PartitionFrom(s, n + 1, p);
    }
  }

  /** Kept and deleted names together are exactly the input, duplicates included. */
  lemma Partition(snapshots: seq<string>, p: Policy)
    ensures var s := SortByTime(Entries(snapshots));
            multiset(Firsts(Label(Kept(s, |s|, p)))) + multiset(Names(Deleted(s, |s|, p))) == multiset(snapshots)
  {
    var s := SortByTime(Entries(snapshots));
    var k, d := Snaps(Kept(s, |s|, p)), Deleted(s, |s|, p);
    PartitionStart(s, p);
    PartitionFrom(s, 0, p);
    assert s[..|s|] == s;
    MapPermutes(NameOf, k + d, s);
    assert Names(k + d) == Names(k) + Names(d);
    ChronologicalPermutes(snapshots);
    assert Firsts(Label(Kept(s, |s|, p))) == Names(k);
  }

  // ----- the verdict does not depend on the order of the listing

  predicate Later(x: Snap, y: Snap) {
    x.ts.Some? && (y.ts.None? || y.ts.value < x.ts.value)
  }

  ghost function LaterThan(listing: set<Snap>, x: Snap): set<Snap> {
    set y | y in listing && Later(y, x)
  }

  /** The policy, stated over a set of snapshots with distinct timestamps. */
  ghost function SetVerdict(listing: set<Snap>, x: Snap, p: Policy): Option<KeepReason> {
    if |LaterThan(listing, x)| < p.recent then Some(Daily)
    else if x.ts.None? then Some(Unmanaged)
    else if exists y :: y in listing && Later(x, y) && SameBucket(y, x, p) then None
    else Some(p.bucket(x.ts.value).Reason())
  }

  lemma {:induction false} CountLater(s: seq<Snap>, i: nat)
    requires i < |s| && Sorted(s) && DistinctTimes(s)
    ensures |LaterThan(Members(s), s[i])| == |s| - 1 - i
  {
    assert LaterThan(Members(s), s[i]) == Members(s[i + 1..]) by {
      forall y | y in LaterThan(Members(s), s[i]) ensures y in Members(s[i + 1..]) {
        var j :| 0 <= j < |s| && s[j] == y;
        assert s[i + 1..][j - i - 1] == y;
      }
      forall j | i < j < |s| ensures Later(s[j], s[i]) {
        assert NotLater(s[i], s[j]);
      }
    }
    MembersCount(s[i + 1..]);
  }

  ghost function Members(s: seq<Snap>): set<Snap> {
    set x | x in s
  }

  lemma {:induction false} MembersCount(s: seq<Snap>)
    requires DistinctTimes(s)
    ensures |Members(s)| == |s|
  {
    if s != [] {
      MembersCount(s[1..]);
      assert Members(s) == {s[0]} + Members(s[1..]);
      assert s[0] !in Members(s[1..]);
    }
  }

  /** For a chronological listing with distinct timestamps, the verdict of the one-pass loop is the
      order-free verdict over its set of snapshots. */
  lemma VerdictIsOrderFree(s: seq<Snap>, i: nat, p: Policy)
    requires i < |s| && Sorted(s) && DistinctTimes(s)
    ensures Verdict(s, i, p) == SetVerdict(Members(s), s[i], p)
  {
    CountLater(s, i);
    ShadowedInSet(s, i, p);
  }

  lemma ShadowedInSet(s: seq<Snap>, i: nat, p: Policy)
    requires i < |s| && Sorted(s) && DistinctTimes(s)
    ensures Shadowed(s, i, p) <==> exists y :: y in Members(s) && Later(s[i], y) && SameBucket(y, s[i], p)
  {
    if Shadowed(s, i, p) {
      var j :| 0 <= j < i && SameBucket(s[j], s[i], p);
      assert NotLater(s[j], s[i]) && Later(s[i], s[j]);
      assert s[j] in Members(s);
    }
    if y :| y in Members(s) && Later(s[i], y) && SameBucket(y, s[i], p) {
      var j :| 0 <= j < |s| && s[j] == y;
      assert j < i;
    }
  }

  /** With distinct timestamps every permutation of the input is processed in the same order. */
  lemma OrderIndependent(a: seq<string>, b: seq<string>)
    requires multiset(a) == multiset(b) && DistinctTimes(SortByTime(Entries(a)))
    ensures SortByTime(Entries(a)) == SortByTime(Entries(b))
  {
    MapPermutes(Entry, a, b);
    SortSorts(Entries(a));
    SortSorts(Entries(b));
    SortUnique(SortByTime(Entries(a)), SortByTime(Entries(b)));
  }

  // ----- idempotence

  lemma {:induction false} KeptMembers(s: seq<Snap>, n: nat, i: nat, p: Policy)
    requires n <= |s| && i < |Kept(s, n, p)|
    ensures Kept(s, n, p)[i].0 in s[..n]
    ensures n <= RecentStart(s, p) ==>
      var (x, reason) := Kept(s, n, p)[i];
      reason == if x.ts.None? then Unmanaged else p.bucket(x.ts.value).Reason()
  {
    if i < |Kept(s, n - 1, p)| {
      KeptMembers(s, n - 1, i, p);
    } else {
      assert s[n - 1] in s[..n];
    }
  }

  lemma {:induction false} KeptSorted(s: seq<Snap>, n: nat, p: Policy)
    requires n <= |s| && Sorted(s)
    ensures Sorted(Snaps(Kept(s, n, p)))
  {
    if n > 0 {
      KeptSorted(s, n - 1, p);
      var k := Kept(s, n - 1, p);
      forall i | 0 <= i < |k| ensures NotLater(k[i].0, s[n - 1]) {
        KeptMembers(s, n - 1, i, p);
        var j :| 0 <= j < n - 1 && s[j] == k[i].0;
      }
    }
  }

  /** Among the kept snapshots older than the recent ones, no two share a bucket. */
  lemma {:induction false} OnePerBucket(s: seq<Snap>, n: nat, i: nat, j: nat, p: Policy)
    requires n <= RecentStart(s, p) && i < j < |Kept(s, n, p)|
    ensures !SameBucket(Kept(s, n, p)[i].0, Kept(s, n, p)[j].0, p)
  {
    if j < |Kept(s, n - 1, p)| {
      OnePerBucket(s, n - 1, i, j, p);
    } else {
      KeptMembers(s, n - 1, i, p);
      var m :| 0 <= m < n - 1 && s[m] == Kept(s, n - 1, p)[i].0;
    }
  }

  /** From RecentStart on, everything is kept as Daily. */
  lemma {:induction false} DailyTail(s: seq<Snap>, n: nat, p: Policy)
    requires RecentStart(s, p) <= n <= |s|
    ensures var r := RecentStart(s, p);
            var base := Kept(s, r, p);
            |Kept(s, n, p)| == |base| + n - r
            && (forall i :: 0 <= i < |base| ==> Kept(s, n, p)[i] == base[i])
            && (forall i :: |base| <= i < |base| + n - r ==> Kept(s, n, p)[i] == (s[i - |base| + r], Daily))
  {
    if n > RecentStart(s, p) {
      DailyTail(s, n - 1, p);
    }
  }

  lemma RepeatedVerdict(s: seq<Snap>, i: nat, p: Policy)
    requires i < |Kept(s, |s|, p)|
    ensures Verdict(Snaps(Kept(s, |s|, p)), i, p) == Some(Kept(s, |s|, p)[i].1)
  {
    var kept := Kept(s, |s|, p);
    var k := Snaps(kept);
    var r := RecentStart(s, p);
    DailyTail(s, |s|, p);
    var base := Kept(s, r, p);
    assert RecentStart(k, p) == |base| by { KeptAtMost(s, r, p); }
    if i < |base| {
      KeptMembers(s, r, i, p);
      forall j | 0 <= j < i ensures !SameBucket(k[j], k[i], p) {
        OnePerBucket(s, r, j, i, p);
      }
    }
  }

  lemma {:induction false} KeptAtMost(s: seq<Snap>, n: nat, p: Policy)
    requires n <= |s|
    ensures |Kept(s, n, p)| <= n
  {
    if n > 0 { KeptAtMost(s, n - 1, p); }
  }

  lemma {:induction false} RepeatPrefix(s: seq<Snap>, n: nat, p: Policy)
    requires n <= |Kept(s, |s|, p)|
    ensures var kept := Kept(s, |s|, p);
            Kept(Snaps(kept), n, p) == kept[..n] && Deleted(Snaps(kept), n, p) == []
  {
    if n > 0 {
      RepeatPrefix(s, n - 1, p);
      RepeatedVerdict(s, n - 1, p);
    }
  }

  lemma IdempotentEntries(s: seq<Snap>, p: Policy)
    requires Sorted(s)
    ensures var kept := Kept(s, |s|, p);
            var again := SortByTime(Snaps(kept));
            Kept(again, |again|, p) == kept && Deleted(again, |again|, p) == []
  {
    KeptSorted(s, |s|, p);
    var kept := Kept(s, |s|, p);
    SortSorted(Snaps(kept));
    RepeatPrefix(s, |kept|, p);
    assert kept[..|kept|] == kept;
  }

  /** The kept names, parsed again, are the kept entries. */
  lemma KeptEntries(snapshots: seq<string>, p: Policy)
    ensures var s := SortByTime(Entries(snapshots));
            Entries(Firsts(Label(Kept(s, |s|, p)))) == Snaps(Kept(s, |s|, p))
  {
    var s := SortByTime(Entries(snapshots));
    var kept := Kept(s, |s|, p);
    forall i | 0 <= i < |kept| ensures Entry(kept[i].0.name) == kept[i].0 {
      KeptMembers(s, |s|, i, p);
      var j :| 0 <= j < |s| && s[j] == kept[i].0;
      SortMembers(Entries(snapshots), s[j]);
      var k :| 0 <= k < |snapshots| && Entries(snapshots)[k] == s[j];
    }
  }

  /** Applying the policy to the names it kept, at the same instant, keeps all of them, for the same reasons. */
  lemma Idempotent(snapshots: seq<string>, p: Policy)
    ensures var s := SortByTime(Entries(snapshots));
            var kept := Label(Kept(s, |s|, p));
            var again := SortByTime(Entries(Firsts(kept)));
            Label(Kept(again, |again|, p)) == kept && Deleted(again, |again|, p) == []
  {
    var s := SortByTime(Entries(snapshots));
    SortSorts(Entries(snapshots));
    KeptEntries(snapshots, p);
    IdempotentEntries(s, p);
  }

  // ----- coverage

  /** The first snapshot of the bucket of s[i]. */
  lemma {:induction false} Representative(s: seq<Snap>, i: nat, p: Policy) returns (j: nat)
    requires i < |s| && s[i].ts.Some?
    ensures j <= i && SameBucket(s[j], s[i], p) && !Shadowed(s, j, p)
  {
    if Shadowed(s, i, p) {
      var k :| 0 <= k < i && SameBucket(s[k], s[i], p);
      j := Representative(s, k, p);
    } else {
      j := i;
    }
  }

  function GapDays(b: Bucket): int {
    match b
    case InWeek(_, _) => 7
    case InMonth(_, _) => 31
    case InYear(_) => 366
  }

  lemma WeekWidth(m: int, n: int)
    requires IsoWeekOf(m) == IsoWeekOf(n)
    ensures n - m < 7
  {
    SameIsoWeek(m, n);
  }

  lemma MonthWidth(c: Date, d: Date)
    requires ValidDate(c) && ValidDate(d) && c.year == d.year && c.month == d.month
    ensures DayOf(d) - DayOf(c) < 31
  {
  }

  lemma YearWidth(m: int, n: int)
    requires YearOfDay(m) == YearOfDay(n)
    ensures n - m < 366
  {
    YearOfDayBounds(m);
    YearOfDayBounds(n);
    YearStep(YearOfDay(m));
  }

  lemma BucketWidth(t: int, u: int, now: int, config: Config)
    requires t <= u && BucketOf(t, now, config) == BucketOf(u, now, config)
    ensures u - t < GapDays(BucketOf(t, now, config)) * SECONDS_PER_DAY
  {
    match BucketOf(t, now, config)
    case InWeek(_, _) =>
      WeekWidth(DayNumber(t), DayNumber(u));
    case InMonth(_, _) =>
      DateYear(t);
      DateYear(u);
      MonthWidth(DateOf(DayNumber(t)), DateOf(DayNumber(u)));
    case InYear(_) =>
      YearWidth(DayNumber(t), DayNumber(u));
  }

  /** Every deleted snapshot is covered by a kept one of its bucket that is no later and less than
      7, 31 or 366 days older. */
  lemma CoverageGap(s: seq<Snap>, i: nat, now: int, config: Config) returns (j: nat)
    requires i < |s| && Sorted(s) && Verdict(s, i, PolicyAt(now, config)).None?
    ensures j < i && SameBucket(s[j], s[i], PolicyAt(now, config))
    ensures Verdict(s, j, PolicyAt(now, config)) == Some(BucketOf(s[i].ts.value, now, config).Reason())
    ensures 0 <= s[i].ts.value - s[j].ts.value < GapDays(BucketOf(s[i].ts.value, now, config)) * SECONDS_PER_DAY
  {
    j := Representative(s, i, PolicyAt(now, config));
    assert NotLater(s[j], s[i]);
    BucketWidth(s[j].ts.value, s[i].ts.value, now, config);
  }
}
