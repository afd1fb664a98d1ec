/** The tiered retention policy: a declarative verdict for each snapshot, and the one-pass loop that
    computes all of them. */
module Retention {
  import opened Wrappers
  import opened Calendar
  import opened Listing

  datatype Config = Config(recent: nat, weeklyForDays: int, monthlyForDays: int)

  datatype KeepReason = Daily | Weekly | Monthly | Yearly | Unmanaged

  /** A tier together with the bucket inside it; every bucket carries its calendar year. */
  datatype Bucket =
    | InWeek(year: int, week: IsoWeek)
    | InMonth(year: int, month: int)
    | InYear(year: int)
  {
    function Reason(): KeepReason {
      match this
      case InWeek(_, _) => Weekly
      case InMonth(_, _) => Monthly
      case InYear(_) => Yearly
    }
  }

  function Cutoff(now: int, days: int): int {
    now - days * SECONDS_PER_DAY
  }

  function BucketOf(ts: int, now: int, config: Config): Bucket {
    if ts > Cutoff(now, config.weeklyForDays) then InWeek(YearOf(ts), IsoWeekOf(DayNumber(ts)))
    else if ts > Cutoff(now, config.monthlyForDays) then InMonth(YearOf(ts), DateOf(DayNumber(ts)).month)
    else InYear(YearOf(ts))
  }

  /** A policy at one instant: how many recent snapshots stay, and the bucket of each instant. */
  datatype Policy = Policy(recent: nat, bucket: int -> Bucket)

  function PolicyAt(now: int, config: Config): Policy {
    Policy(config.recent, ts => BucketOf(ts, now, config))
  }

  predicate SameBucket(x: Snap, y: Snap, p: Policy) {
    x.ts.Some? && y.ts.Some? && p.bucket(x.ts.value) == p.bucket(y.ts.value)
  }

  function RecentStart(s: seq<Snap>, p: Policy): nat {
    if |s| <= p.recent then 0 else |s| - p.recent
  }

  /** Some earlier snapshot already represents the bucket of s[i]. */
  ghost predicate Shadowed(s: seq<Snap>, i: nat, p: Policy)
    requires i < |s|
  {
    exists j :: 0 <= j < i && SameBucket(s[j], s[i], p)
  }

  /** Why s[i] of a chronological listing is kept, or None when it is not. */
  ghost function Verdict(s: seq<Snap>, i: nat, p: Policy): Option<KeepReason>
    requires i < |s|
  {
    if RecentStart(s, p) <= i then Some(Daily)
    else if s[i].ts.None? then Some(Unmanaged)
    else if Shadowed(s, i, p) then None
    else Some(p.bucket(s[i].ts.value).Reason())
  }

  /** The first n snapshots that are kept, with their reasons. */
  ghost function Kept(s: seq<Snap>, n: nat, p: Policy): seq<(Snap, KeepReason)>
    requires n <= |s|
  {
    if n == 0 then []
    else
      var v := Verdict(s, n - 1, p);
      Kept(s, n - 1, p) + (if v.Some? then [(s[n - 1], v.value)] else [])
  }

  ghost function Deleted(s: seq<Snap>, n: nat, p: Policy): seq<Snap>
    requires n <= |s|
  {
    if n == 0 then []
    else Deleted(s, n - 1, p) + (if Verdict(s, n - 1, p).None? then [s[n - 1]] else [])
  }

  function Label(kept: seq<(Snap, KeepReason)>): (r: seq<(string, KeepReason)>)
    ensures |r| == |kept|
    ensures forall i :: 0 <= i < |r| ==> r[i] == (kept[i].0.name, kept[i].1)
  {
    seq(|kept|, i requires 0 <= i < |kept| => (kept[i].0.name, kept[i].1))
  }

  /** The buckets of the first n snapshots. */
  ghost function Seen(s: seq<Snap>, n: nat, p: Policy): set<Bucket>
    requires n <= |s|
  {
    set j | 0 <= j < n && s[j].ts.Some? :: p.bucket(s[j].ts.value)
  }

  lemma SeenStep(s: seq<Snap>, n: nat, p: Policy)
    requires n < |s|
    ensures Seen(s, n + 1, p)
         == Seen(s, n, p) + (if s[n].ts.Some? then {p.bucket(s[n].ts.value)} else {})
  {
  }

  lemma ShadowedBySeen(s: seq<Snap>, n: nat, p: Policy)
    requires n < |s| && s[n].ts.Some?
    ensures Shadowed(s, n, p) <==> p.bucket(s[n].ts.value) in Seen(s, n, p)
  {
    if Shadowed(s, n, p) {
      var j :| 0 <= j < n && SameBucket(s[j], s[n], p);
      assert p.bucket(s[j].ts.value) in Seen(s, n, p);
    }
  }

  lemma OutputStep(s: seq<Snap>, n: nat, p: Policy)
    requires n < |s|
    ensures Label(Kept(s, n + 1, p)) == Label(Kept(s, n, p))
         + match Verdict(s, n, p) { case Some(reason) => [(s[n].name, reason)] case None => [] }
    ensures Names(Deleted(s, n + 1, p)) == Names(Deleted(s, n, p))
         + if Verdict(s, n, p).None? then [s[n].name] else []
  {
  }

  /** The tiers' sets of buckets, read as one set. */
  ghost predicate Records(weeks: set<(int, IsoWeek)>, months: set<(int, int)>, years: set<int>, seen: set<Bucket>) {
    && (forall y, w :: (y, w) in weeks <==> InWeek(y, w) in seen)
    && (forall y, m :: (y, m) in months <==> InMonth(y, m) in seen)
    && (forall y :: y in years <==> InYear(y) in seen)
  }

  lemma RecordBucket(weeks: set<(int, IsoWeek)>, months: set<(int, int)>, years: set<int>, seen: set<Bucket>, b: Bucket)
    requires Records(weeks, months, years, seen)
    ensures match b
            case InWeek(y, w) => Records(weeks + {(y, w)}, months, years, seen + {b})
            case InMonth(y, m) => Records(weeks, months + {(y, m)}, years, seen + {b})
            case InYear(y) => Records(weeks, months, years + {y}, seen + {b})
    ensures b in seen ==> seen + {b} == seen
  {
  }

  function Range(lo: nat, hi: nat): (r: set<nat>)
    requires lo <= hi
    ensures forall i :: i in r <==> lo <= i < hi
    decreases hi - lo
  {
    if lo == hi then {} else {lo} + Range(lo + 1, hi)
  }

  /** The loop over the sorted listing, with one set of buckets per tier. */
  method Classify(parsed: seq<Snap>, now: int, config: Config)
    returns (keep: seq<(string, KeepReason)>, delete: seq<string>)
    ensures keep == Label(Kept(parsed, |parsed|, PolicyAt(now, config)))
    ensures delete == Names(Deleted(parsed, |parsed|, PolicyAt(now, config)))
  {
    ghost var p := PolicyAt(now, config);
    var total := |parsed|;
    var recentStart := if total <= config.recent then 0 else total - config.recent;
    var recentSet := Range(recentStart, total);
    var weeklyCutoff := Cutoff(now, config.weeklyForDays);
    var monthlyCutoff := Cutoff(now, config.monthlyForDays);
    var seenWeeks: set<(int, IsoWeek)> := {};
    var seenMonths: set<(int, int)> := {};
    var seenYears: set<int> := {};
    keep, delete := [], [];
    for idx := 0 to total
      invariant keep == Label(Kept(parsed, idx, p))
      invariant delete == Names(Deleted(parsed, idx, p))
      invariant idx <= recentStart ==> Records(seenWeeks, seenMonths, seenYears, Seen(parsed, idx, p))
    {
      var name := parsed[idx].name;
      OutputStep(parsed, idx, p);
      SeenStep(parsed, idx, p);
      if idx in recentSet {
        keep := keep + [(name, Daily)];
        continue;
      }
      if parsed[idx].ts.None? {
        keep := keep + [(name, Unmanaged)];
        continue;
      }
      var ts := parsed[idx].ts.value;
      ShadowedBySeen(parsed, idx, p);
      RecordBucket(seenWeeks, seenMonths, seenYears, Seen(parsed, idx, p), p.bucket(ts));
      if ts > weeklyCutoff {
        var bucket := (YearOf(ts), IsoWeekOf(DayNumber(ts)));
        if bucket !in seenWeeks {
          seenWeeks := seenWeeks + {bucket};
          keep := keep + [(name, Weekly)];
        } else {
          delete := delete + [name];
        }
      } else if ts > monthlyCutoff {
        var bucket := (YearOf(ts), DateOf(DayNumber(ts)).month);
        if bucket !in seenMonths {
          seenMonths := seenMonths + {bucket};
          keep := keep + [(name, Monthly)];
        } else {
          delete := delete + [name];
        }
      } else if YearOf(ts) !in seenYears {
        seenYears := seenYears + {YearOf(ts)};
        keep := keep + [(name, Yearly)];
      } else {
        delete := delete + [name];
      }
    }
  }

  /** Partition a listing into what is kept, with reasons, and what is deleted. */
  method Apply(snapshots: seq<string>, now: int, config: Config)
    returns (keep: seq<(string, KeepReason)>, delete: seq<string>)
    ensures var s := SortByTime(Entries(snapshots));
            keep == Label(Kept(s, |s|, PolicyAt(now, config)))
            && delete == Names(Deleted(s, |s|, PolicyAt(now, config)))
  {
    var parsed := Entries(snapshots);
    parsed := SortByTime(parsed);
    keep, delete := Classify(parsed, now, config);
  }
}
