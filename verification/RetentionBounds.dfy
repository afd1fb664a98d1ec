/** How many snapshots each tier of the retention policy can keep. */
module RetentionBounds {
  import opened Wrappers
  import opened Calendar
  import opened Listing
  import opened Retention
  import opened RetentionLaws

  /** The snapshots kept for one reason, oldest first. */
  ghost function WithReason(kept: seq<(Snap, KeepReason)>, reason: KeepReason): seq<Snap> {
    if kept == [] then []
    else
      var (x, r) := kept[|kept| - 1];
      WithReason(kept[..|kept| - 1], reason) + (if r == reason then [x] else [])
  }

  ghost function Survivors(s: seq<Snap>, n: nat, p: Policy, reason: KeepReason): seq<Snap>
    requires n <= |s|
  {
    WithReason(Kept(s, n, p), reason)
  }

  lemma SurvivorsStep(s: seq<Snap>, n: nat, p: Policy, reason: KeepReason)
    requires n < |s|
    ensures Survivors(s, n + 1, p, reason)
         == Survivors(s, n, p, reason) + if Verdict(s, n, p) == Some(reason) then [s[n]] else []
  {
    var v := Verdict(s, n, p);
    if v.Some? {
      var kept := Kept(s, n, p) + [(s[n], v.value)];
      assert kept[..|kept| - 1] == Kept(s, n, p);
    } else {
      assert Kept(s, n + 1, p) == Kept(s, n, p);
    }
  }

  /** Exactly min(recent, n) snapshots are kept as Daily. */
  lemma {:induction false} DailyCount(s: seq<Snap>, n: nat, p: Policy)
    requires n <= |s|
    ensures |Survivors(s, n, p, Daily)| == if n <= RecentStart(s, p) then 0 else n - RecentStart(s, p)
  {
    if n > 0 {
      DailyCount(s, n - 1, p);
      SurvivorsStep(s, n - 1, p, Daily);
    }
  }

  lemma DailyBound(s: seq<Snap>, p: Policy)
    ensures |Survivors(s, |s|, p, Daily)| == if |s| <= p.recent then |s| else p.recent
  {
    DailyCount(s, |s|, p);
  }

  predicate IsTier(reason: KeepReason) {
    reason == Weekly || reason == Monthly || reason == Yearly
  }

  /** In time order, all of one tier, no two of one bucket. */
  ghost predicate Spread(w: seq<Snap>, p: Policy, reason: KeepReason) {
    && (forall i :: 0 <= i < |w| ==> w[i].ts.Some? && p.bucket(w[i].ts.value).Reason() == reason)
    && (forall i, j :: 0 <= i < j < |w| ==> NotLater(w[i], w[j]) && !SameBucket(w[i], w[j], p))
  }

  /** The survivors `w` of a tier among the snapshots `from`. */
  ghost predicate SpreadOver(w: seq<Snap>, from: seq<Snap>, p: Policy, reason: KeepReason) {
    Spread(w, p, reason) && forall x :: x in w ==> x in from
  }

  lemma SurvivorIsNew(s: seq<Snap>, n: nat, p: Policy, reason: KeepReason, x: Snap)
    requires n < |s| && Sorted(s) && IsTier(reason) && x in s[..n] && Verdict(s, n, p) == Some(reason)
    ensures NotLater(x, s[n]) && !SameBucket(x, s[n], p)
  {
    var j :| 0 <= j < n && s[j] == x;
  }

  lemma SpreadStep(s: seq<Snap>, n: nat, p: Policy, reason: KeepReason, w: seq<Snap>)
    requires n < |s| && Sorted(s) && IsTier(reason) && SpreadOver(w, s[..n], p, reason)
    ensures SpreadOver(w + if Verdict(s, n, p) == Some(reason) then [s[n]] else [], s[..n + 1], p, reason)
  {
    assert s[..n + 1] == s[..n] + [s[n]];
    if Verdict(s, n, p) == Some(reason) {
      forall i | 0 <= i < |w| ensures NotLater(w[i], s[n]) && !SameBucket(w[i], s[n], p) {
        SurvivorIsNew(s, n, p, reason, w[i]);
      }
    } else {
      assert w + [] == w;
    }
  }

  lemma SpreadStart(from: seq<Snap>, p: Policy, reason: KeepReason)
    ensures SpreadOver([], from, p, reason)
  {
  }

  lemma {:induction false} SpreadUpTo(s: seq<Snap>, n: nat, p: Policy, reason: KeepReason) returns (w: seq<Snap>)
    requires n <= |s| && Sorted(s) && IsTier(reason)
    ensures w == Survivors(s, n, p, reason) && SpreadOver(w, s[..n], p, reason)
  {
    w := [];
    if n == 0 {
      SpreadStart(s[..n], p, reason);
    } else {
      var v := SpreadUpTo(s, n - 1, p, reason);
      SpreadStep(s, n - 1, p, reason, v);
      SurvivorsStep(s, n - 1, p, reason);
      w := v + if Verdict(s, n - 1, p) == Some(reason) then [s[n - 1]] else [];
    }
  }

  lemma SurvivorsSpread(s: seq<Snap>, p: Policy, reason: KeepReason)
    requires Sorted(s) && IsTier(reason)
    ensures SpreadOver(Survivors(s, |s|, p, reason), s, p, reason)
  {
    var w := SpreadUpTo(s, |s|, p, reason);
    assert s[..|s|] == s;
  }

  /** Weeks counted from the first Monday of year 0. */
  function WeekIndex(n: int): int {
    (Monday(n) - 2) / 7
  }

  /** A number that never falls over time and rises from each bucket of the tier to the next. */
  function Key(reason: KeepReason, t: int): int {
    match reason
    case Weekly => WeekIndex(DayNumber(t)) + YearOf(t)
    case Monthly => MonthKey(DayNumber(t))
    case _ => YearOf(t)
  }

  lemma WeekIndexSpan(m: int, n: int)
    requires m <= n
    ensures 0 <= WeekIndex(n) - WeekIndex(m) <= (n - m + 6) / 7
    ensures WeekIndex(m) == WeekIndex(n) ==> Monday(m) == Monday(n)
  {
    assert Monday(m) == 7 * ((m + 5) / 7) - 5;
    assert Monday(n) == 7 * ((n + 5) / 7) - 5;
  }

  lemma SameIndexSameWeek(m: int, n: int)
    requires m <= n && WeekIndex(m) == WeekIndex(n)
    ensures IsoWeekOf(m) == IsoWeekOf(n)
  {
    WeekIndexSpan(m, n);
    SameIsoWeek(m, n);
  }

  lemma WeekKeyGrows(t: int, u: int)
    requires t <= u && (YearOf(t) != YearOf(u) || IsoWeekOf(DayNumber(t)) != IsoWeekOf(DayNumber(u)))
    ensures Key(Weekly, t) < Key(Weekly, u)
  {
    YearOfMonotone(t, u);
    WeekIndexSpan(DayNumber(t), DayNumber(u));
    if WeekIndex(DayNumber(t)) == WeekIndex(DayNumber(u)) {
      SameIndexSameWeek(DayNumber(t), DayNumber(u));
    }
  }

  lemma MonthKeyGrows(t: int, u: int)
    requires t <= u && (YearOf(t) != YearOf(u) || DateOf(DayNumber(t)).month != DateOf(DayNumber(u)).month)
    ensures Key(Monthly, t) < Key(Monthly, u)
  {
    DateYear(t);
    DateYear(u);
    MonthKeyMonotone(DayNumber(t), DayNumber(u));
    MonthKeyApart(DateOf(DayNumber(t)), DateOf(DayNumber(u)));
  }

  lemma MonthKeyApart(c: Date, d: Date)
    requires 1 <= c.month <= 12 && 1 <= d.month <= 12 && (c.year != d.year || c.month != d.month)
    ensures 12 * c.year + c.month - 1 != 12 * d.year + d.month - 1
  {
  }

  lemma KeyGrows(t: int, u: int, now: int, config: Config)
    requires t <= u && BucketOf(t, now, config) != BucketOf(u, now, config)
    requires BucketOf(t, now, config).Reason() == BucketOf(u, now, config).Reason()
    ensures Key(BucketOf(t, now, config).Reason(), t) < Key(BucketOf(t, now, config).Reason(), u)
  {
    match BucketOf(t, now, config)
    case InWeek(_, _) => WeekKeyGrows(t, u);
    case InMonth(_, _) => MonthKeyGrows(t, u);
    case InYear(_) => YearOfMonotone(t, u);
  }

  lemma {:induction false} CountByKeys(w: seq<Snap>, now: int, config: Config, reason: KeepReason)
    requires w != [] && Spread(w, PolicyAt(now, config), reason)
    ensures |w| <= Key(reason, w[|w| - 1].ts.value) - Key(reason, w[0].ts.value) + 1
  {
    var n := |w| - 1;
    if n > 0 {
      CountByKeys(w[..n], now, config, reason);
      assert NotLater(w[n - 1], w[n]) && !SameBucket(w[n - 1], w[n], PolicyAt(now, config));
      KeyGrows(w[n - 1].ts.value, w[n].ts.value, now, config);
    }
  }

  ghost predicate NoFuture(s: seq<Snap>, now: int) {
    forall x :: x in s && x.ts.Some? ==> x.ts.value <= now
  }

  /** The number of 1 Januaries after `from` and up to `to`. */
  function NewYears(from: int, to: int): int {
    YearOf(to) - YearOf(from)
  }

  lemma WeeklySpan(t: int, u: int, now: int, days: nat)
    requires Cutoff(now, days) < t <= u <= now
    ensures Key(Weekly, u) - Key(Weekly, t) <= (days + 6) / 7 + NewYears(Cutoff(now, days), now)
  {
    assert DayNumber(u) - DayNumber(t) <= days;
    WeekIndexSpan(DayNumber(t), DayNumber(u));
    YearOfMonotone(Cutoff(now, days), t);
    YearOfMonotone(u, now);
  }

  /** At most one snapshot for each week begun in the window, one more, and one for each new year in it. */
  lemma WeeklyBound(s: seq<Snap>, now: int, config: Config)
    requires Sorted(s) && NoFuture(s, now) && 0 <= config.weeklyForDays
    ensures var days := config.weeklyForDays;
            |Survivors(s, |s|, PolicyAt(now, config), Weekly)| <= (days + 6) / 7 + 1 + NewYears(Cutoff(now, days), now)
  {
    var w := Survivors(s, |s|, PolicyAt(now, config), Weekly);
    SurvivorsSpread(s, PolicyAt(now, config), Weekly);
    YearOfMonotone(Cutoff(now, config.weeklyForDays), now);
    if w != [] {
      var first, last := w[0], w[|w| - 1];
      assert first in w && last in w;
      assert |w| > 1 ==> NotLater(first, last);
      CountByKeys(w, now, config, Weekly);
      InWindow(first.ts.value, now, config);
      WeeklySpan(first.ts.value, last.ts.value, now, config.weeklyForDays);
    }
  }

  lemma InWindow(t: int, now: int, config: Config)
    ensures BucketOf(t, now, config).Reason() == Weekly ==> Cutoff(now, config.weeklyForDays) < t
    ensures BucketOf(t, now, config).Reason() == Monthly ==>
      Cutoff(now, config.monthlyForDays) < t <= Cutoff(now, config.weeklyForDays)
  {
  }

  lemma MonthlySpan(t: int, u: int, days: nat)
    requires t <= u < t + days * SECONDS_PER_DAY
    ensures Key(Monthly, u) - Key(Monthly, t) <= days / 28 + 1
  {
    var m, n := DayNumber(t), DayNumber(u);
    assert n - m <= days;
    MonthKeyBounds(m);
    MonthKeyBounds(n);
    MonthSpan(m, n, days, MonthKey(m), MonthKey(n));
  }

  lemma MonthSpan(m: int, n: int, days: nat, j: int, k: int)
    requires m <= n <= m + days && m < MonthStart(j + 1) && MonthStart(k) <= n
    ensures k - j <= days / 28 + 1
  {
    if j + 1 < k {
      MonthStartMonotone(j + 1, k);
      Months(m, n, days, j, k, MonthStart(j + 1), MonthStart(k));
    }
  }

  /** Between the end of month j and the start of month k lie at least 28 days for each month. */
  lemma Months(m: int, n: int, days: nat, j: int, k: int, first: int, last: int)
    requires n <= m + days && m < first && last <= n && last - first >= 28 * (k - j - 1)
    ensures k - j <= days / 28 + 1
  {
  }

  lemma MonthlyBound(s: seq<Snap>, now: int, config: Config)
    requires Sorted(s) && config.weeklyForDays <= config.monthlyForDays
    ensures var days := config.monthlyForDays - config.weeklyForDays;
            |Survivors(s, |s|, PolicyAt(now, config), Monthly)| <= days / 28 + 2
  {
    var w := Survivors(s, |s|, PolicyAt(now, config), Monthly);
    SurvivorsSpread(s, PolicyAt(now, config), Monthly);
    if w != [] {
      var first, last := w[0], w[|w| - 1];
      assert |w| > 1 ==> NotLater(first, last);
      CountByKeys(w, now, config, Monthly);
      InWindow(first.ts.value, now, config);
      InWindow(last.ts.value, now, config);
      MonthlySpan(first.ts.value, last.ts.value, config.monthlyForDays - config.weeklyForDays);
    }
  }

  ghost function Years(s: seq<Snap>): set<int> {
    set x | x in s && x.ts.Some? :: YearOf(x.ts.value)
  }

  lemma FreshYear(w: seq<Snap>, n: nat, now: int, config: Config)
    requires n < |w| && Spread(w, PolicyAt(now, config), Yearly)
    ensures YearOf(w[n].ts.value) !in Years(w[..n])
  {
    forall i | 0 <= i < n ensures YearOf(w[i].ts.value) != YearOf(w[n].ts.value) {
      assert !SameBucket(w[i], w[n], PolicyAt(now, config));
    }
  }

  lemma YearsStep(w: seq<Snap>, n: nat)
    requires n < |w| && w[n].ts.Some?
    ensures Years(w[..n + 1]) == Years(w[..n]) + {YearOf(w[n].ts.value)}
  {
    assert w[..n + 1] == w[..n] + [w[n]];
  }

  ghost predicate YearsCount(w: seq<Snap>, n: nat)
    requires n <= |w|
  {
    |Years(w[..n])| == n
  }

  lemma YearsCountStep(w: seq<Snap>, n: nat, now: int, config: Config)
    requires n < |w| && Spread(w, PolicyAt(now, config), Yearly) && YearsCount(w, n)
    ensures YearsCount(w, n + 1)
  {
    FreshYear(w, n, now, config);
    YearsStep(w, n);
  }

  lemma {:induction false} YearsOfSpread(w: seq<Snap>, n: nat, now: int, config: Config)
    requires n <= |w| && Spread(w, PolicyAt(now, config), Yearly)
    ensures YearsCount(w, n)
  {
    if n > 0 {
      YearsOfSpread(w, n - 1, now, config);
      YearsCountStep(w, n - 1, now, config);
    }
  }

  /** At most one yearly snapshot for each calendar year in the listing. */
  lemma YearlyBound(s: seq<Snap>, now: int, config: Config)
    requires Sorted(s)
    ensures |Survivors(s, |s|, PolicyAt(now, config), Yearly)| <= |Years(s)|
  {
    var w := Survivors(s, |s|, PolicyAt(now, config), Yearly);
    SurvivorsSpread(s, PolicyAt(now, config), Yearly);
    YearsOfSpread(w, |w|, now, config);
    assert w[..|w|] == w;
    assert Years(w) <= Years(s);
    SubsetCount(Years(w), Years(s));
  }

  lemma SubsetCount(a: set<int>, b: set<int>)
    requires a <= b
    ensures |a| <= |b|
  {
    assert b == a + (b - a);
  }
}
