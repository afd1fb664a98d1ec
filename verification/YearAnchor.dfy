/** Long-term retention over whole runs: every calendar year keeps its oldest snapshot. */
module YearAnchor {
  import opened Wrappers
  import opened Calendar
  import opened Listing
  import opened Retention
  import opened RetentionLaws

  /** One event in the life of a dataset; `held` are the names a Transfer Hold protects. */
  datatype Event =
    | Take(snap: Snap)
    | Prune(now: int, config: Config, held: set<string>)

  /** What the dataset lists now, oldest first, and every snapshot it ever had, in the order they were taken. */
  datatype State = State(listing: seq<Snap>, history: seq<Snap>)

  ghost predicate Chain(s: seq<Snap>) {
    && (forall i :: 0 <= i < |s| ==> s[i].ts.Some?)
    && (forall i, j :: 0 <= i < j < |s| ==> s[i].ts.value < s[j].ts.value)
  }

  /** The listing after a prune: what the policy keeps and what a hold protects. */
  ghost function Remaining(s: seq<Snap>, n: nat, p: Policy, held: set<string>): seq<Snap>
    requires n <= |s|
  {
    if n == 0 then []
    else Remaining(s, n - 1, p, held) + (if Verdict(s, n - 1, p).Some? || s[n - 1].name in held then [s[n - 1]] else [])
  }

  ghost function Next(st: State, e: Event): State {
    match e
    case Take(x) => State(Insert(x, st.listing), st.history + [x])
    case Prune(now, config, held) =>
      st.(listing := Remaining(st.listing, |st.listing|, PolicyAt(now, config), held))
  }

  /** A new snapshot has a timestamp of its own; it may lie before others when the clock was set back. */
  ghost predicate Enabled(st: State, e: Event) {
    e.Take? ==> e.snap.ts.Some? && forall y :: y in st.history ==> y.ts != e.snap.ts
  }

  ghost predicate Run(st: State, events: seq<Event>, final: State)
    decreases |events|
  {
    if events == [] then final == st
    else Enabled(st, events[0]) && Run(Next(st, events[0]), events[1..], final)
  }

  ghost predicate FirstOfYear(history: seq<Snap>, x: Snap) {
    && x in history && x.ts.Some?
    && forall y :: y in history && y.ts.Some? && YearOf(y.ts.value) == YearOf(x.ts.value) ==> x.ts.value <= y.ts.value
  }

  ghost predicate AllTimed(s: seq<Snap>) {
    forall x :: x in s ==> x.ts.Some?
  }

  ghost predicate Inv(st: State) {
    && Chain(st.listing) && AllTimed(st.history)
    && (forall x :: x in st.listing ==> x in st.history)
    && (forall x :: FirstOfYear(st.history, x) ==> x in st.listing)
  }

  lemma {:induction false} RemainingMembers(s: seq<Snap>, n: nat, p: Policy, held: set<string>, x: Snap)
    requires n <= |s| && x in Remaining(s, n, p, held)
    ensures exists j :: 0 <= j < n && s[j] == x && (Verdict(s, j, p).Some? || s[j].name in held)
  {
    if x in Remaining(s, n - 1, p, held) {
      RemainingMembers(s, n - 1, p, held, x);
    } else {
      assert x == s[n - 1];
    }
  }

  lemma {:induction false} RemainingHas(s: seq<Snap>, n: nat, p: Policy, held: set<string>, i: nat)
    requires i < n <= |s| && (Verdict(s, i, p).Some? || s[i].name in held)
    ensures s[i] in Remaining(s, n, p, held)
  {
    if i < n - 1 {
      RemainingHas(s, n - 1, p, held, i);
    }
  }

  lemma {:induction false} RemainingChain(s: seq<Snap>, n: nat, p: Policy, held: set<string>)
    requires n <= |s| && Chain(s)
    ensures Chain(Remaining(s, n, p, held))
  {
    if n > 0 {
      RemainingChain(s, n - 1, p, held);
      var r := Remaining(s, n - 1, p, held);
      forall i | 0 <= i < |r| ensures r[i].ts.value < s[n - 1].ts.value {
        RemainingMembers(s, n - 1, p, held, r[i]);
      }
    }
  }

  /** A prune leaves exactly what the policy keeps and what is held. */
  lemma RemainingIs(s: seq<Snap>, p: Policy, held: set<string>, i: nat)
    requires i < |s| && Chain(s)
    ensures s[i] in Remaining(s, |s|, p, held) <==> Verdict(s, i, p).Some? || s[i].name in held
  {
    if s[i] in Remaining(s, |s|, p, held) {
      RemainingMembers(s, |s|, p, held, s[i]);
    } else if Verdict(s, i, p).Some? || s[i].name in held {
      RemainingHas(s, |s|, p, held, i);
    }
  }

  /** All three bucket keys carry the calendar year. */
  lemma BucketsRespectYears(t: int, u: int, now: int, config: Config)
    requires BucketOf(t, now, config) == BucketOf(u, now, config)
    ensures YearOf(t) == YearOf(u)
  {
  }

  lemma FirstIsNotShadowed(st: State, i: nat, now: int, config: Config)
    requires Inv(st) && i < |st.listing| && FirstOfYear(st.history, st.listing[i])
    ensures !Shadowed(st.listing, i, PolicyAt(now, config))
  {
    var s := st.listing;
    forall j | 0 <= j < i ensures !SameBucket(s[j], s[i], PolicyAt(now, config)) {
      if SameBucket(s[j], s[i], PolicyAt(now, config)) {
        BucketsRespectYears(s[j].ts.value, s[i].ts.value, now, config);
      }
    }
  }

  lemma InvStep(st: State, e: Event)
    requires Inv(st) && Enabled(st, e)
    ensures Inv(Next(st, e))
  {
    match e
    case Take(x) => InvTake(st, x);
    case Prune(now, config, held) => InvPrune(st, now, config, held);
  }

  lemma {:induction false} InsertChain(x: Snap, s: seq<Snap>)
    requires Chain(s) && x.ts.Some? && forall y :: y in s ==> y.ts != x.ts
    ensures Chain(Insert(x, s))
  {
    if s != [] && !NotLater(x, s[0]) {
      InsertChain(x, s[1..]);
      var r := Insert(x, s[1..]);
      forall i | 0 <= i < |r| ensures s[0].ts.value < r[i].ts.value {
        InsertMembers(x, s[1..], r[i]);
        assert r[i] in r;
      }
    } else if s != [] {
      assert s[0] in s;
    }
  }

  /** A listing is sorted by time, so taking a snapshot is listing it in its place. */
  lemma TakeSorts(s: seq<Snap>, x: Snap)
    requires Chain(s) && x.ts.Some? && forall y :: y in s ==> y.ts != x.ts
    ensures Insert(x, s) == SortByTime(s + [x])
  {
    InsertChain(x, s);
    InsertMultiset(x, s);
    SortSorts(s + [x]);
    SortUnique(Insert(x, s), SortByTime(s + [x]));
  }

  lemma InvTake(st: State, x: Snap)
    requires Inv(st) && Enabled(st, Take(x))
    ensures Inv(Next(st, Take(x)))
  {
    var h := st.history + [x];
    InsertChain(x, st.listing);
    forall y ensures y in Insert(x, st.listing) <==> y == x || y in st.listing {
      InsertMembers(x, st.listing, y);
    }
    forall y | FirstOfYear(h, y) ensures y in Insert(x, st.listing) {
      if y != x {
        assert FirstOfYear(st.history, y);
      }
    }
  }

  lemma InvPrune(st: State, now: int, config: Config, held: set<string>)
    requires Inv(st)
    ensures Inv(Next(st, Prune(now, config, held)))
  {
    var s, p := st.listing, PolicyAt(now, config);
    var r := Remaining(s, |s|, p, held);
    RemainingChain(s, |s|, p, held);
    forall x | x in r ensures x in st.history {
      RemainingMembers(s, |s|, p, held, x);
    }
    forall x | FirstOfYear(st.history, x) ensures x in r {
      var i :| 0 <= i < |s| && s[i] == x;
      FirstIsNotShadowed(st, i, now, config);
      RemainingHas(s, |s|, p, held, i);
    }
  }

  lemma {:induction false} InvRun(st: State, events: seq<Event>, final: State)
    requires Inv(st) && Run(st, events, final)
    ensures Inv(final)
    decreases |events|
  {
    if events != [] {
      InvStep(st, events[0]);
      InvRun(Next(st, events[0]), events[1..], final);
    }
  }

  /** With distinct timestamps, the oldest snapshot of each calendar year survives every run, whatever the
      clocks, configurations, holds and prune schedule were. */
  lemma AnchorSurvives(s: seq<Snap>, events: seq<Event>, final: State, x: Snap)
    requires Chain(s) && Run(State(s, s), events, final)
    requires FirstOfYear(final.history, x)
    ensures x in final.listing
  {
    InvRun(State(s, s), events, final);
  }

  /** The first instant after year y. */
  function YearEnd(y: int): int {
    (YearStart(y + 1) - EPOCH_DAY) * SECONDS_PER_DAY
  }

  ghost predicate WhollyPast(year: int, now: int, config: Config) {
    YearEnd(year) <= Cutoff(now, config.weeklyForDays) && YearEnd(year) <= Cutoff(now, config.monthlyForDays)
  }

  lemma BeforeYearEnd(t: int)
    ensures t < YearEnd(YearOf(t))
  {
    YearOfDayBounds(DayNumber(t));
    DayBefore(t, YearStart(YearOf(t) + 1));
  }

  lemma DayBefore(t: int, n: int)
    requires DayNumber(t) < n
    ensures t < (n - EPOCH_DAY) * SECONDS_PER_DAY
  {
  }

  lemma PastBucket(t: int, now: int, config: Config)
    requires WhollyPast(YearOf(t), now, config)
    ensures BucketOf(t, now, config) == InYear(YearOf(t))
  {
    BeforeYearEnd(t);
  }

  /** A minimum over the first n snapshots ever taken. */
  lemma {:induction false} EarliestOfYear(h: seq<Snap>, n: nat, year: int) returns (x: Snap)
    requires AllTimed(h) && n <= |h| && exists k :: 0 <= k < n && YearOf(h[k].ts.value) == year
    ensures FirstOfYear(h[..n], x) && YearOf(x.ts.value) == year
  {
    var last := h[n - 1];
    assert h[..n] == h[..n - 1] + [last];
    assert forall k :: 0 <= k < n ==> h[k] in h;
    if exists k :: 0 <= k < n - 1 && YearOf(h[k].ts.value) == year {
      x := EarliestOfYear(h, n - 1, year);
      if YearOf(last.ts.value) == year && last.ts.value < x.ts.value {
        x := last;
      }
    } else {
      x := last;
    }
  }

  /** After any run and one more prune, a year past both cutoffs keeps, outside the recent snapshots,
      exactly its oldest snapshot ever taken and whatever is held. */
  lemma OldYearKeepsOne(s0: seq<Snap>, events: seq<Event>, mid: State, now: int, config: Config, held: set<string>,
                        i: nat)
    requires Chain(s0) && Run(State(s0, s0), events, mid)
    requires i < |mid.listing| && i < RecentStart(mid.listing, PolicyAt(now, config))
    requires mid.listing[i].ts.Some? && WhollyPast(YearOf(mid.listing[i].ts.value), now, config)
    ensures var x := mid.listing[i];
            x in Next(mid, Prune(now, config, held)).listing <==> FirstOfYear(mid.history, x) || x.name in held
  {
    InvRun(State(s0, s0), events, mid);
    var s, p := mid.listing, PolicyAt(now, config);
    RemainingIs(s, p, held, i);
    if FirstOfYear(mid.history, s[i]) {
      FirstIsNotShadowed(mid, i, now, config);
    } else {
      LaterOfYearIsShadowed(mid, i, now, config);
    }
  }

  lemma EarlierOfYear(st: State, i: nat) returns (j: nat)
    requires Inv(st) && i < |st.listing| && !FirstOfYear(st.history, st.listing[i])
    ensures j < i && YearOf(st.listing[j].ts.value) == YearOf(st.listing[i].ts.value)
  {
    var s, h := st.listing, st.history;
    var k :| 0 <= k < |h| && h[k] == s[i];
    var x := EarliestOfYear(h, |h|, YearOf(s[i].ts.value));
    assert h[..|h|] == h;
    j :| 0 <= j < |s| && s[j] == x;
    EarliestIsBefore(h, x, s[i]);
  }

  lemma EarliestIsBefore(h: seq<Snap>, x: Snap, y: Snap)
    requires FirstOfYear(h, x) && y in h && y.ts.Some? && YearOf(y.ts.value) == YearOf(x.ts.value)
    requires !FirstOfYear(h, y)
    ensures x.ts.value < y.ts.value
  {
  }

  lemma LaterOfYearIsShadowed(st: State, i: nat, now: int, config: Config)
    requires Inv(st) && i < |st.listing| && !FirstOfYear(st.history, st.listing[i])
    requires WhollyPast(YearOf(st.listing[i].ts.value), now, config)
    ensures Shadowed(st.listing, i, PolicyAt(now, config))
  {
    var j := EarlierOfYear(st, i);
    SameOldYear(st.listing[j].ts.value, st.listing[i].ts.value, now, config);
    assert SameBucket(st.listing[j], st.listing[i], PolicyAt(now, config));
  }

  lemma SameOldYear(t: int, u: int, now: int, config: Config)
    requires YearOf(t) == YearOf(u) && WhollyPast(YearOf(t), now, config)
    ensures BucketOf(t, now, config) == BucketOf(u, now, config)
  {
    PastBucket(t, now, config);
    PastBucket(u, now, config);
  }
}
