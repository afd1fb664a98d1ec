/** The verdict in the terms of the documentation: days of 86400 seconds, civil years and months, Mondays. */
module RetentionWindows {
  import opened Wrappers
  import opened Calendar
  import opened Listing
  import opened Retention

  function Civil(t: int): Date {
    DateOf(DayNumber(t))
  }

  predicate SameYear(a: int, b: int) {
    Civil(a).year == Civil(b).year
  }

  predicate SameMonth(a: int, b: int) {
    SameYear(a, b) && Civil(a).month == Civil(b).month
  }

  /** The same week, from Monday to Sunday, in the same calendar year. */
  predicate SameWeek(a: int, b: int) {
    SameYear(a, b) && Monday(DayNumber(a)) == Monday(DayNumber(b))
  }

  /** Some snapshot before s[i], inside the window, is of the same period as s[i]. */
  ghost predicate Repeats(s: seq<Snap>, i: nat, inside: int -> bool, same: (int, int) -> bool)
    requires i < |s| && s[i].ts.Some?
  {
    exists j :: 0 <= j < i && s[j].ts.Some? && inside(s[j].ts.value) && same(s[j].ts.value, s[i].ts.value)
  }

  predicate Weekly(t: int, now: int, config: Config) {
    now - t < config.weeklyForDays * 86400
  }

  predicate Monthly(t: int, now: int, config: Config) {
    now - t >= config.weeklyForDays * 86400 && now - t < config.monthlyForDays * 86400
  }

  predicate Yearly(t: int, now: int, config: Config) {
    now - t >= config.weeklyForDays * 86400 && now - t >= config.monthlyForDays * 86400
  }

  function FirstOnly(repeats: bool, reason: KeepReason): Option<KeepReason> {
    if repeats then None else Some(reason)
  }

  lemma WindowOf(t: int, now: int, config: Config)
    ensures BucketOf(t, now, config).InWeek? <==> Weekly(t, now, config)
    ensures BucketOf(t, now, config).InMonth? <==> Monthly(t, now, config)
    ensures BucketOf(t, now, config).InYear? <==> Yearly(t, now, config)
  {
  }

  /** Both instants are in one window and of the same period there. */
  predicate SamePeriod(a: int, b: int, now: int, config: Config) {
    || (Weekly(a, now, config) && Weekly(b, now, config) && SameWeek(a, b))
    || (Monthly(a, now, config) && Monthly(b, now, config) && SameMonth(a, b))
    || (Yearly(a, now, config) && Yearly(b, now, config) && SameYear(a, b))
  }

  lemma SameBucketIs(a: int, b: int, now: int, config: Config)
    ensures BucketOf(a, now, config) == BucketOf(b, now, config) <==> SamePeriod(a, b, now, config)
  {
    WindowOf(a, now, config);
    WindowOf(b, now, config);
    DateYear(a);
    DateYear(b);
    SameIsoWeek(DayNumber(a), DayNumber(b));
  }

  /** Outside the recent ones, a snapshot is kept by the tier of its age exactly when it is the first of its
      week, month or year there. */
  lemma VerdictIs(s: seq<Snap>, i: nat, now: int, config: Config)
    requires i < |s|
    ensures Verdict(s, i, PolicyAt(now, config))
         == if |s| - i <= config.recent then Some(Daily)
            else if s[i].ts.None? then Some(Unmanaged)
            else if now - s[i].ts.value < config.weeklyForDays * 86400
              then FirstOnly(Repeats(s, i, t => Weekly(t, now, config), SameWeek), KeepReason.Weekly)
            else if now - s[i].ts.value < config.monthlyForDays * 86400
              then FirstOnly(Repeats(s, i, t => Monthly(t, now, config), SameMonth), KeepReason.Monthly)
            else FirstOnly(Repeats(s, i, t => Yearly(t, now, config), SameYear), KeepReason.Yearly)
  {
    if s[i].ts.Some? {
      var p, t := PolicyAt(now, config), s[i].ts.value;
      forall j | 0 <= j < i && s[j].ts.Some?
        ensures SameBucket(s[j], s[i], p) <==> SamePeriod(s[j].ts.value, t, now, config)
      {
        SameBucketIs(s[j].ts.value, t, now, config);
      }
      WindowOf(t, now, config);
    }
  }
}
