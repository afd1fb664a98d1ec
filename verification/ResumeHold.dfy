/** The life of a resume token on a Remote: annotated by the server, expired by prune. */
module ResumeHold {
  import opened Wrappers
  import opened Zfs
  import opened Prune
  import Calendar

  /** Note when a pending token was first seen, unless a note is already there. */
  method AnnotateResumeIfNeeded(ds: Dataset, now: int) returns (ok: bool)
    modifies ds`since, ds`faults
    ensures ds.faults >= old(ds.faults) && (!ok ==> ds.faults > old(ds.faults) && ds.since == old(ds.since))
    ensures ok ==> ds.since == if ds.token.Some? && old(ds.since) == None then Some(now) else old(ds.since)
  {
    var token := ds.GetToken();
    if token.Err? {
      return false;
    }
    if token.value.Some? {
      var since := ds.GetSince();
      if since.Err? {
        return false;
      }
      if since.value.None? {
        ok := ds.SetSince(Some(now));
        return;
      }
    }
    return true;
  }

  function Annotated(hasToken: bool, since: Option<int>, now: int): Option<int> {
    if hasToken && since.None? then Some(now) else since
  }

  /** A pending token, by the time its interruption was annotated. */
  datatype State = State(token: Option<int>, since: Option<int>, clock: int)

  datatype Event =
    | Interrupted(at: int)    // a receive leaves a token; the server annotates
    | Completed(at: int)      // a receive succeeds: the token is gone, `since` stays
    | Pruned(at: int, holdDays: Option<nat>, abortResume: bool, dryRun: bool)

  function At(e: Event): int {
    match e
    case Interrupted(t) => t
    case Completed(t) => t
    case Pruned(t, _, _, _) => t
  }

  function DecisionAt(s: State, e: Event): ResumeDecision
    requires e.Pruned?
  {
    EffectiveDecision(s.token.Some?, s.since, e.at, e.holdDays, e.abortResume)
  }

  function Next(s: State, e: Event): State {
    match e
    case Interrupted(t) => State(Some(t), Annotated(true, s.since, t), t)
    case Completed(t) => State(None, s.since, t)
    case Pruned(t, holdDays, abortResume, dryRun) =>
      if dryRun then s.(clock := t)
      else
        match DecisionAt(s, e)
        case Idle => State(s.token, None, t)
        case Wait => s.(clock := t)
        case Expire => State(None, None, t)
  }

  ghost predicate Run(s: State, events: seq<Event>, final: State)
    decreases |events|
  {
    if events == [] then final == s
    else At(events[0]) >= s.clock && Run(Next(s, events[0]), events[1..], final)
  }

  /** A pending token always has a note no later than its own annotation. */
  predicate Inv(s: State) {
    s.token.Some? ==> s.since.Some? && s.since.value <= s.token.value <= s.clock
  }

  lemma {:induction false} InvRun(s: State, events: seq<Event>, final: State)
    requires Inv(s) && (s.since.Some? ==> s.since.value <= s.clock) && Run(s, events, final)
    ensures Inv(final) && (final.since.Some? ==> final.since.value <= final.clock)
    decreases |events|
  {
    if events != [] {
      InvRun(Next(s, events[0]), events[1..], final);
    }
  }

  /** A token is gone after any real prune at least the hold period after its annotation, whatever
      interruptions, successes and prunes came before. */
  lemma TokenExpires(events: seq<Event>, s: State, e: Event, days: nat)
    requires Run(State(None, None, 0), events, s)
    requires e.Pruned? && !e.dryRun && e.holdDays == Some(days) && e.at >= s.clock
    requires s.token.Some? && e.at >= s.token.value + days * Calendar.SECONDS_PER_DAY
    ensures Next(s, e).token == None
  {
    InvRun(State(None, None, 0), events, s);
  }

  /** A prune by the configured hold period, for real and without `abort_resume`. */
  function Plain(at: int, days: nat): Event {
    Pruned(at, Some(days), false, false)
  }

  /** Some interruption of the run happened at this time. */
  ghost predicate NotedIn(events: seq<Event>, at: int) {
    exists i :: 0 <= i < |events| && events[i] == Interrupted(at)
  }

  /** A note is the time of an interruption: one of the run, or what was there before. */
  lemma {:induction false} NoteIsInterruption(s: State, events: seq<Event>, final: State)
    requires Run(s, events, final) && final.since.Some?
    ensures final.since == s.since || NotedIn(events, final.since.value)
    decreases |events|
  {
    if events != [] {
      NoteIsInterruption(Next(s, events[0]), events[1..], final);
      var n := final.since.value;
      if NotedIn(events[1..], n) {
        var i :| 0 <= i < |events[1..]| && events[1..][i] == Interrupted(n);
        assert events[i + 1] == Interrupted(n);
      } else if final.since != s.since {
        assert events[0] == Interrupted(n);
      }
    }
  }

  /** In every run, a prune without `abort_resume` aborts a pending token exactly when the note is at least
      the hold period old, and then some interruption really lies that far back; otherwise it waits and
      changes nothing. */
  lemma HoldPeriodRespected(events: seq<Event>, s: State, at: int, days: nat)
    requires Run(State(None, None, 0), events, s) && s.token.Some?
    ensures if s.since.Some? && at - s.since.value >= days * Calendar.SECONDS_PER_DAY
            then Next(s, Plain(at, days)).token == None
            else DecisionAt(s, Plain(at, days)) == Wait && Next(s, Plain(at, days)) == s.(clock := at)
    ensures Next(s, Plain(at, days)).token == None ==>
      exists n :: NotedIn(events, n) && n + days * Calendar.SECONDS_PER_DAY <= at
  {
    InvRun(State(None, None, 0), events, s);
    NoteIsInterruption(State(None, None, 0), events, s);
  }

  /** Each event comes before `end` and leaves a pending token its period: no success, no `abort_resume`,
      and no shorter hold period. */
  ghost predicate Quiet(events: seq<Event>, days: nat, end: int) {
    forall i :: 0 <= i < |events| ==> QuietEvent(events[i], days, end)
  }

  predicate QuietEvent(e: Event, days: nat, end: int) {
    && At(e) < end
    && match e
       case Interrupted(_) => true
       case Completed(_) => false
       case Pruned(_, holdDays, abortResume, _) => !abortResume && holdDays.Some? && days <= holdDays.value
  }

  lemma QuietStep(s: State, e: Event, days: nat, note: int)
    requires s.token.Some? && s.since == Some(note) && QuietEvent(e, days, note + days * Calendar.SECONDS_PER_DAY)
    ensures Next(s, e).token.Some? && Next(s, e).since == Some(note)
  {
    if e.Pruned? {
      assert days * Calendar.SECONDS_PER_DAY <= e.holdDays.value * Calendar.SECONDS_PER_DAY;
    }
  }

  lemma {:induction false} QuietRun(s: State, events: seq<Event>, final: State, days: nat, note: int)
    requires s.token.Some? && s.since == Some(note)
    requires Run(s, events, final) && Quiet(events, days, note + days * Calendar.SECONDS_PER_DAY)
    ensures final.token.Some? && final.since == Some(note)
    decreases |events|
  {
    if events != [] {
      assert QuietEvent(events[0], days, note + days * Calendar.SECONDS_PER_DAY);
      QuietStep(s, events[0], days, note);
      forall i | 0 <= i < |events[1..]|
        ensures QuietEvent(events[1..][i], days, note + days * Calendar.SECONDS_PER_DAY)
      {
        assert events[1..][i] == events[i + 1];
      }
      QuietRun(Next(s, events[0]), events[1..], final, days, note);
    }
  }

  /** A token annotated at t with no earlier note stays pending through every run of interruptions and
      prunes before t + days that has no success and no `abort_resume`. */
  lemma PendingThroughPeriod(s: State, t: int, events: seq<Event>, final: State, days: nat)
    requires s.since.None? && Run(Next(s, Interrupted(t)), events, final)
    requires Quiet(events, days, t + days * Calendar.SECONDS_PER_DAY)
    ensures final.token.Some? && final.since == Some(t)
  {
    QuietRun(Next(s, Interrupted(t)), events, final, days, t);
  }

  /** A new token outlives every prune within its hold period exactly when no earlier note was left behind. */
  lemma FullPeriodIff(s: State, t: int, days: nat)
    requires days > 0
    ensures (forall at :: t <= at < t + days * Calendar.SECONDS_PER_DAY ==>
               Next(Next(s, Interrupted(t)), Plain(at, days)).token == Some(t))
       <==> (s.since.None? || s.since.value >= t)
  {
    if s.since.Some? && s.since.value < t {
      var expiry := s.since.value + days * Calendar.SECONDS_PER_DAY;
      var at := if expiry < t then t else expiry;
      assert Next(Next(s, Interrupted(t)), Plain(at, days)).token == None;
    }
  }

  /** A success leaves its note, so the next token can expire at once: with a hold period of d days, a
      prune d days after the first interruption aborts a token of that very moment. */
  lemma LeftoverNoteExpiresNextToken(t: int, days: nat)
    requires 0 <= t
    ensures var later := t + days * Calendar.SECONDS_PER_DAY;
            var s := Next(Next(Next(State(None, None, 0), Interrupted(t)), Completed(t)), Interrupted(later));
            s.token == Some(later) && Next(s, Pruned(later, Some(days), false, false)).token == None
  {
  }

  /** What a real prune leaves of a pending token and its note: the token goes when it is aborted or its note
      is old enough, and the note stays only where the prune waits. */
  lemma TokensAre(token: Option<string>, since: Option<int>, token': Option<string>, since': Option<int>, now: int,
                  holdDays: Option<nat>, abortResume: bool)
    ensures TokenAfter(EffectiveDecision(token.Some?, since, now, holdDays, abortResume), token, since, token', since')
       <==> var aborted := abortResume || (since.Some?
                              && (holdDays.Some? ==> now - since.value >= holdDays.value * 86400));
            token' == (if aborted then None else token)
            && since' == (if token.Some? && !aborted then since else None)
  {
    DecisionIs(token.Some?, since, now, holdDays, abortResume);
  }

  /** A real prune that succeeds is a step of the runs above. */
  lemma PruneIsStep(s: State, e: Event, token: Option<string>, token': Option<string>, since': Option<int>)
    requires e.Pruned? && !e.dryRun && (token.Some? <==> s.token.Some?)
    requires TokenAfter(DecisionAt(s, e), token, s.since, token', since')
    ensures (token'.Some? <==> Next(s, e).token.Some?) && since' == Next(s, e).since
  {
  }
}
