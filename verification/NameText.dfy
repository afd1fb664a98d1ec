/** The text of snapshot names, character by character, and every text that reads as a timestamp. */
module NameText {
  import opened Wrappers
  import opened Calendar
  import opened Naming

  /** The two characters at position i are the decimal digits of n. */
  predicate Two(s: string, i: nat, n: int) {
    && i + 2 <= |s| && '0' <= s[i] <= '9' && '0' <= s[i + 1] <= '9'
    && n == 10 * (s[i] as int - 48) + (s[i + 1] as int - 48)
  }

  /** `YYYY-MM-DDTHH:MM:SS` at the start of the text, with a `T` of either case. */
  predicate Clock(s: string, c: Date, h: int, m: int, sec: int) {
    && |s| >= 19 && s[4] == '-' && s[7] == '-' && (s[10] == 'T' || s[10] == 't') && s[13] == ':' && s[16] == ':'
    && Two(s, 0, c.year / 100) && Two(s, 2, c.year % 100) && Two(s, 5, c.month) && Two(s, 8, c.day)
    && Two(s, 11, h) && Two(s, 14, m) && Two(s, 17, sec)
  }

  /** The zone: Z, or a sign, hours and minutes; `offset` is what the clock is ahead of UTC, in seconds. */
  ghost predicate Zone(z: string, offset: int) {
    || ((z == "Z" || z == "z") && offset == 0)
    || exists h, m ::
         && |z| == 6 && z[3] == ':' && (z[0] == '+' || z[0] == '-') && Two(z, 1, h) && Two(z, 4, m)
         && h <= 23 && m <= 59 && offset == (if z[0] == '+' then 1 else -1) * (3600 * h + 60 * m)
  }

  /** s spells the instant t. */
  ghost predicate Spells(s: string, t: int) {
    exists c, h, m, sec, offset :: SpellsAs(s, t, c, h, m, sec, offset)
  }

  ghost predicate SpellsAs(s: string, t: int, c: Date, h: int, m: int, sec: int, offset: int) {
    && Clock(s, c, h, m, sec) && Zone(s[19..], offset) && ValidDate(c) && h <= 23 && m <= 59 && sec <= 59
    && t == 86400 * (DayOf(c) - DayNumber(0)) + 3600 * h + 60 * m + sec - offset
  }

  lemma Num2Is(s: string, i: nat, n: int)
    ensures Num2(s, i) == Some(n) <==> Two(s, i, n)
  {
  }

  lemma ZoneIs(z: string, offset: int)
    ensures ParseOffset(z) == Some(offset) <==> Zone(z, offset)
  {
    if ParseOffset(z) == Some(offset) && z != "Z" && z != "z" {
      var h, m := Num2(z, 1).value, Num2(z, 4).value;
      assert Two(z, 1, h) && Two(z, 4, m);
    }
    forall h, m | Two(z, 1, h) && Two(z, 4, m) ensures Num2(z, 1) == Some(h) && Num2(z, 4) == Some(m) {
      Num2Is(z, 1, h);
      Num2Is(z, 4, m);
    }
  }

  lemma PartOf(s: string, from: nat, to: nat, i: nat, n: int)
    requires from <= to <= |s| && i + 2 <= to - from
    ensures Two(s[from..to], i, n) <==> Two(s, from + i, n)
  {
  }

  /** The date part, read. */
  lemma DateRead(s: string, c: Date)
    requires |s| >= 19 && s[4] == '-' && s[7] == '-' && ValidDate(c)
    requires Two(s, 0, c.year / 100) && Two(s, 2, c.year % 100) && Two(s, 5, c.month) && Two(s, 8, c.day)
    ensures ParseDate(s[..10]) == Some(c)
  {
    var d := s[..10];
    Num2Is(d, 0, c.year / 100);
    Num2Is(d, 2, c.year % 100);
    Num2Is(d, 5, c.month);
    Num2Is(d, 8, c.day);
  }

  lemma TimeRead(s: string, h: int, m: int, sec: int, offset: int)
    requires |s| >= 19 && s[13] == ':' && s[16] == ':' && Two(s, 11, h) && Two(s, 14, m) && Two(s, 17, sec)
    requires h <= 23 && m <= 59 && sec <= 59 && Zone(s[19..], offset)
    ensures ParseTime(s[11..]) == Some(3600 * h + 60 * m + sec - offset)
  {
    var u := s[11..];
    Num2Is(u, 0, h);
    Num2Is(u, 3, m);
    Num2Is(u, 6, sec);
    assert u[8..] == s[19..];
    ZoneIs(s[19..], offset);
  }

  /** Every spelling reads as its instant. */
  lemma SpelledReads(s: string, t: int, c: Date, h: int, m: int, sec: int, offset: int)
    requires SpellsAs(s, t, c, h, m, sec, offset)
    ensures ParseRfc3339(s) == Some(t)
  {
    DateRead(s, c);
    TimeRead(s, h, m, sec, offset);
  }

  lemma DateParts(s: string) returns (c: Date)
    requires |s| >= 10 && ParseDate(s[..10]).Some?
    ensures ParseDate(s[..10]) == Some(c) && ValidDate(c) && s[4] == '-' && s[7] == '-'
    ensures Two(s, 0, c.year / 100) && Two(s, 2, c.year % 100) && Two(s, 5, c.month) && Two(s, 8, c.day)
  {
    var d := s[..10];
    c := ParseDate(d).value;
    var a, b := Num2(d, 0).value, Num2(d, 2).value;
    assert c.year == 100 * a + b && c.year / 100 == a && c.year % 100 == b;
    Num2Is(d, 0, a);
    Num2Is(d, 2, b);
    Num2Is(d, 5, c.month);
    Num2Is(d, 8, c.day);
  }

  lemma TimeParts(s: string) returns (h: int, m: int, sec: int, offset: int)
    requires |s| >= 11 && ParseTime(s[11..]).Some?
    ensures |s| >= 20 && s[13] == ':' && s[16] == ':' && Two(s, 11, h) && Two(s, 14, m) && Two(s, 17, sec)
    ensures h <= 23 && m <= 59 && sec <= 59 && Zone(s[19..], offset)
    ensures ParseTime(s[11..]) == Some(3600 * h + 60 * m + sec - offset)
  {
    var u := s[11..];
    h, m, sec, offset := Num2(u, 0).value, Num2(u, 3).value, Num2(u, 6).value, ParseOffset(u[8..]).value;
    Num2Is(u, 0, h);
    Num2Is(u, 3, m);
    Num2Is(u, 6, sec);
    assert u[8..] == s[19..];
    ZoneIs(s[19..], offset);
  }

  lemma ReadIsSpelled(s: string)
    requires ParseRfc3339(s).Some?
    ensures Spells(s, ParseRfc3339(s).value)
  {
    var c := DateParts(s);
    var h, m, sec, offset := TimeParts(s);
    assert SpellsAs(s, ParseRfc3339(s).value, c, h, m, sec, offset);
  }

  /** A timestamp reads as t exactly when it spells t. */
  lemma ParseIs(s: string, t: int)
    ensures ParseRfc3339(s) == Some(t) <==> Spells(s, t)
  {
    if Spells(s, t) {
      var c, h, m, sec, offset :| SpellsAs(s, t, c, h, m, sec, offset);
      SpelledReads(s, t, c, h, m, sec, offset);
    }
    if ParseRfc3339(s) == Some(t) {
      ReadIsSpelled(s);
    }
  }

  lemma AfterPrefix(snap: string, prefix: string, stamp: string)
    requires prefix <= snap && stamp == snap[|prefix|..]
    ensures snap == prefix + stamp
  {
  }

  lemma AtSign(prefix: string, stamp: string, name: string, dataset: string)
    requires |prefix| == 4 && name == dataset + ['@'] + (prefix + stamp)
    ensures name == dataset + (['@'] + prefix + stamp)
  {
  }

  lemma NameParts(name: string, t: int) returns (dataset: string, stamp: string)
    requires Parse(name) == Some(t)
    ensures '@' !in dataset && name == dataset + ("@zrb-" + stamp) && ParseRfc3339(stamp) == Some(t)
  {
    var snap;
    var parts := SplitOnce(name, '@').value;
    dataset, snap := parts.0, parts.1;
    stamp := snap[4..];
    AfterPrefix(snap, "zrb-", stamp);
    AtSign("zrb-", stamp, name, dataset);
    assert ['@'] + "zrb-" == "@zrb-";
  }

  /** A name is managed, and of the instant t, exactly when after its first `@` come `zrb-` and a spelling of t. */
  lemma NameIs(name: string, t: int)
    ensures Parse(name) == Some(t) <==>
      exists dataset, stamp :: '@' !in dataset && name == dataset + ("@zrb-" + stamp) && Spells(stamp, t)
  {
    if Parse(name) == Some(t) {
      var dataset, stamp := NameParts(name, t);
      ParseIs(stamp, t);
    }
    forall dataset, stamp | '@' !in dataset && name == dataset + ("@zrb-" + stamp) && Spells(stamp, t)
      ensures Parse(name) == Some(t)
    {
      NameRead(dataset, stamp, t);
    }
  }

  lemma NameRead(dataset: string, stamp: string, t: int)
    requires '@' !in dataset && Spells(stamp, t)
    ensures Parse(dataset + ("@zrb-" + stamp)) == Some(t)
  {
    ParseIs(stamp, t);
    assert "@zrb-" + stamp == "@" + ("zrb-" + stamp);
    ParseSplit(dataset, stamp);
  }

  // ----- the printer

  function ClockText(c: Date, h: int, m: int, sec: int): string
    requires 1 <= c.month <= 99 && 1 <= c.day <= 99 && 0 <= h <= 99 && 0 <= m <= 99 && 0 <= sec <= 99
  {
    PrintYear(c.year) + PrintMonthDay(c.month, c.day) + "T" + PrintTime(h, m, sec)
  }

  /** The civil time of an instant. */
  predicate CivilTime(t: int, c: Date, h: int, m: int, sec: int) {
    && ValidDate(c) && 1 <= c.month <= 12 && 1 <= c.day <= 31 && 0 <= h <= 23 && 0 <= m <= 59 && 0 <= sec <= 59
    && t == 86400 * (DayOf(c) - DayNumber(0)) + 3600 * h + 60 * m + sec
  }

  lemma SameCivilTime(t: int, c: Date, h: int, m: int, sec: int, c': Date, h': int, m': int, sec': int)
    requires CivilTime(t, c, h, m, sec) && CivilTime(t, c', h', m', sec')
    ensures c == c' && h == h' && m == m' && sec == sec'
  {
    var rest, rest' := 3600 * h + 60 * m + sec, 3600 * h' + 60 * m' + sec';
    assert 0 <= rest < 86400 && 0 <= rest' < 86400;
    assert DayOf(c) == DayOf(c');
    DateOfDayOf(c);
    DateOfDayOf(c');
  }

  lemma NamePrefix(stamp: string)
    ensures "@" + (PREFIX + stamp) == "@zrb-" + stamp
  {
  }

  /** What a new name looks like. */
  lemma NewNameIs(dataset: string, t: int, c: Date, h: int, m: int, sec: int)
    requires CivilTime(t, c, h, m, sec)
    ensures NewName(dataset, t) == dataset + ("@zrb-" + ClockText(c, h, m, sec))
  {
    var c', h', m', sec' := StampFields(t);
    SameCivilTime(t, c, h, m, sec, c', h', m', sec');
    NamePrefix(Stamp(t));
  }

  lemma TwoAre(n: int)
    requires 0 <= n <= 99
    ensures |Naming.Two(n)| == 2 && Two(Naming.Two(n), 0, n)
  {
  }

  lemma PrintedDate(c: Date)
    requires 0 <= c.year <= 9999 && 1 <= c.month <= 12 && 1 <= c.day <= 31
    ensures var s := PrintYear(c.year) + PrintMonthDay(c.month, c.day);
            |s| == 10 && s[4] == '-' && s[7] == '-'
            && Two(s, 0, c.year / 100) && Two(s, 2, c.year % 100) && Two(s, 5, c.month) && Two(s, 8, c.day)
  {
    TwoAre(c.year / 100);
    TwoAre(c.year % 100);
    TwoAre(c.month);
    TwoAre(c.day);
  }

  lemma PrintedTime(h: int, m: int, sec: int)
    requires 0 <= h <= 23 && 0 <= m <= 59 && 0 <= sec <= 59
    ensures var s := PrintTime(h, m, sec);
            |s| == 9 && s[2] == ':' && s[5] == ':' && s[8] == 'Z' && Two(s, 0, h) && Two(s, 3, m) && Two(s, 6, sec)
  {
    TwoAre(h);
    TwoAre(m);
    TwoAre(sec);
  }

  /** A date, a T and a time, joined. */
  lemma Joined(c: Date, h: int, m: int, sec: int, date: string, time: string)
    requires |date| == 10 && date[4] == '-' && date[7] == '-' && Two(date, 0, c.year / 100)
    requires Two(date, 2, c.year % 100) && Two(date, 5, c.month) && Two(date, 8, c.day)
    requires |time| == 9 && time[2] == ':' && time[5] == ':' && time[8] == 'Z'
    requires Two(time, 0, h) && Two(time, 3, m) && Two(time, 6, sec)
    ensures var s := date + "T" + time; Clock(s, c, h, m, sec) && s[10] == 'T' && s[19..] == "Z"
  {
  }

  lemma PrintedClock(c: Date, h: int, m: int, sec: int)
    requires 0 <= c.year <= 9999 && 1 <= c.month <= 12 && 1 <= c.day <= 31
    requires 0 <= h <= 23 && 0 <= m <= 59 && 0 <= sec <= 59
    ensures var s := ClockText(c, h, m, sec); Clock(s, c, h, m, sec) && s[10] == 'T' && s[19..] == "Z"
  {
    PrintedDate(c);
    PrintedTime(h, m, sec);
    Joined(c, h, m, sec, PrintYear(c.year) + PrintMonthDay(c.month, c.day), PrintTime(h, m, sec));
  }

  /** A new name is the dataset, `@zrb-`, and the civil time in UTC, with a `T` and a `Z`. */
  lemma Printed(dataset: string, t: int, c: Date, h: int, m: int, sec: int)
    requires CivilTime(t, c, h, m, sec) && 0 <= c.year <= 9999
    ensures exists stamp ::
      NewName(dataset, t) == dataset + ("@zrb-" + stamp)
      && Clock(stamp, c, h, m, sec) && stamp[10] == 'T' && stamp[19..] == "Z"
  {
    NewNameIs(dataset, t, c, h, m, sec);
    PrintedClock(c, h, m, sec);
  }

  lemma EpochText(c: Date, zero: int)
    requires c == Date(1970, 1, 1) && zero == 0
    ensures ClockText(c, zero, zero, zero) == "1970-01-01T00:00:00Z"
  {
  }

  lemma ExampleText(c: Date)
    requires c == Date(2026, 5, 22)
    ensures ClockText(c, 14, 30, 0) == "2026-05-22T14:30:00Z"
  {
  }

  lemma ExampleDay(c: Date)
    requires c == Date(2026, 5, 22)
    ensures ValidDate(c) && DayOf(c) == DayNumber(0) + 20595
  {
  }

  lemma NamedAs(dataset: string, t: int, c: Date, h: int, m: int, sec: int, text: string, name: string)
    requires CivilTime(t, c, h, m, sec) && ClockText(c, h, m, sec) == text && "@zrb-" + text == name
    ensures NewName(dataset, t) == dataset + name
  {
    NewNameIs(dataset, t, c, h, m, sec);
  }

  lemma Prefixed(text: string)
    requires text == "1970-01-01T00:00:00Z"
    ensures "@zrb-" + text == "@zrb-1970-01-01T00:00:00Z"
  {
  }

  lemma EpochAt(dataset: string, t: int, c: Date, text: string)
    requires t == 0 && c == Date(1970, 1, 1) && text == ClockText(c, t, t, t)
    ensures NewName(dataset, t) == dataset + "@zrb-1970-01-01T00:00:00Z"
  {
    EpochDate();
    EpochText(c, t);
    Prefixed(text);
    assert CivilTime(t, c, t, t, t);
    NamedAs(dataset, t, c, t, t, t, text, "@zrb-1970-01-01T00:00:00Z");
  }

  /** Instant 0, as a name. */
  lemma EpochName(dataset: string)
    ensures NewName(dataset, 0) == dataset + "@zrb-1970-01-01T00:00:00Z"
  {
    EpochAt(dataset, 0, Date(1970, 1, 1), ClockText(Date(1970, 1, 1), 0, 0, 0));
  }

  /** The repository's own example. */
  lemma ExampleName(dataset: string, t: int, c: Date)
    requires t == 1779460200 && c == Date(2026, 5, 22)
    ensures NewName(dataset, t) == dataset + "@zrb-2026-05-22T14:30:00Z"
  {
    ExampleDay(c);
    ExampleText(c);
    assert CivilTime(t, c, 14, 30, 0);
    NamedAs(dataset, t, c, 14, 30, 0, "2026-05-22T14:30:00Z", "@zrb-2026-05-22T14:30:00Z");
  }
}
