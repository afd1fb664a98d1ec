/** Snapshot names `<dataset>@zrb-<timestamp>`: printer, parser, listing order. */
module Naming {
  import opened Wrappers
  import opened Calendar

  const PREFIX := "zrb-"

  // ----- printing

  function Digit(k: int): char
    requires 0 <= k <= 9
  {
    ('0' as int + k) as char
  }

  function Two(n: int): string
    requires 0 <= n <= 99
  {
    [Digit(n / 10), Digit(n % 10)]
  }

  function Four(n: int): string
    requires 0 <= n <= 9999
  {
    Two(n / 100) + Two(n % 100)
  }

  function Decimal(n: nat): string {
    (if n < 10 then "" else Decimal(n / 10)) + [Digit(n % 10)]
  }

  /** `%Y`: four digits inside 0 to 9999, an explicit sign outside. */
  function PrintYear(y: int): string {
    if 0 <= y <= 9999 then Four(y)
    else if y > 9999 then "+" + Decimal(y)
    else if -9999 <= y then "-" + Four(-y)
    else "-" + Decimal(-y)
  }

  /** `-%m-%d` */
  function PrintMonthDay(month: int, day: int): string
    requires 0 <= month <= 99 && 0 <= day <= 99
  {
    "-" + Two(month) + "-" + Two(day)
  }

  /** `%H:%M:%SZ` */
  function PrintTime(h: int, m: int, s: int): string
    requires 0 <= h <= 99 && 0 <= m <= 99 && 0 <= s <= 99
  {
    Two(h) + ":" + Two(m) + ":" + Two(s) + "Z"
  }

  /** `%Y-%m-%dT%H:%M:%SZ` */
  function Stamp(t: int): string {
    var c := DateOf(DayNumber(t));
    var secs := t % SECONDS_PER_DAY;
    PrintYear(c.year) + PrintMonthDay(c.month, c.day) + "T" + PrintTime(secs / 3600, secs / 60 % 60, secs % 60)
  }

  function NewName(dataset: string, now: int): string {
    dataset + ("@" + (PREFIX + Stamp(now)))
  }

  // ----- parsing

  /** The text before and after the first `sep`. */
  function SplitOnce(s: string, sep: char): (r: Option<(string, string)>)
    ensures r.None? <==> sep !in s
    ensures r.Some? ==> sep !in r.value.0 && s == r.value.0 + [sep] + r.value.1
  {
    if s == "" then None
    else if s[0] == sep then Some(("", s[1..]))
    else
      match SplitOnce(s[1..], sep)
      case None => None
      case Some((a, b)) => Some((s[..1] + a, b))
  }

  predicate IsDigit(c: char) {
    '0' <= c <= '9'
  }

  function DigitValue(c: char): int
    requires IsDigit(c)
  {
    c as int - '0' as int
  }

  /** Two digits at position i. */
  function Num2(s: string, i: nat): (r: Option<int>)
    ensures r.Some? ==> 0 <= r.value <= 99
  {
    if i + 2 <= |s| && IsDigit(s[i]) && IsDigit(s[i + 1])
    then Some(10 * DigitValue(s[i]) + DigitValue(s[i + 1]))
    else None
  }

  /** The zone after the seconds: `Z`, or a sign and `HH:MM`; the result is its length in seconds. */
  function ParseOffset(s: string): Option<int> {
    if s == "Z" || s == "z" then Some(0)
    else if |s| == 6 && (s[0] == '+' || s[0] == '-') && s[3] == ':' then
      match (Num2(s, 1), Num2(s, 4))
      case (Some(h), Some(m)) =>
        if h <= 23 && m <= 59
        then Some((if s[0] == '-' then -1 else 1) * (3600 * h + 60 * m))
        else None
      case _ => None
    else None
  }

  function Num4(s: string, i: nat): (r: Option<int>)
    ensures r.Some? ==> 0 <= r.value <= 9999
  {
    match (Num2(s, i), Num2(s, i + 2))
    case (Some(a), Some(b)) => Some(100 * a + b)
    case _ => None
  }

  /** full-date: `YYYY-MM-DD` */
  function ParseDate(s: string): (r: Option<Date>)
    ensures r.Some? ==> ValidDate(r.value)
  {
    if |s| != 10 || s[4] != '-' || s[7] != '-' then None
    else
      match (Num4(s, 0), Num2(s, 5), Num2(s, 8))
      case (Some(y), Some(m), Some(d)) => if ValidDate(Date(y, m, d)) then Some(Date(y, m, d)) else None
      case _ => None
  }

  /** full-time: `HH:MM:SS` and the zone, as seconds after 00:00 UTC of the written date */
  function ParseTime(s: string): Option<int> {
    if |s| < 9 || s[2] != ':' || s[5] != ':' then None
    else
      match (Num2(s, 0), Num2(s, 3), Num2(s, 6), ParseOffset(s[8..]))
      case (Some(h), Some(m), Some(sec), Some(offset)) =>
        if h <= 23 && m <= 59 && sec <= 59 then Some(3600 * h + 60 * m + sec - offset) else None
      case _ => None
  }

  /** The instant of a date and seconds after its midnight. */
  function Instant(date: Option<Date>, time: Option<int>): Option<int>
    requires date.Some? ==> ValidDate(date.value)
  {
    match (date, time)
    case (Some(d), Some(secs)) => Some((DayOf(d) - EPOCH_DAY) * SECONDS_PER_DAY + secs)
    case _ => None
  }

  /** date-time of section 5.6 of RFC 3339, without fractions and leap seconds. */
  function ParseRfc3339(s: string): Option<int> {
    if |s| < 11 || s[10] !in "Tt" then None else Instant(ParseDate(s[..10]), ParseTime(s[11..]))
  }

  function Parse(name: string): Option<int> {
    match SplitOnce(name, '@')
    case None => None
    case Some((_, snap)) =>
      if PREFIX <= snap then ParseRfc3339(snap[|PREFIX|..]) else None
  }

  predicate IsZrb(name: string) {
    Parse(name).Some?
  }

  // ----- round trip

  lemma SplitAtFirst(a: string, sep: char, b: string)
    requires sep !in a
    ensures SplitOnce(a + [sep] + b, sep) == Some((a, b))
  {
    var s := a + [sep] + b;
    var (x, y) := SplitOnce(s, sep).value;
    assert s[|a|] == sep && s[|x|] == sep;
    assert |x| == |a| by {
      assert forall i :: 0 <= i < |x| ==> s[i] == x[i] != sep;
      assert forall i :: 0 <= i < |a| ==> s[i] == a[i] != sep;
    }
    assert x == s[..|a|] == a && y == s[|a| + 1..] == b;
  }

  lemma Num2OfTwo(s: string, i: nat, n: int)
    requires 0 <= n <= 99 && i + 2 <= |s| && s[i] == Two(n)[0] && s[i + 1] == Two(n)[1]
    ensures Num2(s, i) == Some(n)
  {
  }

  /** A managed timestamp holds no `@`. */
  lemma TimestampHasNoAt(s: string)
    requires ParseRfc3339(s).Some?
    ensures '@' !in s
  {
    assert '@' !in s[..10];
    assert '@' !in s[11..] by { TimeHasNoAt(s[11..]); }
    assert s == s[..10] + [s[10]] + s[11..];
  }

  lemma TimeHasNoAt(s: string)
    requires ParseTime(s).Some?
    ensures '@' !in s
  {
    assert '@' !in s[8..] by { assert ParseOffset(s[8..]).Some?; }
    assert '@' !in s[..8];
    assert s == s[..8] + s[8..];
  }

  predicate PrintableYear(t: int) {
    0 <= YearOf(t) <= 9999
  }

  lemma ParsePrintedDate(c: Date)
    requires 0 <= c.year <= 9999 && ValidDate(c) && c.day <= 31
    ensures var s := PrintYear(c.year) + PrintMonthDay(c.month, c.day); |s| == 10 && ParseDate(s) == Some(c)
  {
    var s := PrintYear(c.year) + PrintMonthDay(c.month, c.day);
    Num2OfTwo(s, 0, c.year / 100);
    Num2OfTwo(s, 2, c.year % 100);
    Num2OfTwo(s, 5, c.month);
    Num2OfTwo(s, 8, c.day);
  }

  lemma ParsePrintedTime(h: int, m: int, sec: int)
    requires 0 <= h <= 23 && 0 <= m <= 59 && 0 <= sec <= 59
    ensures ParseTime(PrintTime(h, m, sec)) == Some(3600 * h + 60 * m + sec)
  {
    var s := PrintTime(h, m, sec);
    Num2OfTwo(s, 0, h);
    Num2OfTwo(s, 3, m);
    Num2OfTwo(s, 6, sec);
    assert s[8..] == "Z";
  }

  lemma ParseParts(s: string, date: string, time: string, t: int)
    requires s == date + "T" + time && |date| == 10 && ReadsAs(date, time, t)
    ensures ParseRfc3339(s) == Some(t)
  {
    assert s[..10] == date && s[11..] == time;
  }

  /** The date and the time together name the instant t. */
  predicate ReadsAs(date: string, time: string, t: int) {
    Instant(ParseDate(date), ParseTime(time)) == Some(t)
  }

  /** Fields of the instant t, printed, read as t. */
  lemma FieldsRead(c: Date, h: int, m: int, sec: int, t: int)
    requires 0 <= c.year <= 9999 && ValidDate(c) && c.day <= 31
    requires 0 <= h <= 23 && 0 <= m <= 59 && 0 <= sec <= 59
    requires (DayOf(c) - EPOCH_DAY) * SECONDS_PER_DAY + 3600 * h + 60 * m + sec == t
    ensures ReadsAs(PrintYear(c.year) + PrintMonthDay(c.month, c.day), PrintTime(h, m, sec), t)
    ensures |PrintYear(c.year) + PrintMonthDay(c.month, c.day)| == 10
  {
    ParsePrintedDate(c);
    ParsePrintedTime(h, m, sec);
  }

  lemma TimeOfDay(t: int)
    ensures var secs := t % SECONDS_PER_DAY;
            (DayNumber(t) - EPOCH_DAY) * SECONDS_PER_DAY + 3600 * (secs / 3600) + 60 * (secs / 60 % 60) + secs % 60 == t
            && 0 <= secs / 3600 <= 23
  {
    var secs := t % SECONDS_PER_DAY;
    assert secs / 60 == 60 * (secs / 3600) + secs / 60 % 60;
  }

  lemma StampFields(t: int) returns (c: Date, h: int, m: int, sec: int)
    ensures ValidDate(c) && 1 <= c.month <= 12 && 1 <= c.day <= 31 && c.year == YearOf(t)
    ensures 0 <= h <= 23 && 0 <= m <= 59 && 0 <= sec <= 59
    ensures (DayOf(c) - EPOCH_DAY) * SECONDS_PER_DAY + 3600 * h + 60 * m + sec == t
    ensures Stamp(t) == PrintYear(c.year) + PrintMonthDay(c.month, c.day) + "T" + PrintTime(h, m, sec)
  {
    var secs := t % SECONDS_PER_DAY;
    c, h, m, sec := DateOf(DayNumber(t)), secs / 3600, secs / 60 % 60, secs % 60;
    DateYear(t);
    TimeOfDay(t);
  }

  lemma ParsePrintable(t: int)
    requires PrintableYear(t)
    ensures ParseRfc3339(Stamp(t)) == Some(t)
  {
    var c, h, m, sec := StampFields(t);
    FieldsRead(c, h, m, sec, t);
    ParseParts(Stamp(t), PrintYear(c.year) + PrintMonthDay(c.month, c.day), PrintTime(h, m, sec), t);
  }

  lemma SignedYearDoesNotParse(s: string)
    requires s != "" && !IsDigit(s[0])
    ensures ParseRfc3339(s) == None
  {
  }

  lemma ParseStamp(t: int)
    ensures ParseRfc3339(Stamp(t)) == if PrintableYear(t) then Some(t) else None
  {
    if PrintableYear(t) {
      ParsePrintable(t);
    } else {
      DateYear(t);
      SignedYearDoesNotParse(Stamp(t));
    }
  }

  /** Printing then parsing gives the instant back exactly when the dataset has no `@` and the year
      has four digits; otherwise the printed name is not a managed name at all. */
  lemma RoundTrip(dataset: string, t: int)
    ensures Parse(NewName(dataset, t)) == if '@' !in dataset && PrintableYear(t) then Some(t) else None
  {
    if '@' !in dataset {
      ParseStamp(t);
      ParseSplit(dataset, Stamp(t));
    } else {
      TwoAtsDoNotParse(dataset, PREFIX + Stamp(t));
    }
  }

  lemma ParseSplit(dataset: string, stamp: string)
    requires '@' !in dataset
    ensures Parse(dataset + ("@" + (PREFIX + stamp))) == ParseRfc3339(stamp)
  {
    SplitAtFirst(dataset, '@', PREFIX + stamp);
    assert dataset + ("@" + (PREFIX + stamp)) == dataset + ['@'] + (PREFIX + stamp);
    assert (PREFIX + stamp)[|PREFIX|..] == stamp;
  }

  /** A managed name holds exactly one `@`, as the destroy guard demands. */
  lemma ManagedNameShape(name: string)
    requires IsZrb(name)
    ensures var (a, b) := SplitOnce(name, '@').value; PREFIX <= b && '@' !in b
  {
    var (_, b) := SplitOnce(name, '@').value;
    TimestampHasNoAt(b[|PREFIX|..]);
    assert b == PREFIX + b[|PREFIX|..];
  }

  lemma TwoAtsDoNotParse(dataset: string, snap: string)
    requires '@' in dataset
    ensures Parse(dataset + ("@" + snap)) == None
  {
    var name := dataset + ("@" + snap);
    var (a, b) := SplitOnce(name, '@').value;
    var i :| 0 <= i < |dataset| && dataset[i] == '@';
    assert name[i] == '@';
    assert |a| <= i by {
      assert forall j :: 0 <= j < |a| ==> name[j] == a[j] != '@';
    }
    assert b[|dataset| - |a| - 1] == name[|dataset|] == '@';
    if IsZrb(name) {
      ManagedNameShape(name);
    }
  }

  // ----- byte order

  /** Byte order of strings. */
  predicate Less(a: string, b: string) {
    if b == "" then false
    else if a == "" then true
    else if a[0] == b[0] then Less(a[1..], b[1..])
    else a[0] < b[0]
  }

  lemma {:induction false} LessAsymmetric(a: string, b: string)
    requires Less(a, b)
    ensures !Less(b, a)
  {
    if a != "" && a[0] == b[0] {
      LessAsymmetric(a[1..], b[1..]);
    }
  }

  lemma {:induction false} LessAfter(prefix: string, a: string, b: string)
    ensures Less(prefix + a, prefix + b) == Less(a, b)
  {
    if prefix == "" {
      assert prefix + a == a && prefix + b == b;
    } else {
      LessAfter(prefix[1..], a, b);
      assert (prefix + a)[1..] == prefix[1..] + a && (prefix + b)[1..] == prefix[1..] + b;
    }
  }

  lemma {:induction false} LessBefore(a: string, b: string, x: string, y: string)
    requires |a| == |b| && Less(a, b)
    ensures Less(a + x, b + y)
  {
    assert (a + x)[1..] == a[1..] + x && (b + y)[1..] == b[1..] + y;
    if a[0] == b[0] {
      LessBefore(a[1..], b[1..], x, y);
    }
  }

  lemma LessTwo(m: int, n: int, x: string, y: string)
    requires 0 <= m <= 99 && 0 <= n <= 99
    requires m < n || (m == n && Less(x, y))
    ensures Less(Two(m) + x, Two(n) + y)
  {
    if m == n {
      LessAfter(Two(m), x, y);
    } else {
      assert m / 10 < n / 10 || (m / 10 == n / 10 && m % 10 < n % 10);
      assert Two(m)[1..] == [Digit(m % 10)] && Two(n)[1..] == [Digit(n % 10)];
      LessBefore(Two(m), Two(n), x, y);
    }
  }

  lemma LessChar(c: char, x: string, y: string)
    requires Less(x, y)
    ensures Less([c] + x, [c] + y)
  {
    LessAfter([c], x, y);
  }

  lemma LessTime(h: int, m: int, s: int, h': int, m': int, s': int)
    requires 0 <= h <= 99 && 0 <= m <= 59 && 0 <= s <= 59 && 0 <= h' <= 99 && 0 <= m' <= 59 && 0 <= s' <= 59
    requires 3600 * h + 60 * m + s < 3600 * h' + 60 * m' + s'
    ensures Less(PrintTime(h, m, s), PrintTime(h', m', s'))
  {
    var x2, y2 := Two(s) + "Z", Two(s') + "Z";
    var x1, y1 := Two(m) + (":" + x2), Two(m') + (":" + y2);
    if h == h' {
      if m == m' {
        LessTwo(s, s', "Z", "Z");
        LessChar(':', x2, y2);
      }
      LessTwo(m, m', ":" + x2, ":" + y2);
      LessChar(':', x1, y1);
    }
    LessTwo(h, h', ":" + x1, ":" + y1);
    assert PrintTime(h, m, s) == Two(h) + (":" + x1);
    assert PrintTime(h', m', s') == Two(h') + (":" + y1);
  }

  lemma LessDate(a: Date, b: Date, x: string, y: string)
    requires 0 <= a.year <= 9999 && 0 <= a.month <= 99 && 0 <= a.day <= 99
    requires 0 <= b.year <= 9999 && 0 <= b.month <= 99 && 0 <= b.day <= 99
    requires DateBefore(a, b) || (a == b && Less(x, y))
    ensures Less(PrintYear(a.year) + PrintMonthDay(a.month, a.day) + x,
                 PrintYear(b.year) + PrintMonthDay(b.month, b.day) + y)
  {
    var x3, y3 := Two(a.day) + x, Two(b.day) + y;
    var x2, y2 := Two(a.month) + ("-" + x3), Two(b.month) + ("-" + y3);
    var x1, y1 := Two(a.year % 100) + ("-" + x2), Two(b.year % 100) + ("-" + y2);
    if a.year == b.year {
      if a.month == b.month {
        LessTwo(a.day, b.day, x, y);
        LessChar('-', x3, y3);
      }
      LessTwo(a.month, b.month, "-" + x3, "-" + y3);
      LessChar('-', x2, y2);
    }
    if a.year / 100 == b.year / 100 {
      LessTwo(a.year % 100, b.year % 100, "-" + x2, "-" + y2);
    }
    LessTwo(a.year / 100, b.year / 100, x1, y1);
    assert PrintYear(a.year) + PrintMonthDay(a.month, a.day) + x == Two(a.year / 100) + x1;
    assert PrintYear(b.year) + PrintMonthDay(b.month, b.day) + y == Two(b.year / 100) + y1;
  }

  lemma LessPrinted(c: Date, h: int, m: int, s: int, c': Date, h': int, m': int, s': int)
    requires ValidDate(c) && 0 <= c.year <= 9999 && c.day <= 31 && 0 <= h <= 23 && 0 <= m <= 59 && 0 <= s <= 59
    requires ValidDate(c') && 0 <= c'.year <= 9999 && c'.day <= 31 && 0 <= h' <= 23 && 0 <= m' <= 59 && 0 <= s' <= 59
    requires DayOf(c) < DayOf(c') || (DayOf(c) == DayOf(c') && 3600 * h + 60 * m + s < 3600 * h' + 60 * m' + s')
    ensures Less(PrintYear(c.year) + PrintMonthDay(c.month, c.day) + "T" + PrintTime(h, m, s),
                 PrintYear(c'.year) + PrintMonthDay(c'.month, c'.day) + "T" + PrintTime(h', m', s'))
  {
    var x, y := PrintTime(h, m, s), PrintTime(h', m', s');
    DateOrder(c, c');
    if DayOf(c) == DayOf(c') {
      DateOfDayOf(c);
      DateOfDayOf(c');
      LessTime(h, m, s, h', m', s');
      LessChar('T', x, y);
    }
    LessDate(c, c', "T" + x, "T" + y);
    var d := PrintYear(c.year) + PrintMonthDay(c.month, c.day);
    var d' := PrintYear(c'.year) + PrintMonthDay(c'.month, c'.day);
    assert d + "T" + x == d + ("T" + x) && d' + "T" + y == d' + ("T" + y);
  }

  lemma LessStamp(t: int, u: int)
    requires PrintableYear(t) && PrintableYear(u) && t < u
    ensures Less(Stamp(t), Stamp(u))
  {
    var c, h, m, s := StampFields(t);
    var c', h', m', s' := StampFields(u);
    LessPrinted(c, h, m, s, c', h', m', s');
  }

  /** Names of one dataset sort as bytes exactly as they sort in time. */
  lemma NameOrder(dataset: string, t: int, u: int)
    requires PrintableYear(t) && PrintableYear(u)
    ensures Less(NewName(dataset, t), NewName(dataset, u)) <==> t < u
  {
    if t < u {
      LessName(dataset, t, u);
    } else if u < t {
      LessName(dataset, u, t);
    }
    OrderDecided(NewName(dataset, t), NewName(dataset, u), t, u);
  }

  lemma OrderDecided(a: string, b: string, t: int, u: int)
    requires t < u ==> Less(a, b)
    requires u < t ==> Less(b, a)
    requires t == u ==> a == b
    ensures Less(a, b) <==> t < u
  {
    if Less(a, b) {
      LessAsymmetric(a, b);
    }
  }

  lemma LessName(dataset: string, t: int, u: int)
    requires PrintableYear(t) && PrintableYear(u) && t < u
    ensures Less(NewName(dataset, t), NewName(dataset, u))
  {
    LessStamp(t, u);
    LessAfter(PREFIX, Stamp(t), Stamp(u));
    LessAfter("@", PREFIX + Stamp(t), PREFIX + Stamp(u));
    LessAfter(dataset, "@" + (PREFIX + Stamp(t)), "@" + (PREFIX + Stamp(u)));
  }
}
