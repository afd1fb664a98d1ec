/** The proleptic Gregorian calendar and the ISO 8601 week, over instants in whole UTC seconds.
    Days are counted from 0000-01-01; instants from 1970-01-01T00:00:00Z. */
module Calendar {

  const SECONDS_PER_DAY := 86400
  const EPOCH_DAY := 719528

  datatype Date = Date(year: int, month: int, day: int)

  predicate Leap(y: int) {
    y % 4 == 0 && (y % 100 != 0 || y % 400 == 0)
  }

  function DaysInYear(y: int): int {
    if Leap(y) then 366 else 365
  }

  /** Days from 0000-01-01 to the first day of year y. */
  function YearStart(y: int): int {
    365 * y + (y + 3) / 4 - (y + 99) / 100 + (y + 399) / 400
  }

  /** Days from 1 January to the first day of month m; month 13 is the end of the year. */
  function MonthOffset(m: int, leap: bool): int
    requires 1 <= m <= 13
  {
    [0, 31, 59, 90, 120, 151, 181, 212, 243, 273, 304, 334, 365][m - 1]
    + (if leap && m > 2 then 1 else 0)
  }

  function MonthLength(y: int, m: int): int
    requires 1 <= m <= 12
  {
    MonthOffset(m + 1, Leap(y)) - MonthOffset(m, Leap(y))
  }

  predicate ValidDate(c: Date) {
    1 <= c.month <= 12 && 1 <= c.day <= MonthLength(c.year, c.month)
  }

  function DayOf(c: Date): int
    requires ValidDate(c)
  {
    YearStart(c.year) + MonthOffset(c.month, Leap(c.year)) + c.day - 1
  }

  /** The year a day falls in: an estimate from the 400-year cycle, off by at most one. */
  function YearOfDay(n: int): int {
    var y := 400 * n / 146097;
    if n < YearStart(y) then y - 1
    else if YearStart(y + 1) <= n then y + 1
    else y
  }

  function MonthFrom(rest: int, leap: bool, m: int): (r: int)
    requires 1 <= m <= 12 && MonthOffset(m, leap) <= rest < MonthOffset(13, leap)
    ensures m <= r <= 12 && MonthOffset(r, leap) <= rest < MonthOffset(r + 1, leap)
    decreases 12 - m
  {
    if rest < MonthOffset(m + 1, leap) then m else MonthFrom(rest, leap, m + 1)
  }

  function DateOf(n: int): (c: Date)
    ensures ValidDate(c) && DayOf(c) == n
  {
    var y := YearOfDay(n);
    YearOfDayBounds(n);
    YearStep(y);
    var rest := n - YearStart(y);
    var m := MonthFrom(rest, Leap(y), 1);
    Date(y, m, rest - MonthOffset(m, Leap(y)) + 1)
  }

  lemma YearStep(y: int)
    ensures YearStart(y + 1) == YearStart(y) + DaysInYear(y)
  {
    assert (y + 4) / 4 == (y + 3) / 4 + if y % 4 == 0 then 1 else 0;
    assert (y + 100) / 100 == (y + 99) / 100 + if y % 100 == 0 then 1 else 0;
    assert (y + 400) / 400 == (y + 399) / 400 + if y % 400 == 0 then 1 else 0;
    Nested(y);
  }

  lemma Nested(y: int)
    ensures y % 400 == 0 ==> y % 100 == 0
    ensures y % 100 == 0 ==> y % 4 == 0
  {
    if y % 400 == 0 {
      Multiple100(4 * (y / 400));
    }
    if y % 100 == 0 {
      Multiple4(25 * (y / 100));
    }
  }

  lemma Multiple100(q: int)
    ensures (100 * q) % 100 == 0
  {
  }

  lemma Multiple4(q: int)
    ensures (4 * q) % 4 == 0
  {
  }

  lemma {:induction false} YearStartMonotone(y: int, z: int)
    requires y <= z
    ensures 365 * (z - y) <= YearStart(z) - YearStart(y) <= 366 * (z - y)
    decreases z - y
  {
    if y < z {
      YearStep(z - 1);
      YearStartMonotone(y, z - 1);
    }
  }

  /** YearOfDay is the one year whose days include n. */
  lemma YearOfDayBounds(n: int)
    ensures YearStart(YearOfDay(n)) <= n < YearStart(YearOfDay(n) + 1)
  {
  }

  lemma YearUnique(n: int, y: int)
    requires YearStart(y) <= n < YearStart(y + 1)
    ensures YearOfDay(n) == y
  {
    YearOfDayBounds(n);
    var z := YearOfDay(n);
    if z < y {
      YearStartMonotone(z + 1, y);
    } else if y < z {
      YearStartMonotone(y + 1, z);
    }
  }

  lemma YearOfDayMonotone(a: int, b: int)
    requires a <= b
    ensures YearOfDay(a) <= YearOfDay(b)
  {
    YearOfDayBounds(a);
    YearOfDayBounds(b);
    if YearOfDay(b) < YearOfDay(a) {
      YearStartMonotone(YearOfDay(b) + 1, YearOfDay(a));
    }
  }

  /** DateOf inverts DayOf, so every day has exactly one civil date. */
  lemma DateOfDayOf(c: Date)
    requires ValidDate(c)
    ensures DateOf(DayOf(c)) == c
  {
    DateOrder(c, DateOf(DayOf(c)));
    DateOrder(DateOf(DayOf(c)), c);
  }

  predicate DateBefore(a: Date, b: Date) {
    a.year < b.year
    || (a.year == b.year && (a.month < b.month || (a.month == b.month && a.day < b.day)))
  }

  /** The day count is strictly monotone in (year, month, day) order. */
  lemma DateOrder(a: Date, b: Date)
    requires ValidDate(a) && ValidDate(b)
    ensures DateBefore(a, b) <==> DayOf(a) < DayOf(b)
  {
    DayWithinYear(a);
    DayWithinYear(b);
    if a.year < b.year {
      YearStartMonotone(a.year + 1, b.year);
    } else if b.year < a.year {
      YearStartMonotone(b.year + 1, a.year);
    } else if a.month < b.month {
      MonthOffsetMonotone(a.month + 1, b.month, Leap(a.year));
    } else if b.month < a.month {
      MonthOffsetMonotone(b.month + 1, a.month, Leap(a.year));
    }
  }

  lemma DayWithinYear(c: Date)
    requires ValidDate(c)
    ensures YearStart(c.year) <= DayOf(c) < YearStart(c.year + 1)
  {
    YearStep(c.year);
    MonthOffsetMonotone(1, c.month, Leap(c.year));
    MonthOffsetMonotone(c.month + 1, 13, Leap(c.year));
  }

  lemma {:induction false} MonthOffsetMonotone(m: int, n: int, leap: bool)
    requires 1 <= m <= n <= 13
    ensures 28 * (n - m) <= MonthOffset(n, leap) - MonthOffset(m, leap) <= 31 * (n - m)
    decreases n - m
  {
    if m < n {
      MonthOffsetMonotone(m, n - 1, leap);
    }
  }

  // ----- months as one running count

  /** Months from January of year 0. */
  function MonthKey(n: int): int {
    var c := DateOf(n);
    12 * c.year + c.month - 1
  }

  function MonthStart(k: int): int {
    YearStart(k / 12) + MonthOffset(k % 12 + 1, Leap(k / 12))
  }

  /** Month number and year out of a month key. */
  lemma KeyParts(y: int, m: int)
    requires 1 <= m <= 12
    ensures (12 * y + m - 1) / 12 == y && (12 * y + m - 1) % 12 + 1 == m
  {
  }

  lemma MonthStartOf(y: int, m: int, k: int)
    requires 1 <= m <= 12 && k == 12 * y + m - 1
    ensures MonthStart(k) == YearStart(y) + MonthOffset(m, Leap(y))
    ensures MonthStart(k + 1) == YearStart(y) + MonthOffset(m, Leap(y)) + MonthLength(y, m)
  {
    KeyParts(y, m);
    if m < 12 {
      KeyParts(y, m + 1);
    } else {
      KeyParts(y + 1, 1);
      YearStep(y);
    }
  }

  /** A date lies between the first of its month and the first of the next. */
  lemma DateInMonth(c: Date, lo: int, hi: int)
    requires ValidDate(c) && lo == YearStart(c.year) + MonthOffset(c.month, Leap(c.year))
    requires hi == lo + MonthLength(c.year, c.month)
    ensures lo <= DayOf(c) < hi
  {
  }

  lemma DateKeyBounds(c: Date, k: int)
    requires ValidDate(c) && k == 12 * c.year + c.month - 1
    ensures MonthStart(k) <= DayOf(c)
    ensures DayOf(c) < MonthStart(k + 1)
  {
    MonthStartOf(c.year, c.month, k);
    DateInMonth(c, MonthStart(k), MonthStart(k + 1));
  }

  lemma MonthKeyBounds(n: int)
    ensures MonthStart(MonthKey(n)) <= n < MonthStart(MonthKey(n) + 1)
  {
    DateKeyBounds(DateOf(n), MonthKey(n));
  }

  lemma MonthStep(k: int)
    ensures 28 <= MonthStart(k + 1) - MonthStart(k) <= 31
  {
    var y, m := k / 12, k % 12 + 1;
    MonthOffsetMonotone(m, m + 1, Leap(y));
    if m < 12 {
      assert (k + 1) / 12 == y && (k + 1) % 12 == m;
    } else {
      assert (k + 1) / 12 == y + 1 && (k + 1) % 12 == 0;
      YearStep(y);
    }
  }

  lemma {:induction false} MonthStartMonotone(j: int, k: int)
    requires j <= k
    ensures 28 * (k - j) <= MonthStart(k) - MonthStart(j) <= 31 * (k - j)
    decreases k - j
  {
    if j < k {
      MonthStep(k - 1);
      MonthStartMonotone(j, k - 1);
    }
  }

  lemma DateKeyMonotone(c: Date, d: Date)
    requires ValidDate(c) && ValidDate(d) && DayOf(c) <= DayOf(d)
    ensures 12 * c.year + c.month - 1 <= 12 * d.year + d.month - 1
  {
    DateOrder(d, c);
  }

  lemma MonthKeyMonotone(a: int, b: int)
    requires a <= b
    ensures MonthKey(a) <= MonthKey(b)
  {
    DateKeyMonotone(DateOf(a), DateOf(b));
  }

  // ----- ISO weeks

  datatype IsoWeek = IsoWeek(year: int, week: int)

  /** The Monday of the week of day n; 0000-01-01 is a Saturday. */
  function Monday(n: int): int {
    n - (n + 5) % 7
  }

  /** Section 4.1.4 of ISO 8601: a week belongs to the year that holds its Thursday. */
  function IsoWeekOf(n: int): IsoWeek {
    var thursday := Monday(n) + 3;
    var y := YearOfDay(thursday);
    IsoWeek(y, (thursday - YearStart(y)) / 7 + 1)
  }

  /** Equal ISO week numbers mean exactly the same Monday-to-Sunday week. */
  lemma SameIsoWeek(a: int, b: int)
    ensures IsoWeekOf(a) == IsoWeekOf(b) <==> Monday(a) == Monday(b)
  {
    MondayResidue(a);
    MondayResidue(b);
    if IsoWeekOf(a) == IsoWeekOf(b) {
      SameQuotient(Monday(a) + 3, Monday(b) + 3, YearStart(IsoWeekOf(a).year));
    }
  }

  lemma MondayResidue(n: int)
    ensures (Monday(n) + 3) % 7 == 5
  {
    assert Monday(n) + 3 == 7 * ((n + 5) / 7) - 2;
  }

  lemma SameQuotient(s: int, t: int, c: int)
    requires s % 7 == t % 7 && (s - c) / 7 == (t - c) / 7
    ensures s == t
  {
  }

  /** Week numbers run from 1 to 53. */
  lemma IsoWeekRange(n: int)
    ensures 1 <= IsoWeekOf(n).week <= 53
  {
    YearOfDayBounds(Monday(n) + 3);
    YearStep(YearOfDay(Monday(n) + 3));
  }

  // ----- instants

  function DayNumber(t: int): int {
    t / SECONDS_PER_DAY + EPOCH_DAY
  }

  function YearOf(t: int): int {
    YearOfDay(DayNumber(t))
  }

  lemma DateYear(t: int)
    ensures DateOf(DayNumber(t)).year == YearOf(t)
  {
    DayWithinYear(DateOf(DayNumber(t)));
    YearUnique(DayNumber(t), DateOf(DayNumber(t)).year);
  }

  lemma YearOfMonotone(s: int, t: int)
    requires s <= t
    ensures YearOf(s) <= YearOf(t)
  {
    YearOfDayMonotone(DayNumber(s), DayNumber(t));
  }

  // ----- the calendar on the wall

  /** Days in a civil month, as everyone knows them. */
  lemma MonthLengths(y: int, m: int)
    requires 1 <= m <= 12
    ensures MonthLength(y, m)
         == if m == 4 || m == 6 || m == 9 || m == 11 then 30
            else if m != 2 then 31
            else if y % 4 == 0 && (y % 100 != 0 || y % 400 == 0) then 29
            else 28
  {
  }

  /** The civil successor of a date: the next day of the month, the first of the next month, or New Year. */
  function NextDay(c: Date): Date {
    var last := if c.month == 4 || c.month == 6 || c.month == 9 || c.month == 11 then 30
                else if c.month != 2 then 31
                else if c.year % 4 == 0 && (c.year % 100 != 0 || c.year % 400 == 0) then 29
                else 28;
    if c.day < last then Date(c.year, c.month, c.day + 1)
    else if c.month < 12 then Date(c.year, c.month + 1, 1)
    else Date(c.year + 1, 1, 1)
  }

  lemma DayOfNext(c: Date)
    requires ValidDate(c)
    ensures ValidDate(NextDay(c)) && DayOf(NextDay(c)) == DayOf(c) + 1
  {
    MonthLengths(c.year, c.month);
    MonthLengths(NextDay(c).year, NextDay(c).month);
    YearStep(c.year);
  }

  lemma DateAt(n: int, c: Date)
    ensures DateOf(n) == c <==> ValidDate(c) && DayOf(c) == n
  {
    if ValidDate(c) && DayOf(c) == n {
      DateOfDayOf(c);
    }
  }

  lemma SuccessorOf(n: int, c: Date)
    requires ValidDate(c) && DayOf(c) == n
    ensures DateOf(n + 1) == NextDay(c)
  {
    DayOfNext(c);
    DateAt(n + 1, NextDay(c));
  }

  /** The date of the next day is the civil successor. */
  lemma Successor(n: int)
    ensures DateOf(n + 1) == NextDay(DateOf(n))
  {
    SuccessorOf(n, DateOf(n));
  }

  lemma EpochDate()
    ensures ValidDate(Date(1970, 1, 1)) && DayOf(Date(1970, 1, 1)) == 719528
  {
    assert YearStart(1970) == 719528;
  }

  /** Instant 0 is on 1970-01-01. */
  lemma Epoch(n: int, c: Date)
    requires n == DayNumber(0) && c == Date(1970, 1, 1)
    ensures DateOf(n) == c
  {
    EpochDate();
    DateAt(n, c);
  }

  /** That was a Thursday. */
  lemma EpochWeekday()
    ensures Monday(DayNumber(0)) == DayNumber(0) - 3
  {
  }

  /** A day is 86400 seconds. */
  lemma Days(t: int, k: int)
    ensures DayNumber(t) == DayNumber(0) + k <==> 86400 * k <= t < 86400 * (k + 1)
  {
  }

  /** Weeks begin every seventh day from there. */
  lemma Weeks(n: int)
    ensures Monday(n) <= n <= Monday(n) + 6 && (Monday(n) - (DayNumber(0) - 3)) % 7 == 0
  {
  }

  /** Week 1 of a year is the week of 4 January, section 4.1.4 of ISO 8601. */
  lemma FirstWeek(y: int, c: Date)
    requires c == Date(y, 1, 4)
    ensures ValidDate(c) && IsoWeekOf(DayOf(c)) == IsoWeek(y, 1)
  {
    var n := DayOf(c);
    assert n == YearStart(y) + 3;
    YearStep(y);
    YearUnique(Monday(n) + 3, y);
  }

  lemma WeekOfThursday(n: int, t: int, y: int, a: int, b: int)
    requires t == Monday(n) + 3 && a == YearStart(y) && b == YearStart(y + 1) && a <= t < b
    ensures IsoWeekOf(n) == IsoWeek(y, (t - a) / 7 + 1)
  {
    YearUnique(t, y);
  }

  lemma ThursdayAfter(n: int)
    ensures Monday(n + 7) == Monday(n) + 7
  {
  }

  lemma NextWeek(y: int, t: int, a: int, b: int, w: IsoWeek, v: IsoWeek)
    requires a <= t < b && w == IsoWeek(y, (t - a) / 7 + 1)
    requires v == if t + 7 < b then IsoWeek(y, (t + 7 - a) / 7 + 1) else IsoWeek(y + 1, (t + 7 - b) / 7 + 1)
    ensures v == IsoWeek(w.year, w.week + 1) || v == IsoWeek(w.year + 1, 1)
  {
  }

  lemma WeekOfNext(n: int, t: int, y: int, a: int, b: int)
    requires t == Monday(n) + 3 && a == YearStart(y) && b == YearStart(y + 1) && a <= t < b
    ensures IsoWeekOf(n + 7) == if t + 7 < b then IsoWeek(y, (t + 7 - a) / 7 + 1)
                                else IsoWeek(y + 1, (t + 7 - b) / 7 + 1)
  {
    ThursdayAfter(n);
    if t + 7 < b {
      WeekOfThursday(n + 7, t + 7, y, a, b);
    } else {
      YearStartMonotone(y + 1, y + 2);
      WeekOfThursday(n + 7, t + 7, y + 1, b, YearStart(y + 2));
    }
  }

  /** From there weeks count on, until week 1 of the next year. */
  lemma WeekAfter(n: int, w: IsoWeek)
    requires w == IsoWeekOf(n)
    ensures IsoWeekOf(n + 7) == IsoWeek(w.year, w.week + 1) || IsoWeekOf(n + 7) == IsoWeek(w.year + 1, 1)
  {
    var t, a, b := Monday(n) + 3, YearStart(w.year), YearStart(w.year + 1);
    YearOfDayBounds(t);
    WeekOfThursday(n, t, w.year, a, b);
    WeekOfNext(n, t, w.year, a, b);
    NextWeek(w.year, t, a, b, w, IsoWeekOf(n + 7));
  }
}
