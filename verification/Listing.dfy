/** Snapshot listings: the managed names of a dataset, oldest first. */
module Listing {
  import opened Wrappers
  import Naming

  /** A name with its parsed timestamp, if it has one. */
  datatype Snap = Snap(name: string, ts: Option<int>)

  function Entry(name: string): Snap {
    Snap(name, Naming.Parse(name))
  }

  function Map<A, B>(f: A -> B, s: seq<A>): (r: seq<B>)
    ensures |r| == |s|
    ensures forall i :: 0 <= i < |s| ==> r[i] == f(s[i])
  {
    seq(|s|, i requires 0 <= i < |s| => f(s[i]))
  }

  function Entries(names: seq<string>): seq<Snap> {
    Map(Entry, names)
  }

  function NameOf(x: Snap): string {
    x.name
  }

  function Names(s: seq<Snap>): seq<string> {
    Map(NameOf, s)
  }

  lemma NamesOfEntries(names: seq<string>)
    ensures Names(Entries(names)) == names
  {
  }

  lemma RemoveOne<A>(s: seq<A>, k: nat)
    requires k < |s|
    ensures multiset(s[..k] + s[k + 1..]) == multiset(s) - multiset{s[k]}
  {
    assert s == s[..k] + [s[k]] + s[k + 1..];
  }

  lemma MapAt<A, B>(f: A -> B, s: seq<A>, k: nat)
    requires k < |s|
    ensures multiset(Map(f, s)) == multiset(Map(f, s[..k] + s[k + 1..])) + multiset{f(s[k])}
  {
    var m := Map(f, s);
    RemoveOne(m, k);
    assert Map(f, s[..k] + s[k + 1..]) == m[..k] + m[k + 1..];
  }

  lemma PickFirst<A>(a: seq<A>, b: seq<A>) returns (k: nat)
    requires multiset(a) == multiset(b) && a != []
    ensures k < |b| && b[k] == a[0] && multiset(a[..0] + a[1..]) == multiset(b[..k] + b[k + 1..])
  {
    assert a[0] in multiset(b);
    k :| 0 <= k < |b| && b[k] == a[0];
    RemoveOne(a, 0);
    RemoveOne(b, k);
  }

  /** Mapping preserves equality up to order. */
  lemma {:induction false} MapPermutes<A, B>(f: A -> B, a: seq<A>, b: seq<A>)
    requires multiset(a) == multiset(b)
    ensures multiset(Map(f, a)) == multiset(Map(f, b))
  {
    if a == [] {
      assert |multiset(b)| == 0;
    } else {
      var k := PickFirst(a, b);
      MapPermutes(f, a[..0] + a[1..], b[..k] + b[k + 1..]);
      MapAt(f, a, 0);
      MapAt(f, b, k);
    }
  }

  // ----- the stable sort

  /** The order of optional timestamps: a missing one comes first. */
  predicate NotLater(x: Snap, y: Snap) {
    x.ts.None? || (y.ts.Some? && x.ts.value <= y.ts.value)
  }

  ghost predicate Sorted(s: seq<Snap>) {
    forall i, j :: 0 <= i < j < |s| ==> NotLater(s[i], s[j])
  }

  function Insert(x: Snap, s: seq<Snap>): seq<Snap> {
    if s == [] || NotLater(x, s[0]) then [x] + s else [s[0]] + Insert(x, s[1..])
  }

  /** The stable sort by timestamp. */
  function SortByTime(s: seq<Snap>): seq<Snap> {
    if s == [] then [] else Insert(s[0], SortByTime(s[1..]))
  }

  lemma {:induction false} InsertMultiset(x: Snap, s: seq<Snap>)
    ensures multiset(Insert(x, s)) == multiset{x} + multiset(s)
  {
    if s != [] && !NotLater(x, s[0]) {
      InsertMultiset(x, s[1..]);
      assert s == [s[0]] + s[1..];
    }
  }

  lemma InsertMembers(x: Snap, s: seq<Snap>, y: Snap)
    ensures y in Insert(x, s) <==> y == x || y in s
  {
    InsertMultiset(x, s);
    assert y in Insert(x, s) <==> y in multiset(Insert(x, s));
    assert y in s <==> y in multiset(s);
  }

  lemma {:induction false} InsertSorted(x: Snap, s: seq<Snap>)
    requires Sorted(s)
    ensures Sorted(Insert(x, s))
  {
    if s != [] && !NotLater(x, s[0]) {
      InsertSorted(x, s[1..]);
      var r := Insert(x, s[1..]);
      forall y | y in r ensures NotLater(s[0], y) {
        InsertMembers(x, s[1..], y);
      }
    }
  }

  /** Sorting permutes and orders. */
  lemma {:induction false} SortSorts(s: seq<Snap>)
    ensures multiset(SortByTime(s)) == multiset(s) && |SortByTime(s)| == |s|
    ensures Sorted(SortByTime(s))
  {
    if s != [] {
      SortSorts(s[1..]);
      InsertMultiset(s[0], SortByTime(s[1..]));
      InsertSorted(s[0], SortByTime(s[1..]));
      assert s == [s[0]] + s[1..];
    }
    assert |SortByTime(s)| == |multiset(SortByTime(s))|;
  }

  /** In order means: entries without a timestamp first, then by time. */
  lemma SortedMeans(s: seq<Snap>)
    ensures Sorted(s) <==> forall i, j :: 0 <= i < j < |s| ==>
      (s[j].ts == None ==> s[i].ts == None)
      && (s[i].ts.Some? && s[j].ts.Some? ==> s[i].ts.value <= s[j].ts.value)
  {
  }

  lemma SortMembers(s: seq<Snap>, x: Snap)
    ensures x in SortByTime(s) <==> x in s
  {
    SortSorts(s);
    assert x in SortByTime(s) <==> x in multiset(SortByTime(s));
    assert x in s <==> x in multiset(s);
  }

  function WithTime(s: seq<Snap>, ts: Option<int>): seq<Snap> {
    if s == [] then [] else (if s[0].ts == ts then [s[0]] else []) + WithTime(s[1..], ts)
  }

  lemma {:induction false} InsertStable(x: Snap, s: seq<Snap>, ts: Option<int>)
    ensures WithTime(Insert(x, s), ts) == (if x.ts == ts then [x] else []) + WithTime(s, ts)
  {
    if s != [] && !NotLater(x, s[0]) {
      InsertStable(x, s[1..], ts);
      assert Insert(x, s)[1..] == Insert(x, s[1..]);
    } else {
      assert ([x] + s)[1..] == s;
    }
  }

  /** Entries with equal timestamps keep their input order. */
  lemma {:induction false} SortStable(s: seq<Snap>, ts: Option<int>)
    ensures WithTime(SortByTime(s), ts) == WithTime(s, ts)
  {
    if s != [] {
      SortStable(s[1..], ts);
      InsertStable(s[0], SortByTime(s[1..]), ts);
    }
  }

  lemma {:induction false} SortSorted(s: seq<Snap>)
    requires Sorted(s)
    ensures SortByTime(s) == s
  {
    if s != [] {
      SortSorted(s[1..]);
      assert |s| > 1 ==> NotLater(s[0], s[1]);
      assert s == [s[0]] + s[1..];
    }
  }

  ghost predicate DistinctTimes(s: seq<Snap>) {
    forall i, j :: 0 <= i < j < |s| ==> s[i].ts != s[j].ts
  }

  lemma SameHead(a: seq<Snap>, b: seq<Snap>)
    requires Sorted(a) && Sorted(b) && multiset(a) == multiset(b) && DistinctTimes(a) && a != []
    ensures b != [] && a[0] == b[0]
  {
    assert a[0] in multiset(b);
    assert b[0] in multiset(a);
    var j :| 0 <= j < |a| && a[j] == b[0];
    var i :| 0 <= i < |b| && b[i] == a[0];
    assert i != 0 ==> NotLater(b[0], b[i]);
  }

  lemma TailMultiset(s: seq<Snap>)
    requires s != []
    ensures multiset(s[1..]) == multiset(s) - multiset{s[0]}
  {
    assert s == [s[0]] + s[1..];
  }

  /** With distinct timestamps there is only one chronological order. */
  lemma {:induction false} SortUnique(a: seq<Snap>, b: seq<Snap>)
    requires Sorted(a) && Sorted(b) && multiset(a) == multiset(b) && DistinctTimes(a)
    ensures a == b
  {
    if a == [] {
      assert |multiset(b)| == 0;
    } else {
      SameHead(a, b);
      TailMultiset(a);
      TailMultiset(b);
      SortUnique(a[1..], b[1..]);
    }
  }

  // ----- the listing operations

  function Chronological(names: seq<string>): seq<string> {
    Names(SortByTime(Entries(names)))
  }

  lemma ChronologicalPermutes(names: seq<string>)
    ensures multiset(Chronological(names)) == multiset(names) && |Chronological(names)| == |names|
  {
    SortSorts(Entries(names));
    MapPermutes(NameOf, SortByTime(Entries(names)), Entries(names));
    NamesOfEntries(names);
  }

  method CopyInto(source: seq<string>, names: array<string>)
    requires |source| == names.Length
    modifies names
    ensures names[..] == source
  {
    for i := 0 to names.Length
      invariant names[..i] == source[..i]
    {
      names[i] := source[i];
    }
  }

  /** b is a, sorted by time, with entries of equal timestamps in their old order. */
  ghost predicate StablySorted(a: seq<string>, b: seq<string>) {
    && multiset(b) == multiset(a) && Sorted(Entries(b))
    && forall ts :: WithTime(Entries(b), ts) == WithTime(Entries(a), ts)
  }

  lemma ChronologicalIsStable(names: seq<string>)
    ensures StablySorted(names, Chronological(names))
  {
    ChronologicalPermutes(names);
    EntriesOfNames(names);
    SortSorts(Entries(names));
    forall ts ensures WithTime(SortByTime(Entries(names)), ts) == WithTime(Entries(names), ts) {
      SortStable(Entries(names), ts);
    }
  }

  /** Sorting entries and reading the names again gives the sorted entries. */
  lemma EntriesOfNames(names: seq<string>)
    ensures Entries(Chronological(names)) == SortByTime(Entries(names))
  {
    var s := SortByTime(Entries(names));
    forall i | 0 <= i < |s| ensures Entry(s[i].name) == s[i] {
      SortMembers(Entries(names), s[i]);
      var j :| 0 <= j < |names| && Entries(names)[j] == s[i];
    }
  }

  lemma {:induction false} WithTimeMembers(s: seq<Snap>, ts: Option<int>)
    ensures forall x :: x in WithTime(s, ts) <==> x in s && x.ts == ts
  {
    if s != [] {
      WithTimeMembers(s[1..], ts);
    }
  }

  /** Two sorted listings that agree on every timestamp are the same. */
  lemma {:induction false} StableUnique(a: seq<Snap>, b: seq<Snap>)
    requires Sorted(a) && Sorted(b) && forall ts :: WithTime(a, ts) == WithTime(b, ts)
    ensures a == b
  {
    if a == [] {
      assert b != [] ==> WithTime(b, b[0].ts) != WithTime(a, b[0].ts);
    } else {
      SameFirst(a, b);
      forall ts ensures WithTime(a[1..], ts) == WithTime(b[1..], ts) {
        SameRest(a, b, ts);
      }
      StableUnique(a[1..], b[1..]);
    }
  }

  lemma SameRest(a: seq<Snap>, b: seq<Snap>, ts: Option<int>)
    requires a != [] && b != [] && a[0] == b[0] && WithTime(a, ts) == WithTime(b, ts)
    ensures WithTime(a[1..], ts) == WithTime(b[1..], ts)
  {
    if a[0].ts == ts {
      assert WithTime(a, ts)[1..] == WithTime(a[1..], ts);
      assert WithTime(b, ts)[1..] == WithTime(b[1..], ts);
    } else {
      assert WithTime(a, ts) == WithTime(a[1..], ts);
      assert WithTime(b, ts) == WithTime(b[1..], ts);
    }
  }

  /** What occurs in one of two listings that agree on every timestamp occurs in the other. */
  lemma OccursToo(a: seq<Snap>, b: seq<Snap>, x: Snap)
    requires x in a && WithTime(a, x.ts) == WithTime(b, x.ts)
    ensures x in b
  {
    WithTimeMembers(a, x.ts);
    WithTimeMembers(b, x.ts);
    assert x in WithTime(a, x.ts);
  }

  lemma FirstIsNotLater(a: seq<Snap>, x: Snap)
    requires Sorted(a) && x in a
    ensures NotLater(a[0], x)
  {
    var j :| 0 <= j < |a| && a[j] == x;
  }

  lemma FirstOfItsTime(a: seq<Snap>)
    requires a != []
    ensures WithTime(a, a[0].ts) != [] && WithTime(a, a[0].ts)[0] == a[0]
  {
  }

  lemma SameFirst(a: seq<Snap>, b: seq<Snap>)
    requires Sorted(a) && Sorted(b) && a != [] && forall ts :: WithTime(a, ts) == WithTime(b, ts)
    ensures b != [] && a[0] == b[0]
  {
    OccursToo(a, b, a[0]);
    OccursToo(b, a, b[0]);
    FirstIsNotLater(a, b[0]);
    FirstIsNotLater(b, a[0]);
    FirstOfItsTime(a);
    FirstOfItsTime(b);
  }

  /** A stable sort by time has only one result. */
  lemma StablySortedIs(a: seq<string>, b: seq<string>)
    ensures StablySorted(a, b) <==> b == Chronological(a)
  {
    ChronologicalIsStable(a);
    if StablySorted(a, b) {
      StableUnique(Entries(b), Entries(Chronological(a)));
      NamesOfEntries(b);
      NamesOfEntries(Chronological(a));
    }
  }

  /** Sort a slice of names by time: the same names, oldest first, ties in their old order. */
  method SortChronological(names: array<string>)
    modifies names
    ensures StablySorted(old(names[..]), names[..])
  {
    ChronologicalPermutes(names[..]);
    ChronologicalIsStable(names[..]);
    CopyInto(Chronological(names[..]), names);
  }

  function FilterZrb(names: seq<string>): (r: seq<string>)
    ensures forall x :: x in r <==> x in names && Naming.IsZrb(x)
  {
    if names == [] then []
    else (if Naming.IsZrb(names[0]) then [names[0]] else []) + FilterZrb(names[1..])
  }

  /** What `zrb list` shows of the raw snapshots of a dataset. */
  function List(raw: seq<string>): seq<string> {
    Chronological(FilterZrb(raw))
  }

  lemma ListMembers(raw: seq<string>, x: string)
    ensures x in List(raw) <==> x in raw && Naming.IsZrb(x)
  {
    var managed := FilterZrb(raw);
    ChronologicalPermutes(managed);
    assert x in List(raw) <==> x in multiset(List(raw));
    assert x in managed <==> x in multiset(managed);
  }

  lemma TimesOfFirst(x: string, rest: seq<string>, ts: Option<int>)
    ensures WithTime(Entries([x] + rest), ts)
         == (if Naming.Parse(x) == ts then [Entry(x)] else []) + WithTime(Entries(rest), ts)
  {
    assert Entries([x] + rest)[1..] == Entries(rest);
  }

  /** Filtering loses nothing that has a timestamp, and keeps the order. */
  lemma {:induction false} FilterKeepsTimes(raw: seq<string>, t: int)
    ensures WithTime(Entries(FilterZrb(raw)), Some(t)) == WithTime(Entries(raw), Some(t))
  {
    if raw != [] {
      FilterKeepsTimes(raw[1..], t);
      TimesOfFirst(raw[0], FilterZrb(raw[1..]), Some(t));
      TimesOfFirst(raw[0], raw[1..], Some(t));
      assert raw == [raw[0]] + raw[1..];
      assert [] + FilterZrb(raw[1..]) == FilterZrb(raw[1..]);
    }
  }

  /** The listing is in time order, and at each instant it shows exactly the raw snapshots of that instant. */
  lemma ListTimes(raw: seq<string>, t: int)
    ensures Sorted(Entries(List(raw)))
    ensures WithTime(Entries(List(raw)), Some(t)) == WithTime(Entries(raw), Some(t))
  {
    ChronologicalIsStable(FilterZrb(raw));
    FilterKeepsTimes(raw, t);
  }

  /** The position of the last entry of an instant. */
  lemma {:induction false} LastOfTime(s: seq<Snap>, ts: Option<int>) returns (k: nat)
    requires WithTime(s, ts) != []
    ensures k < |s| && s[k].ts == ts && forall j :: k < j < |s| ==> s[j].ts != ts
    ensures WithTime(s, ts)[|WithTime(s, ts)| - 1] == s[k]
  {
    WithTimeMembers(s[1..], ts);
    if WithTime(s[1..], ts) == [] {
      k := 0;
      forall j | 0 < j < |s| ensures s[j].ts != ts {
        assert s[1..][j - 1] == s[j];
      }
    } else {
      var i := LastOfTime(s[1..], ts);
      k := i + 1;
      forall j | k < j < |s| ensures s[j].ts != ts {
        assert s[1..][j - 1] == s[j];
      }
    }
  }

  /** raw[k] is managed, no managed snapshot is later, and none of the same instant stands after it. */
  ghost predicate LatestAt(raw: seq<string>, k: int) {
    && 0 <= k < |raw| && Naming.IsZrb(raw[k])
    && forall j :: 0 <= j < |raw| && Naming.IsZrb(raw[j]) ==>
         Naming.Parse(raw[j]).value <= Naming.Parse(raw[k]).value
         && (j > k ==> Naming.Parse(raw[j]).value < Naming.Parse(raw[k]).value)
  }

  /** The same of entries. */
  ghost predicate LatestIn(e: seq<Snap>, k: int) {
    && 0 <= k < |e| && e[k].ts.Some?
    && forall j :: 0 <= j < |e| && e[j].ts.Some? ==>
         e[j].ts.value <= e[k].ts.value && (j > k ==> e[j].ts.value < e[k].ts.value)
  }

  lemma LatestEntry(raw: seq<string>, k: int)
    ensures LatestAt(raw, k) <==> LatestIn(Entries(raw), k)
  {
  }

  lemma LastOfSorted(l: seq<Snap>, y: Snap)
    requires Sorted(l) && y in l
    ensures NotLater(y, l[|l| - 1])
  {
    var i :| 0 <= i < |l| && l[i] == y;
  }

  /** The last of the sorted entries, among the unsorted ones. */
  lemma LastAmong(e: seq<Snap>, l: seq<Snap>) returns (k: nat)
    requires Sorted(l) && l != [] && l[|l| - 1].ts.Some? && forall y :: y in e && y.ts.Some? ==> y in l
    requires WithTime(l, l[|l| - 1].ts) == WithTime(e, l[|l| - 1].ts)
    ensures LatestIn(e, k) && e[k] == l[|l| - 1]
  {
    var last := l[|l| - 1];
    EndOfItsTime(l);
    k := LastOfTime(e, last.ts);
    forall j | 0 <= j < |e| && e[j].ts.Some? ensures NotLater(e[j], last) {
      LastOfSorted(l, e[j]);
    }
  }

  lemma EntriesListed(raw: seq<string>, y: Snap)
    requires y in Entries(raw) && y.ts.Some?
    ensures y in Entries(List(raw))
  {
    var i :| 0 <= i < |raw| && Entries(raw)[i] == y;
    ListMembers(raw, raw[i]);
    var j :| 0 <= j < |List(raw)| && List(raw)[j] == raw[i];
    assert Entries(List(raw))[j] == y;
  }

  /** The last of the listing is the latest managed snapshot. */
  lemma LastListed(raw: seq<string>) returns (k: nat)
    requires List(raw) != []
    ensures LatestAt(raw, k) && List(raw)[|List(raw)| - 1] == raw[k]
  {
    var e, l := Entries(raw), Entries(List(raw));
    var last := l[|l| - 1];
    ListMembers(raw, last.name);
    ListTimes(raw, last.ts.value);
    forall y | y in e && y.ts.Some? ensures y in l {
      EntriesListed(raw, y);
    }
    k := LastAmong(e, l);
    LatestEntry(raw, k);
  }

  lemma {:induction false} EndOfItsTime(s: seq<Snap>)
    requires s != []
    ensures var last := s[|s| - 1]; var w := WithTime(s, last.ts); w != [] && w[|w| - 1] == last
  {
    if |s| > 1 {
      EndOfItsTime(s[1..]);
    }
  }
}
