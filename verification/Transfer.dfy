/** The client's choice of transfer, from the handshake alone. */
module Transfer {
  import opened Wrappers
  import Naming
  import Calendar

  datatype Decision =
    | AlreadyUpToDate
    | FullSend
    | ResumeSend(token: string)
    | IncrementalSend(base: string)

  /** The part of a name after its first `@`. */
  function Suffix(name: string): Option<string> {
    match Naming.SplitOnce(name, '@')
    case None => None
    case Some((_, n)) => Some(n)
  }

  function FindSuffix(names: seq<string>, suffix: string): Option<string> {
    if names == [] then None
    else if Suffix(names[0]) == Some(suffix) then Some(names[0])
    else FindSuffix(names[1..], suffix)
  }

  /** Err carries the Remote's head that is missing locally: the histories have diverged. */
  function DecideTransfer(head: Option<string>, resumeToken: Option<string>, localSnaps: seq<string>, latest: string)
    : Result<Decision, string>
  {
    var latestSuffix := match Suffix(latest) { case Some(n) => n case None => latest };
    if head.Some? && Suffix(head.value) == Some(latestSuffix) then Ok(AlreadyUpToDate)
    else if resumeToken.Some? then Ok(ResumeSend(resumeToken.value))
    else if head.None? then Ok(FullSend)
    else
      var headName := match Suffix(head.value) { case Some(n) => n case None => "" };
      match FindSuffix(localSnaps, headName)
      case Some(base) => Ok(IncrementalSend(base))
      case None => Err(headName)
  }

  // ----- on the names zrb itself gives

  /** Datasets and instants whose names are managed names. */
  predicate Nameable(dataset: string, t: int) {
    '@' !in dataset && Naming.PrintableYear(t)
  }

  lemma SuffixAfterAt(dataset: string, snap: string)
    requires '@' !in dataset
    ensures Suffix(dataset + ("@" + snap)) == Some(snap)
  {
    Naming.SplitAtFirst(dataset, '@', snap);
    assert dataset + ("@" + snap) == dataset + ['@'] + snap;
  }

  lemma SuffixOf(dataset: string, t: int)
    requires '@' !in dataset
    ensures Suffix(Naming.NewName(dataset, t)) == Some(Naming.PREFIX + Naming.Stamp(t))
  {
    SuffixAfterAt(dataset, Naming.PREFIX + Naming.Stamp(t));
  }

  /** Snapshots of different datasets have the same suffix exactly when they are of the same instant. */
  lemma SuffixIsTime(d: string, t: int, e: string, u: int)
    requires Nameable(d, t) && Nameable(e, u)
    ensures Suffix(Naming.NewName(d, t)) == Suffix(Naming.NewName(e, u)) <==> t == u
  {
    SuffixOf(d, t);
    SuffixOf(e, u);
    if Suffix(Naming.NewName(d, t)) == Suffix(Naming.NewName(e, u)) {
      assert (Naming.PREFIX + Naming.Stamp(t))[|Naming.PREFIX|..] == Naming.Stamp(t);
      assert (Naming.PREFIX + Naming.Stamp(u))[|Naming.PREFIX|..] == Naming.Stamp(u);
      Naming.ParsePrintable(t);
      Naming.ParsePrintable(u);
    }
  }

  /** The names of the instants, in order. */
  function NamesAt(dataset: string, times: seq<int>): seq<string> {
    if times == [] then [] else [Naming.NewName(dataset, times[0])] + NamesAt(dataset, times[1..])
  }

  ghost predicate AllNameable(dataset: string, times: seq<int>) {
    forall t :: t in times ==> Nameable(dataset, t)
  }

  lemma {:induction false} FindTime(local: string, times: seq<int>, remote: string, h: int)
    requires AllNameable(local, times) && Nameable(remote, h)
    ensures FindSuffix(NamesAt(local, times), Naming.PREFIX + Naming.Stamp(h))
         == if h in times then Some(Naming.NewName(local, h)) else None
  {
    if times != [] {
      SuffixOf(remote, h);
      SuffixIsTime(local, times[0], remote, h);
      assert NamesAt(local, times)[1..] == NamesAt(local, times[1..]);
      FindTime(local, times[1..], remote, h);
    }
  }

  function NameAt(dataset: string, t: Option<int>): Option<string> {
    match t
    case None => None
    case Some(u) => Some(Naming.NewName(dataset, u))
  }

  /** On managed names the decision depends only on the instants: up to date iff the head is the latest,
      else the token if there is one, else full iff there is no head, else incremental from the head iff
      the Source still has it; only then, never earlier, divergence. */
  lemma DecideOnTimes(local: string, times: seq<int>, latest: int, remote: string, head: Option<int>,
                      token: Option<string>)
    requires AllNameable(local, times) && Nameable(local, latest) && (head.Some? ==> Nameable(remote, head.value))
    ensures DecideTransfer(NameAt(remote, head), token, NamesAt(local, times), Naming.NewName(local, latest))
         == if head == Some(latest) then Ok(AlreadyUpToDate)
            else if token.Some? then Ok(ResumeSend(token.value))
            else if head.None? then Ok(FullSend)
            else if head.value in times then Ok(IncrementalSend(Naming.NewName(local, head.value)))
            else Err(Naming.PREFIX + Naming.Stamp(head.value))
  {
    SuffixOf(local, latest);
    if head.Some? {
      SuffixIsTime(remote, head.value, local, latest);
      SuffixOf(remote, head.value);
      FindTime(local, times, remote, head.value);
    }
  }

  // ----- on any names

  /** What the name says after its first `@`. */
  ghost predicate SnapPart(name: string, n: string) {
    exists dataset :: '@' !in dataset && name == dataset + ['@'] + n
  }

  lemma SuffixIs(name: string, n: string)
    ensures Suffix(name) == Some(n) <==> SnapPart(name, n)
    ensures Suffix(name) == None <==> '@' !in name
  {
    if SnapPart(name, n) {
      var dataset :| '@' !in dataset && name == dataset + ['@'] + n;
      Naming.SplitAtFirst(dataset, '@', n);
    }
  }

  lemma {:induction false} FindSuffixIs(names: seq<string>, suffix: string) returns (k: nat)
    ensures k <= |names| && forall i :: 0 <= i < k ==> !SnapPart(names[i], suffix)
    ensures k < |names| ==> SnapPart(names[k], suffix)
    ensures FindSuffix(names, suffix) == if k < |names| then Some(names[k]) else None
  {
    k := 0;
    if names != [] {
      SuffixIs(names[0], suffix);
      if !SnapPart(names[0], suffix) {
        var rest := FindSuffixIs(names[1..], suffix);
        k := rest + 1;
      }
    }
  }

  /** Nothing is sent exactly when the head's part is that of the latest snapshot; a latest name without an
      `@` is all part. */
  lemma UpToDateIff(head: Option<string>, token: Option<string>, localSnaps: seq<string>, latest: string)
    ensures DecideTransfer(head, token, localSnaps, latest) == Ok(AlreadyUpToDate)
       <==> exists n :: head.Some? && SnapPart(head.value, n)
                        && (SnapPart(latest, n) || ('@' !in latest && n == latest))
  {
    forall n: string
      ensures Suffix(latest) == Some(n) <==> SnapPart(latest, n)
      ensures head.Some? ==> (Suffix(head.value) == Some(n) <==> SnapPart(head.value, n))
    {
      SuffixIs(latest, n);
      if head.Some? {
        SuffixIs(head.value, n);
      }
    }
    SuffixIs(latest, latest);
  }

  /** Otherwise the token decides; without a token or a head everything is sent. */
  lemma TokenFirst(head: Option<string>, token: Option<string>, localSnaps: seq<string>, latest: string)
    requires DecideTransfer(head, token, localSnaps, latest) != Ok(AlreadyUpToDate)
    ensures token.Some? ==> DecideTransfer(head, token, localSnaps, latest) == Ok(ResumeSend(token.value))
    ensures token == None && head == None ==> DecideTransfer(head, token, localSnaps, latest) == Ok(FullSend)
  {
  }

  /** And otherwise the base is the first local snapshot with the head's part; if there is none, the error
      names the part. */
  lemma BaseIs(head: string, n: string, localSnaps: seq<string>, latest: string) returns (k: nat)
    requires DecideTransfer(Some(head), None, localSnaps, latest) != Ok(AlreadyUpToDate)
    requires SnapPart(head, n) || ('@' !in head && n == "")
    ensures k <= |localSnaps| && forall i :: 0 <= i < k ==> !SnapPart(localSnaps[i], n)
    ensures k < |localSnaps| ==> SnapPart(localSnaps[k], n)
    ensures DecideTransfer(Some(head), None, localSnaps, latest)
         == if k < |localSnaps| then Ok(IncrementalSend(localSnaps[k])) else Err(n)
  {
    SuffixIs(head, n);
    k := FindSuffixIs(localSnaps, n);
  }
}
