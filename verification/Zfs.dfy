/** What zrb relies on from one ZFS dataset. Every command may fail for reasons of its own and then
    changes nothing; `faults` counts such failures. */
module Zfs {
  import opened Wrappers
  import Naming

  /** A hold: snapshot name and tag. */
  type Hold = (string, string)

  datatype ZfsError = CommandFailed

  /** The snapshots that carry a tag; snapshots may be known by name or by time. */
  function Carriers<S(!new)>(holds: set<(S, string)>, tag: string): set<S> {
    set h | h in holds && h.1 == tag :: h.0
  }

  predicate Held(holds: set<Hold>, snap: string) {
    exists h :: h in holds && h.0 == snap
  }

  /** The guard of `destroy_snapshot`: exactly one `@`, followed by `zrb-`. */
  predicate DestroyGuard(name: string) {
    match Naming.SplitOnce(name, '@')
    case None => false
    case Some((_, snap)) => Naming.PREFIX <= snap && '@' !in snap
  }

  /** The guard, in terms of the text. */
  lemma GuardIs(name: string)
    ensures DestroyGuard(name)
       <==> exists dataset, rest :: '@' !in dataset && '@' !in rest && name == dataset + ['@'] + ("zrb-" + rest)
  {
    if DestroyGuard(name) {
      var (dataset, snap) := Naming.SplitOnce(name, '@').value;
      assert snap == "zrb-" + snap[4..];
      assert '@' !in snap[4..];
    }
    forall dataset, rest | '@' !in dataset && '@' !in rest && name == dataset + ['@'] + ("zrb-" + rest)
      ensures DestroyGuard(name)
    {
      Naming.SplitAtFirst(dataset, '@', "zrb-" + rest);
      assert '@' !in "zrb-" + rest;
    }
  }

  class Dataset {
    var snapshots: set<string>
    var holds: set<Hold>
    var token: Option<string>
    var since: Option<int>
    ghost var faults: nat

    ghost predicate Valid()
      reads this
    {
      forall h :: h in holds ==> h.0 in snapshots
    }

    /** A command that cannot be run. */
    method Fault() returns (fails: bool)
      modifies this`faults
      ensures fails <==> faults > old(faults)
      ensures !fails ==> faults == old(faults)
    {
      fails := *;
      if fails {
        faults := faults + 1;
      }
    }

    /** Fails, by ZFS's own rules, on a missing snapshot and on a tag that is already there. */
    method HoldSnapshot(snap: string, tag: string) returns (ok: bool)
      requires Valid()
      modifies this`holds, this`faults
      ensures Valid() && faults >= old(faults)
      ensures ok ==> snap in snapshots && (snap, tag) !in old(holds) && holds == old(holds) + {(snap, tag)}
      ensures !ok ==> holds == old(holds) && (faults == old(faults) ==> snap !in snapshots || (snap, tag) in old(holds))
    {
      var fails := Fault();
      ok := !fails && snap in snapshots && (snap, tag) !in holds;
      if ok {
        holds := holds + {(snap, tag)};
      }
    }

    /** Succeeds, too, when the tag is not there. */
    method ReleaseHold(snap: string, tag: string) returns (ok: bool)
      requires Valid()
      modifies this`holds, this`faults
      ensures Valid() && faults >= old(faults)
      ensures ok ==> holds == old(holds) - {(snap, tag)}
      ensures !ok ==> holds == old(holds) && faults > old(faults)
    {
      var fails := Fault();
      ok := !fails;
      if ok {
        holds := holds - {(snap, tag)};
      }
    }

    /** `zfs list`: all snapshot names, in no particular order. */
    method ListSnapshots() returns (r: Result<seq<string>, ZfsError>)
      modifies this`faults
      ensures faults >= old(faults) && (r.Err? ==> faults > old(faults)) && (r.Ok? ==> faults == old(faults))
      ensures r.Ok? ==> Enumerates(r.value, snapshots)
    {
      var fails := Fault();
      if fails {
        return Err(CommandFailed);
      }
      var names := Enumerate(snapshots);
      return Ok(names);
    }

    /** `zfs holds`: one row for each hold on the named snapshots. */
    method HoldRows(names: seq<string>) returns (r: Result<seq<Hold>, ZfsError>)
      modifies this`faults
      ensures faults >= old(faults) && (r.Err? ==> faults > old(faults)) && (r.Ok? ==> faults == old(faults))
      ensures r.Ok? ==> Enumerates(r.value, set h | h in holds && h.0 in names)
    {
      var fails := Fault();
      if fails {
        return Err(CommandFailed);
      }
      var rows := Enumerate(set h | h in holds && h.0 in names);
      return Ok(rows);
    }

    /** Fails on a held snapshot and on a missing one. */
    method DestroySnapshot(snap: string) returns (ok: bool)
      requires Valid() && DestroyGuard(snap)
      modifies this`snapshots, this`faults
      ensures Valid() && faults >= old(faults)
      ensures ok ==> snap in old(snapshots) && !Held(holds, snap) && snapshots == old(snapshots) - {snap}
      ensures !ok ==> snapshots == old(snapshots) && (faults == old(faults) ==> snap !in snapshots || Held(holds, snap))
    {
      var fails := Fault();
      ok := !fails && snap in snapshots && !(exists h :: h in holds && h.0 == snap);
      if ok {
        snapshots := snapshots - {snap};
      }
    }

    /** `zfs receive -A` */
    method AbortResume() returns (ok: bool)
      modifies this`token, this`faults
      ensures faults >= old(faults) && (ok ==> token == None)
      ensures !ok ==> token == old(token) && faults > old(faults)
    {
      var fails := Fault();
      ok := !fails;
      if ok {
        token := None;
      }
    }

    method SetSince(value: Option<int>) returns (ok: bool)
      modifies this`since, this`faults
      ensures faults >= old(faults) && (ok ==> since == value)
      ensures !ok ==> since == old(since) && faults > old(faults)
    {
      var fails := Fault();
      ok := !fails;
      if ok {
        since := value;
      }
    }

    method GetToken() returns (r: Result<Option<string>, ZfsError>)
      modifies this`faults
      ensures faults >= old(faults) && (r.Err? ==> faults > old(faults))
      ensures (r.Ok? ==> r.value == token && faults == old(faults))
    {
      var fails := Fault();
      return if fails then Err(CommandFailed) else Ok(token);
    }

    method GetSince() returns (r: Result<Option<int>, ZfsError>)
      modifies this`faults
      ensures faults >= old(faults) && (r.Err? ==> faults > old(faults))
      ensures (r.Ok? ==> r.value == since && faults == old(faults))
    {
      var fails := Fault();
      return if fails then Err(CommandFailed) else Ok(since);
    }
  }

  /** s lists the elements of a, each once. */
  ghost predicate Enumerates<T(!new)>(s: seq<T>, a: set<T>) {
    && (forall x :: x in s <==> x in a)
    && (forall i, j :: 0 <= i < j < |s| ==> s[i] != s[j])
  }

  method Enumerate<T(==, !new)>(a: set<T>) returns (s: seq<T>)
    ensures Enumerates(s, a)
  {
    s := [];
    var todo := a;
    while todo != {}
      invariant todo <= a && Enumerates(s, a - todo)
      decreases todo
    {
      var x :| x in todo;
      s := s + [x];
      todo := todo - {x};
    }
  }
}
