/** Transfer Holds: finding them, moving them, and what failures can and cannot do to them. */
module Holds {
  import opened Wrappers
  import opened Zfs
  import Naming
  import Listing

  const RECEIVED := "zrb:received"

  function RemoteTag(remote: string): string {
    "zrb:" + remote
  }

  lemma TagsDiffer(r: string, q: string)
    requires r != q
    ensures RemoteTag(r) != RemoteTag(q)
  {
    assert RemoteTag(r)[4..] == r && RemoteTag(q)[4..] == q;
  }

  function SnapsOf(rows: seq<Hold>, tag: string): (r: seq<string>)
    ensures forall x :: x in r <==> (x, tag) in rows
  {
    if rows == [] then []
    else (if rows[0].1 == tag then [rows[0].0] else []) + SnapsOf(rows[1..], tag)
  }

  /** The snapshots among `names` that carry `tag`. */
  method FindHeldSnapshotsIn(ds: Dataset, names: seq<string>, tag: string) returns (r: Result<seq<string>, ZfsError>)
    modifies ds`faults
    ensures ds.faults >= old(ds.faults) && (r.Err? ==> ds.faults > old(ds.faults))
    ensures r.Ok? ==> ds.faults == old(ds.faults)
    ensures r.Ok? ==> forall x :: x in r.value <==> x in names && (x, tag) in ds.holds
  {
    if names == [] {
      return Ok([]);
    }
    var rows := ds.HoldRows(names);
    if rows.Err? {
      return Err(CommandFailed);
    }
    return Ok(SnapsOf(rows.value, tag));
  }

  method FindHeldSnapshots(ds: Dataset, tag: string) returns (r: Result<seq<string>, ZfsError>)
    requires ds.Valid()
    modifies ds`faults
    ensures ds.faults >= old(ds.faults) && (r.Err? ==> ds.faults > old(ds.faults))
    ensures r.Ok? ==> ds.faults == old(ds.faults)
    ensures r.Ok? ==> forall x :: x in r.value <==> x in Carriers(ds.holds, tag)
  {
    var names := ds.ListSnapshots();
    if names.Err? {
      return Err(CommandFailed);
    }
    r := FindHeldSnapshotsIn(ds, names.value, tag);
    if r.Ok? {
      forall x ensures x in r.value <==> x in Carriers(ds.holds, tag) {
        assert (x, tag) in ds.holds ==> (x, tag).0 in ds.snapshots;
      }
    }
  }

  function Without(names: seq<string>, name: string): (r: seq<string>)
    ensures forall x :: x in r <==> x in names && x != name
  {
    if names == [] then []
    else (if names[0] != name then [names[0]] else []) + Without(names[1..], name)
  }

  /** `tag` moved to `snap`, with the old holds in `left` still there: what a failed lookup, a failed release
      or a crash leaves. A tag that is already there, or a missing snapshot, makes the hold fail, and then
      nothing moves. */
  function Moved<S(!new)>(holds: set<(S, string)>, snapshots: set<S>, snap: S, tag: string, left: set<S>)
    : set<(S, string)>
  {
    if snap in snapshots && (snap, tag) !in holds
    then (set h | h in holds && (h.1 != tag || h.0 in left)) + {(snap, tag)}
    else holds
  }

  /** A move onto an untagged snapshot leaves exactly that one tagged, and the old ones that were left, however
      many stale holds there were; it touches no other tag. */
  lemma MovedExactly<S(!new)>(holds: set<(S, string)>, snapshots: set<S>, snap: S, tag: string, left: set<S>)
    requires snap in snapshots
    ensures (snap, tag) !in holds ==>
      Carriers(Moved(holds, snapshots, snap, tag, left), tag) == {snap} + (Carriers(holds, tag) * left)
    ensures forall other: string :: other != tag ==>
      Carriers(Moved(holds, snapshots, snap, tag, left), other) == Carriers(holds, other)
  {
    var after := Moved(holds, snapshots, snap, tag, left);
    forall other: string, x
      ensures x in Carriers(after, other) <==> (x, other) in after
      ensures x in Carriers(holds, other) <==> (x, other) in holds
    {
      assert (x, other) in after ==> x in Carriers(after, other);
      assert (x, other) in holds ==> x in Carriers(holds, other);
    }
  }

  /** What any move of `tag` keeps, whatever failed: other tags, and that some snapshot carries the tag. */
  ghost predicate MoveKeeps(before: set<Hold>, after: set<Hold>, snap: string, tag: string) {
    && (forall h: Hold :: h.1 != tag ==> (h in before <==> h in after))
    && (forall h: Hold :: h in after ==> h in before || h == (snap, tag))
    && (Carriers(before, tag) != {} ==> Carriers(after, tag) != {})
  }

  /** What a move says about itself: `placed` when the hold command succeeded, and then the new hold is there
      and the old ones in `left` stayed; otherwise nothing changed. */
  ghost predicate MoveResult(placed: bool, left: set<string>, before: set<Hold>, after: set<Hold>,
                             snapshots: set<string>, snap: string, tag: string)
  {
    if placed then
      && snap in snapshots && (snap, tag) !in before && (snap, tag) in after
      && left <= Carriers(before, tag) && after == Moved(before, snapshots, snap, tag, left)
    else after == before
  }

  /** Hold the new snapshot first, then release the old ones; any failure is only logged. */
  method MoveHold(ds: Dataset, olds: seq<string>, snap: string, tag: string)
    returns (placed: bool, ghost left: set<string>)
    requires ds.Valid() && snap !in olds
    modifies ds`holds, ds`faults
    ensures ds.Valid() && ds.faults >= old(ds.faults)
    ensures MoveResult(placed, left, old(ds.holds), ds.holds, ds.snapshots, snap, tag)
    ensures MoveKeeps(old(ds.holds), ds.holds, snap, tag)
    ensures ds.faults == old(ds.faults) ==> (placed <==> snap in ds.snapshots && (snap, tag) !in old(ds.holds))
    ensures ds.faults == old(ds.faults)
            && (forall x :: x in Carriers(old(ds.holds), tag) && x != snap ==> x in olds) ==>
      ds.holds == Moved(old(ds.holds), ds.snapshots, snap, tag, {})
  {
    ghost var before := ds.holds;
    left := {};
    placed := ds.HoldSnapshot(snap, tag);
    if !placed {
      return;
    }
    for i := 0 to |olds|
      invariant ds.Valid() && ds.faults >= old(ds.faults)
      invariant (snap, tag) in ds.holds && ds.holds <= before + {(snap, tag)}
      invariant forall h :: h in before && h.1 != tag ==> h in ds.holds
      invariant ds.faults == old(ds.faults) ==> forall j :: 0 <= j < i ==> (olds[j], tag) !in ds.holds
    {
      var released := ds.ReleaseHold(olds[i], tag);
    }
    left := Carriers(ds.holds, tag) - {snap};
    LeftBehind(before, ds.holds, ds.snapshots, snap, tag);
    if ds.faults == old(ds.faults) && (forall x :: x in Carriers(before, tag) && x != snap ==> x in olds) {
      forall x | x in Carriers(before, tag) && x != snap ensures (x, tag) !in ds.holds {
        var j :| 0 <= j < |olds| && olds[j] == x;
      }
      assert left == {};
    }
  }

  /** Whatever was released, the outcome is a move that left the remaining carriers. */
  lemma LeftBehind(before: set<Hold>, after: set<Hold>, snapshots: set<string>, snap: string, tag: string)
    requires snap in snapshots && (snap, tag) !in before && (snap, tag) in after && after <= before + {(snap, tag)}
    requires forall h :: h in before && h.1 != tag ==> h in after
    ensures var left := Carriers(after, tag) - {snap};
            left <= Carriers(before, tag) && after == Moved(before, snapshots, snap, tag, left)
    ensures MoveKeeps(before, after, snap, tag)
  {
    var left := Carriers(after, tag) - {snap};
    forall x | x in left ensures x in Carriers(before, tag) {
      assert (x, tag) in after;
    }
    forall h ensures h in after <==> h in Moved(before, snapshots, snap, tag, left) {
      if h in after && h.1 == tag && h != (snap, tag) {
        assert h == (h.0, tag) && h.0 in left;
      }
      if h in before && h.1 == tag && h.0 in left {
        assert h == (h.0, tag) && h in after;
      }
    }
    assert snap in Carriers(after, tag);
  }

  /** The Source side, after a confirmed send: move `zrb:<remote>` to the snapshot just sent. */
  method PlaceTransferHold(ds: Dataset, snapshot: string, remote: string)
    returns (placed: bool, ghost left: set<string>)
    requires ds.Valid()
    modifies ds`holds, ds`faults
    ensures ds.Valid() && ds.faults >= old(ds.faults)
    ensures MoveResult(placed, left, old(ds.holds), ds.holds, ds.snapshots, snapshot, RemoteTag(remote))
    ensures MoveKeeps(old(ds.holds), ds.holds, snapshot, RemoteTag(remote))
    ensures ds.faults == old(ds.faults) ==>
      ds.holds == Moved(old(ds.holds), ds.snapshots, snapshot, RemoteTag(remote), {})
  {
    var tag := RemoteTag(remote);
    var found := FindHeldSnapshots(ds, tag);
    var olds := Without(if found.Ok? then found.value else [], snapshot);
    placed, left := MoveHold(ds, olds, snapshot, tag);
  }

  /** The newest managed snapshot of a raw listing. */
  function Newest(raw: seq<string>): Option<string> {
    var listed := Listing.List(raw);
    if listed == [] then None else Some(listed[|listed| - 1])
  }

  lemma OnlyOneLatest(raw: seq<string>, j: int, k: int)
    requires Listing.LatestAt(raw, j) && Listing.LatestAt(raw, k)
    ensures j == k
  {
  }

  /** That is the latest of the managed snapshots, and of several of one instant the last; there is none
      exactly when nothing is managed. */
  lemma NewestIs(raw: seq<string>, x: string)
    ensures Newest(raw) == Some(x) <==> exists k :: Listing.LatestAt(raw, k) && raw[k] == x
    ensures Newest(raw) == None <==> forall y :: y in raw ==> !Naming.IsZrb(y)
  {
    if Listing.List(raw) != [] {
      var k := Listing.LastListed(raw);
      forall j | Listing.LatestAt(raw, j) ensures j == k {
        OnlyOneLatest(raw, j, k);
      }
    }
    forall y | y in raw ensures y in Listing.List(raw) <==> Naming.IsZrb(y) {
      Listing.ListMembers(raw, y);
    }
  }

  /** After a receive of a snapshot later than every managed one there was, the newest one is that snapshot. */
  lemma ReceivedIsNewest(raw: seq<string>, before: set<string>, x: string)
    requires Enumerates(raw, before + {x}) && Naming.IsZrb(x)
    requires forall y :: y in before && Naming.IsZrb(y) ==> Naming.Parse(y).value < Naming.Parse(x).value
    ensures Newest(raw) == Some(x)
  {
    NewestIs(raw, x);
    var k :| 0 <= k < |raw| && raw[k] == x;
    assert Listing.LatestAt(raw, k);
  }

  /** The Remote side, after a successful receive: move `zrb:received` to the newest managed snapshot.
      Only managed snapshots are searched for old holds. */
  method PlaceServerTransferHold(ds: Dataset) returns (placed: bool, ghost raw: seq<string>, ghost left: set<string>)
    requires ds.Valid()
    modifies ds`holds, ds`faults
    ensures ds.Valid() && ds.faults >= old(ds.faults)
    ensures placed || ds.faults == old(ds.faults) ==> Enumerates(raw, ds.snapshots)
    ensures placed ==> Newest(raw).Some?
    ensures Newest(raw).Some? ==>
      MoveResult(placed, left, old(ds.holds), ds.holds, ds.snapshots, Newest(raw).value, RECEIVED)
    ensures ds.faults == old(ds.faults) && Newest(raw).None? ==> ds.holds == old(ds.holds)
    ensures ds.holds != old(ds.holds) ==> Newest(raw).Some?
    ensures Newest(raw).Some? ==> MoveKeeps(old(ds.holds), ds.holds, Newest(raw).value, RECEIVED)
    ensures ds.faults == old(ds.faults) && Newest(raw).Some?
            && (forall x :: x in Carriers(old(ds.holds), RECEIVED) ==> Naming.IsZrb(x)) ==>
      ds.holds == Moved(old(ds.holds), ds.snapshots, Newest(raw).value, RECEIVED, {})
  {
    placed, raw, left := false, [], {};
    var names := ds.ListSnapshots();
    if names.Err? {
      assert Listing.List([]) == [];
      return;
    }
    raw := names.value;
    var snaps := Listing.List(names.value);
    if snaps == [] {
      return;
    }
    var newest := snaps[|snaps| - 1];
    var found := FindHeldSnapshotsIn(ds, snaps, RECEIVED);
    var olds := Without(if found.Ok? then found.value else [], newest);
    forall x | ds.faults == old(ds.faults) && x in Carriers(ds.holds, RECEIVED) && x != newest && Naming.IsZrb(x)
      ensures x in olds
    {
      Listing.ListMembers(raw, x);
      assert (x, RECEIVED).0 in ds.snapshots;
    }
    placed, left := MoveHold(ds, olds, newest, RECEIVED);
  }
}
