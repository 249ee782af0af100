/** Checkpoint snapshots on disk: one directory per checkpoint id, one file per
    operator, and a marker that commits the checkpoint. */
module SnapshotStore {
  import opened Streams

  datatype Snapshot = Snapshot(files: map<string, Bytes>, complete: bool)

  /** The base directory: the `cp-<id>` entries it holds. */
  type Directory = map<nat, Snapshot>

  /** How the file system answers a write: it works, the directory cannot be made,
      or the write breaks off leaving some bytes behind. */
  datatype Disk = Works | NoDirectory | Torn(partial: Bytes)

  function Committed(dirs: Directory): set<nat> { set id | id in dirs && dirs[id].complete }

  function At(dirs: Directory, id: nat): Snapshot
  {
    if id in dirs then dirs[id] else Snapshot(map[], false)
  }

  function Lookup(files: map<string, Bytes>, name: string): Option<Bytes>
  {
    if name in files then Some(files[name]) else None
  }

  /** What is on disk for an operator of a checkpoint. */
  function Stored(dirs: Directory, id: nat, name: string): Option<Bytes> { Lookup(At(dirs, id).files, name) }

  function Saved(dirs: Directory, id: nat, name: string, data: Bytes, disk: Disk): Directory
  {
    match disk
    case Works => dirs[id := At(dirs, id).(files := At(dirs, id).files[name := data])]
    case NoDirectory => dirs
    case Torn(partial) => dirs[id := At(dirs, id).(files := At(dirs, id).files[name := partial])]
  }

  /** Writing the marker fails when the checkpoint's directory was never made. */
  function Marked(dirs: Directory, id: nat, works: bool): Directory
  {
    if id in dirs && works then dirs[id := dirs[id].(complete := true)] else dirs
  }

  /** The committed checkpoints newer than id. */
  function Newer(dirs: Directory, id: nat): set<nat> { set j | j in Committed(dirs) && id < j }

  /** The committed checkpoints that `keep` newer ones make redundant. */
  function Redundant(dirs: Directory, keep: nat): set<nat>
  {
    set id | id in Committed(dirs) && |Newer(dirs, id)| >= keep
  }

  /** What a removal that breaks off leaves of a checkpoint: some files, perhaps the marker. */
  datatype Remnant = Remnant(files: set<string>, marker: bool)

  function Broken(s: Snapshot, r: Remnant): Snapshot
  {
    Snapshot(map n | n in s.files && n in r.files :: s.files[n], s.complete && r.marker)
  }

  /** Removing the `gone`, where `failed` tells what is left of those that fail. */
  function Removed(dirs: Directory, gone: set<nat>, failed: map<nat, Remnant>): Directory
  {
    map id | id in dirs && (id !in gone || id in failed) ::
      if id in gone then Broken(dirs[id], failed[id]) else dirs[id]
  }

  lemma {:induction false} RemovedOneMore(dirs: Directory, gone: set<nat>, failed: map<nat, Remnant>, id: nat)
    requires id in dirs && id !in gone
    ensures var so := Removed(dirs, gone, failed);
            && id in so && so[id] == dirs[id]
            && Removed(dirs, gone + {id}, failed)
                == if id in failed then so[id := Broken(so[id], failed[id])] else so - {id}
  {
  }

  /** The committed checkpoints that cleanup is to keep. */
  function Retained(dirs: Directory, keep: nat): set<nat> { Committed(dirs) - Redundant(dirs, keep) }

  function Cleaned(dirs: Directory, keep: nat, failed: map<nat, Remnant>): Directory
  {
    Removed(dirs, Redundant(dirs, keep), failed)
  }

  ghost predicate IsLatest(dirs: Directory, r: Option<nat>)
  {
    match r
    case None => Committed(dirs) == {}
    case Some(id) => id in Committed(dirs) && forall j :: j in Committed(dirs) ==> j <= id
  }

  // ----- sorted ids -----

  ghost predicate StrictlySorted(xs: seq<nat>) { forall i, j :: 0 <= i < j < |xs| ==> xs[i] < xs[j] }

  function InsertId(xs: seq<nat>, x: nat): seq<nat>
  {
    if xs == [] || x <= xs[0] then [x] + xs else [xs[0]] + InsertId(xs[1..], x)
  }

  /** The library's sort. */
  function SortIds(xs: seq<nat>): seq<nat>
  {
    if xs == [] then [] else InsertId(SortIds(xs[1..]), xs[0])
  }

  lemma {:induction false} InsertIdSorts(xs: seq<nat>, x: nat)
    requires StrictlySorted(xs) && x !in xs
    ensures StrictlySorted(InsertId(xs, x)) && |InsertId(xs, x)| == |xs| + 1
    ensures forall y :: y in InsertId(xs, x) <==> y == x || y in xs
  {
    if xs != [] && x > xs[0] {
      InsertIdSorts(xs[1..], x);
      var rest := InsertId(xs[1..], x);
      forall j | 0 <= j < |rest| ensures xs[0] < rest[j] {
        assert rest[j] in rest;
      }
    }
  }

  lemma {:induction false} SortIdsSorts(xs: seq<nat>)
    requires forall i, j :: 0 <= i < j < |xs| ==> xs[i] != xs[j]
    ensures StrictlySorted(SortIds(xs)) && |SortIds(xs)| == |xs|
    ensures forall y :: y in SortIds(xs) <==> y in xs
  {
    if xs != [] {
      SortIdsSorts(xs[1..]);
      InsertIdSorts(SortIds(xs[1..]), xs[0]);
    }
  }

  ghost function Members(xs: seq<nat>): set<nat> { set x | x in xs }

  lemma {:induction false} SetOfSorted(xs: seq<nat>)
    requires StrictlySorted(xs)
    ensures |Members(xs)| == |xs|
  {
    if xs != [] {
      var rest := xs[1..];
      SetOfSorted(rest);
      forall i | 0 <= i < |rest| ensures rest[i] != xs[0] {
        assert rest[i] == xs[i + 1];
      }
      assert xs[0] !in Members(rest);
      assert xs == [xs[0]] + rest;
      assert Members(xs) == Members(rest) + {xs[0]};
    }
  }

  /** In the sorted list of committed ids, the redundant ones are all but the last `keep`. */
  lemma {:induction false} RedundantIsPrefix(dirs: Directory, keep: nat, sorted: seq<nat>)
    requires StrictlySorted(sorted) && (forall id :: id in sorted <==> id in Committed(dirs))
    ensures Members(sorted[..if |sorted| > keep then |sorted| - keep else 0]) == Redundant(dirs, keep)
  {
    var cut := if |sorted| > keep then |sorted| - keep else 0;
    forall i | 0 <= i < |sorted| ensures |Newer(dirs, sorted[i])| == |sorted| - 1 - i {
      var tail := sorted[i + 1..];
      SetOfSorted(tail);
      forall j ensures j in Newer(dirs, sorted[i]) <==> j in tail {
        if j in Newer(dirs, sorted[i]) {
          var k :| 0 <= k < |sorted| && sorted[k] == j;
          assert k > i;
          assert tail[k - i - 1] == j;
        }
        if j in tail {
          var k :| 0 <= k < |tail| && tail[k] == j;
          assert sorted[i + 1 + k] == j;
        }
      }
      assert Newer(dirs, sorted[i]) == Members(tail);
    }
    forall id ensures id in sorted[..cut] <==> id in Redundant(dirs, keep) {
      if id in sorted[..cut] {
        var k :| 0 <= k < cut && sorted[..cut][k] == id;
        assert sorted[k] == id;
      }
      if id in Redundant(dirs, keep) {
        assert id in sorted;
        var k :| 0 <= k < |sorted| && sorted[k] == id;
        assert sorted[..cut][k] == id;
      }
    }
  }

  // ----- the store -----

  class Store {
    var dirs: Directory

    constructor (dirs: Directory)
      ensures this.dirs == dirs
    {
      this.dirs := dirs;
    }

    /** `load_state`; None stands for its error. */
    function LoadState(id: nat, name: string): Option<Bytes>
      reads this
    {
      Stored(dirs, id, name)
    }

    method SaveState(id: nat, name: string, data: Bytes, disk: Disk) returns (ok: bool)
      modifies this
      ensures dirs == Saved(old(dirs), id, name, data, disk)
      ensures ok <==> disk.Works?
      ensures ok ==> LoadState(id, name) == Some(data)
      ensures forall i, n :: i != id || n != name ==> LoadState(i, n) == old(LoadState(i, n))
    {
      if disk.NoDirectory? {
        return false;
      }
      if id !in dirs {
        dirs := dirs[id := Snapshot(map[], false)];
      }
      var written := if disk.Works? then data else disk.partial;
      dirs := dirs[id := dirs[id].(files := dirs[id].files[name := written])];
      ok := disk.Works?;
    }

    method Commit(id: nat, works: bool) returns (ok: bool)
      modifies this
      ensures dirs == Marked(old(dirs), id, works)
      ensures ok <==> id in old(dirs) && works
      ensures ok ==> id in Committed(dirs)
      ensures forall i, n :: LoadState(i, n) == old(LoadState(i, n))
    {
      if id !in dirs || !works {
        return false;
      }
      dirs := dirs[id := dirs[id].(complete := true)];
      ok := true;
    }

    /** The largest committed id, whatever the order of the directory listing. */
    method LatestCheckpoint() returns (best: Option<nat>)
      ensures IsLatest(dirs, best)
    {
      best := None;
      var entries := dirs.Keys;
      while entries != {}
        invariant entries <= dirs.Keys
        invariant match best
                  case None => forall j :: j in Committed(dirs) ==> j in entries
                  case Some(b) => b in Committed(dirs) && forall j :: j in Committed(dirs) && j !in entries ==> j <= b
        decreases entries
      {
        var id :| id in entries;
        entries := entries - {id};
        if dirs[id].complete {
          best := Some(if best.Some? && best.value > id then best.value else id);
        }
      }
    }

    /** Keep the `keepLast` newest committed checkpoints; uncommitted ones are left alone. */
    method Cleanup(keepLast: nat, failed: map<nat, Remnant>)
      modifies this
      ensures dirs == Cleaned(old(dirs), keepLast, failed)
      ensures forall i, n :: i !in Redundant(old(dirs), keepLast) ==> LoadState(i, n) == old(LoadState(i, n))
    {
      ghost var before := dirs;
      var committed := ListCommitted();
      committed := SortIds(committed);
      RedundantIsPrefix(dirs, keepLast, committed);
      if |committed| > keepLast {
        var toRemove := |committed| - keepLast;
        for i := 0 to toRemove
          invariant dirs == Removed(before, Members(committed[..i]), failed)
        {
          var id := committed[i];
          assert committed[..i + 1] == committed[..i] + [id];
          assert Members(committed[..i + 1]) == Members(committed[..i]) + {id};
          assert id in Committed(before) by { assert id in committed; }
          RemovedOneMore(before, Members(committed[..i]), failed, id);
          if id in failed {
            dirs := dirs[id := Broken(dirs[id], failed[id])];
          } else {
            dirs := dirs - {id};
          }
        }
      } else {
        assert dirs == Removed(before, {}, failed);
      }
    }

    method ListCommitted() returns (committed: seq<nat>)
      ensures forall id :: id in committed <==> id in Committed(dirs)
      ensures forall i, j :: 0 <= i < j < |committed| ==> committed[i] != committed[j]
      ensures StrictlySorted(SortIds(committed)) && forall id :: id in SortIds(committed) <==> id in Committed(dirs)
    {
      committed := [];
      var entries := dirs.Keys;
      while entries != {}
        invariant entries <= dirs.Keys
        invariant forall id :: id in committed <==> id in Committed(dirs) && id !in entries
        invariant forall i, j :: 0 <= i < j < |committed| ==> committed[i] != committed[j]
        decreases entries
      {
        var id :| id in entries;
        entries := entries - {id};
        if dirs[id].complete {
          committed := committed + [id];
        }
      }
      SortIdsSorts(committed);
    }
  }

  // ----- what is read back -----

  /** A state saved is the state loaded, until that operator's file is written again
      or its checkpoint is cleaned up: saves for other operators or checkpoints,
      committing and cleanup change nothing else that is read back. */
  lemma {:induction false} SavedIsLoaded(dirs: Directory, id: nat, name: string, data: Bytes)
    ensures Stored(Saved(dirs, id, name, data, Works), id, name) == Some(data)
    ensures forall part :: Stored(Saved(dirs, id, name, data, Torn(part)), id, name) == Some(part)
    ensures Stored(Saved(dirs, id, name, data, NoDirectory), id, name) == Stored(dirs, id, name)
    ensures forall id', name', data', disk :: id' != id || name' != name ==>
              Stored(Saved(dirs, id', name', data', disk), id, name) == Stored(dirs, id, name)
    ensures forall id', works :: Stored(Marked(dirs, id', works), id, name) == Stored(dirs, id, name)
    ensures forall keep, failed :: id !in Redundant(dirs, keep) ==>
              Stored(Cleaned(dirs, keep, failed), id, name) == Stored(dirs, id, name)
  {
    forall id', name', data', disk | id' != id || name' != name
      ensures Stored(Saved(dirs, id', name', data', disk), id, name) == Stored(dirs, id, name)
    {
    }
  }

  // ----- what cleanup keeps -----

  /** When every removal works, the committed checkpoints left are the newest: there
      are `keep` of them or all when there are fewer, and nothing else changes. */
  lemma {:induction false} CleanupKeepsNewest(dirs: Directory, keep: nat)
    ensures var after := Cleaned(dirs, keep, map[]);
            && Committed(after) == Committed(dirs) - Redundant(dirs, keep)
            && |Committed(after)| == (if |Committed(dirs)| < keep then |Committed(dirs)| else keep)
            && (forall id :: id in dirs && id !in Redundant(dirs, keep) ==> id in after && after[id] == dirs[id])
  {
    CountRedundant(dirs, keep);
    assert Committed(Cleaned(dirs, keep, map[])) == Committed(dirs) - Redundant(dirs, keep);
  }

  /** Whatever fails, the newest `keep` stay as they are, and nothing that was to be
      removed comes to count among them, even if it still carries the marker. */
  lemma {:induction false} FailedRemovalsStayRedundant(dirs: Directory, keep: nat, failed: map<nat, Remnant>)
    ensures Committed(Cleaned(dirs, keep, failed)) <= Committed(dirs)
    ensures Retained(Cleaned(dirs, keep, failed), keep) == Retained(dirs, keep)
    ensures forall id :: id in Retained(dirs, keep) ==> Cleaned(dirs, keep, failed)[id] == dirs[id]
  {
    var after := Cleaned(dirs, keep, failed);
    assert Committed(after) <= Committed(dirs);
    forall id | id in Committed(after) ensures id in Redundant(after, keep) <==> id in Redundant(dirs, keep) {
      SubsetSize(Newer(after, id), Newer(dirs, id));
      if id in Redundant(dirs, keep) {
        RetainedCount(dirs, keep);
        forall k | k in Retained(dirs, keep) ensures k in Newer(after, id) {
          RemovedAreOlder(dirs, keep, k, id);
        }
        SubsetSize(Retained(dirs, keep), Newer(after, id));
      }
    }
  }

  lemma {:induction false} RetainedCount(dirs: Directory, keep: nat)
    ensures Redundant(dirs, keep) != {} ==> |Retained(dirs, keep)| == keep
  {
    CountRedundant(dirs, keep);
  }

  /** A failed removal can leave a checkpoint that is marked complete and lacks states;
      it is never among the retained ones. */
  lemma {:induction false} RemnantExample(bytes: Bytes)
    ensures var whole := Snapshot(map["op" := bytes], true);
            var dirs: Directory := map[1 := whole, 2 := whole];
            var after := Cleaned(dirs, 1, map[1 := Remnant({}, true)]);
            1 in Committed(after) && Stored(after, 1, "op") == None && Retained(after, 1) == {2}
  {
    var whole := Snapshot(map["op" := bytes], true);
    var dirs: Directory := map[1 := whole, 2 := whole];
    assert Committed(dirs) == {1, 2} && Newer(dirs, 1) == {2} && Newer(dirs, 2) == {};
    FailedRemovalsStayRedundant(dirs, 1, map[1 := Remnant({}, true)]);
  }

  lemma {:induction false} RemovedAreOlder(dirs: Directory, keep: nat, kept: nat, gone: nat)
    requires kept in Committed(dirs) && kept !in Redundant(dirs, keep) && gone in Redundant(dirs, keep)
    ensures gone < kept
  {
    if kept < gone {
      SubsetSize(Newer(dirs, gone), Newer(dirs, kept));
    }
  }

  lemma {:induction false} CountRedundant(dirs: Directory, keep: nat)
    ensures Redundant(dirs, keep) <= Committed(dirs)
    ensures |Redundant(dirs, keep)| == if |Committed(dirs)| > keep then |Committed(dirs)| - keep else 0
  {
    var sorted := SortedOf(Committed(dirs));
    RedundantIsPrefix(dirs, keep, sorted);
    SetOfSorted(sorted);
    assert Committed(dirs) == Members(sorted);
    SetOfSorted(sorted[..if |sorted| > keep then |sorted| - keep else 0]);
  }

  lemma {:induction false} SortedOf(s: set<nat>) returns (sorted: seq<nat>)
    ensures StrictlySorted(sorted) && forall x :: x in sorted <==> x in s
  {
    if s == {} {
      sorted := [];
    } else {
      var x :| x in s;
      var rest := SortedOf(s - {x});
      InsertIdSorts(rest, x);
      sorted := InsertId(rest, x);
    }
  }
}
