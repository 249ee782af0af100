/** The checkpoint coordinator: barriers out, acks in, snapshots committed. The
    arrival of acks, the deadline and the file system's answers are a script. */
module Coordinator {
  import opened Streams
  import opened SnapshotStore

  /** What one wait for an ack yields. */
  datatype AckEvent =
    | Ack(id: nat, name: string, bytes: Bytes, disk: Disk)
    | Deadline
    | AcksClosed

  /** One checkpoint attempt; a script that ends early is a deadline. */
  datatype Attempt = Attempt(sendersOpen: bool, events: seq<AckEvent>, markerWorks: bool)

  datatype Outcome = Success | Timeout | PipelineShutdown

  /** `finished` is None when every expected ack was counted. */
  datatype Collected = Collected(dirs: Directory, got: map<string, Bytes>, used: nat, finished: Option<Outcome>)

  /** The ack loop: `got` is what has been accepted so far, `expected` how many are awaited. */
  function Collect(id: nat, expected: nat, dirs: Directory, got: map<string, Bytes>,
                   events: seq<AckEvent>): (r: Collected)
    ensures r.used <= |events| && r.finished != Some(Success)
    decreases |events|
  {
    if |got.Keys| >= expected then Collected(dirs, got, 0, None)
    else if events == [] then Collected(dirs, got, 0, Some(Timeout))
    else
      match events[0]
      case Deadline => Collected(dirs, got, 1, Some(Timeout))
      case AcksClosed => Collected(dirs, got, 1, Some(PipelineShutdown))
      case Ack(ackId, name, bytes, disk) =>
        if ackId != id then
          var r := Collect(id, expected, dirs, got, events[1..]);
          r.(used := r.used + 1)
        else if !disk.Works? then Collected(Saved(dirs, id, name, bytes, disk), got, 1, Some(Timeout))
        else
          var r := Collect(id, expected, Saved(dirs, id, name, bytes, disk), got[name := bytes], events[1..]);
          r.(used := r.used + 1)
  }

  /** `trigger_and_collect`. */
  function Try(id: nat, expected: nat, dirs: Directory, a: Attempt): (Directory, Outcome)
  {
    if !a.sendersOpen then (dirs, PipelineShutdown)
    else
      var r := Collect(id, expected, dirs, map[], a.events);
      if r.finished.Some? then (r.dirs, r.finished.value)
      else (Marked(r.dirs, id, a.markerWorks), if id in r.dirs && a.markerWorks then Success else Timeout)
  }

  datatype Turn = Tick(attempt: Attempt, failed: map<nat, Remnant>) | Cancel(attempt: Attempt)

  datatype State = State(dirs: Directory, next: nat, running: bool)

  /** One turn of the coordinator's loop. */
  function Step(expected: nat, maxRetained: nat, s: State, t: Turn): State
  {
    if !s.running then s
    else
      var (dirs, outcome) := Try(s.next, expected, s.dirs, t.attempt);
      match t
      case Cancel(_) => State(dirs, s.next + 1, false)
      case Tick(_, failed) =>
        match outcome
        case Success => State(Cleaned(dirs, maxRetained, failed), s.next + 1, true)
        case Timeout => State(dirs, s.next + 1, true)
        case PipelineShutdown => State(dirs, s.next + 1, false)
  }

  function RunAll(expected: nat, maxRetained: nat, s: State, turns: seq<Turn>): State
  {
    if turns == [] then s
    else Step(expected, maxRetained, RunAll(expected, maxRetained, s, turns[..|turns| - 1]), turns[|turns| - 1])
  }

  /** Ids restart at 1 over an empty store. */
  const START := State(map[], 1, true)

  // ----- the coordinator -----

  class CheckpointCoordinator {
    var nextCheckpointId: nat
    const expectedOperators: seq<string>
    const store: Store
    const maxRetained: nat

    constructor (expectedOperators: seq<string>, store: Store, maxRetained: nat)
      ensures this.expectedOperators == expectedOperators && this.store == store && this.maxRetained == maxRetained
      ensures nextCheckpointId == 1
    {
      this.expectedOperators, this.store, this.maxRetained := expectedOperators, store, maxRetained;
      nextCheckpointId := 1;
    }

    method TriggerAndCollect(id: nat, a: Attempt) returns (outcome: Outcome)
      modifies store
      ensures (store.dirs, outcome) == Try(id, |expectedOperators|, old(store.dirs), a)
    {
      if !a.sendersOpen {
        return PipelineShutdown;
      }
      var received: set<string> := {};
      ghost var got: map<string, Bytes> := map[];
      var i := 0;
      while |received| < |expectedOperators|
        invariant i <= |a.events| && received == got.Keys
        invariant Resumes(Collect(id, |expectedOperators|, old(store.dirs), map[], a.events),
                          Collect(id, |expectedOperators|, store.dirs, got, a.events[i..]))
        decreases |a.events| - i
      {
        if i == |a.events| {
          return Timeout;
        }
        var event := a.events[i];
        assert a.events[i..][1..] == a.events[i + 1..];
        i := i + 1;
        match event
        case Deadline => return Timeout;
        case AcksClosed => return PipelineShutdown;
        case Ack(ackId, name, bytes, disk) =>
          if ackId == id {
            var saved := store.SaveState(id, name, bytes, disk);
            if !saved {
              return Timeout;
            }
            received := received + {name};
            got := got[name := bytes];
          }
      }
      var committed := store.Commit(id, a.markerWorks);
      outcome := if committed then Success else Timeout;
    }

    /** The coordinator's loop over a script of turns; it stops at a cancellation or a shutdown. */
    method Run(turns: seq<Turn>) returns (running: bool)
      modifies this, store
      ensures State(store.dirs, nextCheckpointId, running)
           == RunAll(|expectedOperators|, maxRetained, State(old(store.dirs), old(nextCheckpointId), true), turns)
    {
      ghost var s := State(store.dirs, nextCheckpointId, true);
      running := true;
      for i := 0 to |turns|
        invariant State(store.dirs, nextCheckpointId, running)
            == RunAll(|expectedOperators|, maxRetained, s, turns[..i])
      {
        assert turns[..i + 1][..i] == turns[..i];
        if running {
          var id := nextCheckpointId;
          nextCheckpointId := nextCheckpointId + 1;
          var outcome := TriggerAndCollect(id, turns[i].attempt);
          match turns[i]
          case Cancel(_) => running := false;
          case Tick(_, failed) =>
            match outcome
            case Success => store.Cleanup(maxRetained, failed);
            case Timeout =>
            case PipelineShutdown => running := false;
        }
      }
      assert turns[..|turns|] == turns;
    }
  }

  /** The same result apart from the count of events used. */
  predicate Resumes(whole: Collected, rest: Collected)
  {
    whole.dirs == rest.dirs && whole.got == rest.got && whole.finished == rest.finished
  }

  // ----- one attempt -----

  /** The state in the last ack of this checkpoint from this operator. */
  function LastState(events: seq<AckEvent>, id: nat, name: string): Option<Bytes>
  {
    if events == [] then None
    else
      var e := events[|events| - 1];
      if e.Ack? && e.id == id && e.name == name then Some(e.bytes) else LastState(events[..|events| - 1], id, name)
  }

  lemma {:induction false} LastStateCons(events: seq<AckEvent>, id: nat, name: string)
    requires events != []
    ensures LastState(events, id, name)
         == if LastState(events[1..], id, name).Some? then LastState(events[1..], id, name)
             else LastState([events[0]], id, name)
  {
    if |events| == 1 {
      assert events == [events[0]] && events[1..] == [];
    } else {
      var front := events[..|events| - 1];
      LastStateCons(front, id, name);
      assert front[1..] == events[1..][..|events[1..]| - 1];
      assert events[1..][|events[1..]| - 1] == events[|events| - 1];
    }
  }

  lemma {:induction false} LastStateSlice(events: seq<AckEvent>, k: nat, id: nat, name: string)
    requires k < |events|
    ensures LastState(events[..k + 1], id, name)
         == if LastState(events[1..][..k], id, name).Some? then LastState(events[1..][..k], id, name)
            else if events[0].Ack? && events[0].id == id && events[0].name == name then Some(events[0].bytes)
            else None
  {
    var prefix := events[..k + 1];
    LastStateCons(prefix, id, name);
    assert prefix[1..] == events[1..][..k];
    assert [events[0]][..0] == [];
  }

  /** An attempt's acks go to its own directory, uncommitted, one file per accepted operator. */
  lemma {:induction false} CollectStores(id: nat, expected: nat, dirs: Directory, got: map<string, Bytes>,
                                         events: seq<AckEvent>)
    requires |got.Keys| <= expected && At(dirs, id) == Snapshot(got, false)
    ensures var r := Collect(id, expected, dirs, got, events);
            && SameExcept(dirs, r.dirs, id)
            && !At(r.dirs, id).complete
            && (r.finished.None? ==> At(r.dirs, id).files == r.got && |r.got.Keys| == expected)
    decreases |events|
  {
    if |got.Keys| < expected && events != [] {
      var e := events[0];
      if e.Ack? && e.id == id {
        var dirs' := Saved(dirs, id, e.name, e.bytes, e.disk);
        assert SameExcept(dirs, dirs', id);
        if e.disk.Works? {
          var got' := got[e.name := e.bytes];
          assert got'.Keys == got.Keys + {e.name};
          CollectStores(id, expected, dirs', got', events[1..]);
        }
      } else if e.Ack? {
        CollectStores(id, expected, dirs, got, events[1..]);
      }
    }
  }

  /** Nothing differs but the entry of `id`. */
  predicate SameExcept(before: Directory, after: Directory, id: nat)
  {
    && (forall j :: j in before && j != id ==> j in after && after[j] == before[j])
    && (forall j :: j in after && j != id ==> j in before)
  }

  /** When the loop ends with every ack in, it holds for each operator the state of
      its last ack among the events used. */
  lemma {:induction false} CollectGathers(id: nat, expected: nat, dirs: Directory, got: map<string, Bytes>,
                                          events: seq<AckEvent>, name: string)
    requires Collect(id, expected, dirs, got, events).finished.None?
    ensures var r := Collect(id, expected, dirs, got, events);
            var last := LastState(events[..r.used], id, name);
            Lookup(r.got, name) == if last.Some? then last else Lookup(got, name)
    decreases |events|
  {
    if |got.Keys| >= expected {
      assert events[..0] == [];
    } else {
      var e := events[0];
      var dirs' := if e.id == id then Saved(dirs, id, e.name, e.bytes, e.disk) else dirs;
      var got' := if e.id == id then got[e.name := e.bytes] else got;
      CollectGathers(id, expected, dirs', got', events[1..], name);
      LastStateSlice(events, Collect(id, expected, dirs', got', events[1..]).used, id, name);
    }
  }

  /** The events an attempt looks at. */
  function Seen(id: nat, expected: nat, dirs: Directory, a: Attempt): seq<AckEvent>
  {
    a.events[..Collect(id, expected, dirs, map[], a.events).used]
  }

  /** An attempt touches no other checkpoint, commits exactly when it succeeds, and
      then holds one file per counted operator. */
  lemma {:induction false} TryStores(id: nat, expected: nat, dirs: Directory, a: Attempt)
    requires id !in dirs
    ensures var (dirs', outcome) := Try(id, expected, dirs, a);
            && SameExcept(dirs, dirs', id)
            && (id in Committed(dirs') <==> outcome == Success)
            && (outcome == Success ==> |dirs'[id].files.Keys| == expected)
  {
    if a.sendersOpen {
      CollectStores(id, expected, dirs, map[], a.events);
    }
  }

  /** A committed snapshot holds for each operator exactly the state of its last ack seen. */
  lemma {:induction false} CommitHoldsLastStates(id: nat, expected: nat, dirs: Directory, a: Attempt, name: string)
    requires id !in dirs && Try(id, expected, dirs, a).1 == Success
    ensures id in Try(id, expected, dirs, a).0
         && Lookup(Try(id, expected, dirs, a).0[id].files, name) == LastState(Seen(id, expected, dirs, a), id, name)
  {
    CollectStores(id, expected, dirs, map[], a.events);
    CollectGathers(id, expected, dirs, map[], a.events, name);
  }

  // ----- committed means complete -----

  ghost predicate DistinctNames(names: seq<string>) { forall i, j :: 0 <= i < j < |names| ==> names[i] != names[j] }

  ghost function Names(names: seq<string>): set<string> { set n | n in names }

  ghost predicate Complete(names: seq<string>, snapshot: Snapshot) { Names(names) <= snapshot.files.Keys }

  /** Acks for this checkpoint come from expected operators only. */
  ghost predicate FromExpected(names: seq<string>, id: nat, events: seq<AckEvent>)
  {
    forall i :: 0 <= i < |events| && events[i].Ack? && events[i].id == id ==> events[i].name in names
  }

  lemma {:induction false} NamesCount(names: seq<string>)
    requires DistinctNames(names)
    ensures |Names(names)| == |names|
  {
    if names != [] {
      var rest := names[1..];
      NamesCount(rest);
      forall i | 0 <= i < |rest| ensures rest[i] != names[0] {
        assert rest[i] == names[i + 1];
      }
      assert names == [names[0]] + rest;
      assert Names(names) == Names(rest) + {names[0]};
      assert names[0] !in Names(rest);
    }
  }

  lemma {:induction false} LastStateExists(events: seq<AckEvent>, id: nat, name: string)
    ensures LastState(events, id, name).Some? <==>
              exists i :: 0 <= i < |events| && events[i].Ack? && events[i].id == id && events[i].name == name
  {
    if events != [] {
      var m := |events| - 1;
      LastStateExists(events[..m], id, name);
      if i :| 0 <= i < |events[..m]| && events[..m][i].Ack? && events[..m][i].id == id && events[..m][i].name == name {
        assert events[i] == events[..m][i];
      }
      if i :| 0 <= i < |events| && events[i].Ack? && events[i].id == id && events[i].name == name {
        if i < m {
          assert events[..m][i] == events[i];
        }
      }
    }
  }

  /** A committed checkpoint holds a state for every expected operator exactly when
      every ack it counted came from an expected operator. */
  lemma {:induction false} CompleteIff(names: seq<string>, id: nat, dirs: Directory, a: Attempt)
    requires DistinctNames(names) && id !in dirs && Try(id, |names|, dirs, a).1 == Success
    ensures id in Try(id, |names|, dirs, a).0
         && (Complete(names, Try(id, |names|, dirs, a).0[id]) <==> FromExpected(names, id, Seen(id, |names|, dirs, a)))
  {
    TryStores(id, |names|, dirs, a);
    var files := Try(id, |names|, dirs, a).0[id].files;
    var seen := Seen(id, |names|, dirs, a);
    NamesCount(names);
    if Names(names) <= files.Keys {
      SubsetSize(Names(names), files.Keys);
    }
    if files.Keys <= Names(names) {
      SubsetSize(files.Keys, Names(names));
    }
    forall n ensures n in files <==> LastState(seen, id, n).Some? {
      CommitHoldsLastStates(id, |names|, dirs, a, n);
    }
    FilesAreAckers(names, id, seen, files);
  }

  lemma {:induction false} FilesAreAckers(names: seq<string>, id: nat, events: seq<AckEvent>, files: map<string, Bytes>)
    requires forall n :: n in files <==> LastState(events, id, n).Some?
    ensures files.Keys <= Names(names) <==> FromExpected(names, id, events)
  {
    forall n
      ensures n in files
         <==> exists i :: 0 <= i < |events| && events[i].Ack? && events[i].id == id && events[i].name == n
    {
      LastStateExists(events, id, n);
    }
    if files.Keys <= Names(names) {
      forall i | 0 <= i < |events| && events[i].Ack? && events[i].id == id ensures events[i].name in names {
        assert events[i].name in files;
      }
    }
  }

  /** The failure is real: a stranger's ack is counted, and a checkpoint commits
      without the expected operator's state. */
  lemma {:induction false} StrangerExample(bytes: Bytes)
    ensures var a := Attempt(true, [Ack(1, "stranger", bytes, Works)], true);
            var (dirs, outcome) := Try(1, 1, map[], a);
            outcome == Success && 1 in Committed(dirs) && !Complete(["op"], dirs[1])
  {
    var a := Attempt(true, [Ack(1, "stranger", bytes, Works)], true);
    var r := Collect(1, 1, map[], map["stranger" := bytes], []);
    assert a.events[1..] == [];
    var dirs: Directory := Saved(map[], 1, "stranger", bytes, Works);
    assert Collect(1, 1, dirs, map["stranger" := bytes], []) == Collected(dirs, map["stranger" := bytes], 0, None);
    assert map[]["stranger" := bytes] == map["stranger" := bytes];
    assert "op" in Names(["op"]) && "op" !in dirs[1].files;
  }

  /** With no expected operators nothing is ever committed: the directory is never made. */
  lemma {:induction false} EmptyPipelineNeverCommits(id: nat, dirs: Directory, a: Attempt)
    requires id !in dirs
    ensures Try(id, 0, dirs, a).0 == dirs && Try(id, 0, dirs, a).1 != Success
  {
  }

  // ----- whole runs -----

  ghost predicate HonestAttempt(names: seq<string>, a: Attempt)
  {
    forall k :: 0 <= k < |a.events| && a.events[k].Ack? ==> a.events[k].name in names
  }

  ghost predicate Honest(names: seq<string>, turns: seq<Turn>)
  {
    forall i :: 0 <= i < |turns| ==> HonestAttempt(names, turns[i].attempt)
  }

  ghost predicate IdsBelow(s: State) { forall id :: id in s.dirs ==> id < s.next }

  /** Each retained checkpoint holds the states of the expected operators and of nobody else. */
  ghost predicate RetainedComplete(names: seq<string>, maxRetained: nat, dirs: Directory)
  {
    forall id :: id in Retained(dirs, maxRetained) ==> dirs[id].files.Keys == Names(names)
  }

  /** A new commit can only make more of the older ones redundant. */
  lemma {:induction false} CommitRetains(before: Directory, after: Directory, next: nat, keep: nat)
    requires SameExcept(before, after, next) && next !in before
    ensures Retained(after, keep) <= Retained(before, keep) + {next}
  {
    forall id | id in Retained(after, keep) && id != next ensures id in Retained(before, keep) {
      assert id in Committed(before);
      assert Newer(before, id) <= Newer(after, id);
      SubsetSize(Newer(before, id), Newer(after, id));
    }
  }

  /** What a turn leaves among the retained checkpoints is the new one and old ones unchanged. */
  lemma {:induction false} StepRetains(expected: nat, maxRetained: nat, s: State, t: Turn)
    requires IdsBelow(s)
    ensures IdsBelow(Step(expected, maxRetained, s, t))
    ensures var s' := Step(expected, maxRetained, s, t);
            forall id :: id in Retained(s'.dirs, maxRetained) ==>
              if id == s.next then
                s.running && Try(id, expected, s.dirs, t.attempt).1 == Success
                && s'.dirs[id] == Try(id, expected, s.dirs, t.attempt).0[id]
              else id in Retained(s.dirs, maxRetained) && s'.dirs[id] == s.dirs[id]
  {
    if s.running {
      var (dirs, outcome) := Try(s.next, expected, s.dirs, t.attempt);
      TryStores(s.next, expected, s.dirs, t.attempt);
      CommitRetains(s.dirs, dirs, s.next, maxRetained);
      if outcome == Success && t.Tick? {
        FailedRemovalsStayRedundant(dirs, maxRetained, t.failed);
      }
    }
  }

  lemma {:induction false} HonestCommit(names: seq<string>, id: nat, dirs: Directory, a: Attempt)
    requires DistinctNames(names) && id !in dirs && HonestAttempt(names, a) && Try(id, |names|, dirs, a).1 == Success
    ensures var dirs' := Try(id, |names|, dirs, a).0;
            id in dirs' && dirs'[id].files.Keys == Names(names)
  {
    TryStores(id, |names|, dirs, a);
    CompleteIff(names, id, dirs, a);
    assert FromExpected(names, id, Seen(id, |names|, dirs, a));
    NamesCount(names);
    SubsetSize(Names(names), Try(id, |names|, dirs, a).0[id].files.Keys);
  }

  lemma {:induction false} StepKeepsComplete(names: seq<string>, maxRetained: nat, s: State, t: Turn)
    requires DistinctNames(names) && IdsBelow(s) && RetainedComplete(names, maxRetained, s.dirs)
    requires HonestAttempt(names, t.attempt)
    ensures RetainedComplete(names, maxRetained, Step(|names|, maxRetained, s, t).dirs)
  {
    StepRetains(|names|, maxRetained, s, t);
    if s.next in Retained(Step(|names|, maxRetained, s, t).dirs, maxRetained) && s.running {
      HonestCommit(names, s.next, s.dirs, t.attempt);
    }
  }

  /** Over any run, whatever times out, goes stale or fails to be cleaned up, every
      retained checkpoint holds a state for each expected operator and for nobody else. */
  lemma {:induction false} CommittedIsComplete(names: seq<string>, maxRetained: nat, turns: seq<Turn>)
    requires DistinctNames(names) && Honest(names, turns)
    ensures RetainedComplete(names, maxRetained, RunAll(|names|, maxRetained, START, turns).dirs)
  {
    if turns != [] {
      var m := |turns| - 1;
      CommittedIsComplete(names, maxRetained, turns[..m]);
      RunIdsBelow(|names|, maxRetained, turns[..m]);
      StepKeepsComplete(names, maxRetained, RunAll(|names|, maxRetained, START, turns[..m]), turns[m]);
    }
  }

  // ----- every committed checkpoint, retained or not -----

  ghost predicate AllComplete(names: seq<string>, dirs: Directory)
  {
    forall id :: id in Committed(dirs) ==> dirs[id].files.Keys == Names(names)
  }

  /** Whatever removal breaks off and leaves the marker leaves every expected operator's file too. */
  ghost predicate Clean(names: seq<string>, dirs: Directory, keep: nat, failed: map<nat, Remnant>)
  {
    forall id :: id in Redundant(dirs, keep) && id in failed && failed[id].marker ==> Names(names) <= failed[id].files
  }

  /** A cleanup leaves no committed checkpoint without a state exactly when it is clean. */
  lemma {:induction false} CleanedIsCompleteIff(names: seq<string>, dirs: Directory, keep: nat,
                                                failed: map<nat, Remnant>)
    requires AllComplete(names, dirs)
    ensures AllComplete(names, Cleaned(dirs, keep, failed)) <==> Clean(names, dirs, keep, failed)
  {
    var after := Cleaned(dirs, keep, failed);
    forall id | id in Redundant(dirs, keep) && id in failed && failed[id].marker
      ensures id in Committed(after) && after[id].files.Keys == Names(names) * failed[id].files
    {
      assert after[id] == Broken(dirs[id], failed[id]);
    }
    if Clean(names, dirs, keep, failed) {
      forall id | id in Committed(after) ensures after[id].files.Keys == Names(names) {
        if id in Redundant(dirs, keep) {
          assert Names(names) * failed[id].files == Names(names);
        }
      }
    }
  }

  /** Asked only of a turn that cleans up, about the store its attempt has committed to. */
  ghost predicate CleansUp(names: seq<string>, maxRetained: nat, s: State, t: Turn)
  {
    var (dirs, outcome) := Try(s.next, |names|, s.dirs, t.attempt);
    s.running && t.Tick? && outcome == Success ==> Clean(names, dirs, maxRetained, t.failed)
  }

  lemma {:induction false} AttemptKeepsAllComplete(names: seq<string>, id: nat, dirs: Directory, a: Attempt)
    requires DistinctNames(names) && id !in dirs && AllComplete(names, dirs) && HonestAttempt(names, a)
    ensures AllComplete(names, Try(id, |names|, dirs, a).0)
  {
    TryStores(id, |names|, dirs, a);
    if Try(id, |names|, dirs, a).1 == Success {
      HonestCommit(names, id, dirs, a);
    }
  }

  lemma {:induction false} StepIsCompleteIff(names: seq<string>, maxRetained: nat, s: State, t: Turn)
    requires DistinctNames(names) && IdsBelow(s) && AllComplete(names, s.dirs) && HonestAttempt(names, t.attempt)
    ensures AllComplete(names, Step(|names|, maxRetained, s, t).dirs) <==> CleansUp(names, maxRetained, s, t)
  {
    if s.running {
      AttemptKeepsAllComplete(names, s.next, s.dirs, t.attempt);
      var (dirs, outcome) := Try(s.next, |names|, s.dirs, t.attempt);
      if outcome == Success && t.Tick? {
        CleanedIsCompleteIff(names, dirs, maxRetained, t.failed);
      }
    }
  }

  /** The coordinator's state before turn p. */
  function Before(names: seq<string>, maxRetained: nat, turns: seq<Turn>, p: nat): State
    requires p <= |turns|
  {
    RunAll(|names|, maxRetained, START, turns[..p])
  }

  ghost predicate AlwaysComplete(names: seq<string>, maxRetained: nat, turns: seq<Turn>)
  {
    forall p :: 0 <= p <= |turns| ==> AllComplete(names, Before(names, maxRetained, turns, p).dirs)
  }

  ghost predicate TurnCleansUp(names: seq<string>, maxRetained: nat, turns: seq<Turn>, p: nat)
    requires p < |turns|
  {
    CleansUp(names, maxRetained, Before(names, maxRetained, turns, p), turns[p])
  }

  ghost predicate AlwaysCleansUp(names: seq<string>, maxRetained: nat, turns: seq<Turn>)
  {
    forall p :: 0 <= p < |turns| ==> TurnCleansUp(names, maxRetained, turns, p)
  }

  lemma {:induction false} BeforeFront(names: seq<string>, maxRetained: nat, turns: seq<Turn>, p: nat)
    requires p < |turns|
    ensures Before(names, maxRetained, turns[..|turns| - 1], p) == Before(names, maxRetained, turns, p)
  {
    assert turns[..|turns| - 1][..p] == turns[..p];
  }

  lemma {:induction false} AlwaysCompleteSnoc(names: seq<string>, maxRetained: nat, turns: seq<Turn>)
    requires turns != []
    ensures AlwaysComplete(names, maxRetained, turns)
       <==> AlwaysComplete(names, maxRetained, turns[..|turns| - 1])
            && AllComplete(names, Before(names, maxRetained, turns, |turns|).dirs)
  {
    var front := turns[..|turns| - 1];
    forall p | 0 <= p < |turns| ensures Before(names, maxRetained, front, p) == Before(names, maxRetained, turns, p) {
      BeforeFront(names, maxRetained, turns, p);
    }
    if AlwaysComplete(names, maxRetained, front) {
      forall p | 0 <= p < |turns| ensures AllComplete(names, Before(names, maxRetained, turns, p).dirs) {
        assert AllComplete(names, Before(names, maxRetained, front, p).dirs);
      }
    }
    if AlwaysComplete(names, maxRetained, turns) {
      forall p | 0 <= p <= |front| ensures AllComplete(names, Before(names, maxRetained, front, p).dirs) {
        assert AllComplete(names, Before(names, maxRetained, turns, p).dirs);
      }
    }
  }

  lemma {:induction false} TurnFront(names: seq<string>, maxRetained: nat, turns: seq<Turn>, p: nat)
    requires p < |turns| - 1
    ensures TurnCleansUp(names, maxRetained, turns[..|turns| - 1], p) == TurnCleansUp(names, maxRetained, turns, p)
  {
    BeforeFront(names, maxRetained, turns, p);
  }

  lemma {:induction false} AlwaysCleansUpSnoc(names: seq<string>, maxRetained: nat, turns: seq<Turn>)
    requires turns != []
    ensures AlwaysCleansUp(names, maxRetained, turns)
       <==> AlwaysCleansUp(names, maxRetained, turns[..|turns| - 1])
            && TurnCleansUp(names, maxRetained, turns, |turns| - 1)
  {
    var front := turns[..|turns| - 1];
    if AlwaysCleansUp(names, maxRetained, front) {
      forall p | 0 <= p < |front| ensures TurnCleansUp(names, maxRetained, turns, p) {
        assert TurnCleansUp(names, maxRetained, front, p);
        TurnFront(names, maxRetained, turns, p);
      }
    }
    if AlwaysCleansUp(names, maxRetained, turns) {
      forall p | 0 <= p < |front| ensures TurnCleansUp(names, maxRetained, front, p) {
        assert TurnCleansUp(names, maxRetained, turns, p);
        TurnFront(names, maxRetained, turns, p);
      }
    }
  }

  lemma {:induction false} BeforeNext(names: seq<string>, maxRetained: nat, turns: seq<Turn>, p: nat)
    requires p < |turns|
    ensures Before(names, maxRetained, turns, p + 1)
         == Step(|names|, maxRetained, Before(names, maxRetained, turns, p), turns[p])
    ensures IdsBelow(Before(names, maxRetained, turns, p))
  {
    assert turns[..p + 1][..p] == turns[..p];
    RunIdsBelow(|names|, maxRetained, turns[..p]);
  }

  /** At every moment of a run every committed checkpoint, retained or not, holds
      exactly the expected operators' states if and only if no turn's cleanup breaks
      off a removal so that the marker stays and a state goes. */
  lemma {:induction false} AlwaysCompleteIff(names: seq<string>, maxRetained: nat, turns: seq<Turn>)
    requires DistinctNames(names) && Honest(names, turns)
    ensures AlwaysComplete(names, maxRetained, turns) <==> AlwaysCleansUp(names, maxRetained, turns)
  {
    if turns == [] {
      assert Before(names, maxRetained, turns, 0) == START;
    } else {
      var m := |turns| - 1;
      AlwaysCompleteIff(names, maxRetained, turns[..m]);
      AlwaysCompleteSnoc(names, maxRetained, turns);
      AlwaysCleansUpSnoc(names, maxRetained, turns);
      BeforeNext(names, maxRetained, turns, m);
      if AlwaysComplete(names, maxRetained, turns[..m]) {
        assert AllComplete(names, Before(names, maxRetained, turns[..m], m).dirs);
        BeforeFront(names, maxRetained, turns, m);
        StepIsCompleteIff(names, maxRetained, Before(names, maxRetained, turns, m), turns[m]);
      }
    }
  }

  /** No removal of the script leaves a marker without the expected operators' files. */
  ghost predicate RemovalsWhole(names: seq<string>, turns: seq<Turn>)
  {
    forall i, id :: 0 <= i < |turns| && turns[i].Tick? && id in turns[i].failed && turns[i].failed[id].marker ==>
      Names(names) <= turns[i].failed[id].files
  }

  /** In particular when removals that break off either leave every file or take the marker. */
  lemma {:induction false} EveryCommittedIsComplete(names: seq<string>, maxRetained: nat, turns: seq<Turn>)
    requires DistinctNames(names) && Honest(names, turns) && RemovalsWhole(names, turns)
    ensures AllComplete(names, RunAll(|names|, maxRetained, START, turns).dirs)
  {
    AlwaysCompleteIff(names, maxRetained, turns);
    assert AllComplete(names, Before(names, maxRetained, turns, |turns|).dirs);
    assert turns[..|turns|] == turns;
  }

  /** Every expected operator's state can be loaded from this checkpoint. */
  ghost predicate Restorable(names: seq<string>, dirs: Directory, id: nat)
  {
    forall n :: n in names ==> Stored(dirs, id, n).Some?
  }

  /** With at least one checkpoint retained, whatever removals break off, the latest
      committed checkpoint holds exactly the expected operators' states. */
  lemma {:induction false} LatestIsComplete(names: seq<string>, maxRetained: nat, turns: seq<Turn>, id: nat)
    requires DistinctNames(names) && Honest(names, turns) && maxRetained >= 1
    requires IsLatest(RunAll(|names|, maxRetained, START, turns).dirs, Some(id))
    ensures var dirs := RunAll(|names|, maxRetained, START, turns).dirs;
            dirs[id].files.Keys == Names(names) && Restorable(names, dirs, id)
  {
    var dirs := RunAll(|names|, maxRetained, START, turns).dirs;
    CommittedIsComplete(names, maxRetained, turns);
    assert Newer(dirs, id) == {};
    assert id in Retained(dirs, maxRetained);
    forall n | n in names ensures n in dirs[id].files {
      assert n in Names(names);
    }
  }

  /** With none retained it can be a checkpoint without any state: the removal of the
      only checkpoint breaks off after its file. */
  lemma {:induction false} LatestRemnantExample(bytes: Bytes)
    ensures var turns := [Tick(Attempt(true, [Ack(1, "op", bytes, Works)], true), map[1 := Remnant({}, true)])];
            var dirs := RunAll(1, 0, START, turns).dirs;
            && Honest(["op"], turns) && !AlwaysCleansUp(["op"], 0, turns)
            && IsLatest(dirs, Some(1)) && dirs[1].files == map[] && !Restorable(["op"], dirs, 1)
  {
    var a := Attempt(true, [Ack(1, "op", bytes, Works)], true);
    var failed := map[1 := Remnant({}, true)];
    var turns := [Tick(a, failed)];
    OneAckCommits(bytes);
    var dirs: Directory := map[1 := Snapshot(map["op" := bytes], true)];
    assert turns[..0] == [] && turns[..1] == turns;
    assert Committed(dirs) == {1} && Redundant(dirs, 0) == {1};
    assert RunAll(1, 0, START, turns).dirs == Cleaned(dirs, 0, failed);
    assert "op" in ["op"] && "op" in Names(["op"]);
    assert Before(["op"], 0, turns, 0) == START;
    assert !TurnCleansUp(["op"], 0, turns, 0);
  }

  lemma {:induction false} OneAckCommits(bytes: Bytes)
    ensures Try(1, 1, map[], Attempt(true, [Ack(1, "op", bytes, Works)], true))
         == (map[1 := Snapshot(map["op" := bytes], true)], Success)
  {
    var a := Attempt(true, [Ack(1, "op", bytes, Works)], true);
    var dirs: Directory := Saved(map[], 1, "op", bytes, Works);
    assert a.events[1..] == [];
    assert Collect(1, 1, dirs, map["op" := bytes], []) == Collected(dirs, map["op" := bytes], 0, None);
    assert map[]["op" := bytes] == map["op" := bytes];
    assert Collect(1, 1, map[], map[], a.events) == Collected(dirs, map["op" := bytes], 1, None);
    assert Marked(dirs, 1, true) == map[1 := Snapshot(map["op" := bytes], true)];
  }

  /** A committed checkpoint is never altered while it is retained. */
  lemma {:induction false} CommittedIsStable(expected: nat, maxRetained: nat, s: State, t: Turn, id: nat)
    requires IdsBelow(s) && id in Committed(s.dirs)
    ensures var s' := Step(expected, maxRetained, s, t);
            id in Retained(s'.dirs, maxRetained) ==> s'.dirs[id] == s.dirs[id]
  {
    StepRetains(expected, maxRetained, s, t);
  }

  lemma {:induction false} RunIdsBelow(expected: nat, maxRetained: nat, turns: seq<Turn>)
    ensures IdsBelow(RunAll(expected, maxRetained, START, turns))
  {
    if turns != [] {
      var m := |turns| - 1;
      RunIdsBelow(expected, maxRetained, turns[..m]);
      StepRetains(expected, maxRetained, RunAll(expected, maxRetained, START, turns[..m]), turns[m]);
    }
  }

  /** Every retained checkpoint goes back to the one turn that ran under its id, and
      holds for each operator the state of the last ack that turn saw: nothing that
      happened in later turns changed it. */
  lemma {:induction false} CommittedOrigin(expected: nat, maxRetained: nat, turns: seq<Turn>, id: nat, name: string)
    returns (i: nat)
    requires id in Retained(RunAll(expected, maxRetained, START, turns).dirs, maxRetained)
    ensures i < |turns| && RunAll(expected, maxRetained, START, turns[..i]).next == id
    ensures var before := RunAll(expected, maxRetained, START, turns[..i]).dirs;
            && id !in before && Try(id, expected, before, turns[i].attempt).1 == Success
            && Stored(RunAll(expected, maxRetained, START, turns).dirs, id, name)
            == LastState(Seen(id, expected, before, turns[i].attempt), id, name)
  {
    var m := |turns| - 1;
    var s := RunAll(expected, maxRetained, START, turns[..m]);
    RunIdsBelow(expected, maxRetained, turns[..m]);
    StepRetains(expected, maxRetained, s, turns[m]);
    if id == s.next {
      i := m;
      CommitHoldsLastStates(id, expected, s.dirs, turns[m].attempt, name);
    } else {
      i := CommittedOrigin(expected, maxRetained, turns[..m], id, name);
      assert turns[..m][..i] == turns[..i];
    }
  }

  lemma {:induction false} LatestSurvives(dirs: Directory, keep: nat, failed: map<nat, Remnant>, id: nat)
    requires IsLatest(dirs, Some(id)) && keep >= 1
    ensures IsLatest(Cleaned(dirs, keep, failed), Some(id))
  {
    assert Newer(dirs, id) == {};
    assert id !in Redundant(dirs, keep);
    assert Committed(Cleaned(dirs, keep, failed)) <= Committed(dirs);
  }

  lemma {:induction false} StepLatest(expected: nat, maxRetained: nat, s: State, t: Turn,
                                      r: Option<nat>) returns (r': Option<nat>)
    requires IdsBelow(s) && maxRetained >= 1 && IsLatest(s.dirs, r)
    ensures IsLatest(Step(expected, maxRetained, s, t).dirs, r') && IdsBelow(Step(expected, maxRetained, s, t))
    ensures r' == r || (r'.Some? && r'.value == s.next && (r.Some? ==> r.value < r'.value))
  {
    r' := r;
    if s.running {
      var (dirs, outcome) := Try(s.next, expected, s.dirs, t.attempt);
      TryStores(s.next, expected, s.dirs, t.attempt);
      assert forall j :: j != s.next ==> (j in Committed(dirs) <==> j in Committed(s.dirs));
      if outcome == Success {
        r' := Some(s.next);
        assert IsLatest(dirs, r');
        if t.Tick? {
          LatestSurvives(dirs, maxRetained, t.failed, s.next);
        }
      } else {
        assert IsLatest(dirs, r');
      }
    }
  }

  /** With at least one checkpoint retained the latest committed id never decreases,
      at any point of a run. */
  lemma {:induction false} LatestNeverDecreases(expected: nat, maxRetained: nat, turns: seq<Turn>,
                                                k: nat) returns (early: Option<nat>, late: Option<nat>)
    requires maxRetained >= 1 && k <= |turns|
    ensures IsLatest(RunAll(expected, maxRetained, START, turns[..k]).dirs, early)
    ensures IsLatest(RunAll(expected, maxRetained, START, turns).dirs, late)
    ensures IdsBelow(RunAll(expected, maxRetained, START, turns))
    ensures early.Some? ==> late.Some? && early.value <= late.value
    decreases |turns|
  {
    if turns == [] {
      early, late := None, None;
      assert turns[..k] == [];
    } else if k == |turns| {
      assert turns[..k] == turns;
      var e, l := LatestNeverDecreases(expected, maxRetained, turns[..k - 1], k - 1);
      late := StepLatest(expected, maxRetained, RunAll(expected, maxRetained, START, turns[..k - 1]), turns[k - 1], l);
      early := late;
    } else {
      var m := |turns| - 1;
      assert turns[..m][..k] == turns[..k];
      var l;
      early, l := LatestNeverDecreases(expected, maxRetained, turns[..m], k);
      late := StepLatest(expected, maxRetained, RunAll(expected, maxRetained, START, turns[..m]), turns[m], l);
    }
  }

  /** Retaining none, a successful checkpoint is removed at once. */
  lemma {:induction false} RetainingNoneForgets(expected: nat, s: State, a: Attempt)
    requires s.running && IdsBelow(s) && Try(s.next, expected, s.dirs, a).1 == Success
    ensures Committed(Step(expected, 0, s, Tick(a, map[])).dirs) == {}
  {
    var (dirs, outcome) := Try(s.next, expected, s.dirs, a);
    assert Redundant(dirs, 0) == Committed(dirs);
  }

  /** For instance: one operator, one ack, and nothing is left to restore from. */
  lemma {:induction false} RetainingNoneExample(bytes: Bytes)
    ensures var a := Attempt(true, [Ack(1, "op", bytes, Works)], true);
            && Try(1, 1, map[], a).1 == Success
            && Committed(RunAll(1, 0, START, [Tick(a, map[])]).dirs) == {}
  {
    var a := Attempt(true, [Ack(1, "op", bytes, Works)], true);
    OneAckCommits(bytes);
    var turns := [Tick(a, map[])];
    assert turns[..0] == [];
    RetainingNoneForgets(1, START, a);
  }
}
