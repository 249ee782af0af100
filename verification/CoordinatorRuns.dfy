/** When a checkpoint attempt succeeds and when the coordinator goes on, told by the
    acks as they come. */
module CoordinatorRuns {
  import opened Streams
  import opened SnapshotStore
  import opened Coordinator

  // ----- one attempt -----

  /** The operators that acked this checkpoint. */
  function Acked(events: seq<AckEvent>, id: nat): set<string>
  {
    if events == [] then {}
    else (if events[0].Ack? && events[0].id == id then {events[0].name} else {}) + Acked(events[1..], id)
  }

  /** Neither deadline nor closed channel, and every ack of this checkpoint could be saved;
      acks of other checkpoints may come in between. */
  ghost predicate Undisturbed(events: seq<AckEvent>, id: nat)
  {
    forall i :: 0 <= i < |events| ==>
      events[i].Ack? && (events[i].id == id ==> events[i].disk == Works)
  }

  /** Enough operators ack, counting those in `got`, before anything goes wrong. */
  ghost predicate AllAck(events: seq<AckEvent>, id: nat, expected: nat, got: set<string>)
  {
    exists n :: 0 <= n <= |events| && Undisturbed(events[..n], id) && |got + Acked(events[..n], id)| >= expected
  }

  /** The channel of acks closes before that and before anything else goes wrong. */
  ghost predicate Closes(events: seq<AckEvent>, id: nat, expected: nat, got: set<string>)
  {
    exists n :: 0 <= n < |events| && ClosesAt(events, id, expected, got, n)
  }

  ghost predicate ClosesAt(events: seq<AckEvent>, id: nat, expected: nat, got: set<string>, n: nat)
    requires n < |events|
  {
    Undisturbed(events[..n], id) && |got + Acked(events[..n], id)| < expected && events[n] == AcksClosed
  }

  /** Taking one event off the front: what it acks moves to `got`. */
  lemma {:induction false} FrontMoves(events: seq<AckEvent>, id: nat, got: set<string>, n: nat)
    requires n < |events|
    ensures var own := if events[0].Ack? && events[0].id == id then {events[0].name} else {};
            got + Acked(events[..n + 1], id) == (got + own) + Acked(events[1..][..n], id)
    ensures Undisturbed(events[..n + 1], id)
       <==> events[0].Ack? && (events[0].id == id ==> events[0].disk == Works) && Undisturbed(events[1..][..n], id)
  {
    var front, rest := events[..n + 1], events[1..][..n];
    assert front[1..] == rest && front[0] == events[0];
    assert forall i :: 0 <= i < n ==> rest[i] == front[i + 1];
    if Undisturbed(rest, id) {
      assert forall i :: 1 <= i < n + 1 ==> front[i] == rest[i - 1];
    }
  }

  lemma {:induction false} AllAckCons(events: seq<AckEvent>, id: nat, expected: nat, got: set<string>)
    requires events != [] && |got| < expected
    ensures var own := if events[0].Ack? && events[0].id == id then {events[0].name} else {};
            AllAck(events, id, expected, got) <==>
              && events[0].Ack? && (events[0].id == id ==> events[0].disk == Works)
              && AllAck(events[1..], id, expected, got + own)
  {
    var own := if events[0].Ack? && events[0].id == id then {events[0].name} else {};
    assert got + Acked(events[..0], id) == got;
    if n :| 0 <= n <= |events| && Undisturbed(events[..n], id) && |got + Acked(events[..n], id)| >= expected {
      if n > 0 {
        FrontMoves(events, id, got, n - 1);
      }
    }
    if events[0].Ack? && (events[0].id == id ==> events[0].disk == Works) {
      if n :| 0 <= n <= |events[1..]| && Undisturbed(events[1..][..n], id)
              && |(got + own) + Acked(events[1..][..n], id)| >= expected {
        FrontMoves(events, id, got, n);
        assert Undisturbed(events[..n + 1], id);
      }
    }
  }

  lemma {:induction false} ClosesCons(events: seq<AckEvent>, id: nat, expected: nat, got: set<string>)
    requires events != [] && |got| < expected
    ensures var own := if events[0].Ack? && events[0].id == id then {events[0].name} else {};
            Closes(events, id, expected, got) <==>
              || events[0] == AcksClosed
              || (&& events[0].Ack? && (events[0].id == id ==> events[0].disk == Works)
                  && Closes(events[1..], id, expected, got + own))
  {
    var own := if events[0].Ack? && events[0].id == id then {events[0].name} else {};
    if n :| 0 <= n < |events| && ClosesAt(events, id, expected, got, n) {
      if n > 0 {
        ClosesAtCons(events, id, expected, got, n - 1);
        assert ClosesAt(events[1..], id, expected, got + own, n - 1);
      }
    }
    if events[0] == AcksClosed {
      assert got + Acked(events[..0], id) == got;
      assert ClosesAt(events, id, expected, got, 0);
    }
    if n :| 0 <= n < |events[1..]| && ClosesAt(events[1..], id, expected, got + own, n) {
      ClosesAtCons(events, id, expected, got, n);
    }
  }

  lemma {:induction false} ClosesAtCons(events: seq<AckEvent>, id: nat, expected: nat, got: set<string>, n: nat)
    requires n < |events| - 1
    ensures var own := if events[0].Ack? && events[0].id == id then {events[0].name} else {};
            ClosesAt(events, id, expected, got, n + 1) <==>
              && events[0].Ack? && (events[0].id == id ==> events[0].disk == Works)
              && ClosesAt(events[1..], id, expected, got + own, n)
  {
    FrontMoves(events, id, got, n);
  }

  lemma {:induction false} EnoughAtOnce(events: seq<AckEvent>, id: nat, expected: nat, got: set<string>)
    requires |got| >= expected
    ensures AllAck(events, id, expected, got) && !Closes(events, id, expected, got)
  {
    assert Undisturbed(events[..0], id) && got + Acked(events[..0], id) == got;
    forall n | 0 <= n < |events| ensures |got + Acked(events[..n], id)| >= expected {
      SubsetSize(got, got + Acked(events[..n], id));
    }
  }

  lemma {:induction false} NoneLeft(id: nat, expected: nat, got: set<string>)
    requires |got| < expected
    ensures !AllAck([], id, expected, got) && !Closes([], id, expected, got)
  {
    assert got + Acked([][..0], id) == got;
  }

  /** What has been accepted after one event that does not end the loop. */
  function GotNow(id: nat, got: map<string, Bytes>, e: AckEvent): map<string, Bytes>
  {
    if e.Ack? && e.id == id then got[e.name := e.bytes] else got
  }

  lemma {:induction false} CollectCons(id: nat, expected: nat, dirs: Directory, got: map<string, Bytes>,
                                       events: seq<AckEvent>) returns (dirs': Directory)
    requires |got.Keys| < expected && events != []
    ensures var e := events[0];
            Collect(id, expected, dirs, got, events).finished
            == if e.Deadline? then Some(Timeout)
               else if e.AcksClosed? then Some(PipelineShutdown)
               else if e.id == id && e.disk != Works then Some(Timeout)
               else Collect(id, expected, dirs', GotNow(id, got, e), events[1..]).finished
    ensures GotNow(id, got, events[0]).Keys
         == got.Keys + if events[0].Ack? && events[0].id == id then {events[0].name} else {}
  {
    var e := events[0];
    dirs' := if e.Ack? && e.id == id then Saved(dirs, id, e.name, e.bytes, e.disk) else dirs;
  }

  /** The ack loop ends well exactly in this case. */
  lemma {:induction false} CollectsIff(id: nat, expected: nat, dirs: Directory, got: map<string, Bytes>,
                                       events: seq<AckEvent>)
    ensures Collect(id, expected, dirs, got, events).finished == None <==> AllAck(events, id, expected, got.Keys)
    decreases |events|
  {
    if |got.Keys| >= expected {
      EnoughAtOnce(events, id, expected, got.Keys);
    } else if events == [] {
      NoneLeft(id, expected, got.Keys);
    } else {
      AllAckCons(events, id, expected, got.Keys);
      var dirs' := CollectCons(id, expected, dirs, got, events);
      CollectsIff(id, expected, dirs', GotNow(id, got, events[0]), events[1..]);
    }
  }

  /** And because the channel closed exactly in this one. */
  lemma {:induction false} ClosesIff(id: nat, expected: nat, dirs: Directory, got: map<string, Bytes>,
                                     events: seq<AckEvent>)
    ensures Collect(id, expected, dirs, got, events).finished == Some(PipelineShutdown)
       <==> Closes(events, id, expected, got.Keys)
    decreases |events|
  {
    if |got.Keys| >= expected {
      EnoughAtOnce(events, id, expected, got.Keys);
    } else if events == [] {
      NoneLeft(id, expected, got.Keys);
    } else {
      ClosesCons(events, id, expected, got.Keys);
      var dirs' := CollectCons(id, expected, dirs, got, events);
      ClosesIff(id, expected, dirs', GotNow(id, got, events[0]), events[1..]);
    }
  }

  /** Barriers go out, every expected ack arrives and is saved in time, and the marker can
      be written. With nobody expected there is no directory to write it to. */
  ghost predicate Succeeds(id: nat, expected: nat, a: Attempt)
  {
    a.sendersOpen && a.markerWorks && expected > 0 && AllAck(a.events, id, expected, {})
  }

  ghost predicate ShutsDown(id: nat, expected: nat, a: Attempt)
  {
    !a.sendersOpen || Closes(a.events, id, expected, {})
  }

  /** An attempt succeeds, or finds the pipeline gone, exactly in these cases; any other
      way it is counted as timed out. */
  lemma {:induction false} AttemptOutcome(id: nat, expected: nat, dirs: Directory, a: Attempt)
    requires id !in dirs
    ensures var outcome := Try(id, expected, dirs, a).1;
            && (outcome == Success <==> Succeeds(id, expected, a))
            && (outcome == PipelineShutdown <==> ShutsDown(id, expected, a))
  {
    if a.sendersOpen {
      var none: map<string, Bytes> := map[];
      CollectsIff(id, expected, dirs, none, a.events);
      ClosesIff(id, expected, dirs, none, a.events);
      CollectStores(id, expected, dirs, none, a.events);
      assert none.Keys == {};
      var r := Collect(id, expected, dirs, none, a.events);
      if r.finished.None? && expected > 0 {
        assert |r.got.Keys| == expected;
        assert At(r.dirs, id).files.Keys != {};
      }
    }
  }

  // ----- whole runs -----

  /** Turn i, under id i + 1, lets the coordinator go on. */
  ghost predicate GoesOn(expected: nat, turns: seq<Turn>, i: nat)
    requires i < |turns|
  {
    turns[i].Tick? && !ShutsDown(i + 1, expected, turns[i].attempt)
  }

  ghost predicate GoesOnUpTo(expected: nat, turns: seq<Turn>, p: nat)
    requires p <= |turns|
  {
    forall i :: 0 <= i < p ==> GoesOn(expected, turns, i)
  }

  /** The coordinator runs until a turn is a cancellation or finds the pipeline gone: no
      timeout, torn write or missing ack stops it. Ids count the turns. */
  lemma {:induction false} RunsOnIff(expected: nat, maxRetained: nat, turns: seq<Turn>, p: nat)
    requires p <= |turns|
    ensures var s := RunAll(expected, maxRetained, START, turns[..p]);
            && IdsBelow(s)
            && (s.running <==> GoesOnUpTo(expected, turns, p))
            && (s.running ==> s.next == p + 1)
  {
    if p > 0 {
      RunsOnIff(expected, maxRetained, turns, p - 1);
      RunAllNext(expected, maxRetained, turns, p - 1);
      StepGoesOn(expected, maxRetained, RunAll(expected, maxRetained, START, turns[..p - 1]), turns[p - 1]);
      GoesOnMore(expected, turns, p - 1);
    }
  }

  lemma {:induction false} RunAllNext(expected: nat, maxRetained: nat, turns: seq<Turn>, p: nat)
    requires p < |turns|
    ensures RunAll(expected, maxRetained, START, turns[..p + 1])
         == Step(expected, maxRetained, RunAll(expected, maxRetained, START, turns[..p]), turns[p])
  {
    assert turns[..p + 1][..p] == turns[..p];
  }

  lemma {:induction false} GoesOnMore(expected: nat, turns: seq<Turn>, p: nat)
    requires p < |turns|
    ensures GoesOnUpTo(expected, turns, p + 1) <==> GoesOnUpTo(expected, turns, p) && GoesOn(expected, turns, p)
  {
  }

  lemma {:induction false} StepGoesOn(expected: nat, maxRetained: nat, s: State, t: Turn)
    requires IdsBelow(s)
    ensures var s' := Step(expected, maxRetained, s, t);
            && IdsBelow(s')
            && (s'.running <==> s.running && t.Tick? && !ShutsDown(s.next, expected, t.attempt))
            && (s'.running ==> s'.next == s.next + 1)
  {
    if s.running {
      AttemptOutcome(s.next, expected, s.dirs, t.attempt);
      TryStores(s.next, expected, s.dirs, t.attempt);
    }
  }

  /** Retaining at least one, turn p leaves its checkpoint p + 1 committed, and the latest,
      exactly when the coordinator got that far and every expected ack came in time. */
  lemma {:induction false} CommitsIff(expected: nat, maxRetained: nat, turns: seq<Turn>, p: nat)
    requires p < |turns| && maxRetained >= 1
    ensures var dirs := RunAll(expected, maxRetained, START, turns[..p + 1]).dirs;
            && (p + 1 in Committed(dirs) <==>
                  GoesOnUpTo(expected, turns, p) && Succeeds(p + 1, expected, turns[p].attempt))
            && (p + 1 in Committed(dirs) ==> IsLatest(dirs, Some(p + 1)))
  {
    RunsOnIff(expected, maxRetained, turns, p);
    var s := RunAll(expected, maxRetained, START, turns[..p]);
    assert turns[..p + 1][..p] == turns[..p];
    if s.running {
      var (dirs, outcome) := Try(p + 1, expected, s.dirs, turns[p].attempt);
      AttemptOutcome(p + 1, expected, s.dirs, turns[p].attempt);
      TryStores(p + 1, expected, s.dirs, turns[p].attempt);
      if outcome == Success {
        assert IsLatest(dirs, Some(p + 1));
        if turns[p].Tick? {
          LatestSurvives(dirs, maxRetained, turns[p].failed, p + 1);
        }
      }
    } else {
      NotReached(expected, maxRetained, turns, p);
    }
  }

  /** A coordinator that has stopped has made no checkpoint of a later turn. */
  lemma {:induction false} NotReached(expected: nat, maxRetained: nat, turns: seq<Turn>, p: nat)
    requires p < |turns| && !RunAll(expected, maxRetained, START, turns[..p]).running
    ensures RunAll(expected, maxRetained, START, turns[..p + 1]).dirs
         == RunAll(expected, maxRetained, START, turns[..p]).dirs
    ensures p + 1 !in RunAll(expected, maxRetained, START, turns[..p]).dirs
  {
    assert turns[..p + 1][..p] == turns[..p];
    IdsAtMost(expected, maxRetained, turns[..p]);
  }

  lemma {:induction false} IdsAtMost(expected: nat, maxRetained: nat, turns: seq<Turn>)
    ensures var s := RunAll(expected, maxRetained, START, turns);
            s.next <= |turns| + 1 && forall id :: id in s.dirs ==> id <= |turns|
  {
    if turns != [] {
      var m := |turns| - 1;
      IdsAtMost(expected, maxRetained, turns[..m]);
      RunIdsBelow(expected, maxRetained, turns[..m]);
      var s := RunAll(expected, maxRetained, START, turns[..m]);
      if s.running {
        TryStores(s.next, expected, s.dirs, turns[m].attempt);
      }
    }
  }

  // ----- which checkpoints there are -----

  /** Turn i was reached and its attempt succeeded. */
  ghost predicate Made(expected: nat, turns: seq<Turn>, i: nat)
    requires i < |turns|
  {
    GoesOnUpTo(expected, turns, i) && Succeeds(i + 1, expected, turns[i].attempt)
  }

  /** The checkpoints made by the ticks, or by the cancellation, among the first p turns. */
  ghost function MadeBy(expected: nat, turns: seq<Turn>, p: nat, tick: bool): set<nat>
    requires p <= |turns|
  {
    if p == 0 then {}
    else MadeBy(expected, turns, p - 1, tick)
         + if turns[p - 1].Tick? == tick && Made(expected, turns, p - 1) then {p} else {}
  }

  ghost function Above(s: set<nat>, id: nat): set<nat> { set j | j in s && id < j }

  /** The `keep` largest. */
  ghost function Newest(s: set<nat>, keep: nat): set<nat>
  {
    set id | id in s && |Above(s, id)| < keep
  }

  /** Keeping the newest as each comes in keeps the newest of all. */
  lemma {:induction false} NewestMore(s: set<nat>, keep: nat, id: nat)
    requires forall j :: j in s ==> j < id
    ensures Newest(Newest(s, keep) + {id}, keep) == Newest(s + {id}, keep)
  {
    forall x | x in s ensures x in Newest(Newest(s, keep) + {id}, keep) <==> x in Newest(s + {id}, keep) {
      NewestAt(s, keep, id, x);
    }
    assert Above(Newest(s, keep) + {id}, id) == {} == Above(s + {id}, id);
  }

  lemma {:induction false} NewestAt(s: set<nat>, keep: nat, id: nat, x: nat)
    requires x in s && forall j :: j in s ==> j < id
    ensures x in Newest(Newest(s, keep) + {id}, keep) <==> x in Newest(s + {id}, keep)
  {
    assert Above(s + {id}, x) == Above(s, x) + {id};
    if x in Newest(s, keep) {
      AboveNewest(s, keep, x);
      assert Above(Newest(s, keep) + {id}, x) == Above(s, x) + {id};
    }
  }

  lemma {:induction false} AboveNewest(s: set<nat>, keep: nat, x: nat)
    requires x in Newest(s, keep)
    ensures Above(s, x) <= Newest(s, keep)
  {
    forall y | y in Above(s, x) ensures y in Newest(s, keep) {
      SubsetSize(Above(s, y), Above(s, x));
    }
  }

  lemma {:induction false} CleanedIsNewest(dirs: Directory, keep: nat)
    ensures Committed(Cleaned(dirs, keep, map[])) == Newest(Committed(dirs), keep)
  {
    CleanupKeepsNewest(dirs, keep);
    forall id | id in Committed(dirs) ensures Above(Committed(dirs), id) == Newer(dirs, id) {
    }
  }

  lemma {:induction false} MadeAtMost(expected: nat, turns: seq<Turn>, p: nat, tick: bool)
    requires p <= |turns|
    ensures forall id :: id in MadeBy(expected, turns, p, tick) ==> 1 <= id <= p
  {
    if p > 0 {
      MadeAtMost(expected, turns, p - 1, tick);
    }
  }

  /** While a coordinator goes on there has been no cancellation. */
  lemma {:induction false} NoneCancelled(expected: nat, turns: seq<Turn>, p: nat)
    requires p <= |turns| && GoesOnUpTo(expected, turns, p)
    ensures MadeBy(expected, turns, p, false) == {}
  {
    if p > 0 {
      assert GoesOn(expected, turns, p - 1);
      NoneCancelled(expected, turns, p - 1);
    }
  }

  /** One more turn: a tick's success goes in and the newest stay; a cancellation's goes in. */
  ghost function After(before: set<nat>, made: bool, tick: bool, id: nat, keep: nat): set<nat>
  {
    if !made then before else if tick then Newest(before + {id}, keep) else before + {id}
  }

  ghost function Expected(expected: nat, maxRetained: nat, turns: seq<Turn>, p: nat): set<nat>
    requires p <= |turns|
  {
    Newest(MadeBy(expected, turns, p, true), maxRetained) + MadeBy(expected, turns, p, false)
  }

  lemma {:induction false} KeptNext(expected: nat, maxRetained: nat, turns: seq<Turn>, p: nat)
    requires p < |turns|
    ensures Expected(expected, maxRetained, turns, p + 1)
         == After(Expected(expected, maxRetained, turns, p), Made(expected, turns, p), turns[p].Tick?, p + 1,
                  maxRetained)
  {
    var ticks, last := MadeBy(expected, turns, p, true), MadeBy(expected, turns, p, false);
    var ticks', last' := MadeBy(expected, turns, p + 1, true), MadeBy(expected, turns, p + 1, false);
    MadeMore(expected, turns, p);
    if Made(expected, turns, p) {
      NoneCancelled(expected, turns, p);
      MadeAtMost(expected, turns, p, true);
    }
    OneMore(ticks, last, maxRetained, p + 1, Made(expected, turns, p), turns[p].Tick?, ticks', last');
  }

  lemma {:induction false} OneMore(ticks: set<nat>, last: set<nat>, keep: nat, id: nat, made: bool, tick: bool,
                                   ticks': set<nat>, last': set<nat>)
    requires made ==> last == {} && forall j :: j in ticks ==> j < id
    requires ticks' == (if made && tick then ticks + {id} else ticks)
    requires last' == (if made && !tick then last + {id} else last)
    ensures Newest(ticks', keep) + last' == After(Newest(ticks, keep) + last, made, tick, id, keep)
  {
    if made && tick {
      NewestMore(ticks, keep, id);
      assert Newest(ticks, keep) + last == Newest(ticks, keep);
      assert Newest(ticks', keep) + last' == Newest(ticks', keep);
    }
  }

  lemma {:induction false} MadeMore(expected: nat, turns: seq<Turn>, p: nat)
    requires p < |turns|
    ensures var ticks, last := MadeBy(expected, turns, p, true), MadeBy(expected, turns, p, false);
            if !Made(expected, turns, p) then
              MadeBy(expected, turns, p + 1, true) == ticks && MadeBy(expected, turns, p + 1, false) == last
            else if turns[p].Tick? then
              MadeBy(expected, turns, p + 1, true) == ticks + {p + 1} && MadeBy(expected, turns, p + 1, false) == last
            else
              MadeBy(expected, turns, p + 1, true) == ticks && MadeBy(expected, turns, p + 1, false) == last + {p + 1}
  {
  }

  /** What one turn adds and what it takes away. */
  lemma {:induction false} TurnCommits(expected: nat, maxRetained: nat, turns: seq<Turn>, p: nat)
    requires p < |turns| && (turns[p].Tick? ==> turns[p].failed == map[])
    ensures Committed(RunAll(expected, maxRetained, START, turns[..p + 1]).dirs)
         == After(Committed(RunAll(expected, maxRetained, START, turns[..p]).dirs), Made(expected, turns, p),
                  turns[p].Tick?, p + 1, maxRetained)
  {
    RunsOnIff(expected, maxRetained, turns, p);
    RunAllNext(expected, maxRetained, turns, p);
    var s := RunAll(expected, maxRetained, START, turns[..p]);
    if s.running {
      StepCommits(expected, maxRetained, s, turns[p]);
    } else {
      NotReached(expected, maxRetained, turns, p);
    }
  }

  lemma {:induction false} StepCommits(expected: nat, maxRetained: nat, s: State, t: Turn)
    requires s.running && IdsBelow(s) && (t.Tick? ==> t.failed == map[])
    ensures Committed(Step(expected, maxRetained, s, t).dirs)
         == if !Succeeds(s.next, expected, t.attempt) then Committed(s.dirs)
            else if t.Tick? then Newest(Committed(s.dirs) + {s.next}, maxRetained)
            else Committed(s.dirs) + {s.next}
  {
    var dirs := Try(s.next, expected, s.dirs, t.attempt).0;
    AttemptOutcome(s.next, expected, s.dirs, t.attempt);
    TryCommits(s.next, expected, s.dirs, t.attempt);
    CleanedIsNewest(dirs, maxRetained);
  }

  lemma {:induction false} TryCommits(id: nat, expected: nat, dirs: Directory, a: Attempt)
    requires id !in dirs
    ensures var (dirs', outcome) := Try(id, expected, dirs, a);
            Committed(dirs') == Committed(dirs) + if outcome == Success then {id} else {}
  {
    TryStores(id, expected, dirs, a);
  }

  lemma {:induction false} CommittedAreExpected(expected: nat, maxRetained: nat, turns: seq<Turn>, p: nat)
    requires p <= |turns| && forall i :: 0 <= i < p && turns[i].Tick? ==> turns[i].failed == map[]
    ensures Committed(RunAll(expected, maxRetained, START, turns[..p]).dirs)
         == Expected(expected, maxRetained, turns, p)
  {
    if p > 0 {
      CommittedAreExpected(expected, maxRetained, turns, p - 1);
      TurnCommits(expected, maxRetained, turns, p - 1);
      KeptNext(expected, maxRetained, turns, p - 1);
    }
  }

  /** Over any run in which the removals work, the committed checkpoints are the newest
      `maxRetained` of those that the ticks made, and the one of the cancellation. */
  lemma {:induction false} CommittedAre(expected: nat, maxRetained: nat, turns: seq<Turn>)
    requires forall i :: 0 <= i < |turns| && turns[i].Tick? ==> turns[i].failed == map[]
    ensures Committed(RunAll(expected, maxRetained, START, turns).dirs)
         == Newest(MadeBy(expected, turns, |turns|, true), maxRetained) + MadeBy(expected, turns, |turns|, false)
  {
    CommittedAreExpected(expected, maxRetained, turns, |turns|);
    assert turns[..|turns|] == turns;
  }
}
