/** The merge's watermark logic is a two-input tracker, and the merged stream
    keeps the watermark promise when both inputs do. */
module MergeWatermarks {
  import opened Streams
  import opened Watermarks
  import opened Merge
  import MergeCut

  // ----- refinement of the tracker -----

  function Head<V>(i: nat, input: seq<StreamElement<V>>): seq<Arrival>
  {
    if input != [] && input[0].Wm? then [Arrival(i, input[0].timestamp)] else []
  }

  /** The watermark a turn reads, if it reads one. */
  function Reads<L, R>(s: State<L, R>, pick: Side): seq<Arrival>
  {
    if Done(s) then []
    else if s.lane1.pending.Some? && s.lane2.pending.None? then Head(1, s.lane2.input)
    else if s.lane2.pending.Some? && s.lane1.pending.None? then Head(0, s.lane1.input)
    else if s.lane1.open && (!s.lane2.open || pick.First?) then Head(0, s.lane1.input)
    else Head(1, s.lane2.input)
  }

  /** The watermarks read in the first n turns, in the order the schedule makes of them. */
  function Arrived<L, R>(s: State<L, R>, select: nat -> Side, n: nat): (arrivals: seq<Arrival>)
    ensures ForInputs(arrivals, 2)
  {
    if n == 0 then [] else Arrived(s, select, n - 1) + Reads(Run(s, select, n - 1), select(n - 1))
  }

  function Tracking<L, R>(s: State<L, R>): Tracked
  {
    Tracked([s.lane1.watermark, s.lane2.watermark], s.last)
  }

  lemma {:induction false} Handle1Tracks<L, R>(s: State<L, R>)
    requires s.lane1.input != []
    ensures var got := Head(0, s.lane1.input);
            Tracking(Handle1(s)) == if got == [] then Tracking(s) else Observe(Tracking(s), 0, got[0].timestamp)
  {
    var inputs := Tracking(Handle1(s)).inputs;
    assert MinOf(inputs) == Min(inputs[0], inputs[1]);
    if s.lane1.input[0].Wm? {
      assert Tracking(s).inputs[0 := s.lane1.input[0].timestamp] == inputs;
    }
  }

  lemma {:induction false} Handle2Tracks<L, R>(s: State<L, R>)
    requires s.lane2.input != []
    ensures var got := Head(1, s.lane2.input);
            Tracking(Handle2(s)) == if got == [] then Tracking(s) else Observe(Tracking(s), 1, got[0].timestamp)
  {
    var inputs := Tracking(Handle2(s)).inputs;
    assert MinOf(inputs) == Min(inputs[0], inputs[1]);
    if s.lane2.input[0].Wm? {
      assert Tracking(s).inputs[1 := s.lane2.input[0].timestamp] == inputs;
    }
  }

  lemma {:induction false} StepTracks<L, R>(s: State<L, R>, pick: Side)
    requires Inv(s)
    ensures var tr, tr' := Tracking(s), Tracking(Step(s, pick));
            var got := Reads(s, pick);
            tr' == if got == [] then tr else Observe(tr, got[0].input, got[0].timestamp)
  {
    if s.lane1.input != [] {
      Handle1Tracks(s);
      assert Tracking(TryFlush(Handle1(s))) == Tracking(Handle1(s));
    }
    if s.lane2.input != [] {
      Handle2Tracks(s);
      assert Tracking(TryFlush(Handle2(s))) == Tracking(Handle2(s));
    }
  }

  /** The next element is a record of this time. */
  predicate HasTime<V>(input: seq<StreamElement<V>>, t: Timestamp)
  {
    input != [] && input[0].Rec? && input[0].record.timestamp == t
  }

  /** What a turn appends to the output. */
  lemma {:induction false} StepAppends<L, R>(s: State<L, R>,
                                             pick: Side) returns (added: seq<StreamElement<Either<L, R>>>)
    requires Inv(s)
    ensures Step(s, pick).out == s.out + added && |added| <= 1
    ensures added != [] && added[0].Wm? ==> Reads(s, pick) != [] && added[0].timestamp == Step(s, pick).last > s.last
    ensures added == [] || !added[0].Wm? ==> Step(s, pick).last == s.last
    ensures added != [] && added[0].Rec? ==>
              HasTime(s.lane1.input, added[0].record.timestamp) || HasTime(s.lane2.input, added[0].record.timestamp)
  {
    var out, out' := s.out, Step(s, pick).out;
    assert out <= out' && |out'| <= |out| + 1;
    added := out'[|out|..];
  }

  /** The merge state stands where a tracker fed `arrivals` stands. */
  ghost predicate Mirrors<L, R>(s: State<L, R>, arrivals: seq<Arrival>)
  {
    && ForInputs(arrivals, 2)
    && Tracking(s) == After(2, arrivals)
    && Streams.Watermarks(s.out) == Outputs(2, arrivals)
  }

  lemma {:induction false} StepMirrors<L, R>(s: State<L, R>, pick: Side, arrivals: seq<Arrival>)
    requires Inv(s) && Mirrors(s, arrivals)
    ensures Mirrors(Step(s, pick), arrivals + Reads(s, pick))
  {
    StepTracks(s, pick);
    var added := StepAppends(s, pick);
    MirrorsFollow(s, Step(s, pick), arrivals, Reads(s, pick), added);
  }

  lemma {:induction false} MirrorsFollow<L, R>(s: State<L, R>, s': State<L, R>, arrivals: seq<Arrival>,
                                               got: seq<Arrival>, added: seq<StreamElement<Either<L, R>>>)
    requires Mirrors(s, arrivals) && |got| <= 1 && ForInputs(got, 2)
    requires Tracking(s') == if got == [] then Tracking(s) else Observe(Tracking(s), got[0].input, got[0].timestamp)
    requires s'.out == s.out + added && |added| <= 1
    requires added != [] && added[0].Wm? ==> added[0].timestamp == s'.last > s.last
    requires added == [] || !added[0].Wm? ==> s'.last == s.last
    ensures Mirrors(s', arrivals + got)
  {
    WatermarksAppended(s.out, added);
    TrackerFollows(arrivals, got);
  }

  lemma {:induction false} TrackerFollows(arrivals: seq<Arrival>, got: seq<Arrival>)
    requires ForInputs(arrivals, 2) && |got| <= 1 && ForInputs(got, 2)
    ensures ForInputs(arrivals + got, 2)
    ensures var tr := After(2, arrivals);
            var tr' := if got == [] then tr else Observe(tr, got[0].input, got[0].timestamp);
            && After(2, arrivals + got) == tr'
            && Outputs(2, arrivals + got) == Outputs(2, arrivals) + Forwarded(tr, tr')
  {
    if got == [] {
      assert arrivals + got == arrivals;
    } else {
      assert got == [got[0]];
      OneMore(2, arrivals, got[0]);
    }
  }

  lemma {:induction false} WatermarksAppended<V>(out: seq<StreamElement<V>>, added: seq<StreamElement<V>>)
    requires |added| <= 1
    ensures Streams.Watermarks(out + added)
         == Streams.Watermarks(out) + if added != [] && added[0].Wm? then [added[0].timestamp] else []
  {
    if added == [] {
      assert out + added == out;
    } else {
      assert added == [added[0]];
      FilterMapSnoc(out, added[0], AsWatermark);
    }
  }

  /** Over any schedule the merge's watermark state and its forwarded watermarks
      are those of a tracker fed the watermarks in the order they were read. */
  lemma {:induction false} RefinesTracker<L, R>(in1: seq<StreamElement<L>>, in2: seq<StreamElement<R>>,
                                                select: nat -> Side, n: nat)
    ensures Inv(Run(Start(in1, in2), select, n))
    ensures Mirrors(Run(Start(in1, in2), select, n), Arrived(Start(in1, in2), select, n))
  {
    if n == 0 {
      assert Tracking(Start(in1, in2)).inputs == Fresh(2).inputs;
    } else {
      RefinesTracker(in1, in2, select, n - 1);
      var s := Run(Start(in1, in2), select, n - 1);
      StepKeepsInv(s, select(n - 1));
      StepMirrors(s, select(n - 1), Arrived(Start(in1, in2), select, n - 1));
    }
  }

  /** Forwarded watermarks strictly increase, even when an input's own go back. */
  lemma {:induction false} WatermarksAscend<L, R>(in1: seq<StreamElement<L>>, in2: seq<StreamElement<R>>,
                                                  select: nat -> Side, n: nat)
    ensures StrictlyAscending(Streams.Watermarks(Run(Start(in1, in2), select, n).out))
  {
    RefinesTracker(in1, in2, select, n);
    OutputsAscend(2, Arrived(Start(in1, in2), select, n));
  }

  function FromFirst(a: Arrival): Option<Timestamp> { if a.input == 0 then Some(a.timestamp) else None }

  function FromSecond(a: Arrival): Option<Timestamp> { if a.input == 1 then Some(a.timestamp) else None }

  /** `arrivals` are, input by input and in order, the watermarks already read. */
  ghost predicate Accounts<L, R>(s: State<L, R>, arrivals: seq<Arrival>, in1: seq<StreamElement<L>>,
                                 in2: seq<StreamElement<R>>)
  {
    && FilterMap(arrivals, FromFirst) + Streams.Watermarks(s.lane1.input) == Streams.Watermarks(in1)
    && FilterMap(arrivals, FromSecond) + Streams.Watermarks(s.lane2.input) == Streams.Watermarks(in2)
  }

  lemma {:induction false} ArrivalAppended(arrivals: seq<Arrival>, got: seq<Arrival>)
    requires |got| <= 1
    ensures FilterMap(arrivals + got, FromFirst)
         == FilterMap(arrivals, FromFirst) + if got != [] && got[0].input == 0 then [got[0].timestamp] else []
    ensures FilterMap(arrivals + got, FromSecond)
         == FilterMap(arrivals, FromSecond) + if got != [] && got[0].input == 1 then [got[0].timestamp] else []
  {
    if got == [] {
      assert arrivals + got == arrivals;
    } else {
      assert got == [got[0]];
      FilterMapSnoc(arrivals, got[0], FromFirst);
      FilterMapSnoc(arrivals, got[0], FromSecond);
    }
  }

  lemma {:induction false} Shift(a: seq<Timestamp>, b: seq<Timestamp>, c: seq<Timestamp>, d: seq<Timestamp>,
                                 e: seq<Timestamp>)
    requires a + d == e && d == b + c
    ensures (a + b) + c == e
  {
  }

  lemma {:induction false} StepAccounts<L, R>(s: State<L, R>, pick: Side, arrivals: seq<Arrival>,
                                              in1: seq<StreamElement<L>>, in2: seq<StreamElement<R>>)
    requires Inv(s) && Accounts(s, arrivals, in1, in2)
    ensures Accounts(Step(s, pick), arrivals + Reads(s, pick), in1, in2)
  {
    var got := Reads(s, pick);
    StepConsumes(s, pick);
    ArrivalAppended(arrivals, got);
    Shift(FilterMap(arrivals, FromFirst), if got != [] && got[0].input == 0 then [got[0].timestamp] else [],
          Streams.Watermarks(Step(s, pick).lane1.input), Streams.Watermarks(s.lane1.input), Streams.Watermarks(in1));
    Shift(FilterMap(arrivals, FromSecond), if got != [] && got[0].input == 1 then [got[0].timestamp] else [],
          Streams.Watermarks(Step(s, pick).lane2.input), Streams.Watermarks(s.lane2.input), Streams.Watermarks(in2));
  }

  /** The order in which watermarks are read respects both inputs and loses nothing. */
  lemma {:induction false} ArrivedInOrder<L, R>(in1: seq<StreamElement<L>>, in2: seq<StreamElement<R>>,
                                                select: nat -> Side, n: nat)
    ensures Inv(Run(Start(in1, in2), select, n))
    ensures Accounts(Run(Start(in1, in2), select, n), Arrived(Start(in1, in2), select, n), in1, in2)
  {
    if n != 0 {
      ArrivedInOrder(in1, in2, select, n - 1);
      var s := Run(Start(in1, in2), select, n - 1);
      StepKeepsInv(s, select(n - 1));
      StepAccounts(s, select(n - 1), Arrived(Start(in1, in2), select, n - 1), in1, in2);
    }
  }

  lemma {:induction false} StepConsumes<L, R>(s: State<L, R>, pick: Side)
    requires Inv(s)
    ensures var s' := Step(s, pick);
            var got := Reads(s, pick);
            && (s'.lane1.input == s.lane1.input || (s.lane1.input != [] && s'.lane1.input == s.lane1.input[1..]))
            && (s'.lane2.input == s.lane2.input || (s.lane2.input != [] && s'.lane2.input == s.lane2.input[1..]))
            && Streams.Watermarks(s.lane1.input)
               == (if got != [] && got[0].input == 0 then [got[0].timestamp] else [])
                   + Streams.Watermarks(s'.lane1.input)
            && Streams.Watermarks(s.lane2.input)
               == (if got != [] && got[0].input == 1 then [got[0].timestamp] else [])
                   + Streams.Watermarks(s'.lane2.input)
  {
  }

  // ----- the watermark promise -----

  /** Every record of `xs` is later than `t`; a zero `t` promises nothing yet. */
  ghost predicate AllLater<V>(xs: seq<StreamElement<V>>, t: Timestamp)
  {
    t > 0 ==> forall i :: 0 <= i < |xs| && xs[i].Rec? ==> t < xs[i].record.timestamp
  }

  ghost predicate Promising<L, R>(s: State<L, R>)
  {
    && KeepsPromise(s.lane1.input) && KeepsPromise(s.lane2.input)
    && AllLater(s.lane1.input, s.lane1.watermark) && AllLater(s.lane2.input, s.lane2.watermark)
    && AllLater(s.lane1.input, s.last) && AllLater(s.lane2.input, s.last)
    && Forwards(s.out, s.last) && KeepsPromise(s.out)
  }

  /** The watermarks sent so far are positive and at most `last`. */
  ghost predicate Forwards<V>(out: seq<StreamElement<V>>, last: Timestamp)
  {
    forall i :: 0 <= i < |out| && out[i].Wm? ==> 0 < out[i].timestamp <= last
  }

  lemma {:induction false} TailKeepsPromise<V>(xs: seq<StreamElement<V>>)
    requires xs != [] && KeepsPromise(xs)
    ensures KeepsPromise(xs[1..])
    ensures xs[0].Wm? ==> AllLater(xs[1..], xs[0].timestamp)
    ensures forall t: Timestamp :: AllLater(xs, t) ==> AllLater(xs[1..], t)
  {
    forall i, j | 0 <= i < j < |xs[1..]| && xs[1..][i].Wm? && xs[1..][j].Rec?
      ensures xs[1..][i].timestamp < xs[1..][j].record.timestamp
    {
      assert xs[1..][i] == xs[i + 1] && xs[1..][j] == xs[j + 1];
    }
    forall t: Timestamp | AllLater(xs, t) ensures AllLater(xs[1..], t) {
      if t > 0 {
        forall i | 0 <= i < |xs[1..]| && xs[1..][i].Rec? ensures t < xs[1..][i].record.timestamp {
          assert xs[1..][i] == xs[i + 1];
        }
      }
    }
  }

  /** A turn leaves a lane alone or reads its head. */
  predicate Advances<V(==), E>(lane: Lane<V, E>, lane': Lane<V, E>)
  {
    || (lane'.input == lane.input && lane'.watermark == lane.watermark)
    || (&& lane.input != [] && lane'.input == lane.input[1..]
        && lane'.watermark == if lane.input[0].Wm? then lane.input[0].timestamp else lane.watermark)
  }

  lemma {:induction false} StepAdvances<L, R>(s: State<L, R>, pick: Side)
    requires Inv(s)
    ensures Advances(s.lane1, Step(s, pick).lane1) && Advances(s.lane2, Step(s, pick).lane2)
  {
  }

  lemma {:induction false} AdvancingKeepsPromise<V, E>(lane: Lane<V, E>, lane': Lane<V, E>, last: Timestamp)
    requires Advances(lane, lane') && KeepsPromise(lane.input)
    requires AllLater(lane.input, lane.watermark) && AllLater(lane.input, last)
    ensures KeepsPromise(lane'.input) && AllLater(lane'.input, lane'.watermark) && AllLater(lane'.input, last)
  {
    if lane.input != [] {
      TailKeepsPromise(lane.input);
    }
  }

  lemma {:induction false} StepKeepsInputs<L, R>(s: State<L, R>, pick: Side)
    requires Inv(s) && Promising(s)
    ensures var s' := Step(s, pick);
            && KeepsPromise(s'.lane1.input) && KeepsPromise(s'.lane2.input)
            && AllLater(s'.lane1.input, s'.lane1.watermark) && AllLater(s'.lane2.input, s'.lane2.watermark)
            && AllLater(s'.lane1.input, s.last) && AllLater(s'.lane2.input, s.last)
  {
    StepAdvances(s, pick);
    AdvancingKeepsPromise(s.lane1, Step(s, pick).lane1, s.last);
    AdvancingKeepsPromise(s.lane2, Step(s, pick).lane2, s.last);
  }

  /** Appending one element after the watermarks forwarded so far, all at most `last`. */
  lemma {:induction false} AppendKeepsPromise<V>(out: seq<StreamElement<V>>, added: seq<StreamElement<V>>,
                                                 last: Timestamp, last': Timestamp)
    requires KeepsPromise(out) && Forwards(out, last) && |added| <= 1 && last <= last'
    requires added != [] && added[0].Wm? ==> 0 < added[0].timestamp <= last'
    requires added != [] && added[0].Rec? ==> last == 0 || last < added[0].record.timestamp
    ensures KeepsPromise(out + added) && Forwards(out + added, last')
  {
    forall i, j | 0 <= i < j < |out + added| && (out + added)[i].Wm? && (out + added)[j].Rec?
      ensures (out + added)[i].timestamp < (out + added)[j].record.timestamp
    {
      assert (out + added)[i] == out[i] && 0 < out[i].timestamp <= last;
    }
  }

  /** What turns of the merge append is later than what was forwarded before. */
  lemma {:induction false} StepAppendsLater<L, R>(s: State<L, R>, pick: Side)
    requires Inv(s) && Promising(s)
    ensures KeepsPromise(Step(s, pick).out) && Forwards(Step(s, pick).out, Step(s, pick).last)
  {
    var added := StepAppends(s, pick);
    AppendKeepsPromise(s.out, added, s.last, Step(s, pick).last);
  }

  lemma {:induction false} StepKeepsPromise<L, R>(s: State<L, R>, pick: Side)
    requires Inv(s) && Promising(s)
    ensures Promising(Step(s, pick))
  {
    StepKeepsInputs(s, pick);
    StepTracks(s, pick);
    StepAppendsLater(s, pick);
  }

  /** The merged stream keeps the promise both inputs keep, for every schedule. */
  lemma {:induction false} MergeKeepsPromise<L, R>(in1: seq<StreamElement<L>>, in2: seq<StreamElement<R>>,
                                                   select: nat -> Side, n: nat)
    requires KeepsPromise(in1) && KeepsPromise(in2)
    ensures Inv(Run(Start(in1, in2), select, n)) && Promising(Run(Start(in1, in2), select, n))
    ensures KeepsPromise(Run(Start(in1, in2), select, n).out)
  {
    if n != 0 {
      MergeKeepsPromise(in1, in2, select, n - 1);
      StepKeepsInv(Run(Start(in1, in2), select, n - 1), select(n - 1));
      StepKeepsPromise(Run(Start(in1, in2), select, n - 1), select(n - 1));
    }
  }
}
