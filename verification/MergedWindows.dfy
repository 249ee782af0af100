/** Two inputs through the merge into a window join or cogroup: what comes out does
    not depend on the schedule. */
module MergedWindows {
  import opened Streams
  import opened Windows
  import opened KeyedWindows
  import opened WindowOperators
  import opened WindowOutputs
  import opened MergeOrder
  import opened Watermarks
  import Merge
  import MergeCut
  import MergeWatermarks

  // ----- which windows are reached -----

  /** No earlier watermark of the input is beyond its last one. */
  ghost predicate EndsHighest<V>(xs: seq<StreamElement<V>>)
  {
    var ws := Streams.Watermarks(xs);
    forall k :: 0 <= k < |ws| ==> ws[k] <= ws[|ws| - 1]
  }

  function LastOf(ws: seq<Timestamp>): Timestamp { if ws == [] then 0 else ws[|ws| - 1] }

  /** The watermarks of one input among the arrivals. */
  function FromInput(i: nat): Arrival -> Option<Timestamp>
  {
    (a: Arrival) => if a.input == i then Some(a.timestamp) else None
  }

  lemma {:induction false} LatestIsLast(arrivals: seq<Arrival>, i: nat)
    ensures Latest(arrivals, i) == LastOf(FilterMap(arrivals, FromInput(i)))
  {
    if arrivals != [] {
      var m := |arrivals| - 1;
      LatestIsLast(arrivals[..m], i);
      FilterMapSnoc(arrivals[..m], arrivals[m], FromInput(i));
      InitAndLast(arrivals);
    }
  }

  /** The tracker never stands below the minimum of its inputs, and has forwarded where it stands. */
  lemma {:induction false} CurrentIsForwarded(n: nat, arrivals: seq<Arrival>)
    requires ForInputs(arrivals, n) && n > 0
    ensures MinOf(After(n, arrivals).inputs) <= After(n, arrivals).current
    ensures After(n, arrivals).current > 0 ==> After(n, arrivals).current in Outputs(n, arrivals)
  {
    AtLeastMinimum(n, arrivals);
    LastIsCurrent(n, arrivals);
  }

  lemma {:induction false} ReachedByWatermark<V>(xs: seq<StreamElement<V>>, t: Timestamp)
    ensures Reached(xs, t) <==> exists k :: 0 <= k < |Streams.Watermarks(xs)| && Streams.Watermarks(xs)[k] >= t
  {
    var ws := Streams.Watermarks(xs);
    if Reached(xs, t) {
      var a :| 0 <= a < |xs| && xs[a].Wm? && xs[a].timestamp >= t;
      ItemAt(xs, AsWatermark, a, |Streams.Watermarks(xs[..a])|);
      assert ws[|Streams.Watermarks(xs[..a])|] >= t;
    }
    if k :| 0 <= k < |ws| && ws[k] >= t {
      var a := NthItem(xs, AsWatermark, k);
      assert xs[a].Wm? && xs[a].timestamp >= t;
    }
  }

  lemma {:induction false} MoreFromInput(arrivals: seq<Arrival>, k: nat, i: nat)
    requires k <= |arrivals|
    ensures FilterMap(arrivals[..k], FromInput(i)) <= FilterMap(arrivals, FromInput(i))
  {
    assert arrivals == arrivals[..k] + arrivals[k..];
    FilterMapAppend(arrivals[..k], arrivals[k..], FromInput(i));
  }

  lemma {:induction false} ReachedWasSent(n: nat, arrivals: seq<Arrival>, w: Timestamp, i: nat)
    requires ForInputs(arrivals, n) && i < n && 0 < w <= After(n, arrivals).inputs[i]
    ensures var seen := FilterMap(arrivals, FromInput(i)); seen != [] && seen[|seen| - 1] >= w
  {
    LatestIsInput(n, arrivals, i);
    LatestIsLast(arrivals, i);
  }

  /** What the tracker forwards, all its inputs have reached. */
  lemma {:induction false} ForwardedWasReached(n: nat, arrivals: seq<Arrival>, w: Timestamp, i: nat)
    requires ForInputs(arrivals, n) && w in Outputs(n, arrivals) && i < n
    ensures exists k :: 0 <= k < |FilterMap(arrivals, FromInput(i))| && FilterMap(arrivals, FromInput(i))[k] >= w
  {
    OutputsAscend(n, arrivals);
    var k := OutputsReached(n, arrivals, w);
    ReachedWasSent(n, arrivals[..k], w, i);
    MoreFromInput(arrivals, k, i);
    var seen, ws := FilterMap(arrivals[..k], FromInput(i)), FilterMap(arrivals, FromInput(i));
    assert ws[|seen| - 1] == seen[|seen| - 1] >= w;
  }

  /** The watermarks of a finished merge, by the order in which they were read. */
  lemma {:induction false} MergedTracks<L, R>(in1: seq<StreamElement<L>>, in2: seq<StreamElement<R>>,
                                              select: nat -> Merge.Side) returns (arrivals: seq<Arrival>)
    ensures ForInputs(arrivals, 2) && Streams.Watermarks(Merged(in1, in2, select)) == Outputs(2, arrivals)
    ensures FilterMap(arrivals, FromInput(0)) == Streams.Watermarks(in1)
    ensures FilterMap(arrivals, FromInput(1)) == Streams.Watermarks(in2)
  {
    arrivals := FinishedTracks(in1, in2, select, 2 * |in1| + 2 * |in2| + 2);
  }

  lemma {:induction false} FinishedTracks<L, R>(in1: seq<StreamElement<L>>, in2: seq<StreamElement<R>>,
            select: nat -> Merge.Side, n: nat) returns (arrivals: seq<Arrival>)
    requires n >= 2 * |in1| + 2 * |in2| + 2
    ensures ForInputs(arrivals, 2)
    ensures Streams.Watermarks(Merge.Run(Merge.Start(in1, in2), select, n).out) == Outputs(2, arrivals)
    ensures FilterMap(arrivals, FromInput(0)) == Streams.Watermarks(in1)
    ensures FilterMap(arrivals, FromInput(1)) == Streams.Watermarks(in2)
  {
    arrivals := MergeWatermarks.Arrived(Merge.Start(in1, in2), select, n);
    MergeCut.Terminates(in1, in2, select, n);
    MergeCut.MergedViews(in1, in2, select, n);
    MergeWatermarks.RefinesTracker(in1, in2, select, n);
    MergeWatermarks.ArrivedInOrder(in1, in2, select, n);
    SameFilter(arrivals, MergeWatermarks.FromFirst, FromInput(0));
    SameFilter(arrivals, MergeWatermarks.FromSecond, FromInput(1));
  }

  lemma {:induction false} SameFilter<A, B>(xs: seq<A>, f: A -> Option<B>, g: A -> Option<B>)
    requires forall x :: x in xs ==> f(x) == g(x)
    ensures FilterMap(xs, f) == FilterMap(xs, g)
  {
    if xs != [] {
      SameFilter(xs[1..], f, g);
    }
  }

  /** Inputs whose last watermark is their highest: under every schedule the merged
      stream reaches exactly what both inputs reach. */
  lemma {:induction false} ReachedIff<L, R>(in1: seq<StreamElement<L>>, in2: seq<StreamElement<R>>,
                                            select: nat -> Merge.Side, t: Timestamp)
    requires t > 0 && EndsHighest(in1) && EndsHighest(in2)
    ensures Reached(Merged(in1, in2, select), t) <==> Reached(in1, t) && Reached(in2, t)
  {
    var out := Merged(in1, in2, select);
    var arrivals := MergedTracks(in1, in2, select);
    var ws := Outputs(2, arrivals);
    ReachedByWatermark(out, t);
    ReachedByWatermark(in1, t);
    ReachedByWatermark(in2, t);
    if k :| 0 <= k < |ws| && ws[k] >= t {
      ForwardedWasReached(2, arrivals, ws[k], 0);
      ForwardedWasReached(2, arrivals, ws[k], 1);
    }
    if Reached(in1, t) && Reached(in2, t) {
      LatestIsInput(2, arrivals, 0);
      LatestIsInput(2, arrivals, 1);
      LatestIsLast(arrivals, 0);
      LatestIsLast(arrivals, 1);
      CurrentIsForwarded(2, arrivals);
      assert After(2, arrivals).inputs == [After(2, arrivals).inputs[0], After(2, arrivals).inputs[1]];
      var k :| 0 <= k < |ws| && ws[k] == After(2, arrivals).current;
    }
  }

  // ----- which records a window holds -----

  /** A record of one input, as the window of this key files it. */
  function InWindow<V>(assign: Timestamp -> seq<Window>, wk: WindowKey): Record<V> -> Option<(V, Timestamp)>
  {
    (r: Record<V>) =>
      if Keyed(r, wk.key) && wk.window in assign(r.timestamp) then Some((r.value, r.timestamp)) else None
  }

  /** One input's records of a key and window, in arrival order. */
  function SideGroup<V>(assign: Timestamp -> seq<Window>, xs: seq<StreamElement<V>>, wk: WindowKey)
    : seq<(V, Timestamp)>
  {
    FilterMap(Records(xs), InWindow(assign, wk))
  }

  lemma {:induction false} GroupSides<L, R, A>(cfg: Config<Either<L, R>, A>, xs: seq<StreamElement<Either<L, R>>>,
                                               wk: WindowKey)
    ensures FilterMap(Group(cfg, xs, wk), TimedLeft) == FilterMap(Lefts(xs), InWindow(cfg.assign, wk))
    ensures FilterMap(Group(cfg, xs, wk), TimedRight) == FilterMap(Rights(xs), InWindow(cfg.assign, wk))
    ensures Group(cfg, xs, wk) == []
       <==> FilterMap(Group(cfg, xs, wk), TimedLeft) == [] && FilterMap(Group(cfg, xs, wk), TimedRight) == []
  {
    if xs != [] {
      var m := |xs| - 1;
      var before, e := xs[..m], xs[m];
      GroupSides(cfg, before, wk);
      GroupSidesSnoc(cfg, before, e, wk);
      InitAndLast(xs);
    }
  }

  lemma {:induction false} GroupSidesSnoc<L, R, A>(cfg: Config<Either<L, R>, A>,
            xs: seq<StreamElement<Either<L, R>>>, e: StreamElement<Either<L, R>>, wk: WindowKey)
    requires FilterMap(Group(cfg, xs, wk), TimedLeft) == FilterMap(Lefts(xs), InWindow(cfg.assign, wk))
    requires FilterMap(Group(cfg, xs, wk), TimedRight) == FilterMap(Rights(xs), InWindow(cfg.assign, wk))
    requires Group(cfg, xs, wk) == []
        <==> FilterMap(Group(cfg, xs, wk), TimedLeft) == [] && FilterMap(Group(cfg, xs, wk), TimedRight) == []
    ensures FilterMap(Group(cfg, xs + [e], wk), TimedLeft) == FilterMap(Lefts(xs + [e]), InWindow(cfg.assign, wk))
    ensures FilterMap(Group(cfg, xs + [e], wk), TimedRight) == FilterMap(Rights(xs + [e]), InWindow(cfg.assign, wk))
    ensures Group(cfg, xs + [e], wk) == []
       <==> && FilterMap(Group(cfg, xs + [e], wk), TimedLeft) == []
            && FilterMap(Group(cfg, xs + [e], wk), TimedRight) == []
  {
    GroupSnoc(cfg, xs, e, wk);
    FilterMapSnoc(xs, e, AsLeft);
    FilterMapSnoc(xs, e, AsRight);
    assert Lefts(xs) + [] == Lefts(xs) && Rights(xs) + [] == Rights(xs);
    if e.Rec? {
      if e.record.value.Left? {
        FilterMapSnoc(Lefts(xs), AsLeft(e).value, InWindow(cfg.assign, wk));
      } else {
        FilterMapSnoc(Rights(xs), AsRight(e).value, InWindow(cfg.assign, wk));
      }
      if Belongs(cfg, wk, e.record) {
        FilterMapSnoc(Group(cfg, xs, wk), e.record, TimedLeft);
        FilterMapSnoc(Group(cfg, xs, wk), e.record, TimedRight);
      }
    }
  }

  // ----- the output -----

  /** The accumulator is a function of the two sides of its group. */
  ghost predicate Sided<L(!new), R(!new), A>(cfg: Config<Either<L, R>, A>,
                                             view: (seq<(L, Timestamp)>, seq<(R, Timestamp)>) -> A)
  {
    forall rs: seq<Record<Either<L, R>>> :: Fold(cfg, rs) == view(FilterMap(rs, TimedLeft), FilterMap(rs, TimedRight))
  }

  /** What the records of both inputs make a window hand out, whatever order they came in. */
  ghost function SidesResult<L, R, A, O(!new)>(cfg: Config<Either<L, R>, A>,
            view: (seq<(L, Timestamp)>, seq<(R, Timestamp)>) -> A, emit: (WindowKey, A) -> seq<O>,
            in1: seq<StreamElement<L>>, in2: seq<StreamElement<R>>): WindowKey -> multiset<O>
  {
    (wk: WindowKey) =>
      multiset(emit(wk, view(SideGroup(cfg.assign, in1, wk), SideGroup(cfg.assign, in2, wk))))
  }

  /** The windows of a merged stream that have records of either input and were reached by both. */
  ghost predicate CompleteInBoth<L, R>(assign: Timestamp -> seq<Window>, in1: seq<StreamElement<L>>,
                                       in2: seq<StreamElement<R>>, wk: WindowKey)
  {
    && (SideGroup(assign, in1, wk) != [] || SideGroup(assign, in2, wk) != [])
    && Reached(in1, wk.window.end) && Reached(in2, wk.window.end)
  }

  lemma {:induction false} MergedGroup<L, R, A>(cfg: Config<Either<L, R>, A>, in1: seq<StreamElement<L>>,
            in2: seq<StreamElement<R>>, select: nat -> Merge.Side, wk: WindowKey)
    ensures var group := Group(cfg, Merged(in1, in2, select), wk);
            && FilterMap(group, TimedLeft) == SideGroup(cfg.assign, in1, wk)
            && FilterMap(group, TimedRight) == SideGroup(cfg.assign, in2, wk)
            && (group == [] <==> SideGroup(cfg.assign, in1, wk) == [] && SideGroup(cfg.assign, in2, wk) == [])
  {
    MergedSides(in1, in2, select);
    GroupSides(cfg, Merged(in1, in2, select), wk);
  }

  lemma {:induction false} EndIsPositive<V, A>(cfg: Config<V, A>, xs: seq<StreamElement<V>>, wk: WindowKey)
    requires WellFormed(cfg) && Group(cfg, xs, wk) != []
    ensures wk.window.end > 0
  {
    var a := NthItem(xs, Selects(cfg, wk), 0);
    var r := xs[a].record;
    var i :| 0 <= i < |cfg.assign(r.timestamp)| && cfg.assign(r.timestamp)[i] == wk.window;
    assert Contains(cfg.assign(r.timestamp)[i], r.timestamp);
  }

  lemma {:induction false} CompleteIff<L, R, A>(cfg: Config<Either<L, R>, A>, in1: seq<StreamElement<L>>,
            in2: seq<StreamElement<R>>, select: nat -> Merge.Side, wk: WindowKey)
    requires WellFormed(cfg) && EndsHighest(in1) && EndsHighest(in2)
    ensures wk in Complete(cfg, Merged(in1, in2, select)) <==> CompleteInBoth(cfg.assign, in1, in2, wk)
  {
    var out := Merged(in1, in2, select);
    PopulatedIff(cfg, out, wk);
    MergedGroup(cfg, in1, in2, select, wk);
    if Group(cfg, out, wk) != [] {
      EndIsPositive(cfg, out, wk);
      ReachedIff(in1, in2, select, wk.window.end);
    }
  }

  /** For on-time inputs the operator behind the merge puts out, under every schedule
      and iteration order, the results of exactly the windows that both inputs reach and
      either has records of, each from the two inputs' own records. */
  lemma {:induction false} OutputOfMerge<L(!new), R(!new), A, O(!new)>(cfg: Config<Either<L, R>, A>,
            view: (seq<(L, Timestamp)>, seq<(R, Timestamp)>) -> A, emit: (WindowKey, A) -> seq<Record<O>>,
            in1: seq<StreamElement<L>>, in2: seq<StreamElement<R>>, select: nat -> Merge.Side,
            orders: seq<seq<WindowKey>>)
    requires WellFormed(cfg) && Sided(cfg, view) && KeepsPromise(in1) && KeepsPromise(in2)
    requires EndsHighest(in1) && EndsHighest(in2) && Possible(cfg, Merged(in1, in2, select), orders)
    ensures multiset(Records(Output(cfg, emit, Merged(in1, in2, select), orders)))
         == Sum(Complete(cfg, Merged(in1, in2, select)), SidesResult(cfg, view, emit, in1, in2))
    ensures forall wk :: wk in Complete(cfg, Merged(in1, in2, select)) <==> CompleteInBoth(cfg.assign, in1, in2, wk)
  {
    var out := Merged(in1, in2, select);
    MergedPromise(in1, in2, select);
    OutputIsBatch(cfg, emit, out, orders);
    forall wk
      ensures wk in Complete(cfg, out) <==> CompleteInBoth(cfg.assign, in1, in2, wk)
      ensures Result(cfg, emit, out)(wk) == SidesResult(cfg, view, emit, in1, in2)(wk)
    {
      CompleteIff(cfg, in1, in2, select, wk);
      MergedGroup(cfg, in1, in2, select, wk);
    }
    SumAgrees(Complete(cfg, out), Result(cfg, emit, out), SidesResult(cfg, view, emit, in1, in2));
  }

  lemma {:induction false} MergedPromise<L, R>(in1: seq<StreamElement<L>>, in2: seq<StreamElement<R>>,
                                               select: nat -> Merge.Side)
    requires KeepsPromise(in1) && KeepsPromise(in2)
    ensures KeepsPromise(Merged(in1, in2, select))
  {
    MergeWatermarks.MergeKeepsPromise(in1, in2, select, 2 * |in1| + 2 * |in2| + 2);
  }

  lemma {:induction false} SameOutput<L(!new), R(!new), A, O(!new)>(cfg: Config<Either<L, R>, A>,
            view: (seq<(L, Timestamp)>, seq<(R, Timestamp)>) -> A, emit: (WindowKey, A) -> seq<Record<O>>,
            in1: seq<StreamElement<L>>, in2: seq<StreamElement<R>>, select: nat -> Merge.Side,
            orders: seq<seq<WindowKey>>, select': nat -> Merge.Side, orders': seq<seq<WindowKey>>)
    requires WellFormed(cfg) && Sided(cfg, view) && KeepsPromise(in1) && KeepsPromise(in2)
    requires EndsHighest(in1) && EndsHighest(in2)
    requires Possible(cfg, Merged(in1, in2, select), orders) && Possible(cfg, Merged(in1, in2, select'), orders')
    ensures multiset(Records(Output(cfg, emit, Merged(in1, in2, select), orders)))
         == multiset(Records(Output(cfg, emit, Merged(in1, in2, select'), orders')))
  {
    OutputOfMerge(cfg, view, emit, in1, in2, select, orders);
    OutputOfMerge(cfg, view, emit, in1, in2, select', orders');
    assert Complete(cfg, Merged(in1, in2, select)) == Complete(cfg, Merged(in1, in2, select'));
  }

  // ----- the two operators -----

  function AsSides<L, R>(): (seq<(L, Timestamp)>, seq<(R, Timestamp)>) -> Sides<L, R>
  {
    (left: seq<(L, Timestamp)>, right: seq<(R, Timestamp)>) => Sides(left, right)
  }

  function AsGroups<L, R>(): (seq<(L, Timestamp)>, seq<(R, Timestamp)>) -> Groups<L, R>
  {
    (left: seq<(L, Timestamp)>, right: seq<(R, Timestamp)>) =>
      Groups(FilterMap(left, WindowOperators.First), FilterMap(right, WindowOperators.First))
  }

  lemma {:induction false} FoldMatches<L, R>(assign: Timestamp -> seq<Window>, rs: seq<Record<Either<L, R>>>)
    ensures Matches(Fold(Joining(assign), rs), Fold(Cogrouping(assign), rs))
  {
    if rs != [] {
      var m := |rs| - 1;
      FoldMatches(assign, rs[..m]);
      AddMatches(Fold(Joining(assign), rs[..m]), Fold(Cogrouping(assign), rs[..m]), rs[m]);
    }
  }

  lemma {:induction false} BothSided<L(!new), R(!new)>(assign: Timestamp -> seq<Window>)
    ensures Sided(Joining<L, R>(assign), AsSides()) && Sided(Cogrouping<L, R>(assign), AsGroups())
  {
    forall rs: seq<Record<Either<L, R>>>
      ensures Fold(Joining(assign), rs) == AsSides()(FilterMap(rs, TimedLeft), FilterMap(rs, TimedRight))
      ensures Fold(Cogrouping(assign), rs) == AsGroups()(FilterMap(rs, TimedLeft), FilterMap(rs, TimedRight))
    {
      FoldIsSides(assign, rs);
      FoldMatches(assign, rs);
    }
  }

  /** Window join behind the merge: any two schedules, and any iteration orders, put
      out the same multiset of records. */
  lemma {:induction false} JoinScheduleIndependent<L(!new), R(!new), O(!new)>(assign: Timestamp -> seq<Window>,
            join: (L, R) -> O, in1: seq<StreamElement<L>>, in2: seq<StreamElement<R>>, select: nat -> Merge.Side,
            orders: seq<seq<WindowKey>>, select': nat -> Merge.Side, orders': seq<seq<WindowKey>>)
    requires WellFormed(Joining<L, R>(assign)) && KeepsPromise(in1) && KeepsPromise(in2)
    requires EndsHighest(in1) && EndsHighest(in2)
    requires Possible(Joining<L, R>(assign), Merged(in1, in2, select), orders)
    requires Possible(Joining<L, R>(assign), Merged(in1, in2, select'), orders')
    ensures multiset(Records(Output(Joining(assign), Crosses(join), Merged(in1, in2, select), orders)))
         == multiset(Records(Output(Joining(assign), Crosses(join), Merged(in1, in2, select'), orders')))
  {
    BothSided<L, R>(assign);
    SameOutput(Joining<L, R>(assign), AsSides(), Crosses(join), in1, in2, select, orders, select', orders');
  }

  /** The same for a cogroup with any function of the two sides. */
  lemma {:induction false} CogroupScheduleIndependent<L(!new), R(!new), O(!new)>(assign: Timestamp -> seq<Window>,
            cogroup: (Bytes, seq<L>, seq<R>) -> seq<O>, in1: seq<StreamElement<L>>, in2: seq<StreamElement<R>>,
            select: nat -> Merge.Side, orders: seq<seq<WindowKey>>, select': nat -> Merge.Side,
            orders': seq<seq<WindowKey>>)
    requires WellFormed(Cogrouping<L, R>(assign)) && KeepsPromise(in1) && KeepsPromise(in2)
    requires EndsHighest(in1) && EndsHighest(in2)
    requires Possible(Cogrouping<L, R>(assign), Merged(in1, in2, select), orders)
    requires Possible(Cogrouping<L, R>(assign), Merged(in1, in2, select'), orders')
    ensures multiset(Records(Output(Cogrouping(assign), Cogroups(cogroup), Merged(in1, in2, select), orders)))
         == multiset(Records(Output(Cogrouping(assign), Cogroups(cogroup), Merged(in1, in2, select'), orders')))
  {
    BothSided<L, R>(assign);
    SameOutput(Cogrouping<L, R>(assign), AsGroups(), Cogroups(cogroup), in1, in2, select, orders, select', orders');
  }
}
