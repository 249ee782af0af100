/** Two inputs through the merge into the interval join, as a connected stream
    wires them: the result does not depend on the schedule. */
module MergedJoin {
  import opened Streams
  import opened Merge
  import opened MergeCut
  import opened IntervalJoin
  import opened IntervalJoinBatch
  import MergeWatermarks
  import opened MergeOrder

  /** Some schedule brings element i of input 1 and element j of input 2 to the join in
      an order in which the two are clamped together: their sections leave that order open. */
  predicate MayClamp<L, R, O>(cfg: Config<L, R, O>, in1: seq<StreamElement<L>>, in2: seq<StreamElement<R>>,
                              i: nat, j: nat)
    requires i < |in1| && j < |in2|
  {
    && in1[i].Rec? && in2[j].Rec?
    && (|| (SectionOf(in1, i) <= SectionOf(in2, j) && ClampedAtZero(cfg, in1[i].record, in2[j].record))
        || (SectionOf(in2, j) <= SectionOf(in1, i) && ClampedAtMax(cfg, in1[i].record, in2[j].record)))
  }

  ghost predicate NeverClamps<L, R, O>(cfg: Config<L, R, O>, in1: seq<StreamElement<L>>, in2: seq<StreamElement<R>>)
  {
    forall i, j :: 0 <= i < |in1| && 0 <= j < |in2| ==> !MayClamp(cfg, in1, in2, i, j)
  }

  /** A record of the merged stream is a record of the input it came from, in the same section. */
  lemma {:induction false} SourceOfLeft<L, R>(in1: seq<StreamElement<L>>, in2: seq<StreamElement<R>>,
                                              select: nat -> Side, a: nat) returns (i: nat)
    requires a < |Merged(in1, in2, select)| && AsLeft(Merged(in1, in2, select)[a]).Some?
    ensures i < |in1| && in1[i].Rec? && AsLeft(Merged(in1, in2, select)[a]).value == in1[i].record
    ensures SectionOf(in1, i) == SectionOf(Merged(in1, in2, select), a)
  {
    var out := Merged(in1, in2, select);
    var n := |Lefts(out[..a])|;
    MergedSides(in1, in2, select);
    ItemAt(out, AsLeft, a, n);
    i := NthItem(in1, AsRecord, n);
    LeftSections(in1, in2, select, a, i, n);
  }

  lemma {:induction false} SourceOfRight<L, R>(in1: seq<StreamElement<L>>, in2: seq<StreamElement<R>>,
                                               select: nat -> Side, b: nat) returns (j: nat)
    requires b < |Merged(in1, in2, select)| && AsRight(Merged(in1, in2, select)[b]).Some?
    ensures j < |in2| && in2[j].Rec? && AsRight(Merged(in1, in2, select)[b]).value == in2[j].record
    ensures SectionOf(in2, j) == SectionOf(Merged(in1, in2, select), b)
  {
    var out := Merged(in1, in2, select);
    var m := |Rights(out[..b])|;
    MergedSides(in1, in2, select);
    ItemAt(out, AsRight, b, m);
    j := NthItem(in2, AsRecord, m);
    RightSections(in1, in2, select, b, j, m);
  }

  lemma {:induction false} NoScheduleClamps<L, R, O>(cfg: Config<L, R, O>, in1: seq<StreamElement<L>>,
                                                     in2: seq<StreamElement<R>>, select: nat -> Side)
    requires NeverClamps(cfg, in1, in2)
    ensures NoClamp(cfg, Merged(in1, in2, select))
  {
    var out := Merged(in1, in2, select);
    forall x, y | 0 <= x < y < |out| ensures !ClampsAt(cfg, out[x], out[y]) {
      SectionsGrow(out, x, y);
      if IsLeft(out[x]) && IsRight(out[y]) {
        var i := SourceOfLeft(in1, in2, select, x);
        var j := SourceOfRight(in1, in2, select, y);
        assert !MayClamp(cfg, in1, in2, i, j);
      } else if IsRight(out[x]) && IsLeft(out[y]) {
        var i := SourceOfLeft(in1, in2, select, y);
        var j := SourceOfRight(in1, in2, select, x);
        assert !MayClamp(cfg, in1, in2, i, j);
      }
    }
  }

  lemma {:induction false} SomeScheduleClamps<L, R, O>(cfg: Config<L, R, O>, in1: seq<StreamElement<L>>,
            in2: seq<StreamElement<R>>, i: nat, j: nat) returns (select: nat -> Side)
    requires i < |in1| && j < |in2| && MayClamp(cfg, in1, in2, i, j)
    ensures !NoClamp(cfg, Merged(in1, in2, select))
  {
    var n, m := |Records(in1[..i])|, |Records(in2[..j])|;
    var zero := SectionOf(in1, i) <= SectionOf(in2, j) && ClampedAtZero(cfg, in1[i].record, in2[j].record);
    select := Always(if zero then First else Second);
    var out := Merged(in1, in2, select);
    var a, b: nat;
    if zero {
      LeftsCanBeFirst(in1, in2, i, n, j, m);
      a, b :| 0 <= a < b < |out| && IsNth(out, AsLeft, a, n) && IsNth(out, AsRight, b, m);
    } else {
      RightsCanBeFirst(in1, in2, i, n, j, m);
      a, b :| 0 <= b < a < |out| && IsNth(out, AsLeft, a, n) && IsNth(out, AsRight, b, m);
    }
    LeftSections(in1, in2, select, a, i, n);
    RightSections(in1, in2, select, b, j, m);
    assert if zero then ClampsAt(cfg, out[a], out[b]) else ClampsAt(cfg, out[b], out[a]);
  }

  lemma {:induction false} MergedFacts<L, R>(in1: seq<StreamElement<L>>, in2: seq<StreamElement<R>>,
                                             select: nat -> Side)
    requires KeepsPromise(in1) && KeepsPromise(in2)
    ensures var out := Merged(in1, in2, select);
            && KeepsPromise(out) && Lefts(out) == Records(in1) && Rights(out) == Records(in2)
  {
    var n := 2 * |in1| + 2 * |in2| + 2;
    assert Merged(in1, in2, select) == Run(Start(in1, in2), select, n).out;
    Terminates(in1, in2, select, n);
    MergedSides(in1, in2, select);
    MergeWatermarks.MergeKeepsPromise(in1, in2, select, n);
  }

  /** For on-time inputs the joined output is, under every schedule, the batch
      join plus that schedule's clamped pairs; it is the batch join alone exactly
      when the schedule clamps none. */
  lemma {:induction false} JoinOfMerge<L, R, O>(cfg: Config<L, R, O>, in1: seq<StreamElement<L>>,
                                                in2: seq<StreamElement<R>>, select: nat -> Side)
    requires WellFormed(cfg) && KeepsPromise(in1) && KeepsPromise(in2)
    ensures var out := Merged(in1, in2, select);
            var joined := multiset(Records(Output(cfg, out)));
            && joined == Batch(cfg, Records(in1), Records(in2)) + Clamped(cfg, out)
            && (joined == Batch(cfg, Records(in1), Records(in2)) <==> NoClamp(cfg, out))
            && KeepsPromise(Output(cfg, out))
  {
    MergedFacts(in1, in2, select);
    StreamingIsBatch(cfg, Merged(in1, in2, select));
    JoinIsBatchIff(cfg, Merged(in1, in2, select));
    OutputKeepsPromise(cfg, Merged(in1, in2, select));
  }

  /** What a schedule makes the join put out. */
  ghost function Joined<L, R, O>(cfg: Config<L, R, O>, in1: seq<StreamElement<L>>, in2: seq<StreamElement<R>>,
                                 select: nat -> Side): multiset<Record<O>>
  {
    multiset(Records(Output(cfg, Merged(in1, in2, select))))
  }

  /** Schedule independence, exactly: every schedule puts out the batch join of the two
      inputs if and only if no two records that saturation would pair have their
      sections leave the pairing order open. */
  lemma {:induction false} ScheduleIndependentIff<L, R, O>(cfg: Config<L, R, O>, in1: seq<StreamElement<L>>,
                                                           in2: seq<StreamElement<R>>)
    requires WellFormed(cfg) && KeepsPromise(in1) && KeepsPromise(in2)
    ensures (forall select :: Joined(cfg, in1, in2, select) == Batch(cfg, Records(in1), Records(in2)))
       <==> NeverClamps(cfg, in1, in2)
  {
    forall select: nat -> Side
      ensures Joined(cfg, in1, in2, select) == Batch(cfg, Records(in1), Records(in2))
         <==> NoClamp(cfg, Merged(in1, in2, select))
    {
      JoinOfMerge(cfg, in1, in2, select);
    }
    if NeverClamps(cfg, in1, in2) {
      forall select: nat -> Side ensures NoClamp(cfg, Merged(in1, in2, select)) {
        NoScheduleClamps(cfg, in1, in2, select);
      }
    } else {
      var i, j :| 0 <= i < |in1| && 0 <= j < |in2| && MayClamp(cfg, in1, in2, i, j);
      var select := SomeScheduleClamps(cfg, in1, in2, i, j);
      assert Joined(cfg, in1, in2, select) != Batch(cfg, Records(in1), Records(in2));
    }
  }

  /** In particular any two interleavings then emit the same multiset of records. */
  lemma {:induction false} ScheduleIndependent<L, R, O>(cfg: Config<L, R, O>, in1: seq<StreamElement<L>>,
            in2: seq<StreamElement<R>>, select: nat -> Side, select': nat -> Side)
    requires WellFormed(cfg) && KeepsPromise(in1) && KeepsPromise(in2) && NeverClamps(cfg, in1, in2)
    ensures Joined(cfg, in1, in2, select) == Batch(cfg, Records(in1), Records(in2))
    ensures Joined(cfg, in1, in2, select) == Joined(cfg, in1, in2, select')
  {
    ScheduleIndependentIff(cfg, in1, in2);
    assert Joined(cfg, in1, in2, select') == Batch(cfg, Records(in1), Records(in2));
  }

  /** The dependence is real: with bounds [1, 1] a left and a right at time 0 are
      joined by some schedule. */
  lemma {:induction false} ScheduleExample(cfg: Config<int, int, int>, l: Record<int>, r: Record<int>)
    requires cfg.lower == cfg.upper == 1 && l.timestamp == r.timestamp == 0 && l.key == r.key
    ensures exists select :: Joined(cfg, [Rec(l)], [Rec(r)], select)
                          != Batch(cfg, Records([Rec(l)]), Records([Rec(r)]))
  {
    assert MayClamp(cfg, [Rec(l)], [Rec(r)], 0, 0) by {
      assert [Rec(l)][..0] == [] && [Rec(r)][..0] == [];
    }
    ScheduleIndependentIff(cfg, [Rec(l)], [Rec(r)]);
  }

  /** A barrier between the two, right first, settles the matter. */
  lemma {:induction false} SettledExample(cfg: Config<int, int, int>, l: Record<int>, r: Record<int>,
                                          b: CheckpointBarrier)
    requires cfg.lower == cfg.upper == 1 && l.timestamp == r.timestamp == 0 && l.key == r.key
    ensures NeverClamps(cfg, [Bar(b), Rec(l)], [Rec(r), Bar(b)])
  {
    var in1: seq<StreamElement<int>> := [Bar(b), Rec(l)];
    var in2: seq<StreamElement<int>> := [Rec(r), Bar(b)];
    assert SectionOf(in1, 1) == 1 by {
      assert in1[..1][1..] == [];
      BarriersCons(in1[..1]);
    }
    assert SectionOf(in2, 0) == 0 by {
      assert in2[..0] == [];
    }
  }

  // ----- the cut survives the join -----

  lemma {:induction false} BarriersForwarded<L, R, O>(cfg: Config<L, R, O>, xs: seq<StreamElement<Either<L, R>>>)
    ensures Barriers(Output(cfg, xs)) == Barriers(xs)
  {
    if xs != [] {
      var before, e := xs[..|xs| - 1], xs[|xs| - 1];
      BarriersForwarded(cfg, before);
      BarriersForwardedSnoc(cfg, before, e);
      InitAndLast(xs);
    }
  }

  lemma {:induction false} BarriersForwardedSnoc<L, R, O>(cfg: Config<L, R, O>, xs: seq<StreamElement<Either<L, R>>>,
            e: StreamElement<Either<L, R>>)
    requires Barriers(Output(cfg, xs)) == Barriers(xs)
    ensures Barriers(Output(cfg, xs + [e])) == Barriers(xs + [e])
  {
    var out, added := Output(cfg, xs), Emit(cfg, StateAfter(cfg, xs), e);
    StateAfterSnoc(cfg, xs, e);
    FilterMapAppend(out, added, AsBarrier);
    FilterMapSnoc(xs, e, AsBarrier);
    EmittedBarriers(cfg, StateAfter(cfg, xs), e);
  }

  lemma {:induction false} EmittedBarriers<L, R, O>(cfg: Config<L, R, O>, st: IntervalJoin.State<L, R>,
            e: StreamElement<Either<L, R>>)
    ensures Barriers(Emit(cfg, st, e)) == if e.Bar? then [e.barrier] else []
  {
    var added := Emit(cfg, st, e);
    EmitsLater(cfg, st, e);
    if e.Rec? {
      NoneFound(added, AsBarrier);
    } else {
      FilterMapSnoc([], added[0], AsBarrier);
      assert added == [] + [added[0]];
    }
  }

  /** The operator adds nothing before a barrier but what the elements before that barrier produce. */
  lemma {:induction false} CutOfOutput<L, R, O>(cfg: Config<L, R, O>, xs: seq<StreamElement<Either<L, R>>>, k: nat)
    ensures Before(Output(cfg, xs), k) == Output(cfg, Before(xs, k))
  {
    if xs != [] {
      var before, e := xs[..|xs| - 1], xs[|xs| - 1];
      CutOfOutput(cfg, before, k);
      CutOfOutputSnoc(cfg, before, e, k);
      InitAndLast(xs);
    }
  }

  lemma {:induction false} CutOfOutputSnoc<L, R, O>(cfg: Config<L, R, O>, xs: seq<StreamElement<Either<L, R>>>,
                                 e: StreamElement<Either<L, R>>, k: nat)
    requires Before(Output(cfg, xs), k) == Output(cfg, Before(xs, k))
    ensures Before(Output(cfg, xs + [e]), k) == Output(cfg, Before(xs + [e], k))
  {
    BarriersForwarded(cfg, xs);
    StateAfterSnoc(cfg, xs, e);
    EmittedBarriers(cfg, StateAfter(cfg, xs), e);
    CutCommutes(OutputOf(cfg), xs, e, Emit(cfg, StateAfter(cfg, xs), e), k);
  }

  function OutputOf<L, R, O>(cfg: Config<L, R, O>): seq<StreamElement<Either<L, R>>> -> seq<StreamElement<O>>
  {
    (xs: seq<StreamElement<Either<L, R>>>) => Output(cfg, xs)
  }

  /** Any stream function that answers a barrier with that barrier alone, and other
      elements with no barrier, commutes with cutting, one element at a time. */
  lemma {:induction false} CutCommutes<V, O>(f: seq<StreamElement<V>> -> seq<StreamElement<O>>,
                                             xs: seq<StreamElement<V>>, e: StreamElement<V>,
                          added: seq<StreamElement<O>>, k: nat)
    requires f(xs + [e]) == f(xs) + added && Barriers(xs) == Barriers(f(xs)) && Before(f(xs), k) == f(Before(xs, k))
    requires if e.Bar? then added == [Bar(e.barrier)] else Barriers(added) == []
    ensures Before(f(xs + [e]), k) == f(Before(xs + [e], k))
  {
    if |Barriers(xs)| <= k {
      if e.Bar? {
        assert [e][1..] == [] && added[1..] == [];
      } else {
        BeforeNoBarrier(added, k - |Barriers(xs)|);
      }
    }
    AppendBefore(xs, [e], k, e.Bar?);
    AppendBefore(f(xs), added, k, e.Bar?);
  }

  /** Appending to a stream: the cut is already made, is made now, or stays open. */
  lemma {:induction false} AppendBefore<V>(xs: seq<StreamElement<V>>, added: seq<StreamElement<V>>, k: nat, cuts: bool)
    requires |Barriers(xs)| <= k ==>
               Before(added, k - |Barriers(xs)|) == if cuts && k == |Barriers(xs)| then [] else added
    ensures Before(xs + added, k)
         == if k < |Barriers(xs)| then Before(xs, k) else if cuts && k == |Barriers(xs)| then xs else xs + added
    ensures k >= |Barriers(xs)| ==> Before(xs, k) == xs
  {
    BeforeConcat(xs, added, k);
    if k >= |Barriers(xs)| {
      BeforeNoBarrier(xs, k);
    }
  }

  lemma {:induction false} JoinedBefore<L, R, O>(cfg: Config<L, R, O>, out: seq<StreamElement<Either<L, R>>>, k: nat)
    requires WellFormed(cfg) && KeepsPromise(out) && NoClamp(cfg, out)
    ensures multiset(Records(Before(Output(cfg, out), k)))
         == Batch(cfg, Lefts(Before(out, k)), Rights(Before(out, k)))
  {
    CutOfOutput(cfg, out, k);
    BeforeIsPrefix(out, k);
    PrefixIsOnTime(out, Before(out, k));
    PrefixNoClamp(cfg, out, Before(out, k));
    JoinIsBatchIff(cfg, Before(out, k));
  }

  /** Checkpoint consistency of the whole pipeline: what has been joined when
      barrier k leaves the operator is the batch join of the records that precede
      barrier k on each input, whatever the schedule. */
  lemma {:induction false} JoinedAtBarrier<L, R, O>(cfg: Config<L, R, O>, in1: seq<StreamElement<L>>,
                                                    in2: seq<StreamElement<R>>, select: nat -> Side, k: nat)
    requires WellFormed(cfg) && KeepsPromise(in1) && KeepsPromise(in2) && NeverClamps(cfg, in1, in2)
    ensures multiset(Records(Before(Output(cfg, Merged(in1, in2, select)), k)))
         == Batch(cfg, Records(Before(in1, k)), Records(Before(in2, k)))
  {
    var out := Merged(in1, in2, select);
    MergedFacts(in1, in2, select);
    NoScheduleClamps(cfg, in1, in2, select);
    JoinedBefore(cfg, out, k);
    MergedCut(in1, in2, select, k);
  }

  lemma {:induction false} PrefixIsOnTime<V>(xs: seq<StreamElement<V>>, ys: seq<StreamElement<V>>)
    requires KeepsPromise(xs) && ys <= xs
    ensures KeepsPromise(ys)
  {
  }

  lemma {:induction false} PrefixNoClamp<L, R, O>(cfg: Config<L, R, O>, xs: seq<StreamElement<Either<L, R>>>,
                                                  ys: seq<StreamElement<Either<L, R>>>)
    requires NoClamp(cfg, xs) && ys <= xs
    ensures NoClamp(cfg, ys)
  {
  }
}
