/** The merge is a consistent cut and keeps the watermark promise, whatever the
    interleaving. */
module MergeCut {
  import opened Streams
  import opened Merge

  // ----- what one input, and one side of the output, look like without watermarks -----

  function KeepLeft<L, R>(e: StreamElement<Either<L, R>>): Option<StreamElement<L>>
  {
    match e
    case Rec(r) => if r.value.Left? then Some(Rec(Record(r.value.left, r.timestamp, r.key))) else None
    case Wm(_) => None
    case Bar(b) => Some(Bar(b))
  }

  function KeepRight<L, R>(e: StreamElement<Either<L, R>>): Option<StreamElement<R>>
  {
    match e
    case Rec(r) => if r.value.Right? then Some(Rec(Record(r.value.right, r.timestamp, r.key))) else None
    case Wm(_) => None
    case Bar(b) => Some(Bar(b))
  }

  function KeepData<V>(e: StreamElement<V>): Option<StreamElement<V>>
  {
    if e.Wm? then None else Some(e)
  }

  function LeftView<L, R>(xs: seq<StreamElement<Either<L, R>>>): seq<StreamElement<L>> { FilterMap(xs, KeepLeft) }

  function RightView<L, R>(xs: seq<StreamElement<Either<L, R>>>): seq<StreamElement<R>> { FilterMap(xs, KeepRight) }

  function Data<V>(xs: seq<StreamElement<V>>): seq<StreamElement<V>> { FilterMap(xs, KeepData) }

  function BarElems<V>(bs: seq<CheckpointBarrier>): seq<StreamElement<V>>
  {
    seq(|bs|, i requires 0 <= i < |bs| => Bar(bs[i]))
  }

  function Drop<T>(xs: seq<T>, n: nat): seq<T> { if n <= |xs| then xs[n..] else [] }

  /** `xs` with its k-th barrier replaced by `bs[k]`, as far as `bs` reaches. */
  function Rename<V>(xs: seq<StreamElement<V>>, bs: seq<CheckpointBarrier>): seq<StreamElement<V>>
  {
    if xs == [] then []
    else if xs[0].Bar? && bs != [] then [Bar(bs[0])] + Rename(xs[1..], bs[1..])
    else [xs[0]] + Rename(xs[1..], bs)
  }

  // ----- two conserved quantities -----

  function Held(p: Option<CheckpointBarrier>): seq<CheckpointBarrier>
  {
    if p.Some? then [p.value] else []
  }

  /** The barriers a lane has still to hand over: the one held back, then those unread. */
  function Due<V, E>(lane: Lane<V, E>): seq<CheckpointBarrier>
  {
    Held(lane.pending) + Barriers(lane.input)
  }

  /** The data a lane has still to hand over. */
  function DueData<V, E>(lane: Lane<V, E>): seq<StreamElement<V>>
  {
    BarElems(Held(lane.pending)) + Data(lane.input)
  }

  /** What follows on the left, given the data due on input 1 and the barriers due on both. */
  function Rest1<L>(data1: seq<StreamElement<L>>, due1: seq<CheckpointBarrier>, due2: seq<CheckpointBarrier>)
    : seq<StreamElement<L>>
  {
    data1 + BarElems(Drop(due2, |due1|))
  }

  function Rest2<R>(data2: seq<StreamElement<R>>, due1: seq<CheckpointBarrier>, due2: seq<CheckpointBarrier>)
    : seq<StreamElement<R>>
  {
    Rename(data2, due1) + BarElems(Drop(due1, |due2|))
  }

  /** The left side of the finished output, predicted from any moment of the run. */
  function Final1<L, R>(s: State<L, R>): seq<StreamElement<L>>
  {
    LeftView(s.out) + Rest1(DueData(s.lane1), Due(s.lane1), Due(s.lane2))
  }

  function Final2<L, R>(s: State<L, R>): seq<StreamElement<R>>
  {
    RightView(s.out) + Rest2(DueData(s.lane2), Due(s.lane1), Due(s.lane2))
  }

  lemma {:induction false} PairedBarriers<L, R>(data1: seq<StreamElement<L>>, data2: seq<StreamElement<R>>,
                             b1: CheckpointBarrier, b2: CheckpointBarrier,
                             due1: seq<CheckpointBarrier>, due2: seq<CheckpointBarrier>)
    ensures Rest1([Bar(b1)] + data1, [b1] + due1, [b2] + due2) == [Bar(b1)] + Rest1(data1, due1, due2)
    ensures Rest2([Bar(b2)] + data2, [b1] + due1, [b2] + due2) == [Bar(b1)] + Rest2(data2, due1, due2)
  {
    assert Drop([b2] + due2, |[b1] + due1|) == Drop(due2, |due1|);
    assert Drop([b1] + due1, |[b2] + due2|) == Drop(due1, |due2|);
    assert ([Bar(b2)] + data2)[1..] == data2;
    assert ([b1] + due1)[1..] == due1;
  }

  lemma {:induction false} SurplusBarrier1<L, R>(data1: seq<StreamElement<L>>, b1: CheckpointBarrier,
                                                 due1: seq<CheckpointBarrier>)
    ensures Rest1([Bar(b1)] + data1, [b1] + due1, []) == [Bar(b1)] + Rest1(data1, due1, [])
    ensures Rest2<R>([], [b1] + due1, []) == [Bar(b1)] + Rest2<R>([], due1, [])
  {
    assert Drop([b1] + due1, 0) == [b1] + Drop(due1, 0);
  }

  lemma {:induction false} SurplusBarrier2<L, R>(data2: seq<StreamElement<R>>, b2: CheckpointBarrier,
                                                 due2: seq<CheckpointBarrier>)
    ensures Rest1<L>([], [], [b2] + due2) == [Bar(b2)] + Rest1<L>([], [], due2)
    ensures Rest2([Bar(b2)] + data2, [], [b2] + due2) == [Bar(b2)] + Rest2(data2, [], due2)
  {
    assert Drop([b2] + due2, 0) == [b2] + Drop(due2, 0);
    assert ([Bar(b2)] + data2)[1..] == data2;
  }

  lemma {:induction false} NextRecord<V>(r: Record<V>, data: seq<StreamElement<V>>, due1: seq<CheckpointBarrier>,
                                         due2: seq<CheckpointBarrier>)
    ensures Rest1([Rec(r)] + data, due1, due2) == [Rec(r)] + Rest1(data, due1, due2)
    ensures Rest2([Rec(r)] + data, due1, due2) == [Rec(r)] + Rest2(data, due1, due2)
  {
    assert ([Rec(r)] + data)[1..] == data;
  }

  lemma {:induction false} Emits<L, R>(out: seq<StreamElement<Either<L, R>>>, e: StreamElement<Either<L, R>>)
    ensures LeftView(out + [e]) == LeftView(out) + (if KeepLeft(e).Some? then [KeepLeft(e).value] else [])
    ensures RightView(out + [e]) == RightView(out) + (if KeepRight(e).Some? then [KeepRight(e).value] else [])
  {
    FilterMapSnoc(out, e, KeepLeft);
    FilterMapSnoc(out, e, KeepRight);
  }

  /** Reading one element moves it from what the lane has unread; a barrier is merely held. */
  lemma {:induction false} LaneReads<V, E>(lane: Lane<V, E>, lane': Lane<V, E>)
    requires lane.input != [] && lane'.input == lane.input[1..] && lane.pending.None?
    requires lane'.pending == AsBarrier(lane.input[0])
    ensures match lane.input[0]
            case Rec(r) => Due(lane') == Due(lane) && DueData(lane) == [Rec(r)] + DueData(lane')
            case Wm(_) => Due(lane') == Due(lane) && DueData(lane') == DueData(lane)
            case Bar(_) => Due(lane') == Due(lane) && DueData(lane') == DueData(lane)
  {
    var e := lane.input[0];
    assert Data(lane.input) == (if e.Wm? then [] else [e]) + Data(lane.input[1..]);
    assert Barriers(lane.input) == Held(AsBarrier(e)) + Barriers(lane.input[1..]);
    if e.Bar? {
      assert BarElems<V>(Held(lane'.pending)) == [e];
    } else {
      assert BarElems<V>(Held(lane'.pending)) == [];
    }
  }

  lemma {:induction false} Handle1Conserves<L, R>(s: State<L, R>)
    requires Inv(s) && s.lane1.pending.None? && s.lane1.input != []
    ensures Final1(Handle1(s)) == Final1(s)
    ensures Final2(Handle1(s)) == Final2(s)
  {
    var s' := Handle1(s);
    LaneReads(s.lane1, s'.lane1);
    match s.lane1.input[0]
    case Rec(r) =>
      Emits(s.out, Rec(Tag(r, TagLeft<L, R>)));
      NextRecord(r, DueData(s'.lane1), Due(s'.lane1), Due(s.lane2));
    case Wm(t) =>
      Emits(s.out, Wm(s'.last));
    case Bar(b) =>
  }

  lemma {:induction false} Handle2Conserves<L, R>(s: State<L, R>)
    requires Inv(s) && s.lane2.pending.None? && s.lane2.input != []
    ensures Final1(Handle2(s)) == Final1(s)
    ensures Final2(Handle2(s)) == Final2(s)
  {
    var s' := Handle2(s);
    LaneReads(s.lane2, s'.lane2);
    match s.lane2.input[0]
    case Rec(r) =>
      Emits(s.out, Rec(Tag(r, TagRight<L, R>)));
      NextRecord(r, DueData(s'.lane2), Due(s.lane1), Due(s'.lane2));
    case Wm(t) =>
      Emits(s.out, Wm(s'.last));
    case Bar(b) =>
  }

  lemma {:induction false} ReleaseHeld<V, E>(lane: Lane<V, E>)
    requires lane.pending.Some?
    ensures var released := lane.(pending := None, buffer := []);
            && Due(lane) == [lane.pending.value] + Due(released)
            && DueData(lane) == [Bar(lane.pending.value)] + DueData(released)
  {
    assert BarElems<V>(Held(lane.pending)) == [Bar(lane.pending.value)];
    assert BarElems<V>([]) == [];
  }

  /** A pair of barriers goes out as input 1's. */
  lemma {:induction false} PairOut<L, R>(out: seq<StreamElement<Either<L, R>>>, data1: seq<StreamElement<L>>,
            data2: seq<StreamElement<R>>, b1: CheckpointBarrier, b2: CheckpointBarrier,
            due1: seq<CheckpointBarrier>, due2: seq<CheckpointBarrier>)
    ensures LeftView(out + [Bar(b1)]) + Rest1(data1, due1, due2)
         == LeftView(out) + Rest1([Bar(b1)] + data1, [b1] + due1, [b2] + due2)
    ensures RightView(out + [Bar(b1)]) + Rest2(data2, due1, due2)
         == RightView(out) + Rest2([Bar(b2)] + data2, [b1] + due1, [b2] + due2)
  {
    Emits(out, Bar(b1));
    PairedBarriers(data1, data2, b1, b2, due1, due2);
    Regroup(LeftView(out), [Bar(b1)], Rest1(data1, due1, due2));
    Regroup(RightView(out), [Bar(b1)], Rest2(data2, due1, due2));
  }

  lemma {:induction false} FlushConserves<L, R>(s: State<L, R>)
    requires s.lane1.buffer == [] && s.lane2.buffer == []
    ensures Final1(TryFlush(s)) == Final1(s)
    ensures Final2(TryFlush(s)) == Final2(s)
  {
    if s.lane1.pending.Some? && s.lane2.pending.Some? {
      var s' := TryFlush(s);
      ReleaseHeld(s.lane1);
      ReleaseHeld(s.lane2);
      assert s'.out == s.out + [Bar(s.lane1.pending.value)];
      PairOut(s.out, DueData(s'.lane1), DueData(s'.lane2), s.lane1.pending.value, s.lane2.pending.value,
              Due(s'.lane1), Due(s'.lane2));
    }
  }

  /** Input 1's barrier goes out because input 2 has none left. */
  lemma {:induction false} SurplusOut1<L, R>(out: seq<StreamElement<Either<L, R>>>, data1: seq<StreamElement<L>>,
            b1: CheckpointBarrier, due1: seq<CheckpointBarrier>)
    ensures LeftView(out + [Bar(b1)]) + Rest1(data1, due1, [])
         == LeftView(out) + Rest1([Bar(b1)] + data1, [b1] + due1, [])
    ensures RightView(out + [Bar(b1)]) + Rest2([], due1, []) == RightView(out) + Rest2([], [b1] + due1, [])
  {
    Emits(out, Bar(b1));
    SurplusBarrier1<L, R>(data1, b1, due1);
    Regroup(LeftView(out), [Bar(b1)], Rest1(data1, due1, []));
    Regroup(RightView(out), [Bar(b1)], Rest2([], due1, []));
  }

  lemma {:induction false} SurplusOut2<L, R>(out: seq<StreamElement<Either<L, R>>>, data2: seq<StreamElement<R>>,
            b2: CheckpointBarrier, due2: seq<CheckpointBarrier>)
    ensures LeftView(out + [Bar(b2)]) + Rest1([], [], due2) == LeftView(out) + Rest1([], [], [b2] + due2)
    ensures RightView(out + [Bar(b2)]) + Rest2(data2, [], due2)
         == RightView(out) + Rest2([Bar(b2)] + data2, [], [b2] + due2)
  {
    Emits(out, Bar(b2));
    SurplusBarrier2<L, R>(data2, b2, due2);
    Regroup(LeftView(out), [Bar(b2)], Rest1([], [], due2));
    Regroup(RightView(out), [Bar(b2)], Rest2(data2, [], due2));
  }

  lemma {:induction false} NothingDue<V, E>(lane: Lane<V, E>)
    requires lane.input == [] && lane.pending.None?
    ensures DueData(lane) == [] && Due(lane) == []
  {
  }

  lemma {:induction false} CloseAwaiting2<L, R>(s: State<L, R>)
    requires Inv(s) && s.lane1.pending.Some? && s.lane2.input == []
    ensures Final1(Await2(s)) == Final1(s)
    ensures Final2(Await2(s)) == Final2(s)
  {
    var s' := Await2(s);
    ReleaseHeld(s.lane1);
    NothingDue(s.lane2);
    NothingDue(s'.lane2);
    assert s'.out == s.out + [Bar(s.lane1.pending.value)];
    SurplusOut1(s.out, DueData(s'.lane1), s.lane1.pending.value, Due(s'.lane1));
  }

  lemma {:induction false} CloseAwaiting1<L, R>(s: State<L, R>)
    requires Inv(s) && s.lane2.pending.Some? && s.lane1.input == []
    ensures Final1(Await1(s)) == Final1(s)
    ensures Final2(Await1(s)) == Final2(s)
  {
    var s' := Await1(s);
    ReleaseHeld(s.lane2);
    NothingDue(s.lane1);
    NothingDue(s'.lane1);
    assert s'.out == s.out + [Bar(s.lane2.pending.value)];
    SurplusOut2(s.out, DueData(s'.lane2), s.lane2.pending.value, Due(s'.lane2));
  }

  lemma {:induction false} AwaitConserves<L, R>(s: State<L, R>)
    requires Inv(s)
    ensures s.lane1.pending.Some? ==> Final1(Await2(s)) == Final1(s) && Final2(Await2(s)) == Final2(s)
    ensures s.lane2.pending.Some? ==> Final1(Await1(s)) == Final1(s) && Final2(Await1(s)) == Final2(s)
  {
    if s.lane1.pending.Some? {
      if s.lane2.input == [] {
        CloseAwaiting2(s);
      } else {
        Handle2Conserves(s);
        FlushConserves(Handle2(s));
      }
    } else if s.lane2.pending.Some? {
      if s.lane1.input == [] {
        CloseAwaiting1(s);
      } else {
        Handle1Conserves(s);
        FlushConserves(Handle1(s));
      }
    }
  }

  lemma {:induction false} ReadConserves<L, R>(s: State<L, R>)
    requires Inv(s) && s.lane1.pending.None? && s.lane2.pending.None?
    ensures Final1(Read1(s)) == Final1(s) && Final2(Read1(s)) == Final2(s)
    ensures Final1(Read2(s)) == Final1(s) && Final2(Read2(s)) == Final2(s)
  {
    if s.lane1.input != [] {
      Handle1Conserves(s);
    }
    if s.lane2.input != [] {
      Handle2Conserves(s);
    }
  }

  /** Every turn, whatever the scheduler picks, keeps both predictions. */
  lemma {:induction false} StepConserves<L, R>(s: State<L, R>, pick: Side)
    requires Inv(s)
    ensures Final1(Step(s, pick)) == Final1(s)
    ensures Final2(Step(s, pick)) == Final2(s)
  {
    if s.lane1.pending.Some? || s.lane2.pending.Some? {
      AwaitConserves(s);
    } else {
      ReadConserves(s);
    }
  }

  /** The later state predicts what the earlier one predicted. */
  ghost predicate Conserves<L, R>(s: State<L, R>, s': State<L, R>)
  {
    Inv(s') && Final1(s') == Final1(s) && Final2(s') == Final2(s)
  }

  lemma {:induction false} TurnConserves<L, R>(s: State<L, R>, s': State<L, R>, pick: Side)
    requires Conserves(s, s')
    ensures Conserves(s, Step(s', pick))
  {
    StepKeepsInv(s', pick);
    StepConserves(s', pick);
  }

  lemma {:induction false} RunKeeps<L, R>(s: State<L, R>, select: nat -> Side, n: nat)
    requires Inv(s)
    ensures Conserves(s, Run(s, select, n))
  {
    if n != 0 {
      RunKeeps(s, select, n - 1);
      TurnConserves(s, Run(s, select, n - 1), select(n - 1));
    }
  }

  lemma {:induction false} RunConserves<L, R>(in1: seq<StreamElement<L>>, in2: seq<StreamElement<R>>,
                                              select: nat -> Side, n: nat)
    ensures Inv(Run(Start(in1, in2), select, n))
    ensures Final1(Run(Start(in1, in2), select, n)) == Final1(Start(in1, in2))
    ensures Final2(Run(Start(in1, in2), select, n)) == Final2(Start(in1, in2))
  {
    RunKeeps(Start(in1, in2), select, n);
  }

  /** Every run ends, within a number of turns that does not depend on the schedule. */
  lemma {:induction false} Terminates<L, R>(in1: seq<StreamElement<L>>, in2: seq<StreamElement<R>>,
                                            select: nat -> Side, n: nat)
    requires n >= 2 * |in1| + 2 * |in2| + 2
    ensures Done(Run(Start(in1, in2), select, n))
  {
    MeasureFalls(in1, in2, select, n);
  }

  lemma {:induction false} MeasureFalls<L, R>(in1: seq<StreamElement<L>>, in2: seq<StreamElement<R>>,
                                              select: nat -> Side, n: nat)
    ensures Inv(Run(Start(in1, in2), select, n))
    ensures var s := Run(Start(in1, in2), select, n);
            Done(s) || Measure(s) + n <= 2 * |in1| + 2 * |in2| + 2
  {
    if n != 0 {
      MeasureFalls(in1, in2, select, n - 1);
      StepKeepsInv(Run(Start(in1, in2), select, n - 1), select(n - 1));
    }
  }

  /** The finished output, seen from input 1, is input 1 without its watermarks
      and then the surplus barriers of input 2; seen from input 2 it is input 2
      without its watermarks, each paired barrier under input 1's identity, and
      then the surplus barriers of input 1. No barrier and no buffered record is
      left behind. */
  lemma {:induction false} MergedViews<L, R>(in1: seq<StreamElement<L>>, in2: seq<StreamElement<R>>,
                                             select: nat -> Side, n: nat)
    requires Done(Run(Start(in1, in2), select, n))
    ensures var s := Run(Start(in1, in2), select, n);
            && s.lane1.pending == s.lane2.pending == None && s.lane1.buffer == s.lane2.buffer == []
            && s.lane1.input == [] && s.lane2.input == []
    ensures LeftView(Run(Start(in1, in2), select, n).out)
         == Data(in1) + BarElems(Drop(Barriers(in2), |Barriers(in1)|))
    ensures RightView(Run(Start(in1, in2), select, n).out)
         == Rename(Data(in2), Barriers(in1)) + BarElems(Drop(Barriers(in1), |Barriers(in2)|))
  {
    RunConserves(in1, in2, select, n);
    StartViews(in1, in2);
    DoneViews(Run(Start(in1, in2), select, n));
  }

  lemma {:induction false} StartViews<L, R>(in1: seq<StreamElement<L>>, in2: seq<StreamElement<R>>)
    ensures Final1(Start(in1, in2)) == Data(in1) + BarElems(Drop(Barriers(in2), |Barriers(in1)|))
    ensures Final2(Start(in1, in2))
         == Rename(Data(in2), Barriers(in1)) + BarElems(Drop(Barriers(in1), |Barriers(in2)|))
  {
    var s := Start(in1, in2);
    assert Due(s.lane1) == Barriers(in1) && Due(s.lane2) == Barriers(in2);
    assert DueData(s.lane1) == Data(in1) && DueData(s.lane2) == Data(in2);
  }

  lemma {:induction false} DoneViews<L, R>(s: State<L, R>)
    requires Inv(s) && Done(s)
    ensures Final1(s) == LeftView(s.out) && Final2(s) == RightView(s.out)
  {
    assert Due(s.lane1) == [] && Due(s.lane2) == [];
    assert DueData(s.lane1) == [] && DueData(s.lane2) == [];
  }

  // ----- the cut, barrier by barrier -----

  lemma {:induction false} BeforeInViews<L, R>(xs: seq<StreamElement<Either<L, R>>>, k: nat)
    ensures Records(Before(LeftView(xs), k)) == Lefts(Before(xs, k))
    ensures Records(Before(RightView(xs), k)) == Rights(Before(xs, k))
  {
    if xs != [] {
      BeforeInViews(xs[1..], k);
      if k != 0 {
        BeforeInViews(xs[1..], k - 1);
      }
      assert LeftView(xs) == (if KeepLeft(xs[0]).Some? then [KeepLeft(xs[0]).value] else []) + LeftView(xs[1..]);
      assert RightView(xs) == (if KeepRight(xs[0]).Some? then [KeepRight(xs[0]).value] else []) + RightView(xs[1..]);
    }
  }

  lemma {:induction false} BeforeInData<V>(xs: seq<StreamElement<V>>, k: nat)
    ensures Records(Before(Data(xs), k)) == Records(Before(xs, k))
  {
    if xs != [] {
      BeforeInData(xs[1..], k);
      if k != 0 {
        BeforeInData(xs[1..], k - 1);
      }
      assert Data(xs) == (if xs[0].Wm? then [] else [xs[0]]) + Data(xs[1..]);
    }
  }

  lemma {:induction false} BeforeInRenamed<V>(xs: seq<StreamElement<V>>, bs: seq<CheckpointBarrier>, k: nat)
    ensures Records(Before(Rename(xs, bs), k)) == Records(Before(xs, k))
  {
    if xs != [] {
      var bs' := if xs[0].Bar? && bs != [] then bs[1..] else bs;
      BeforeInRenamed(xs[1..], bs', k);
      if k != 0 {
        BeforeInRenamed(xs[1..], bs', k - 1);
      }
      assert Rename(xs, bs)[1..] == Rename(xs[1..], bs');
    }
  }

  lemma {:induction false} BeforeInPadded<V>(xs: seq<StreamElement<V>>, bs: seq<CheckpointBarrier>, k: nat)
    ensures Records(Before(xs + BarElems(bs), k)) == Records(Before(xs, k))
  {
    if xs != [] {
      assert (xs + BarElems(bs))[1..] == xs[1..] + BarElems(bs);
      BeforeInPadded(xs[1..], bs, k);
      if k != 0 {
        BeforeInPadded(xs[1..], bs, k - 1);
      }
    } else if bs != [] {
      assert xs + BarElems(bs) == BarElems(bs);
      assert BarElems<V>(bs)[1..] == BarElems(bs[1..]);
      if k != 0 {
        BeforeInPadded(xs, bs[1..], k - 1);
        assert xs + BarElems(bs[1..]) == BarElems(bs[1..]);
      }
    }
  }

  /** Consistent cut: before output barrier k stand exactly the records that
      precede barrier k on input 1 and barrier k on input 2, in order. */
  lemma {:induction false} ConsistentCut<L, R>(in1: seq<StreamElement<L>>, in2: seq<StreamElement<R>>,
                                               select: nat -> Side, n: nat, k: nat)
    requires Done(Run(Start(in1, in2), select, n))
    ensures Lefts(Before(Run(Start(in1, in2), select, n).out, k)) == Records(Before(in1, k))
    ensures Rights(Before(Run(Start(in1, in2), select, n).out, k)) == Records(Before(in2, k))
  {
    MergedViews(in1, in2, select, n);
    BeforeInViews(Run(Start(in1, in2), select, n).out, k);
    BeforeInPadded(Data(in1), Drop(Barriers(in2), |Barriers(in1)|), k);
    BeforeInData(in1, k);
    BeforeInPadded(Rename(Data(in2), Barriers(in1)), Drop(Barriers(in1), |Barriers(in2)|), k);
    BeforeInRenamed(Data(in2), Barriers(in1), k);
    BeforeInData(in2, k);
  }

  /** Each side's records come out complete and in order. */
  lemma {:induction false} MergedRecords<L, R>(in1: seq<StreamElement<L>>, in2: seq<StreamElement<R>>,
                                               select: nat -> Side, n: nat)
    requires Done(Run(Start(in1, in2), select, n))
    ensures Lefts(Run(Start(in1, in2), select, n).out) == Records(in1)
    ensures Rights(Run(Start(in1, in2), select, n).out) == Records(in2)
  {
    var out := Run(Start(in1, in2), select, n).out;
    var k := |out| + |in1| + |in2|;
    ConsistentCut(in1, in2, select, n, k);
    BarriersAtMost(out);
    BarriersAtMost(in1);
    BarriersAtMost(in2);
    BeforeNoBarrier(out, k);
    BeforeNoBarrier(in1, k);
    BeforeNoBarrier(in2, k);
  }

  /** The barriers of the output: input 1's, then the surplus of input 2. */
  lemma {:induction false} MergedBarriers<L, R>(in1: seq<StreamElement<L>>, in2: seq<StreamElement<R>>,
                                                select: nat -> Side, n: nat)
    requires Done(Run(Start(in1, in2), select, n))
    ensures var out := Run(Start(in1, in2), select, n).out;
            && Barriers(out) == Barriers(in1) + Drop(Barriers(in2), |Barriers(in1)|)
            && |Barriers(out)| == if |Barriers(in1)| < |Barriers(in2)| then |Barriers(in2)| else |Barriers(in1)|
  {
    var out := Run(Start(in1, in2), select, n).out;
    MergedViews(in1, in2, select, n);
    BarriersInLeftView(out);
    BarriersInData(in1);
    var surplus := Drop(Barriers(in2), |Barriers(in1)|);
    FilterMapAppend(Data(in1), BarElems(surplus), AsBarrier);
    BarriersInBarElems<L>(surplus);
  }

  lemma {:induction false} BarriersInLeftView<L, R>(xs: seq<StreamElement<Either<L, R>>>)
    ensures Barriers(LeftView(xs)) == Barriers(xs)
  {
    if xs != [] {
      BarriersInLeftView(xs[1..]);
      assert LeftView(xs) == (if KeepLeft(xs[0]).Some? then [KeepLeft(xs[0]).value] else []) + LeftView(xs[1..]);
    }
  }

  lemma {:induction false} BarriersInData<V>(xs: seq<StreamElement<V>>)
    ensures Barriers(Data(xs)) == Barriers(xs)
  {
    if xs != [] {
      BarriersInData(xs[1..]);
      assert Data(xs) == (if xs[0].Wm? then [] else [xs[0]]) + Data(xs[1..]);
    }
  }

  lemma {:induction false} BarriersInBarElems<V>(bs: seq<CheckpointBarrier>)
    ensures Barriers(BarElems<V>(bs)) == bs
  {
    if bs != [] {
      BarriersInBarElems<V>(bs[1..]);
      assert BarElems<V>(bs)[1..] == BarElems(bs[1..]);
    }
  }
}
