/** Two-input merge: tags records, forwards the minimum watermark and aligns
    checkpoint barriers. `Step` is one turn of the merge loop; the scheduler's
    choice between two ready inputs is an argument, so a statement over all
    choices is a statement over all interleavings. */
module Merge {
  import opened Streams

  datatype Side = First | Second

  /** What the loop keeps for one input. `input` is what that input has still to
      deliver before it closes. */
  datatype Lane<+V, +E> = Lane(
    input: seq<StreamElement<V>>,
    watermark: Timestamp,
    pending: Option<CheckpointBarrier>,
    buffer: seq<StreamElement<E>>,
    open: bool)

  datatype State<+L, +R> = State(
    lane1: Lane<L, Either<L, R>>,
    lane2: Lane<R, Either<L, R>>,
    last: Timestamp,
    out: seq<StreamElement<Either<L, R>>>)

  function Start<L, R>(in1: seq<StreamElement<L>>, in2: seq<StreamElement<R>>): State<L, R>
  {
    State(Lane(in1, 0, None, [], true), Lane(in2, 0, None, [], true), 0, [])
  }

  predicate Done<L, R>(s: State<L, R>) { !s.lane1.open && !s.lane2.open }

  /** A record with its value tagged. */
  function Tag<V, E>(r: Record<V>, tag: V -> E): Record<E>
  {
    Record(tag(r.value), r.timestamp, r.key)
  }

  function TagLeft<L, R>(v: L): Either<L, R> { Left(v) }

  function TagRight<L, R>(v: R): Either<L, R> { Right(v) }

  /** `handle_element1` and `handle_element2`: the two differ only in the tag. */
  function Handle<V, E>(lane: Lane<V, E>, e: StreamElement<V>, tag: V -> E, other: Timestamp,
                        last: Timestamp, out: seq<StreamElement<E>>)
    : (Lane<V, E>, Timestamp, seq<StreamElement<E>>)
  {
    match e
    case Rec(r) =>
      if lane.pending.Some? then (lane.(buffer := lane.buffer + [Rec(Tag(r, tag))]), last, out)
      else (lane, last, out + [Rec(Tag(r, tag))])
    case Wm(t) =>
      var m := Min(t, other);
      if m > last then (lane.(watermark := t), m, out + [Wm(m)])
      else (lane.(watermark := t), last, out)
    case Bar(b) =>
      (lane.(pending := Some(b)), last, out)
  }

  function Handle1<L, R>(s: State<L, R>): State<L, R>
    requires s.lane1.input != []
  {
    var (lane, last, out) := Handle(s.lane1.(input := s.lane1.input[1..]), s.lane1.input[0],
                                    TagLeft, s.lane2.watermark, s.last, s.out);
    s.(lane1 := lane, last := last, out := out)
  }

  function Handle2<L, R>(s: State<L, R>): State<L, R>
    requires s.lane2.input != []
  {
    var (lane, last, out) := Handle(s.lane2.(input := s.lane2.input[1..]), s.lane2.input[0],
                                    TagRight, s.lane1.watermark, s.last, s.out);
    s.(lane2 := lane, last := last, out := out)
  }

  /** `try_flush_barriers`: both barriers are here, so input 1's goes out and the buffers follow. */
  function TryFlush<L, R>(s: State<L, R>): State<L, R>
  {
    if s.lane1.pending.Some? && s.lane2.pending.Some? then
      State(s.lane1.(pending := None, buffer := []), s.lane2.(pending := None, buffer := []), s.last,
            s.out + [Bar(s.lane1.pending.value)] + s.lane1.buffer + s.lane2.buffer)
    else s
  }

  function Read1<L, R>(s: State<L, R>): State<L, R>
  {
    if s.lane1.input == [] then s.(lane1 := s.lane1.(open := false)) else Handle1(s)
  }

  function Read2<L, R>(s: State<L, R>): State<L, R>
  {
    if s.lane2.input == [] then s.(lane2 := s.lane2.(open := false)) else Handle2(s)
  }

  /** Input 1 holds a barrier back: read input 2 only. */
  function Await2<L, R>(s: State<L, R>): State<L, R>
    requires s.lane1.pending.Some?
  {
    if s.lane2.input == [] then
      State(s.lane1.(pending := None, buffer := []), s.lane2.(open := false), s.last,
            s.out + [Bar(s.lane1.pending.value)] + s.lane1.buffer)
    else TryFlush(Handle2(s))
  }

  /** Input 2 holds a barrier back: read input 1 only. */
  function Await1<L, R>(s: State<L, R>): State<L, R>
    requires s.lane2.pending.Some?
  {
    if s.lane1.input == [] then
      State(s.lane1.(open := false), s.lane2.(pending := None, buffer := []), s.last,
            s.out + [Bar(s.lane2.pending.value)] + s.lane2.buffer)
    else TryFlush(Handle1(s))
  }

  /** One turn of the loop. */
  function Step<L, R>(s: State<L, R>, pick: Side): State<L, R>
  {
    if Done(s) then s
    else if s.lane1.pending.Some? && s.lane2.pending.None? then Await2(s)
    else if s.lane2.pending.Some? && s.lane1.pending.None? then Await1(s)
    else if s.lane1.open && (!s.lane2.open || pick.First?) then Read1(s)
    else Read2(s)
  }

  function Run<L, R>(s: State<L, R>, select: nat -> Side, n: nat): State<L, R>
  {
    if n == 0 then s else Step(Run(s, select, n - 1), select(n - 1))
  }

  // ----- the loop itself -----

  /** The variables of the merge loop, which its helpers update by reference. */
  class MergeTask<L, R> {
    var input1: seq<StreamElement<L>>
    var input2: seq<StreamElement<R>>
    var output: seq<StreamElement<Either<L, R>>>
    var watermark1: Timestamp
    var watermark2: Timestamp
    var lastForwarded: Timestamp
    var pending1: Option<CheckpointBarrier>
    var pending2: Option<CheckpointBarrier>
    var buffer1: seq<StreamElement<Either<L, R>>>
    var buffer2: seq<StreamElement<Either<L, R>>>
    var open1: bool
    var open2: bool

    ghost function Model(): State<L, R>
      reads this
    {
      State(Lane(input1, watermark1, pending1, buffer1, open1), Lane(input2, watermark2, pending2, buffer2, open2),
            lastForwarded, output)
    }

    constructor (input1: seq<StreamElement<L>>, input2: seq<StreamElement<R>>)
      ensures Model() == Start(input1, input2)
    {
      this.input1, this.input2, output := input1, input2, [];
      watermark1, watermark2, lastForwarded := 0, 0, 0;
      pending1, pending2, buffer1, buffer2 := None, None, [], [];
      open1, open2 := true, true;
    }

    method HandleElement1()
      requires input1 != []
      modifies this
      ensures Model() == Handle1(old(Model()))
    {
      var element := input1[0];
      input1 := input1[1..];
      match element
      case Rec(record) =>
        var tagged := Rec(Record(TagLeft(record.value), record.timestamp, record.key));
        if pending1.Some? {
          buffer1 := buffer1 + [tagged];
        } else {
          output := output + [tagged];
        }
      case Wm(timestamp) =>
        watermark1 := timestamp;
        ForwardWatermark();
      case Bar(barrier) =>
        pending1 := Some(barrier);
    }

    method HandleElement2()
      requires input2 != []
      modifies this
      ensures Model() == Handle2(old(Model()))
    {
      var element := input2[0];
      input2 := input2[1..];
      match element
      case Rec(record) =>
        var tagged := Rec(Record(TagRight(record.value), record.timestamp, record.key));
        if pending2.Some? {
          buffer2 := buffer2 + [tagged];
        } else {
          output := output + [tagged];
        }
      case Wm(timestamp) =>
        watermark2 := timestamp;
        ForwardWatermark();
      case Bar(barrier) =>
        pending2 := Some(barrier);
    }

    method ForwardWatermark()
      modifies this`lastForwarded, this`output
      ensures var m := Min(watermark1, watermark2);
              if m > old(lastForwarded) then lastForwarded == m && output == old(output) + [Wm(m)]
              else lastForwarded == old(lastForwarded) && output == old(output)
    {
      var min := Min(watermark1, watermark2);
      if min > lastForwarded {
        lastForwarded := min;
        output := output + [Wm(min)];
      }
    }

    method FlushBuffer1()
      modifies this`buffer1, this`output
      ensures buffer1 == [] && output == old(output + buffer1)
    {
      while buffer1 != []
        invariant output + buffer1 == old(output + buffer1)
      {
        assert output + buffer1 == output + [buffer1[0]] + buffer1[1..];
        output := output + [buffer1[0]];
        buffer1 := buffer1[1..];
      }
    }

    method FlushBuffer2()
      modifies this`buffer2, this`output
      ensures buffer2 == [] && output == old(output + buffer2)
    {
      while buffer2 != []
        invariant output + buffer2 == old(output + buffer2)
      {
        assert output + buffer2 == output + [buffer2[0]] + buffer2[1..];
        output := output + [buffer2[0]];
        buffer2 := buffer2[1..];
      }
    }

    method TryFlushBarriers()
      modifies this
      ensures Model() == TryFlush(old(Model()))
    {
      if pending1.Some? && pending2.Some? {
        var barrier := pending1.value;
        pending1, pending2 := None, None;
        output := output + [Bar(barrier)];
        FlushBuffer1();
        FlushBuffer2();
      }
    }

    method AwaitInput2()
      requires pending1.Some?
      modifies this
      ensures Model() == Await2(old(Model()))
    {
      if input2 != [] {
        HandleElement2();
        TryFlushBarriers();
      } else {
        open2 := false;
        output := output + [Bar(pending1.value)];
        pending1 := None;
        FlushBuffer1();
      }
    }

    method AwaitInput1()
      requires pending2.Some?
      modifies this
      ensures Model() == Await1(old(Model()))
    {
      if input1 != [] {
        HandleElement1();
        TryFlushBarriers();
      } else {
        open1 := false;
        output := output + [Bar(pending2.value)];
        pending2 := None;
        FlushBuffer2();
      }
    }

    method Turn(pick: Side)
      requires open1 || open2
      modifies this
      ensures Model() == Step(old(Model()), pick)
    {
      if pending1.Some? && pending2.None? {
        AwaitInput2();
      } else if pending2.Some? && pending1.None? {
        AwaitInput1();
      } else if open1 && (!open2 || pick.First?) {
        if input1 != [] {
          HandleElement1();
        } else {
          open1 := false;
        }
      } else {
        if input2 != [] {
          HandleElement2();
        } else {
          open2 := false;
        }
      }
    }
  }

  /** The merge task. `select` resolves the race between two ready inputs at
      each turn; the result is the whole output stream. */
  method TwoInputMerge<L, R>(input1: seq<StreamElement<L>>, input2: seq<StreamElement<R>>, select: nat -> Side)
    returns (output: seq<StreamElement<Either<L, R>>>, turns: nat)
    ensures Done(Run(Start(input1, input2), select, turns))
    ensures output == Run(Start(input1, input2), select, turns).out
  {
    var task := new MergeTask(input1, input2);
    turns := 0;
    while task.open1 || task.open2
      invariant task.Model() == Run(Start(input1, input2), select, turns)
      invariant Inv(task.Model())
      decreases Measure(task.Model())
    {
      StepKeepsInv(task.Model(), select(turns));
      task.Turn(select(turns));
      turns := turns + 1;
    }
    output := task.output;
  }

  // ----- termination and the shape of every reachable state -----

  ghost predicate Inv<L, R>(s: State<L, R>)
  {
    && s.lane1.buffer == [] && s.lane2.buffer == []
    && !(s.lane1.pending.Some? && s.lane2.pending.Some?)
    && (s.lane1.pending.Some? ==> s.lane1.open)
    && (s.lane2.pending.Some? ==> s.lane2.open)
    && (!s.lane1.open ==> s.lane1.input == [])
    && (!s.lane2.open ==> s.lane2.input == [])
  }

  function One(b: bool): nat { if b then 1 else 0 }

  function Measure<L, R>(s: State<L, R>): nat
  {
    2 * |s.lane1.input| + 2 * |s.lane2.input| + One(s.lane1.pending.Some?) + One(s.lane2.pending.Some?)
    + One(s.lane1.open) + One(s.lane2.open)
  }

  lemma {:induction false} StepKeepsInv<L, R>(s: State<L, R>, pick: Side)
    requires Inv(s)
    ensures Inv(Step(s, pick))
    ensures !Done(s) ==> Measure(Step(s, pick)) < Measure(s)
  {
  }
}
