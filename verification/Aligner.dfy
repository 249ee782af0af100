/** N-input barrier alignment: an input that has delivered its barrier is blocked
    and its records are held until every input has delivered one. */
module Aligner {
  import opened Streams

  /** What `next` hands to the operator. */
  datatype Output<+T> = Element(element: StreamElement<T>) | BarrierAligned(barrier: CheckpointBarrier)

  /** The same with the input an element came from. */
  datatype Emission<+T> = FromInput(input: nat, element: StreamElement<T>) | Aligned(barrier: CheckpointBarrier)

  /** A future polled with a finite schedule of arrivals is ready or still waiting. */
  datatype Poll<+A> = Ready(value: A) | Waiting

  /** `inputs[i]` is what channel i has still to deliver; `log` is what has been returned. */
  datatype State<+T> = State(
    inputs: seq<seq<StreamElement<T>>>,
    received: seq<bool>,
    buffers: seq<seq<StreamElement<T>>>,
    pending: Option<CheckpointBarrier>,
    drain: nat,
    log: seq<Emission<T>>)

  function Start<T>(inputs: seq<seq<StreamElement<T>>>): State<T>
  {
    State(inputs, seq(|inputs|, _ => false), seq(|inputs|, _ => []), None, 0, [])
  }

  ghost predicate Inv<T>(s: State<T>)
  {
    var n := |s.inputs|;
    && |s.received| == |s.buffers| == n && s.drain <= n
    && (s.drain < n ==> s.pending.None? && forall j :: 0 <= j < s.drain ==> s.buffers[j] == [])
    && (s.drain < n ==> forall j :: 0 <= j < n ==> !s.received[j])
    && (s.drain == n ==> forall j :: 0 <= j < n && !s.received[j] ==> s.buffers[j] == [])
    && (s.pending.Some? <==> exists j :: 0 <= j < n && s.received[j])
    && (n > 0 ==> exists j :: 0 <= j < n && !s.received[j])
  }

  /** What is held back are records and watermarks. */
  ghost predicate HoldsData<T>(s: State<T>)
  {
    forall i, k :: 0 <= i < |s.buffers| && 0 <= k < |s.buffers[i]| ==> !s.buffers[i][k].Bar?
  }

  /** Returned as a plain element is one, no barrier, that came from some input. */
  ghost predicate PassedOn<T>(m: Emission<T>, x: StreamElement<T>)
  {
    m.FromInput? && m.element == x && !x.Bar?
  }

  /** What one call returns: an aligned barrier reported as such, or one element. */
  ghost predicate Returns<T>(before: seq<Emission<T>>, after: seq<Emission<T>>, out: Option<Output<T>>)
  {
    match out
    case None => after == before
    case Some(BarrierAligned(b)) => after == before + [Aligned(b)]
    case Some(Element(x)) => |after| == |before| + 1 && after[..|before|] == before && PassedOn(after[|before|], x)
  }

  lemma {:induction false} StartInv<T>(inputs: seq<seq<StreamElement<T>>>)
    ensures Inv(Start(inputs))
  {
    var s := Start(inputs);
    if |inputs| > 0 {
      assert !s.received[0];
    }
  }

  predicate AllTrue(bs: seq<bool>) { forall i :: 0 <= i < |bs| ==> bs[i] }

  /** Take the head of channel i. */
  function Taken<T>(inputs: seq<seq<StreamElement<T>>>, i: nat): seq<seq<StreamElement<T>>>
    requires i < |inputs| && inputs[i] != []
  {
    inputs[i := inputs[i][1..]]
  }

  /** Phase 1: hand out one held element, or move the drain cursor on. */
  function DrainOne<T>(s: State<T>): State<T>
    requires s.drain < |s.buffers|
  {
    var d := s.drain;
    if s.buffers[d] != [] then
      s.(buffers := s.buffers[d := s.buffers[d][1..]], log := s.log + [FromInput(d, s.buffers[d][0])])
    else s.(drain := d + 1)
  }

  /** One element through the alignment of `next_multi`. */
  function Multi<T>(s: State<T>, i: nat): State<T>
    requires |s.received| == |s.buffers| == |s.inputs| && i < |s.inputs| && s.inputs[i] != []
  {
    var e, inputs := s.inputs[i][0], Taken(s.inputs, i);
    if e.Bar? then
      var received := s.received[i := true];
      var pending := if s.pending.None? then Some(e.barrier) else s.pending;
      if AllTrue(received) then
        State(inputs, seq(|received|, _ => false), s.buffers, None, 0, s.log + [Aligned(pending.value)])
      else s.(inputs := inputs, received := received, pending := pending)
    else if s.received[i] then
      s.(inputs := inputs, buffers := s.buffers[i := s.buffers[i] + [e]])
    else s.(inputs := inputs, log := s.log + [FromInput(i, e)])
  }

  /** One element through the fast path of `next_single`. */
  function Single<T>(s: State<T>): State<T>
    requires |s.inputs| == 1 && s.inputs[0] != []
  {
    var e := s.inputs[0][0];
    s.(inputs := Taken(s.inputs, 0), log := s.log + [if e.Bar? then Aligned(e.barrier) else FromInput(0, e)])
  }

  /** One step; `pick` names the input whose head arrives next, when it is the inputs' turn. */
  function Step<T>(s: State<T>, pick: nat): State<T>
    requires |s.received| == |s.buffers| == |s.inputs|
  {
    if s.drain < |s.inputs| then DrainOne(s)
    else if pick < |s.inputs| && s.inputs[pick] != [] then (if |s.inputs| == 1 then Single(s) else Multi(s, pick))
    else s
  }

  lemma {:induction false} StepKeepsInv<T>(s: State<T>, pick: nat)
    requires Inv(s)
    ensures Inv(Step(s, pick))
    ensures |Step(s, pick).inputs| == |s.inputs|
  {
    var s' := Step(s, pick);
    if s.drain < |s.inputs| {
      assert s'.received == s.received;
    } else if pick < |s.inputs| && s.inputs[pick] != [] {
      if |s.inputs| == 1 {
        assert s'.received == s.received;
      } else if s.inputs[pick][0].Bar? {
        var received := s.received[pick := true];
        if AllTrue(received) {
          assert !s'.received[0];
        } else {
          var j :| 0 <= j < |received| && !received[j];
          assert !s'.received[j] && s'.received[pick];
        }
      } else {
        assert s'.received == s.received;
      }
    }
  }

  function Run<T>(s: State<T>, picks: seq<nat>): (s': State<T>)
    requires |s.received| == |s.buffers| == |s.inputs|
    ensures |s'.received| == |s'.buffers| == |s'.inputs| == |s.inputs|
  {
    if picks == [] then s else Step(Run(s, picks[..|picks| - 1]), picks[|picks| - 1])
  }

  lemma {:induction false} RunKeepsInv<T>(s: State<T>, picks: seq<nat>)
    requires Inv(s)
    ensures Inv(Run(s, picks))
  {
    if picks != [] {
      RunKeepsInv(s, picks[..|picks| - 1]);
      StepKeepsInv(Run(s, picks[..|picks| - 1]), picks[|picks| - 1]);
    }
  }

  lemma {:induction false} RunSnoc<T>(s: State<T>, picks: seq<nat>, pick: nat)
    requires |s.received| == |s.buffers| == |s.inputs|
    ensures Run(s, picks + [pick]) == Step(Run(s, picks), pick)
  {
    assert (picks + [pick])[..|picks|] == picks;
  }

  // ----- which input answers -----

  /** One pass over the channels: bit i says whether channel i's next message, or
      its closing once it has none, is visible at that moment. */
  type Snapshot = seq<bool>

  predicate Visible(p: Snapshot, i: nat) { i < |p| && p[i] }

  /** The lowest input at or after `i` that has a visible message and whose blocked state is `blocked`. */
  function Lowest<T>(inputs: seq<seq<StreamElement<T>>>, received: seq<bool>, p: Snapshot, blocked: bool,
                     i: nat): Option<nat>
    requires |received| == |inputs|
    decreases |inputs| - i
  {
    if i >= |inputs| then None
    else if received[i] == blocked && inputs[i] != [] && Visible(p, i) then Some(i)
    else Lowest(inputs, received, p, blocked, i + 1)
  }

  function LowestAny<T>(inputs: seq<seq<StreamElement<T>>>, p: Snapshot, i: nat): Option<nat>
    decreases |inputs| - i
  {
    if i >= |inputs| then None
    else if inputs[i] != [] && Visible(p, i) then Some(i)
    else LowestAny(inputs, p, i + 1)
  }

  /** All channels report that they are closed and empty. */
  predicate AllClosed<T>(inputs: seq<seq<StreamElement<T>>>, p: Snapshot)
  {
    forall i :: 0 <= i < |inputs| ==> inputs[i] == [] && Visible(p, i)
  }

  /** `recv_any` over a schedule of passes: unblocked inputs first, then blocked
      ones, then, after yielding, any; `Some(None)`-like answers close the stream. */
  function Choose<T>(inputs: seq<seq<StreamElement<T>>>, received: seq<bool>, polls: seq<Snapshot>)
    : (Poll<Option<nat>>, seq<Snapshot>)
    requires |received| == |inputs|
  {
    if |polls| < 3 then (Waiting, [])
    else if Lowest(inputs, received, polls[0], false, 0).Some? then
      (Ready(Lowest(inputs, received, polls[0], false, 0)), polls[1..])
    else if Lowest(inputs, received, polls[1], true, 0).Some? then
      (Ready(Lowest(inputs, received, polls[1], true, 0)), polls[2..])
    else if LowestAny(inputs, polls[2], 0).Some? then
      (Ready(LowestAny(inputs, polls[2], 0)), polls[3..])
    else if AllClosed(inputs, polls[2]) then (Ready(None), polls[3..])
    else Choose(inputs, received, polls[3..])
  }

  lemma {:induction false} LowestIsLowest<T>(inputs: seq<seq<StreamElement<T>>>, received: seq<bool>, p: Snapshot,
                                             blocked: bool, i: nat)
    requires |received| == |inputs|
    ensures match Lowest(inputs, received, p, blocked, i)
            case Some(j) => i <= j < |inputs| && received[j] == blocked && inputs[j] != [] && Visible(p, j)
                            && forall k :: i <= k < j ==> received[k] != blocked || inputs[k] == [] || !Visible(p, k)
            case None => forall k :: i <= k < |inputs| ==> received[k] != blocked || inputs[k] == [] || !Visible(p, k)
    decreases |inputs| - i
  {
    if i < |inputs| {
      LowestIsLowest(inputs, received, p, blocked, i + 1);
    }
  }

  lemma {:induction false} LowestAnyIsLowest<T>(inputs: seq<seq<StreamElement<T>>>, p: Snapshot, i: nat)
    ensures match LowestAny(inputs, p, i)
            case Some(j) => i <= j < |inputs| && inputs[j] != [] && Visible(p, j)
                            && forall k :: i <= k < j ==> inputs[k] == [] || !Visible(p, k)
            case None => forall k :: i <= k < |inputs| ==> inputs[k] == [] || !Visible(p, k)
    decreases |inputs| - i
  {
    if i < |inputs| {
      LowestAnyIsLowest(inputs, p, i + 1);
    }
  }

  /** An unblocked input no later than i answers. */
  ghost predicate PicksUnblocked(chosen: Poll<Option<nat>>, received: seq<bool>, i: nat)
  {
    chosen.Ready? && chosen.value.Some? && chosen.value.value <= i
    && chosen.value.value < |received| && !received[chosen.value.value]
  }

  /** A round in which no pass shows a message and the last one does not find all channels closed. */
  ghost predicate Silent<T>(inputs: seq<seq<StreamElement<T>>>, received: seq<bool>, polls: seq<Snapshot>)
    requires |received| == |inputs| && |polls| >= 3
  {
    && (forall i :: 0 <= i < |inputs| && inputs[i] != [] ==>
          && (Visible(polls[0], i) ==> received[i])
          && (Visible(polls[1], i) ==> !received[i])
          && !Visible(polls[2], i))
    && (exists i :: 0 <= i < |inputs| && (inputs[i] != [] || !Visible(polls[2], i)))
  }

  /** The chosen input has a message; the stream is closed only when none has;
      a blocked input is polled only when no unblocked one has shown a message. */
  lemma {:induction false} ChooseIsSound<T>(inputs: seq<seq<StreamElement<T>>>, received: seq<bool>,
                                            polls: seq<Snapshot>)
    requires |received| == |inputs|
    ensures match Choose(inputs, received, polls).0
            case Ready(Some(i)) => i < |inputs| && inputs[i] != []
            case Ready(None) => forall i :: 0 <= i < |inputs| ==> inputs[i] == []
            case Waiting => true
    ensures |polls| >= 3 ==>
              forall i :: 0 <= i < |inputs| && !received[i] && inputs[i] != [] && Visible(polls[0], i) ==>
                PicksUnblocked(Choose(inputs, received, polls).0, received, i)
  {
    if |polls| >= 3 {
      LowestIsLowest(inputs, received, polls[0], false, 0);
      LowestIsLowest(inputs, received, polls[1], true, 0);
      LowestAnyIsLowest(inputs, polls[2], 0);
      ChooseIsSound(inputs, received, polls[3..]);
    }
  }

  /** A round goes unanswered exactly if it is silent; an answer uses up no more than its round. */
  lemma {:induction false} ChooseAnswers<T>(inputs: seq<seq<StreamElement<T>>>, received: seq<bool>,
                                            polls: seq<Snapshot>)
    requires |received| == |inputs| && |polls| >= 3
    ensures var (chosen, rest) := Choose(inputs, received, polls);
            if Silent(inputs, received, polls) then (chosen, rest) == Choose(inputs, received, polls[3..])
            else chosen.Ready? && |polls| - 3 <= |rest| <= |polls| && rest == polls[|polls| - |rest|..]
  {
    LowestIsLowest(inputs, received, polls[0], false, 0);
    LowestIsLowest(inputs, received, polls[1], true, 0);
    LowestAnyIsLowest(inputs, polls[2], 0);
  }

  /** How many elements the channels have still to deliver. */
  function Remaining<T>(inputs: seq<seq<StreamElement<T>>>): nat
  {
    if inputs == [] then 0 else |inputs[0]| + Remaining(inputs[1..])
  }

  lemma {:induction false} TakenRemains<T>(inputs: seq<seq<StreamElement<T>>>, i: nat)
    requires i < |inputs| && inputs[i] != []
    ensures Remaining(Taken(inputs, i)) == Remaining(inputs) - 1
  {
    if i > 0 {
      TakenRemains(inputs[1..], i - 1);
      assert Taken(inputs, i)[1..] == Taken(inputs[1..], i - 1);
    } else {
      assert Taken(inputs, i)[1..] == inputs[1..];
    }
  }

  /** Every pass sees all channels, often enough for everything left to be taken. */
  ghost predicate Enough<T>(inputs: seq<seq<StreamElement<T>>>, polls: seq<Snapshot>)
  {
    && |polls| >= 3 * (Remaining(inputs) + 1)
    && forall t, i :: 0 <= t < |polls| && 0 <= i < |inputs| ==> Visible(polls[t], i)
  }

  lemma {:induction false} EnoughAnswers<T>(inputs: seq<seq<StreamElement<T>>>, received: seq<bool>,
                                            polls: seq<Snapshot>)
    requires |received| == |inputs| && Enough(inputs, polls)
    ensures var (chosen, rest) := Choose(inputs, received, polls);
            && chosen.Ready?
            && (chosen.value.Some? ==>
                  var i := chosen.value.value;
                  i < |inputs| && inputs[i] != [] && Enough(Taken(inputs, i), rest))
  {
    assert !Silent(inputs, received, polls) by {
      assert forall i :: 0 <= i < |inputs| ==> Visible(polls[2], i);
    }
    ChooseAnswers(inputs, received, polls);
    ChooseIsSound(inputs, received, polls);
    var (chosen, rest) := Choose(inputs, received, polls);
    if chosen.value.Some? {
      var i := chosen.value.value;
      TakenRemains(inputs, i);
      forall t, j | 0 <= t < |rest| && 0 <= j < |inputs| ensures Visible(rest[t], j) {
        assert rest[t] == polls[|polls| - |rest| + t];
      }
    }
  }

  // ----- the aligner -----

  class BarrierAligner<T> {
    var inputs: seq<seq<StreamElement<T>>>
    var barrierReceived: seq<bool>
    var blockedBuffers: seq<seq<StreamElement<T>>>
    var pendingBarrier: Option<CheckpointBarrier>
    var drainIndex: nat
    ghost var log: seq<Emission<T>>

    ghost function Model(): State<T>
      reads this
    {
      State(inputs, barrierReceived, blockedBuffers, pendingBarrier, drainIndex, log)
    }

    ghost predicate Valid()
      reads this
    {
      Inv(Model()) && HoldsData(Model())
    }

    constructor (inputs: seq<seq<StreamElement<T>>>)
      ensures Model() == Start(inputs)
      ensures Valid()
    {
      this.inputs := inputs;
      barrierReceived := seq(|inputs|, _ => false);
      blockedBuffers := seq(|inputs|, _ => []);
      pendingBarrier, drainIndex := None, 0;
      log := [];
      StartInv(inputs);
    }

    /** `next`, polled against a schedule of arrivals. Whatever the schedule, the
        aligner makes steps of the model and returns what the last of them emits;
        `None` comes only once every channel is exhausted, and it does not wait while
        something held is due or the channels go on showing what they have. */
    method Next(polls: seq<Snapshot>) returns (r: Poll<Option<Output<T>>>, ghost picks: seq<nat>)
      requires Valid()
      modifies this
      ensures Model() == Run(old(Model()), picks) && Valid()
      ensures Returns(old(log), log, if r.Ready? then r.value else None)
      ensures r == Ready(None) ==> forall i :: 0 <= i < |inputs| ==> inputs[i] == []
      ensures (forall i :: old(drainIndex) <= i < |old(inputs)| ==> old(blockedBuffers)[i] == [])
              || (r.Ready? && r.value.Some?)
      ensures Enough(old(inputs), polls) ==> r.Ready?
    {
      var out;
      out, picks := DrainHeld();
      if out.Some? {
        return Ready(out), picks;
      }
      ghost var more;
      if |inputs| == 1 {
        r, more := NextSingle(polls);
      } else {
        r, more := NextMulti(polls);
      }
      RunConcat(old(Model()), picks, more);
      picks := picks + more;
    }

    /** Phase 1 of `next`: the oldest held element of the first input that holds one. */
    method DrainHeld() returns (out: Option<Output<T>>, ghost picks: seq<nat>)
      requires Valid()
      modifies this`blockedBuffers, this`drainIndex, this`log
      ensures Model() == Run(old(Model()), picks) && Valid()
      ensures Returns(old(log), log, out)
      ensures out.None? <==> forall i :: old(drainIndex) <= i < |inputs| ==> old(blockedBuffers)[i] == []
      ensures out.None? ==> drainIndex == |inputs|
    {
      picks := [];
      while drainIndex < |blockedBuffers|
        invariant Valid() && Model() == Run(old(Model()), picks) && log == old(log)
        invariant blockedBuffers == old(blockedBuffers)
        invariant forall i :: old(drainIndex) <= i < drainIndex ==> blockedBuffers[i] == []
        decreases |blockedBuffers| - drainIndex
      {
        RunSnoc(old(Model()), picks, 0);
        StepKeepsInv(Model(), 0);
        picks := picks + [0];
        if blockedBuffers[drainIndex] != [] {
          var elem := blockedBuffers[drainIndex][0];
          blockedBuffers := blockedBuffers[drainIndex := blockedBuffers[drainIndex][1..]];
          log := log + [FromInput(drainIndex, elem)];
          return Some(Element(elem)), picks;
        }
        drainIndex := drainIndex + 1;
      }
      out := None;
    }

    method NextSingle(polls: seq<Snapshot>) returns (r: Poll<Option<Output<T>>>, ghost picks: seq<nat>)
      requires Valid() && drainIndex == |inputs| == 1
      modifies this
      ensures Model() == Run(old(Model()), picks) && Valid()
      ensures Returns(old(log), log, if r.Ready? then r.value else None)
      ensures r == Ready(None) ==> forall i :: 0 <= i < |inputs| ==> inputs[i] == []
      ensures r.Waiting? ==> forall t :: 0 <= t < |polls| ==> !Visible(polls[t], 0)
      ensures Enough(old(inputs), polls) ==> r.Ready?
    {
      picks := [];
      var t := 0;
      while t < |polls| && !Visible(polls[t], 0)
        invariant t <= |polls| && forall u :: 0 <= u < t ==> !Visible(polls[u], 0)
      {
        t := t + 1;
      }
      if t == |polls| {
        assert |polls| > 0 ==> !Visible(polls[0], 0);
        return Waiting, [];
      }
      if inputs[0] == [] {
        return Ready(None), [];
      }
      RunSnoc(Model(), [], 0);
      StepKeepsInv(Model(), 0);
      var elem := inputs[0][0];
      inputs := Taken(inputs, 0);
      picks := [] + [0];
      match elem
      case Bar(b) =>
        log := log + [Aligned(b)];
        r := Ready(Some(BarrierAligned(b)));
      case other =>
        log := log + [FromInput(0, other)];
        r := Ready(Some(Element(other)));
    }

    method NextMulti(polls: seq<Snapshot>) returns (r: Poll<Option<Output<T>>>, ghost picks: seq<nat>)
      requires Valid() && drainIndex == |inputs| != 1
      modifies this
      ensures Model() == Run(old(Model()), picks) && Valid()
      ensures Returns(old(log), log, if r.Ready? then r.value else None)
      ensures r == Ready(None) ==> forall i :: 0 <= i < |inputs| ==> inputs[i] == []
      ensures Enough(old(inputs), polls) ==> r.Ready?
    {
      picks := [];
      var rest := polls;
      while true
        invariant Valid() && drainIndex == |inputs| == |old(inputs)|
        invariant Model() == Run(old(Model()), picks) && log == old(log)
        invariant Enough(old(inputs), polls) ==> Enough(inputs, rest)
        decreases |rest|
      {
        ChooseIsSound(inputs, barrierReceived, rest);
        if Enough(inputs, rest) {
          EnoughAnswers(inputs, barrierReceived, rest);
        }
        var chosen: Poll<Option<nat>>;
        chosen, rest := RecvAny(rest);
        if chosen.Waiting? {
          return Waiting, picks;
        }
        if chosen.value.None? {
          return Ready(None), picks;
        }
        var idx := chosen.value.value;
        RunSnoc(old(Model()), picks, idx);
        StepKeepsInv(Model(), idx);
        picks := picks + [idx];
        var out := Align(idx);
        if out.Some? {
          return Ready(out), picks;
        }
      }
    }

    /** One received element: absorbed into the alignment, held back, or returned. */
    method Align(idx: nat) returns (out: Option<Output<T>>)
      requires |barrierReceived| == |blockedBuffers| == |inputs| && idx < |inputs| && inputs[idx] != []
      requires HoldsData(Model())
      modifies this
      ensures Model() == Multi(old(Model()), idx)
      ensures Returns(old(log), log, out) && HoldsData(Model())
      ensures out.None? ==> drainIndex == old(drainIndex)
    {
      var elem := inputs[idx][0];
      inputs := Taken(inputs, idx);
      if elem.Bar? {
        barrierReceived := barrierReceived[idx := true];
        if pendingBarrier.None? {
          pendingBarrier := Some(elem.barrier);
        }
        if AllTrue(barrierReceived) {
          var barrier := pendingBarrier.value;
          pendingBarrier := None;
          barrierReceived := seq(|barrierReceived|, _ => false);
          drainIndex := 0;
          log := log + [Aligned(barrier)];
          return Some(BarrierAligned(barrier));
        }
      } else if barrierReceived[idx] {
        blockedBuffers := blockedBuffers[idx := blockedBuffers[idx] + [elem]];
      } else {
        log := log + [FromInput(idx, elem)];
        return Some(Element(elem));
      }
      out := None;
    }

    /** Which input `recv_any` answers from; the caller takes its head. */
    method RecvAny(polls: seq<Snapshot>) returns (chosen: Poll<Option<nat>>, rest: seq<Snapshot>)
      requires |barrierReceived| == |inputs|
      ensures (chosen, rest) == Choose(inputs, barrierReceived, polls)
      ensures chosen.Ready? ==> |rest| < |polls|
    {
      rest := polls;
      while |rest| >= 3
        invariant Choose(inputs, barrierReceived, rest) == Choose(inputs, barrierReceived, polls)
        invariant |rest| <= |polls|
      {
        var i := 0;
        while i < |inputs|
          invariant i <= |inputs|
          invariant Lowest(inputs, barrierReceived, rest[0], false, 0)
              == Lowest(inputs, barrierReceived, rest[0], false, i)
        {
          if !barrierReceived[i] && inputs[i] != [] && Visible(rest[0], i) {
            return Ready(Some(i)), rest[1..];
          }
          i := i + 1;
        }
        i := 0;
        while i < |inputs|
          invariant i <= |inputs|
          invariant Lowest(inputs, barrierReceived, rest[1], true, 0)
              == Lowest(inputs, barrierReceived, rest[1], true, i)
        {
          if barrierReceived[i] && inputs[i] != [] && Visible(rest[1], i) {
            return Ready(Some(i)), rest[2..];
          }
          i := i + 1;
        }
        var anyOpen := false;
        i := 0;
        while i < |inputs|
          invariant i <= |inputs|
          invariant LowestAny(inputs, rest[2], 0) == LowestAny(inputs, rest[2], i)
          invariant !anyOpen <==> forall k :: 0 <= k < i ==> inputs[k] == [] && Visible(rest[2], k)
        {
          if inputs[i] != [] && Visible(rest[2], i) {
            return Ready(Some(i)), rest[3..];
          }
          if !Visible(rest[2], i) {
            anyOpen := true;
          }
          i := i + 1;
        }
        if !anyOpen {
          return Ready(None), rest[3..];
        }
        rest := rest[3..];
      }
      chosen, rest := Waiting, [];
    }
  }

  lemma {:induction false} RunConcat<T>(s: State<T>, a: seq<nat>, b: seq<nat>)
    requires |s.received| == |s.buffers| == |s.inputs|
    ensures Run(s, a + b) == Run(Run(s, a), b)
  {
    if b == [] {
      assert a + b == a;
    } else {
      RunConcat(s, a, b[..|b| - 1]);
      assert (a + b)[..|a + b| - 1] == a + b[..|b| - 1];
    }
  }
}
