/** When alignment is right, told by what the inputs deliver and when: no input may
    run two barriers ahead of another. What a finished run still holds back. */
module AlignerDeliveries {
  import opened Streams
  import opened Aligner
  import opened AlignerCut

  /** How many of its barriers input i has delivered. */
  function Delivered<T>(inputs: seq<seq<StreamElement<T>>>, s: State<T>, i: nat): int
    requires i < |inputs| == |s.inputs|
  {
    |Barriers(inputs[i])| - |Barriers(s.inputs[i])|
  }

  /** No input is two deliveries ahead of another. */
  ghost predicate Level<T>(inputs: seq<seq<StreamElement<T>>>, s: State<T>)
    requires |inputs| == |s.inputs|
  {
    forall i, j :: 0 <= i < |inputs| && 0 <= j < |inputs| ==> Delivered(inputs, s, i) <= Delivered(inputs, s, j) + 1
  }

  /** No input delivers barrier k + 1 before all have delivered barrier k, at any moment of the run. */
  ghost predicate InStep<T>(inputs: seq<seq<StreamElement<T>>>, picks: seq<nat>)
  {
    forall p :: 0 <= p <= |picks| ==> Level(inputs, Run(Start(inputs), picks[..p]))
  }

  ghost predicate NoneAbsorbed<T>(inputs: seq<seq<StreamElement<T>>>, picks: seq<nat>)
  {
    forall i :: 0 <= i < |inputs| ==> Absorbed(Start(inputs), picks, i) == 0
  }

  // ----- deliveries, counted by the aligner -----

  /** Each delivered barrier is aligned or in progress. */
  ghost predicate Counted<T>(inputs: seq<seq<StreamElement<T>>>, s: State<T>, i: nat)
    requires i < |inputs| == |s.inputs| == |s.received|
  {
    Delivered(inputs, s, i) == |AlignedIn(s.log)| + if s.received[i] then 1 else 0
  }

  lemma {:induction false} BarrierCount<T>(xs: seq<StreamElement<T>>)
    requires xs != []
    ensures |Barriers(xs)| == |Barriers(xs[1..])| + if xs[0].Bar? then 1 else 0
  {
    BarriersCons(xs);
  }

  lemma {:induction false} StepCounts<T>(inputs: seq<seq<StreamElement<T>>>, s: State<T>, pick: nat, i: nat)
    requires Inv(s) && HoldsData(s) && i < |inputs| == |s.inputs| && !Absorbs(s, pick)
    requires Counted(inputs, s, i)
    ensures |Step(s, pick).inputs| == |s.inputs| == |Step(s, pick).received|
    ensures Counted(inputs, Step(s, pick), i)
  {
    StepKeepsInv(s, pick);
    if s.drain < |s.inputs| {
      if s.buffers[s.drain] != [] {
        LogGrows(i, s.log, FromInput(s.drain, s.buffers[s.drain][0]));
      }
    } else if pick < |s.inputs| && s.inputs[pick] != [] {
      BarrierCount(s.inputs[pick]);
      if s.inputs[pick][0].Bar? {
        BarrierStepCounts(inputs, s, pick, i);
      } else {
        LogGrows(i, s.log, FromInput(pick, s.inputs[pick][0]));
      }
    }
  }

  lemma {:induction false} BarrierStepCounts<T>(inputs: seq<seq<StreamElement<T>>>, s: State<T>, pick: nat, i: nat)
    requires Inv(s) && s.drain == |s.inputs| && i < |inputs| == |s.inputs| && !Absorbs(s, pick)
    requires pick < |s.inputs| && s.inputs[pick] != [] && s.inputs[pick][0].Bar?
    requires |Barriers(s.inputs[pick])| == |Barriers(s.inputs[pick][1..])| + 1
    requires Counted(inputs, s, i)
    ensures |Step(s, pick).inputs| == |s.inputs| == |Step(s, pick).received|
    ensures Counted(inputs, Step(s, pick), i)
  {
    var b := s.inputs[pick][0].barrier;
    if |s.inputs| == 1 {
      LogGrows(i, s.log, Aligned(b));
    } else {
      LogGrows(i, s.log, Aligned((if s.pending.None? then Some(b) else s.pending).value));
      if AllTrue(s.received[pick := true]) {
        assert s.received[pick := true][i];
      }
    }
  }

  /** As long as nothing was absorbed the count is right; where a barrier is absorbed,
      its input is two deliveries ahead of one that is still awaited. */
  lemma {:induction false} RunCounts<T>(inputs: seq<seq<StreamElement<T>>>, picks: seq<nat>, i: nat)
    requires i < |inputs| && NoneAbsorbed(inputs, picks)
    ensures Counted(inputs, Run(Start(inputs), picks), i)
  {
    if picks == [] {
      assert AlignedIn<T>([]) == [];
    } else {
      var m := |picks| - 1;
      var s := Run(Start(inputs), picks[..m]);
      StartAccounts(inputs, i);
      RunKeeps(Start(inputs), picks[..m], i);
      NoneAbsorbedBefore(inputs, picks);
      RunCounts(inputs, picks[..m], i);
      StepCounts(inputs, s, picks[m], i);
    }
  }

  lemma {:induction false} NoneAbsorbedBefore<T>(inputs: seq<seq<StreamElement<T>>>, picks: seq<nat>)
    requires picks != []
    ensures NoneAbsorbed(inputs, picks) <==>
              NoneAbsorbed(inputs, picks[..|picks| - 1])
              && !Absorbs(Run(Start(inputs), picks[..|picks| - 1]), picks[|picks| - 1])
  {
    var m := |picks| - 1;
    var s := Run(Start(inputs), picks[..m]);
    if NoneAbsorbed(inputs, picks) {
      forall i | 0 <= i < |inputs| ensures Absorbed(Start(inputs), picks[..m], i) == 0 {
        assert Absorbed(Start(inputs), picks, i) == 0;
      }
      if Absorbs(s, picks[m]) {
        assert Absorbed(Start(inputs), picks, picks[m]) > 0;
      }
    }
    if NoneAbsorbed(inputs, picks[..m]) && !Absorbs(s, picks[m]) {
      forall i | 0 <= i < |inputs| ensures Absorbed(Start(inputs), picks, i) == 0 {
        assert Absorbed(Start(inputs), picks[..m], i) == 0;
      }
    }
  }

  lemma {:induction false} InStepBefore<T>(inputs: seq<seq<StreamElement<T>>>, picks: seq<nat>)
    requires picks != []
    ensures InStep(inputs, picks) <==>
              InStep(inputs, picks[..|picks| - 1]) && Level(inputs, Run(Start(inputs), picks))
  {
    var m := |picks| - 1;
    assert picks[..|picks|] == picks;
    forall p | 0 <= p <= m ensures picks[..m][..p] == picks[..p] {
    }
    if InStep(inputs, picks) {
      forall p | 0 <= p <= m ensures Level(inputs, Run(Start(inputs), picks[..m][..p])) {
        assert Level(inputs, Run(Start(inputs), picks[..p]));
      }
    }
    if InStep(inputs, picks[..m]) && Level(inputs, Run(Start(inputs), picks)) {
      forall p | 0 <= p <= |picks| ensures Level(inputs, Run(Start(inputs), picks[..p])) {
        if p <= m {
          assert Level(inputs, Run(Start(inputs), picks[..m][..p]));
        }
      }
    }
  }

  lemma {:induction false} CountedIsLevel<T>(inputs: seq<seq<StreamElement<T>>>, picks: seq<nat>)
    requires NoneAbsorbed(inputs, picks)
    ensures Level(inputs, Run(Start(inputs), picks))
  {
    var s := Run(Start(inputs), picks);
    forall i, j | 0 <= i < |inputs| && 0 <= j < |inputs|
      ensures Delivered(inputs, s, i) <= Delivered(inputs, s, j) + 1
    {
      RunCounts(inputs, picks, i);
      RunCounts(inputs, picks, j);
    }
  }

  lemma {:induction false} AbsorbingIsAhead<T>(inputs: seq<seq<StreamElement<T>>>, picks: seq<nat>, pick: nat)
    requires NoneAbsorbed(inputs, picks) && Absorbs(Run(Start(inputs), picks), pick)
    ensures !Level(inputs, Step(Run(Start(inputs), picks), pick))
  {
    var s := Run(Start(inputs), picks);
    StartInv(inputs);
    RunKeepsInv(Start(inputs), picks);
    var free :| 0 <= free < |s.inputs| && !s.received[free];
    RunCounts(inputs, picks, free);
    RunCounts(inputs, picks, pick);
    BarrierCount(s.inputs[pick]);
    var s' := Step(s, pick);
    assert !s.received[pick := true][free];
    assert s'.inputs == Taken(s.inputs, pick);
    assert Delivered(inputs, s', pick) == Delivered(inputs, s, pick) + 1;
    assert Delivered(inputs, s', free) == Delivered(inputs, s, free);
  }

  /** A barrier is absorbed if and only if at some moment an input was two deliveries
      ahead of another. */
  lemma {:induction false} InStepIffNoneAbsorbed<T>(inputs: seq<seq<StreamElement<T>>>, picks: seq<nat>)
    ensures InStep(inputs, picks) <==> NoneAbsorbed(inputs, picks)
  {
    if picks == [] {
      assert picks[..0] == [];
    } else {
      var m := |picks| - 1;
      InStepIffNoneAbsorbed(inputs, picks[..m]);
      InStepBefore(inputs, picks);
      NoneAbsorbedBefore(inputs, picks);
      if NoneAbsorbed(inputs, picks) {
        CountedIsLevel(inputs, picks);
      } else if NoneAbsorbed(inputs, picks[..m]) {
        AbsorbingIsAhead(inputs, picks[..m], picks[m]);
      }
    }
  }

  // ----- the cut -----

  /** Every input is cut where its barriers were if and only if the deliveries stayed in step. */
  lemma {:induction false} CutIffInStep<T>(inputs: seq<seq<StreamElement<T>>>, picks: seq<nat>)
    ensures (forall i :: 0 <= i < |inputs| ==> CutsLike(Run(Start(inputs), picks), i, inputs[i]))
       <==> InStep(inputs, picks)
  {
    InStepIffNoneAbsorbed(inputs, picks);
    forall i | 0 <= i < |inputs|
      ensures CutsLike(Run(Start(inputs), picks), i, inputs[i]) <==> Absorbed(Start(inputs), picks, i) == 0
    {
      CutIffNoneAbsorbed(inputs, picks, i);
    }
  }

  /** Consistent cut: before aligned barrier k exactly input i's elements before its
      own barrier k have been returned; and no barrier is aligned that input i has
      not delivered. */
  lemma {:induction false} AlignedCut<T>(inputs: seq<seq<StreamElement<T>>>, picks: seq<nat>, i: nat, k: nat)
    requires i < |inputs| && InStep(inputs, picks)
    ensures var log := Run(Start(inputs), picks).log;
            && |AlignedIn(log)| <= |Barriers(inputs[i])|
            && (k < |AlignedIn(log)| ==> View(i, BeforeAligned(log, k)) == Erase(Before(inputs[i], k)))
  {
    InStepIffNoneAbsorbed(inputs, picks);
    CutWhereUnabsorbed(inputs, picks, i, k);
  }

  /** When the inputs carry the same barriers, the aligned barriers are those, in order, once each. */
  lemma {:induction false} AlignedInOrder<T>(inputs: seq<seq<StreamElement<T>>>, picks: seq<nat>,
                                             bs: seq<CheckpointBarrier>)
    requires |inputs| > 0 && InStep(inputs, picks)
    requires forall i :: 0 <= i < |inputs| ==> Barriers(inputs[i]) <= bs
    ensures AlignedIn(Run(Start(inputs), picks).log) <= bs
    ensures forall i :: 0 <= i < |inputs| ==> BarrierAccount(Run(Start(inputs), picks), i) <= bs
  {
    InStepIffNoneAbsorbed(inputs, picks);
    OrderWhereUnabsorbed(inputs, picks, bs);
  }

  // ----- what a finished run holds back -----

  /** Every channel is exhausted and the last drain is over: `next` would answer None. */
  ghost predicate Finished<T>(s: State<T>)
  {
    s.drain == |s.inputs| && forall i :: 0 <= i < |s.inputs| ==> s.inputs[i] == []
  }

  /** The fewest barriers on any input. */
  ghost predicate Fewest<T>(inputs: seq<seq<StreamElement<T>>>, m: nat)
  {
    && (exists i :: 0 <= i < |inputs| && |Barriers(inputs[i])| == m)
    && (forall i :: 0 <= i < |inputs| ==> m <= |Barriers(inputs[i])|)
  }

  /** A finished run has aligned as many barriers as the input with the fewest carries. */
  lemma {:induction false} AlignsFewest<T>(inputs: seq<seq<StreamElement<T>>>, picks: seq<nat>, m: nat)
    requires InStep(inputs, picks) && Finished(Run(Start(inputs), picks)) && Fewest(inputs, m)
    ensures |AlignedIn(Run(Start(inputs), picks).log)| == m
    ensures forall i :: 0 <= i < |inputs| ==>
              |Barriers(inputs[i])| == m + if Run(Start(inputs), picks).received[i] then 1 else 0
  {
    var s := Run(Start(inputs), picks);
    InStepIffNoneAbsorbed(inputs, picks);
    StartInv(inputs);
    RunKeepsInv(Start(inputs), picks);
    forall i | 0 <= i < |inputs|
      ensures |Barriers(inputs[i])| == |AlignedIn(s.log)| + if s.received[i] then 1 else 0
    {
      RunCounts(inputs, picks, i);
      assert Barriers(s.inputs[i]) == [];
    }
    var free :| 0 <= free < |s.inputs| && !s.received[free];
    var least :| 0 <= least < |inputs| && |Barriers(inputs[least])| == m;
    assert m <= |Barriers(inputs[free])|;
  }

  lemma {:induction false} ErasedLength<T>(xs: seq<StreamElement<T>>)
    ensures |Erase(xs)| == |xs|
  {
    if xs != [] {
      ErasedLength(xs[1..]);
    }
  }

  /** Cutting right behind m complete sections gives those sections. */
  lemma {:induction false} UpToExact<T>(xs: seq<Item<T>>, ys: seq<Item<T>>, m: nat)
    requires Cuts(xs) == m && (ys == [] || ys[0].Cut?)
    ensures UpTo(xs + ys, m) == xs
  {
    if xs == [] {
      assert xs + ys == ys;
    } else {
      assert (xs + ys)[1..] == xs[1..] + ys;
      UpToExact(xs[1..], ys, if xs[0].Cut? then m - 1 else m);
    }
  }

  /** Streams without barriers are told apart when erased. */
  lemma {:induction false} ErasedIsOne<T>(xs: seq<StreamElement<T>>, ys: seq<StreamElement<T>>)
    requires forall k :: 0 <= k < |xs| ==> !xs[k].Bar?
    requires Erase(xs) == Erase(ys)
    ensures xs == ys
  {
    ErasedLength(xs);
    ErasedLength(ys);
    if xs != [] {
      HeadErased(xs);
      HeadErased(ys);
      assert Erase(xs[1..]) == Erase(xs)[1..] && Erase(ys[1..]) == Erase(ys)[1..];
      ErasedIsOne(xs[1..], ys[1..]);
      assert xs == [xs[0]] + xs[1..] && ys == [ys[0]] + ys[1..];
    }
  }

  /** What follows barrier number m (from 0); nothing when there is no such barrier. */
  function Beyond<T>(input: seq<StreamElement<T>>, m: nat): seq<StreamElement<T>>
  {
    if |Before(input, m)| < |input| then input[|Before(input, m)| + 1..] else []
  }

  /** An input of which m sections were returned, a barrier perhaps is in progress, and the rest is held. */
  lemma {:induction false} HeldIsBeyond<T>(input: seq<StreamElement<T>>, m: nat, blocked: bool,
                                           held: seq<StreamElement<T>>)
    requires Erase(input) == Erase(Before(input, m)) + (Mark(blocked) + Erase(held))
    requires (!blocked ==> held == []) && forall k :: 0 <= k < |held| ==> !held[k].Bar?
    ensures held == Beyond(input, m)
  {
    var k := |Before(input, m)|;
    BeforeIsPrefix(input, m);
    assert input == input[..k] + input[k..] && input[..k] == Before(input, m);
    FilterMapAppend(input[..k], input[k..], AsItem);
    ErasedLength(input);
    ErasedLength(held);
    ErasedLength(input[..k]);
    var tail := Mark(blocked) + Erase(held);
    assert Erase(input[k..]) == tail by {
      assert Erase(input)[k..] == Erase(input[k..]) && (Erase(input[..k]) + tail)[k..] == tail;
    }
    if blocked {
      HeadErased(input[k..]);
      assert input[k..][1..] == input[k + 1..];
      assert Erase(input[k + 1..]) == Erase(input[k..])[1..] && tail[1..] == Erase(held);
      ErasedIsOne(held, input[k + 1..]);
    }
  }

  /** What input i still holds back is what follows its first barrier beyond the
      fewest, so it holds back nothing if and only if nothing follows. */
  lemma {:induction false} HeldBackIff<T>(inputs: seq<seq<StreamElement<T>>>, picks: seq<nat>, m: nat, i: nat)
    requires i < |inputs| && InStep(inputs, picks) && Finished(Run(Start(inputs), picks)) && Fewest(inputs, m)
    ensures var s := Run(Start(inputs), picks);
            && s.buffers[i] == Beyond(inputs[i], m)
            && (s.buffers[i] == [] <==> EndsWith(inputs[i], m))
            && View(i, s.log) == Erase(Before(inputs[i], m))
  {
    var s := Run(Start(inputs), picks);
    InStepIffNoneAbsorbed(inputs, picks);
    CutIffNoneAbsorbed(inputs, picks, i);
    AlignsFewest(inputs, picks, m);
    StartInv(inputs);
    RunKeepsInv(Start(inputs), picks);
    var view, tail := View(i, s.log), Mark(s.received[i]) + (Erase(s.buffers[i]) + Erase(s.inputs[i]));
    assert Erase<T>([]) == [];
    assert tail == Mark(s.received[i]) + Erase(s.buffers[i]);
    UpToInView(i, s.log, 0);
    UpToExact(view, tail, m);
    UpToInErased(inputs[i], m);
    ErasedLength(inputs[i]);
    RunKeeps(Start(inputs), picks, i);
    HeldIsBeyond(inputs[i], m, s.received[i], s.buffers[i]);
    ErasedLength(s.buffers[i]);
    ErasedLength(Before(inputs[i], m));
  }

  ghost predicate HoldsNothing<T>(s: State<T>) { forall i :: 0 <= i < |s.buffers| ==> s.buffers[i] == [] }

  /** At most one element of the input, a barrier, stands beyond its first m barriers' worth. */
  predicate EndsWith<T>(input: seq<StreamElement<T>>, m: nat) { |input| <= |Before(input, m)| + 1 }

  /** Everything has come out of a finished run if and only if on every input at most
      one element, its barrier, stands beyond the fewest barriers' worth. */
  lemma {:induction false} EverythingComesOutIff<T>(inputs: seq<seq<StreamElement<T>>>, picks: seq<nat>, m: nat)
    requires InStep(inputs, picks) && Finished(Run(Start(inputs), picks)) && Fewest(inputs, m)
    ensures HoldsNothing(Run(Start(inputs), picks)) <==> forall i :: 0 <= i < |inputs| ==> EndsWith(inputs[i], m)
  {
    var buffers := Run(Start(inputs), picks).buffers;
    forall i | 0 <= i < |inputs| ensures buffers[i] == [] <==> EndsWith(inputs[i], m) {
      HeldBackIff(inputs, picks, m, i);
    }
  }

  /** In particular when all inputs carry equally many barriers. */
  lemma {:induction false} EverythingComesOut<T>(inputs: seq<seq<StreamElement<T>>>, picks: seq<nat>, m: nat)
    requires |inputs| > 0 && InStep(inputs, picks) && Finished(Run(Start(inputs), picks))
    requires forall i :: 0 <= i < |inputs| ==> |Barriers(inputs[i])| == m
    ensures var s := Run(Start(inputs), picks);
            && |AlignedIn(s.log)| == m
            && forall i :: 0 <= i < |inputs| ==> s.buffers[i] == [] && View(i, s.log) == Erase(inputs[i])
  {
    assert |Barriers(inputs[0])| == m;
    assert Fewest(inputs, m);
    AlignsFewest(inputs, picks, m);
    forall i | 0 <= i < |inputs|
      ensures Run(Start(inputs), picks).buffers[i] == [] && View(i, Run(Start(inputs), picks).log) == Erase(inputs[i])
    {
      HeldBackIff(inputs, picks, m, i);
      BeforeNoBarrier(inputs[i], m);
    }
  }

  /** The failure is real: one input delivers a barrier and a record, the other closes
      without a barrier; the record is never returned. */
  lemma {:induction false} HeldBackExample<T>(inputs: seq<seq<StreamElement<T>>>, b: CheckpointBarrier, r: Record<T>)
    requires inputs == [[Bar(b), Rec(r)], []]
    ensures InStep(inputs, [0, 0, 0, 0]) && Finished(Run(Start(inputs), [0, 0, 0, 0]))
    ensures Run(Start(inputs), [0, 0, 0, 0]).log == [] && Run(Start(inputs), [0, 0, 0, 0]).buffers[0] == [Rec(r)]
  {
    BarrierCount(inputs[0]);
    assert inputs[0][1..] == [Rec(r)];
    BarrierCount(inputs[0][1..]);
    assert inputs[0][1..][1..] == [];
    NoAbsorptionWithoutSecondBarrier(inputs, [0, 0, 0, 0]);
    var s0 := Start(inputs);
    assert [0, 0, 0, 0] == [0, 0] + [0, 0];
    RunConcat(s0, [0, 0], [0, 0]);
    assert s0.received == [false, false] && s0.buffers == [[], []];
    DrainsIdle(s0);
    BlocksThenHolds(s0.(drain := 2), b, r);
  }

  lemma {:induction false} TwoTurns<T>(s: State<T>)
    requires |s.received| == |s.buffers| == |s.inputs|
    ensures Run(s, [0, 0]) == Step(Run(s, [0]), 0) && Run(s, [0]) == Step(s, 0)
  {
    assert [0, 0] == [0] + [0] && [0] == [] + [0];
    RunSnoc(s, [], 0);
    RunSnoc(s, [0], 0);
  }

  lemma {:induction false} DrainsIdle<T>(s: State<T>)
    requires |s.received| == |s.inputs| == 2 && s.buffers == [[], []] && s.drain == 0
    ensures Run(s, [0, 0]) == s.(drain := 2)
  {
    TwoTurns(s);
    assert Run(s, [0]) == s.(drain := 1);
  }

  lemma {:induction false} BlocksThenHolds<T>(s: State<T>, b: CheckpointBarrier, r: Record<T>)
    requires s.inputs == [[Bar(b), Rec(r)], []] && s.received == [false, false] && s.buffers == [[], []]
    requires s.drain == 2 && s.pending.None?
    ensures var s' := Run(s, [0, 0]);
            Finished(s') && s'.log == s.log && s'.buffers[0] == [Rec(r)]
  {
    TwoTurns(s);
    var blocked := s.received[0 := true];
    assert !blocked[1];
    var s1 := Run(s, [0]);
    assert s1.inputs == [[Rec(r)], []] && s1.received == blocked && s1.buffers == s.buffers;
  }

  /** An input with at most one barrier can have none absorbed. */
  lemma {:induction false} NoAbsorptionWithoutSecondBarrier<T>(inputs: seq<seq<StreamElement<T>>>, picks: seq<nat>)
    requires forall i :: 0 <= i < |inputs| ==> |Barriers(inputs[i])| <= 1
    ensures InStep(inputs, picks)
  {
    forall p, i | 0 <= p <= |picks| && 0 <= i < |inputs|
      ensures 0 <= Delivered(inputs, Run(Start(inputs), picks[..p]), i) <= 1
    {
      DeliveredAtLeastZero(inputs, picks[..p], i);
    }
  }

  lemma {:induction false} DeliveredAtLeastZero<T>(inputs: seq<seq<StreamElement<T>>>, picks: seq<nat>, i: nat)
    requires i < |inputs|
    ensures Delivered(inputs, Run(Start(inputs), picks), i) >= 0
  {
    if picks != [] {
      var m := |picks| - 1;
      DeliveredAtLeastZero(inputs, picks[..m], i);
      var s := Run(Start(inputs), picks[..m]);
      if s.inputs[i] != [] {
        BarrierCount(s.inputs[i]);
      }
    }
  }

  // ----- whose barrier is reported -----

  /** The barrier that the pick delivers while no input is blocked: it opens an alignment. */
  function Opening<T>(s: State<T>, pick: nat): seq<CheckpointBarrier>
    requires |s.received| == |s.inputs|
  {
    if s.drain == |s.inputs| && pick < |s.inputs| && s.inputs[pick] != [] && s.inputs[pick][0].Bar?
       && forall j :: 0 <= j < |s.received| ==> !s.received[j]
    then [s.inputs[pick][0].barrier] else []
  }

  function Openings<T>(inputs: seq<seq<StreamElement<T>>>, picks: seq<nat>): seq<CheckpointBarrier>
  {
    if picks == [] then []
    else
      var m := |picks| - 1;
      Openings(inputs, picks[..m]) + Opening(Run(Start(inputs), picks[..m]), picks[m])
  }

  lemma {:induction false} StepOpens<T>(s: State<T>, pick: nat)
    requires Inv(s)
    ensures AlignedIn(Step(s, pick).log) + Held(Step(s, pick).pending)
         == AlignedIn(s.log) + Held(s.pending) + Opening(s, pick)
  {
    if s.drain < |s.inputs| {
      if s.buffers[s.drain] != [] {
        LogGrows(0, s.log, FromInput(s.drain, s.buffers[s.drain][0]));
      }
    } else if pick < |s.inputs| && s.inputs[pick] != [] {
      var e := s.inputs[pick][0];
      if e.Bar? {
        LogGrows(0, s.log, Aligned(AlignedNow(s, pick)));
      } else {
        LogGrows(0, s.log, FromInput(pick, e));
      }
    }
  }

  /** Each alignment is reported under the barrier that opened it, whatever barriers
      the other inputs deliver for it; the last may still be in progress. */
  lemma {:induction false} AlignedAreOpenings<T>(inputs: seq<seq<StreamElement<T>>>, picks: seq<nat>)
    ensures var s := Run(Start(inputs), picks);
            AlignedIn(s.log) + Held(s.pending) == Openings(inputs, picks)
  {
    if picks != [] {
      var m := |picks| - 1;
      AlignedAreOpenings(inputs, picks[..m]);
      StartInv(inputs);
      RunKeepsInv(Start(inputs), picks[..m]);
      StepOpens(Run(Start(inputs), picks[..m]), picks[m]);
    }
  }

  // ----- the fast path -----

  /** `next` without the fast path: the general alignment also for a single input. */
  function GeneralStep<T>(s: State<T>): State<T>
    requires |s.received| == |s.buffers| == |s.inputs| == 1
  {
    if s.drain < 1 then DrainOne(s) else if s.inputs[0] != [] then Multi(s, 0) else s
  }

  function GeneralRun<T>(s: State<T>, n: nat): (s': State<T>)
    requires |s.received| == |s.buffers| == |s.inputs| == 1
    ensures |s'.received| == |s'.buffers| == |s'.inputs| == 1
  {
    if n == 0 then s else GeneralStep(GeneralRun(s, n - 1))
  }

  function AsReturned<T>(e: StreamElement<T>): Option<Emission<T>>
  {
    Some(if e.Bar? then Aligned(e.barrier) else FromInput(0, e))
  }

  /** What was taken from the one input was returned at once, element by element. */
  ghost predicate Transparent<T>(xs: seq<StreamElement<T>>, s: State<T>)
    requires |s.inputs| == 1
  {
    && |s.received| == |s.buffers| == 1 && s.drain <= 1
    && !s.received[0] && s.buffers[0] == [] && s.pending.None?
    && |s.inputs[0]| <= |xs| && s.inputs[0] == xs[|xs| - |s.inputs[0]|..]
    && s.log == FilterMap(xs[..|xs| - |s.inputs[0]|], AsReturned)
  }

  lemma {:induction false} TransparentStep<T>(xs: seq<StreamElement<T>>, s: State<T>, s': State<T>)
    requires |s.inputs| == 1 && Transparent(xs, s) && s.inputs[0] != []
    requires |s'.received| == |s'.buffers| == |s'.inputs| == 1 && s'.drain <= 1
    requires !s'.received[0] && s'.buffers[0] == [] && s'.pending.None?
    requires s'.inputs[0] == s.inputs[0][1..] && s'.log == s.log + [AsReturned(s.inputs[0][0]).value]
    ensures Transparent(xs, s')
  {
    var k := |xs| - |s.inputs[0]|;
    assert xs[..k + 1] == xs[..k] + [xs[k]];
    FilterMapSnoc(xs[..k], xs[k], AsReturned);
  }

  lemma {:induction false} FastIsTransparent<T>(xs: seq<StreamElement<T>>, picks: seq<nat>)
    ensures Transparent(xs, Run(Start([xs]), picks))
  {
    if picks == [] {
      assert xs[0..] == xs && xs[..0] == [];
    } else {
      var m := |picks| - 1;
      var s := Run(Start([xs]), picks[..m]);
      FastIsTransparent(xs, picks[..m]);
      if s.drain == 1 && picks[m] == 0 && s.inputs[0] != [] {
        TransparentStep(xs, s, Single(s));
      }
    }
  }

  lemma {:induction false} GeneralIsTransparent<T>(xs: seq<StreamElement<T>>, n: nat)
    ensures Transparent(xs, GeneralRun(Start([xs]), n))
  {
    if n == 0 {
      assert xs[0..] == xs && xs[..0] == [];
    } else {
      var s := GeneralRun(Start([xs]), n - 1);
      GeneralIsTransparent(xs, n - 1);
      if s.drain == 1 && s.inputs[0] != [] {
        assert AllTrue(s.received[0 := true]);
        TransparentStep(xs, s, Multi(s, 0));
      }
    }
  }

  /** With one input the fast path and the general alignment are observed alike: over
      any runs, whatever the schedules, they have returned the same outputs once they
      have taken as many elements. */
  lemma {:induction false} FastPathAgrees<T>(xs: seq<StreamElement<T>>, picks: seq<nat>, n: nat)
    requires |Run(Start([xs]), picks).inputs[0]| == |GeneralRun(Start([xs]), n).inputs[0]|
    ensures Run(Start([xs]), picks).log == GeneralRun(Start([xs]), n).log
  {
    FastIsTransparent(xs, picks);
    GeneralIsTransparent(xs, n);
  }
}
