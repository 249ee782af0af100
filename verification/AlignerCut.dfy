/** What alignment guarantees over whole runs: nothing is lost or reordered, and
    the aligned barriers cut every input where its own barriers did. */
module AlignerCut {
  import opened Streams
  import opened Aligner

  /** An input or output seen without barrier identities. */
  datatype Item<+T> = Datum(element: StreamElement<T>) | Cut

  function AsItem<T>(e: StreamElement<T>): Option<Item<T>>
  {
    Some(if e.Bar? then Cut else Datum(e))
  }

  function NonBarrier<T>(e: StreamElement<T>): Option<StreamElement<T>>
  {
    if e.Bar? then None else Some(e)
  }

  function Erase<T>(xs: seq<StreamElement<T>>): seq<Item<T>> { FilterMap(xs, AsItem) }

  function NonBarriers<T>(xs: seq<StreamElement<T>>): seq<StreamElement<T>> { FilterMap(xs, NonBarrier) }

  /** What input i sees of the returned outputs: its own elements and every aligned barrier. */
  function ViewOf<T>(i: nat): Emission<T> -> Option<Item<T>>
  {
    (m: Emission<T>) =>
      match m
      case FromInput(j, e) => if j == i then Some(Datum(e)) else None
      case Aligned(_) => Some(Cut)
  }

  function ElementOf<T>(i: nat): Emission<T> -> Option<StreamElement<T>>
  {
    (m: Emission<T>) => if m.FromInput? && m.input == i then Some(m.element) else None
  }

  function AsAligned<T>(m: Emission<T>): Option<CheckpointBarrier>
  {
    if m.Aligned? then Some(m.barrier) else None
  }

  function View<T>(i: nat, log: seq<Emission<T>>): seq<Item<T>> { FilterMap(log, ViewOf(i)) }

  function ElementsOf<T>(i: nat, log: seq<Emission<T>>): seq<StreamElement<T>> { FilterMap(log, ElementOf(i)) }

  function AlignedIn<T>(log: seq<Emission<T>>): seq<CheckpointBarrier> { FilterMap(log, AsAligned) }

  function Mark<T>(b: bool): seq<Item<T>> { if b then [Cut] else [] }

  /** What input i has delivered and has still to deliver, read off the current state. */
  function Account<T>(s: State<T>, i: nat): seq<Item<T>>
    requires |s.received| == |s.buffers| == |s.inputs| && i < |s.inputs|
  {
    View(i, s.log) + (Mark(s.received[i]) + (Erase(s.buffers[i]) + Erase(s.inputs[i])))
  }

  /** The same for data alone. */
  function DataAccount<T>(s: State<T>, i: nat): seq<StreamElement<T>>
    requires |s.received| == |s.buffers| == |s.inputs| && i < |s.inputs|
  {
    ElementsOf(i, s.log) + (s.buffers[i] + NonBarriers(s.inputs[i]))
  }

  /** A second barrier arrives on an input that is already blocked: it is swallowed. */
  predicate Absorbs<T>(s: State<T>, pick: nat)
    requires |s.received| == |s.buffers| == |s.inputs|
  {
    && s.drain >= |s.inputs| && |s.inputs| != 1
    && pick < |s.inputs| && s.inputs[pick] != [] && s.inputs[pick][0].Bar? && s.received[pick]
  }

  // ----- one step -----

  lemma {:induction false} LogGrows<T>(i: nat, log: seq<Emission<T>>, m: Emission<T>)
    ensures View(i, log + [m])
         == View(i, log) + if m.Aligned? then [Cut] else if m.input == i then [Datum(m.element)] else []
    ensures ElementsOf(i, log + [m]) == ElementsOf(i, log) + if m.FromInput? && m.input == i then [m.element] else []
    ensures AlignedIn(log + [m]) == AlignedIn(log) + if m.Aligned? then [m.barrier] else []
  {
    FilterMapSnoc(log, m, ViewOf(i));
    FilterMapSnoc(log, m, ElementOf(i));
    FilterMapSnoc(log, m, AsAligned);
  }

  lemma {:induction false} HeadErased<T>(xs: seq<StreamElement<T>>)
    requires xs != []
    ensures Erase(xs) == [if xs[0].Bar? then Cut else Datum(xs[0])] + Erase(xs[1..])
    ensures NonBarriers(xs) == (if xs[0].Bar? then [] else [xs[0]]) + NonBarriers(xs[1..])
    ensures Barriers(xs) == (if xs[0].Bar? then [xs[0].barrier] else []) + Barriers(xs[1..])
  {
  }

  lemma {:induction false} DrainKeeps<T>(s: State<T>, i: nat)
    requires Inv(s) && HoldsData(s) && s.drain < |s.inputs| && i < |s.inputs|
    ensures HoldsData(DrainOne(s))
    ensures Account(DrainOne(s), i) == Account(s, i)
    ensures DataAccount(DrainOne(s), i) == DataAccount(s, i)
  {
    var d := s.drain;
    if s.buffers[d] != [] {
      var s', e := DrainOne(s), s.buffers[d][0];
      LogGrows(i, s.log, FromInput(d, e));
      HeadErased(s.buffers[d]);
      if i == d {
        assert s.buffers[d] == [e] + s'.buffers[d];
        assert Erase(s.buffers[i]) == [Datum(e)] + Erase(s'.buffers[i]);
      }
      assert HoldsData(s') by {
        assert forall k :: 0 <= k < |s'.buffers[d]| ==> s'.buffers[d][k] == s.buffers[d][k + 1];
      }
    }
  }

  lemma {:induction false} SingleKeeps<T>(s: State<T>)
    requires |s.received| == |s.buffers| == |s.inputs| == 1 && s.inputs[0] != []
    requires !s.received[0] && s.buffers[0] == []
    ensures Account(Single(s), 0) == Account(s, 0)
  {
    var e := s.inputs[0][0];
    LogGrows(0, s.log, if e.Bar? then Aligned(e.barrier) else FromInput(0, e));
    HeadErased(s.inputs[0]);
    ItemMoves(View(0, s.log), if e.Bar? then Cut else Datum(e), Erase(s.inputs[0][1..]));
  }

  lemma {:induction false} SingleKeepsData<T>(s: State<T>)
    requires |s.received| == |s.buffers| == |s.inputs| == 1 && s.inputs[0] != [] && s.buffers[0] == []
    ensures HoldsData(Single(s))
    ensures DataAccount(Single(s), 0) == DataAccount(s, 0)
  {
    var e := s.inputs[0][0];
    LogGrows(0, s.log, if e.Bar? then Aligned(e.barrier) else FromInput(0, e));
    HeadErased(s.inputs[0]);
    var added, rest := if e.Bar? then [] else [e], NonBarriers(s.inputs[0][1..]);
    assert [] + rest == rest && [] + (added + rest) == added + rest;
    Regroup(ElementsOf(0, s.log), added, rest);
  }

  lemma {:induction false} ItemMoves<T>(view: seq<Item<T>>, x: Item<T>, rest: seq<Item<T>>)
    ensures (view + [x]) + ([] + ([] + rest)) == view + ([] + ([] + ([x] + rest)))
  {
  }

  lemma {:induction false} MultiHeld<T>(s: State<T>, pick: nat, i: nat)
    requires Inv(s) && HoldsData(s) && s.drain == |s.inputs| && pick < |s.inputs| && i < |s.inputs|
    requires s.inputs[pick] != [] && !s.inputs[pick][0].Bar? && s.received[pick]
    ensures HoldsData(Multi(s, pick))
    ensures Account(Multi(s, pick), i) == Account(s, i)
    ensures DataAccount(Multi(s, pick), i) == DataAccount(s, i)
  {
    var e, s' := s.inputs[pick][0], Multi(s, pick);
    HeadErased(s.inputs[pick]);
    FilterMapSnoc(s.buffers[pick], e, AsItem);
    if i == pick {
      assert Erase(s'.buffers[i]) + Erase(s'.inputs[i]) == Erase(s.buffers[i]) + Erase(s.inputs[i]);
      assert s'.buffers[i] + NonBarriers(s'.inputs[i]) == s.buffers[i] + NonBarriers(s.inputs[i]);
    }
  }

  lemma {:induction false} MultiPassed<T>(s: State<T>, pick: nat, i: nat)
    requires |s.received| == |s.buffers| == |s.inputs| && pick < |s.inputs| && i < |s.inputs|
    requires s.inputs[pick] != [] && !s.inputs[pick][0].Bar? && !s.received[pick] && s.buffers[pick] == []
    ensures Account(Multi(s, pick), i) == Account(s, i)
  {
    var e := s.inputs[pick][0];
    LogGrows(i, s.log, FromInput(pick, e));
    if i == pick {
      HeadErased(s.inputs[i]);
      ItemMoves(View(i, s.log), Datum(e), Erase(s.inputs[i][1..]));
    }
  }

  lemma {:induction false} MultiPassedData<T>(s: State<T>, pick: nat, i: nat)
    requires |s.received| == |s.buffers| == |s.inputs| && HoldsData(s) && pick < |s.inputs| && i < |s.inputs|
    requires s.inputs[pick] != [] && !s.inputs[pick][0].Bar? && !s.received[pick] && s.buffers[pick] == []
    ensures HoldsData(Multi(s, pick))
    ensures DataAccount(Multi(s, pick), i) == DataAccount(s, i)
  {
    LogGrows(i, s.log, FromInput(pick, s.inputs[pick][0]));
    HeadErased(s.inputs[pick]);
  }

  /** A barrier may be counted with what was returned or with what is still to come. */
  lemma {:induction false} CutMoves<T>(view: seq<Item<T>>, rest: seq<Item<T>>)
    ensures (view + [Cut]) + ([] + rest) == view + ([Cut] + rest)
    ensures (view + [Cut]) + ([] + ([] + rest)) == view + ([] + ([] + ([Cut] + rest)))
    ensures view + ([Cut] + ([] + rest)) == view + ([] + ([] + ([Cut] + rest)))
  {
    assert [Cut] + ([] + rest) == [] + ([] + ([Cut] + rest));
  }

  lemma {:induction false} MultiBlocks<T>(s: State<T>, pick: nat, i: nat)
    requires |s.received| == |s.buffers| == |s.inputs| && pick < |s.inputs| && i < |s.inputs|
    requires !s.received[pick] ==> s.buffers[pick] == []
    requires s.inputs[pick] != [] && s.inputs[pick][0].Bar? && !AllTrue(s.received[pick := true])
    ensures !(s.received[pick] && i == pick) ==> Account(Multi(s, pick), i) == Account(s, i)
    ensures s.received[pick] && i == pick ==> |Account(s, i)| == |Account(Multi(s, pick), i)| + 1
  {
    if i == pick {
      HeadErased(s.inputs[i]);
      CutMoves(View(i, s.log), Erase(s.inputs[i][1..]));
    }
  }

  lemma {:induction false} MultiBlocksData<T>(s: State<T>, pick: nat, i: nat)
    requires |s.received| == |s.buffers| == |s.inputs| && HoldsData(s) && pick < |s.inputs| && i < |s.inputs|
    requires s.inputs[pick] != [] && s.inputs[pick][0].Bar? && !AllTrue(s.received[pick := true])
    ensures HoldsData(Multi(s, pick))
    ensures DataAccount(Multi(s, pick), i) == DataAccount(s, i)
  {
    HeadErased(s.inputs[pick]);
  }

  /** The barrier that is aligned when the last input delivers one. */
  function AlignedNow<T>(s: State<T>, pick: nat): CheckpointBarrier
    requires pick < |s.inputs| && s.inputs[pick] != [] && s.inputs[pick][0].Bar?
  {
    if s.pending.None? then s.inputs[pick][0].barrier else s.pending.value
  }

  lemma {:induction false} MultiAligns<T>(s: State<T>, pick: nat, i: nat)
    requires |s.received| == |s.buffers| == |s.inputs| && pick < |s.inputs| && i < |s.inputs|
    requires !s.received[pick] ==> s.buffers[pick] == []
    requires s.inputs[pick] != [] && s.inputs[pick][0].Bar? && AllTrue(s.received[pick := true]) && !s.received[pick]
    ensures Account(Multi(s, pick), i) == Account(s, i)
  {
    var view := View(i, s.log);
    LogGrows(i, s.log, Aligned(AlignedNow(s, pick)));
    if i == pick {
      HeadErased(s.inputs[i]);
      CutMoves(view, Erase(s.inputs[i][1..]));
    } else {
      assert s.received[pick := true][i];
      CutMoves(view, Erase(s.buffers[i]) + Erase(s.inputs[i]));
    }
  }

  lemma {:induction false} MultiAlignsData<T>(s: State<T>, pick: nat, i: nat)
    requires |s.received| == |s.buffers| == |s.inputs| && HoldsData(s) && pick < |s.inputs| && i < |s.inputs|
    requires s.inputs[pick] != [] && s.inputs[pick][0].Bar? && AllTrue(s.received[pick := true])
    ensures HoldsData(Multi(s, pick))
    ensures DataAccount(Multi(s, pick), i) == DataAccount(s, i)
  {
    HeadErased(s.inputs[pick]);
    LogGrows(i, s.log, Aligned(AlignedNow(s, pick)));
  }

  lemma {:induction false} StepKeeps<T>(s: State<T>, pick: nat, i: nat)
    requires Inv(s) && HoldsData(s) && i < |s.inputs|
    ensures HoldsData(Step(s, pick)) && |Step(s, pick).inputs| == |s.inputs|
    ensures DataAccount(Step(s, pick), i) == DataAccount(s, i)
    ensures !(Absorbs(s, pick) && i == pick) ==> Account(Step(s, pick), i) == Account(s, i)
    ensures Absorbs(s, pick) && i == pick ==> |Account(s, i)| == |Account(Step(s, pick), i)| + 1
  {
    if s.drain < |s.inputs| {
      DrainKeeps(s, i);
    } else if pick < |s.inputs| && s.inputs[pick] != [] {
      if |s.inputs| == 1 {
        assert !s.received[0] && s.buffers[0] == [];
        SingleKeeps(s);
        SingleKeepsData(s);
      } else if s.inputs[pick][0].Bar? {
        if AllTrue(s.received[pick := true]) {
          assert !s.received[pick] by {
            var j :| 0 <= j < |s.inputs| && !s.received[j];
            assert s.received[pick := true][j];
          }
          MultiAligns(s, pick, i);
          MultiAlignsData(s, pick, i);
        } else {
          MultiBlocks(s, pick, i);
          MultiBlocksData(s, pick, i);
        }
      } else if s.received[pick] {
        MultiHeld(s, pick, i);
      } else {
        MultiPassed(s, pick, i);
        MultiPassedData(s, pick, i);
      }
    }
  }

  // ----- whole runs -----

  /** How many barriers of input i were swallowed. */
  function Absorbed<T>(s: State<T>, picks: seq<nat>, i: nat): nat
    requires |s.received| == |s.buffers| == |s.inputs|
  {
    if picks == [] then 0
    else
      var m := |picks| - 1;
      Absorbed(s, picks[..m], i) + if picks[m] == i && Absorbs(Run(s, picks[..m]), picks[m]) then 1 else 0
  }

  lemma {:induction false} RunKeeps<T>(s: State<T>, picks: seq<nat>, i: nat)
    requires Inv(s) && HoldsData(s) && i < |s.inputs|
    ensures Inv(Run(s, picks)) && HoldsData(Run(s, picks))
    ensures DataAccount(Run(s, picks), i) == DataAccount(s, i)
    ensures |Account(Run(s, picks), i)| + Absorbed(s, picks, i) == |Account(s, i)|
    ensures Absorbed(s, picks, i) == 0 ==> Account(Run(s, picks), i) == Account(s, i)
  {
    if picks != [] {
      var m := |picks| - 1;
      RunKeeps(s, picks[..m], i);
      StepKeepsInv(Run(s, picks[..m]), picks[m]);
      StepKeeps(Run(s, picks[..m]), picks[m], i);
    }
  }

  lemma {:induction false} StartAccounts<T>(inputs: seq<seq<StreamElement<T>>>, i: nat)
    requires i < |inputs|
    ensures Inv(Start(inputs)) && HoldsData(Start(inputs))
    ensures Account(Start(inputs), i) == Erase(inputs[i])
    ensures DataAccount(Start(inputs), i) == NonBarriers(inputs[i])
  {
    StartInv(inputs);
  }

  /** Conservation and order, with no assumption on barriers: on every run the
      elements returned from input i, then those held back, then those not yet
      received are exactly input i's elements, in order. */
  lemma {:induction false} NothingLostOrReordered<T>(inputs: seq<seq<StreamElement<T>>>, picks: seq<nat>, i: nat)
    requires i < |inputs|
    ensures var s := Run(Start(inputs), picks);
            ElementsOf(i, s.log) + (s.buffers[i] + NonBarriers(s.inputs[i])) == NonBarriers(inputs[i])
  {
    StartAccounts(inputs, i);
    RunKeeps(Start(inputs), picks, i);
  }

  /** The outputs cut input i where its barriers did: what it sees of them, then
      its barrier in progress, what is held back and what is to come, is input i. */
  ghost predicate CutsLike<T>(s: State<T>, i: nat, input: seq<StreamElement<T>>)
    requires |s.received| == |s.buffers| == |s.inputs| && i < |s.inputs|
  {
    View(i, s.log) + (Mark(s.received[i]) + (Erase(s.buffers[i]) + Erase(s.inputs[i]))) == Erase(input)
  }

  /** The cut is right exactly when no barrier of the input arrived while it was blocked. */
  lemma {:induction false} CutIffNoneAbsorbed<T>(inputs: seq<seq<StreamElement<T>>>, picks: seq<nat>, i: nat)
    requires i < |inputs|
    ensures CutsLike(Run(Start(inputs), picks), i, inputs[i]) <==> Absorbed(Start(inputs), picks, i) == 0
  {
    StartAccounts(inputs, i);
    RunKeeps(Start(inputs), picks, i);
  }

  /** The failure is real: with two inputs, a second barrier on the first before
      any on the other is swallowed, and the first input's cut is wrong from there on. */
  lemma {:induction false} AbsorbedExample<T>(inputs: seq<seq<StreamElement<T>>>, b1: CheckpointBarrier,
                                              b2: CheckpointBarrier)
    requires |inputs| == 2 && inputs[0] == [Bar(b1), Bar(b2)]
    ensures !CutsLike(Run(Start(inputs), [0, 0, 0, 0]), 0, inputs[0])
  {
    var s0 := Start(inputs);
    RunSnoc(s0, [], 0);
    RunSnoc(s0, [0], 0);
    RunSnoc(s0, [0, 0], 0);
    assert [] + [0] == [0] && [0] + [0] == [0, 0] && [0, 0] + [0] == [0, 0, 0];
    var s1, s2, s3 := Run(s0, [0]), Run(s0, [0, 0]), Run(s0, [0, 0, 0]);
    assert s1.drain == 1 && s1.inputs == inputs && !s1.received[0] && !s1.received[1] && s1.buffers[1] == [];
    assert s2.drain == 2 && s2.inputs == inputs && !s2.received[0] && !s2.received[1];
    assert !AllTrue(s2.received[0 := true]) by { assert !s2.received[0 := true][1]; }
    assert s3.drain == 2 && s3.received[0] && s3.inputs[0] == [Bar(b2)];
    assert Absorbs(s3, 0);
    assert [0, 0, 0, 0][..3] == [0, 0, 0];
    CutIffNoneAbsorbed(inputs, [0, 0, 0, 0], 0);
  }

  // ----- barrier by barrier -----

  /** What was returned before aligned barrier number k (from 0). */
  function BeforeAligned<T>(log: seq<Emission<T>>, k: nat): seq<Emission<T>>
  {
    if log == [] || (log[0].Aligned? && k == 0) then []
    else [log[0]] + BeforeAligned(log[1..], if log[0].Aligned? then k - 1 else k)
  }

  function UpTo<T>(xs: seq<Item<T>>, k: nat): seq<Item<T>>
  {
    if xs == [] || (xs[0].Cut? && k == 0) then []
    else [xs[0]] + UpTo(xs[1..], if xs[0].Cut? then k - 1 else k)
  }

  function AsCut<T>(x: Item<T>): Option<()> { if x.Cut? then Some(()) else None }

  function Cuts<T>(xs: seq<Item<T>>): nat { |FilterMap(xs, AsCut)| }

  lemma {:induction false} UpToInView<T>(i: nat, log: seq<Emission<T>>, k: nat)
    ensures UpTo(View(i, log), k) == View(i, BeforeAligned(log, k))
    ensures Cuts(View(i, log)) == |AlignedIn(log)|
  {
    if log != [] {
      UpToInView(i, log[1..], if log[0].Aligned? && k > 0 then k - 1 else k);
    }
  }

  lemma {:induction false} UpToInErased<T>(xs: seq<StreamElement<T>>, k: nat)
    ensures UpTo(Erase(xs), k) == Erase(Before(xs, k))
    ensures Cuts(Erase(xs)) == |Barriers(xs)|
  {
    if xs != [] {
      UpToInErased(xs[1..], if xs[0].Bar? && k > 0 then k - 1 else k);
      HeadErased(xs);
      assert Erase(xs)[1..] == Erase(xs[1..]);
    }
  }

  lemma {:induction false} UpToPrefix<T>(xs: seq<Item<T>>, ys: seq<Item<T>>, k: nat)
    requires k < Cuts(xs)
    ensures UpTo(xs + ys, k) == UpTo(xs, k)
  {
    assert (xs + ys)[1..] == xs[1..] + ys;
    if !(xs[0].Cut? && k == 0) {
      UpToPrefix(xs[1..], ys, if xs[0].Cut? then k - 1 else k);
    }
  }

  lemma {:induction false} CutsAppend<T>(xs: seq<Item<T>>, ys: seq<Item<T>>)
    ensures Cuts(xs + ys) == Cuts(xs) + Cuts(ys)
  {
    FilterMapAppend(xs, ys, AsCut);
  }

  /** The cut of one input that had none of its barriers absorbed. */
  lemma {:induction false} CutWhereUnabsorbed<T>(inputs: seq<seq<StreamElement<T>>>, picks: seq<nat>, i: nat, k: nat)
    requires i < |inputs| && Absorbed(Start(inputs), picks, i) == 0
    ensures var log := Run(Start(inputs), picks).log;
            && |AlignedIn(log)| <= |Barriers(inputs[i])|
            && (k < |AlignedIn(log)| ==> View(i, BeforeAligned(log, k)) == Erase(Before(inputs[i], k)))
  {
    var s := Run(Start(inputs), picks);
    CutIffNoneAbsorbed(inputs, picks, i);
    var rest := Mark(s.received[i]) + (Erase(s.buffers[i]) + Erase(s.inputs[i]));
    UpToInView(i, s.log, k);
    UpToInErased(inputs[i], k);
    CutsAppend(View(i, s.log), rest);
    if k < |AlignedIn(s.log)| {
      UpToPrefix(View(i, s.log), rest, k);
    }
  }

  // ----- which barriers come out -----

  function Held(p: Option<CheckpointBarrier>): seq<CheckpointBarrier> { if p.Some? then [p.value] else [] }

  /** Input i's barriers as aligned so far, in progress and to come. */
  function BarrierAccount<T>(s: State<T>, i: nat): seq<CheckpointBarrier>
    requires |s.received| == |s.buffers| == |s.inputs| && i < |s.inputs|
  {
    AlignedIn(s.log) + ((if s.received[i] then Held(s.pending) else []) + Barriers(s.inputs[i]))
  }

  /** Every input's barriers follow the common sequence `bs`. */
  ghost predicate Follow<T>(s: State<T>, bs: seq<CheckpointBarrier>)
  {
    && Inv(s)
    && forall i :: 0 <= i < |s.inputs| ==> BarrierAccount(s, i) <= bs
  }

  lemma {:induction false} StepFollows<T>(s: State<T>, pick: nat, bs: seq<CheckpointBarrier>)
    requires Follow(s, bs) && HoldsData(s) && !Absorbs(s, pick)
    ensures Follow(Step(s, pick), bs)
  {
    StepKeepsInv(s, pick);
    forall i | 0 <= i < |s.inputs| ensures BarrierAccount(Step(s, pick), i) == BarrierAccount(s, i) {
      if s.drain < |s.inputs| {
        if s.buffers[s.drain] != [] {
          LogGrows(i, s.log, FromInput(s.drain, s.buffers[s.drain][0]));
        }
      } else if pick < |s.inputs| && s.inputs[pick] != [] {
        if s.inputs[pick][0].Bar? {
          PendingIsNext(s, pick, bs);
          if |s.inputs| == 1 {
            SingleFollows(s);
          } else {
            BarrierFollows(s, pick, i);
          }
        } else {
          DataFollows(s, pick, i);
        }
      }
    }
  }

  lemma {:induction false} DataFollows<T>(s: State<T>, pick: nat, i: nat)
    requires |s.received| == |s.buffers| == |s.inputs| == s.drain && i < |s.inputs|
    requires pick < |s.inputs| && s.inputs[pick] != [] && !s.inputs[pick][0].Bar?
    ensures BarrierAccount(Step(s, pick), i) == BarrierAccount(s, i)
  {
    HeadErased(s.inputs[pick]);
    assert Barriers(s.inputs[pick]) == Barriers(s.inputs[pick][1..]);
    LogGrows(i, s.log, FromInput(pick, s.inputs[pick][0]));
    assert AlignedIn(s.log + [FromInput(pick, s.inputs[pick][0])]) == AlignedIn(s.log);
  }

  /** A barrier in progress is the one the unblocked inputs deliver next. */
  lemma {:induction false} PendingIsNext<T>(s: State<T>, pick: nat, bs: seq<CheckpointBarrier>)
    requires Follow(s, bs) && !Absorbs(s, pick) && s.drain == |s.inputs|
    requires pick < |s.inputs| && s.inputs[pick] != [] && s.inputs[pick][0].Bar?
    ensures !s.received[pick]
    ensures s.pending.None? || s.pending == Some(s.inputs[pick][0].barrier)
  {
    var b, a := s.inputs[pick][0].barrier, AlignedIn(s.log);
    assert !s.received[pick];
    HeadErased(s.inputs[pick]);
    assert BarrierAccount(s, pick)[|a|] == b;
    if s.pending.Some? {
      var j :| 0 <= j < |s.inputs| && s.received[j];
      assert BarrierAccount(s, j)[|a|] == s.pending.value;
    }
  }

  lemma {:induction false} SingleFollows<T>(s: State<T>)
    requires Inv(s) && s.drain == |s.inputs| == 1 && s.inputs[0] != [] && s.inputs[0][0].Bar?
    ensures BarrierAccount(Single(s), 0) == BarrierAccount(s, 0)
  {
    HeadErased(s.inputs[0]);
    LogGrows(0, s.log, Aligned(s.inputs[0][0].barrier));
  }

  lemma {:induction false} BarrierFollows<T>(s: State<T>, pick: nat, i: nat)
    requires |s.received| == |s.buffers| == |s.inputs| && i < |s.inputs| && (s.received[i] ==> s.pending.Some?)
    requires pick < |s.inputs| && s.inputs[pick] != [] && s.inputs[pick][0].Bar? && !s.received[pick]
    requires s.pending.None? || s.pending == Some(s.inputs[pick][0].barrier)
    ensures BarrierAccount(Multi(s, pick), i) == BarrierAccount(s, i)
  {
    HeadErased(s.inputs[pick]);
    if AllTrue(s.received[pick := true]) {
      LastBarrierFollows(s, pick, i);
    } else if i == pick {
      assert Barriers(s.inputs[i]) == [s.inputs[i][0].barrier] + Barriers(s.inputs[i][1..]);
    }
  }

  lemma {:induction false} LastBarrierFollows<T>(s: State<T>, pick: nat, i: nat)
    requires |s.received| == |s.buffers| == |s.inputs| && i < |s.inputs| && (s.received[i] ==> s.pending.Some?)
    requires pick < |s.inputs| && s.inputs[pick] != [] && s.inputs[pick][0].Bar? && !s.received[pick]
    requires s.pending.None? || s.pending == Some(s.inputs[pick][0].barrier)
    requires AllTrue(s.received[pick := true])
    requires Barriers(s.inputs[pick]) == [s.inputs[pick][0].barrier] + Barriers(s.inputs[pick][1..])
    ensures BarrierAccount(Multi(s, pick), i) == BarrierAccount(s, i)
  {
    var b, rest := s.inputs[pick][0].barrier, Barriers(Multi(s, pick).inputs[i]);
    LogGrows(i, s.log, Aligned(b));
    assert s.received[pick := true][i];
    assert BarrierAccount(s, i) == AlignedIn(s.log) + ([b] + rest);
    Regroup(AlignedIn(s.log), [b], rest);
    assert [] + rest == rest;
  }

  lemma {:induction false} OrderWhereUnabsorbed<T>(inputs: seq<seq<StreamElement<T>>>, picks: seq<nat>,
                                                   bs: seq<CheckpointBarrier>)
    requires |inputs| > 0
    requires forall i :: 0 <= i < |inputs| ==> Barriers(inputs[i]) <= bs && Absorbed(Start(inputs), picks, i) == 0
    ensures Follow(Run(Start(inputs), picks), bs)
    ensures AlignedIn(Run(Start(inputs), picks).log) <= bs
  {
    StartAccounts(inputs, 0);
    if picks != [] {
      var m := |picks| - 1;
      var s := Run(Start(inputs), picks[..m]);
      OrderWhereUnabsorbed(inputs, picks[..m], bs);
      RunKeeps(Start(inputs), picks[..m], 0);
      assert Absorbs(s, picks[m]) ==> Absorbed(Start(inputs), picks, picks[m]) > 0;
      StepFollows(s, picks[m], bs);
    }
    var s := Run(Start(inputs), picks);
    assert AlignedIn(s.log) <= BarrierAccount(s, 0);
  }
}
