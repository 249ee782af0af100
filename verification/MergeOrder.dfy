/** Which orders the merge can put two records in: barriers keep sections apart, and
    within a section every order of a record of one input and one of the other is
    the work of some schedule. */
module MergeOrder {
  import opened Streams
  import opened Merge
  import opened MergeCut
  import MergeWatermarks

  /** The merged stream under a schedule that has run to its end. */
  function Merged<L, R>(in1: seq<StreamElement<L>>, in2: seq<StreamElement<R>>, select: nat -> Side)
    : seq<StreamElement<Either<L, R>>>
  {
    Run(Start(in1, in2), select, 2 * |in1| + 2 * |in2| + 2).out
  }

  /** The section an element stands in: the number of barriers before it. */
  function SectionOf<V>(xs: seq<StreamElement<V>>, i: nat): nat
    requires i <= |xs|
  {
    |Barriers(xs[..i])|
  }

  // ----- positions of filtered items -----

  /** The item at position a is number n (from 0) of those that f selects. */
  predicate IsNth<A, B>(xs: seq<A>, f: A -> Option<B>, a: nat, n: nat)
  {
    a < |xs| && f(xs[a]).Some? && |FilterMap(xs[..a], f)| == n
  }

  lemma {:induction false} NthItem<A, B>(xs: seq<A>, f: A -> Option<B>, n: nat) returns (a: nat)
    requires n < |FilterMap(xs, f)|
    ensures IsNth(xs, f, a, n) && f(xs[a]).value == FilterMap(xs, f)[n]
  {
    var skipped := if f(xs[0]).Some? then 1 else 0;
    if n < skipped {
      a := 0;
    } else {
      var a' := NthItem(xs[1..], f, n - skipped);
      a := a' + 1;
      assert xs[..a][0] == xs[0] && xs[..a][1..] == xs[1..][..a'];
    }
  }

  lemma {:induction false} CountGrows<A, B>(xs: seq<A>, f: A -> Option<B>, a: nat, b: nat)
    requires a <= b <= |xs|
    ensures |FilterMap(xs[..a], f)| <= |FilterMap(xs[..b], f)|
    ensures a < b && f(xs[a]).Some? ==> |FilterMap(xs[..a], f)| < |FilterMap(xs[..b], f)|
  {
    assert xs[..b] == xs[..a] + xs[a..b];
    FilterMapAppend(xs[..a], xs[a..b], f);
  }

  lemma {:induction false} ItemAt<A, B>(xs: seq<A>, f: A -> Option<B>, a: nat, n: nat)
    requires IsNth(xs, f, a, n)
    ensures n < |FilterMap(xs, f)| && FilterMap(xs, f)[n] == f(xs[a]).value
  {
    assert xs == xs[..a] + xs[a..];
    FilterMapAppend(xs[..a], xs[a..], f);
  }

  lemma {:induction false} InBefore<V>(xs: seq<StreamElement<V>>, a: nat, k: nat)
    requires a < |xs| && !xs[a].Bar?
    ensures a < |Before(xs, k)| <==> SectionOf(xs, a) <= k
  {
    if a > 0 {
      assert xs[..a][0] == xs[0] && xs[..a][1..] == xs[1..][..a - 1];
      BarriersCons(xs[..a]);
      if !xs[0].Bar? {
        InBefore(xs[1..], a - 1, k);
      } else if k > 0 {
        InBefore(xs[1..], a - 1, k - 1);
      }
    } else {
      assert xs[..0] == [];
    }
  }

  /** The section of an element, told by how many like it come earlier. */
  lemma {:induction false} SectionByCount<V, B>(xs: seq<StreamElement<V>>, f: StreamElement<V> -> Option<B>,
                                                a: nat, k: nat)
    requires a < |xs| && !xs[a].Bar? && f(xs[a]).Some?
    ensures SectionOf(xs, a) <= k <==> |FilterMap(xs[..a], f)| < |FilterMap(Before(xs, k), f)|
  {
    var m := |Before(xs, k)|;
    BeforeIsPrefix(xs, k);
    assert Before(xs, k) == xs[..m];
    InBefore(xs, a, k);
    if a < m {
      CountGrows(xs, f, a, m);
    } else {
      CountGrows(xs, f, m, a);
    }
  }

  /** Two streams cut alike: what comes as number n in both stands in the same section. */
  lemma {:induction false} SameSection<V, W, A>(xs: seq<StreamElement<V>>, f: StreamElement<V> -> Option<A>, a: nat,
            ys: seq<StreamElement<W>>, g: StreamElement<W> -> Option<A>, i: nat, n: nat)
    requires IsNth(xs, f, a, n) && IsNth(ys, g, i, n) && !xs[a].Bar? && !ys[i].Bar?
    requires forall k: nat :: FilterMap(Before(xs, k), f) == FilterMap(Before(ys, k), g)
    ensures SectionOf(xs, a) == SectionOf(ys, i)
  {
    var p, q := SectionOf(xs, a), SectionOf(ys, i);
    SectionByCount(xs, f, a, p);
    SectionByCount(ys, g, i, p);
    SectionByCount(xs, f, a, q);
    SectionByCount(ys, g, i, q);
    assert FilterMap(Before(xs, p), f) == FilterMap(Before(ys, p), g);
    assert FilterMap(Before(xs, q), f) == FilterMap(Before(ys, q), g);
  }

  lemma {:induction false} SectionsGrow<V>(xs: seq<StreamElement<V>>, a: nat, b: nat)
    requires a <= b <= |xs|
    ensures SectionOf(xs, a) <= SectionOf(xs, b)
  {
    CountGrows(xs, AsBarrier, a, b);
  }

  // ----- the same record in the input and in the output -----

  lemma {:induction false} MergedSides<L, R>(in1: seq<StreamElement<L>>, in2: seq<StreamElement<R>>,
                                             select: nat -> Side)
    ensures Lefts(Merged(in1, in2, select)) == Records(in1) && Rights(Merged(in1, in2, select)) == Records(in2)
  {
    FinishedSides(in1, in2, select, 2 * |in1| + 2 * |in2| + 2);
  }

  lemma {:induction false} FinishedSides<L, R>(in1: seq<StreamElement<L>>, in2: seq<StreamElement<R>>,
                                               select: nat -> Side, n: nat)
    requires n >= 2 * |in1| + 2 * |in2| + 2
    ensures Lefts(Run(Start(in1, in2), select, n).out) == Records(in1)
    ensures Rights(Run(Start(in1, in2), select, n).out) == Records(in2)
  {
    Terminates(in1, in2, select, n);
    MergedRecords(in1, in2, select, n);
  }

  lemma {:induction false} MergedCut<L, R>(in1: seq<StreamElement<L>>, in2: seq<StreamElement<R>>,
                                           select: nat -> Side, k: nat)
    ensures Lefts(Before(Merged(in1, in2, select), k)) == Records(Before(in1, k))
    ensures Rights(Before(Merged(in1, in2, select), k)) == Records(Before(in2, k))
  {
    var n := 2 * |in1| + 2 * |in2| + 2;
    Terminates(in1, in2, select, n);
    ConsistentCut(in1, in2, select, n, k);
  }

  lemma {:induction false} LeftSections<L, R>(in1: seq<StreamElement<L>>, in2: seq<StreamElement<R>>,
                                              select: nat -> Side, a: nat, i: nat, n: nat)
    requires IsNth(Merged(in1, in2, select), AsLeft, a, n) && IsNth(in1, AsRecord, i, n)
    ensures SectionOf(Merged(in1, in2, select), a) == SectionOf(in1, i)
    ensures AsLeft(Merged(in1, in2, select)[a]).value == in1[i].record
  {
    var out := Merged(in1, in2, select);
    forall k: nat ensures Lefts(Before(out, k)) == Records(Before(in1, k)) {
      MergedCut(in1, in2, select, k);
    }
    SameSection(out, AsLeft, a, in1, AsRecord, i, n);
    MergedSides(in1, in2, select);
    ItemAt(out, AsLeft, a, n);
    ItemAt(in1, AsRecord, i, n);
  }

  lemma {:induction false} RightSections<L, R>(in1: seq<StreamElement<L>>, in2: seq<StreamElement<R>>,
                                               select: nat -> Side, b: nat, j: nat, m: nat)
    requires IsNth(Merged(in1, in2, select), AsRight, b, m) && IsNth(in2, AsRecord, j, m)
    ensures SectionOf(Merged(in1, in2, select), b) == SectionOf(in2, j)
    ensures AsRight(Merged(in1, in2, select)[b]).value == in2[j].record
  {
    var out := Merged(in1, in2, select);
    forall k: nat ensures Rights(Before(out, k)) == Records(Before(in2, k)) {
      MergedCut(in1, in2, select, k);
    }
    SameSection(out, AsRight, b, in2, AsRecord, j, m);
    MergedSides(in1, in2, select);
    ItemAt(out, AsRight, b, m);
    ItemAt(in2, AsRecord, j, m);
  }

  /** Where record number n of input 1 comes out. */
  lemma {:induction false} PlaceOfLeft<L, R>(in1: seq<StreamElement<L>>, in2: seq<StreamElement<R>>,
                                             select: nat -> Side, i: nat, n: nat) returns (a: nat)
    requires IsNth(in1, AsRecord, i, n)
    ensures IsNth(Merged(in1, in2, select), AsLeft, a, n)
    ensures SectionOf(Merged(in1, in2, select), a) == SectionOf(in1, i)
  {
    MergedSides(in1, in2, select);
    ItemAt(in1, AsRecord, i, n);
    a := NthItem(Merged(in1, in2, select), AsLeft, n);
    LeftSections(in1, in2, select, a, i, n);
  }

  lemma {:induction false} PlaceOfRight<L, R>(in1: seq<StreamElement<L>>, in2: seq<StreamElement<R>>,
                                              select: nat -> Side, j: nat, m: nat) returns (b: nat)
    requires IsNth(in2, AsRecord, j, m)
    ensures IsNth(Merged(in1, in2, select), AsRight, b, m)
    ensures SectionOf(Merged(in1, in2, select), b) == SectionOf(in2, j)
  {
    MergedSides(in1, in2, select);
    ItemAt(in2, AsRecord, j, m);
    b := NthItem(Merged(in1, in2, select), AsRight, m);
    RightSections(in1, in2, select, b, j, m);
  }

  // ----- the two extreme schedules -----

  function Always(side: Side): nat -> Side { (n: nat) => side }

  lemma {:induction false} BarElemsHead<V>(bs: seq<CheckpointBarrier>)
    ensures Before(BarElems<V>(bs), 0) == []
  {
  }

  lemma {:induction false} BarriersInRightView<L, R>(xs: seq<StreamElement<Either<L, R>>>)
    ensures Barriers(RightView(xs)) == Barriers(xs)
  {
    if xs != [] {
      BarriersInRightView(xs[1..]);
      assert RightView(xs) == (if KeepRight(xs[0]).Some? then [KeepRight(xs[0]).value] else []) + RightView(xs[1..]);
    }
  }

  /** As long as a view is followed by a barrier or nothing, it is the part before its next barrier. */
  lemma {:induction false} ViewIsBefore<V>(view: seq<StreamElement<V>>, rest: seq<StreamElement<V>>)
    requires Before(rest, 0) == []
    ensures Before(view + rest, |Barriers(view)|) == view == Before(view, |Barriers(view)|)
  {
    BeforeConcat(view, rest, |Barriers(view)|);
    BeforeNoBarrier(view, |Barriers(view)|);
    assert view + [] == view;
  }

  /** While input 1 is held back or closed, all its records of the current section are out. */
  lemma {:induction false} HeldLefts<L, R>(in1: seq<StreamElement<L>>, in2: seq<StreamElement<R>>, s: State<L, R>)
    requires Conserves(Start(in1, in2), s) && (s.lane1.pending.Some? || !s.lane1.open)
    ensures Lefts(s.out) == Records(Before(in1, |Barriers(s.out)|))
  {
    var k, view := |Barriers(s.out)|, LeftView(s.out);
    var rest := Rest1(DueData(s.lane1), Due(s.lane1), Due(s.lane2));
    BarriersInLeftView(s.out);
    assert Before(rest, 0) == [] by {
      if s.lane1.pending.Some? {
        ReleaseHeld(s.lane1);
      } else {
        NothingDue(s.lane1);
        BarElemsHead<L>(Drop(Due(s.lane2), 0));
        assert rest == BarElems(Drop(Due(s.lane2), 0));
      }
    }
    ViewIsBefore(view, rest);
    StartViews(in1, in2);
    BeforeInPadded(Data(in1), Drop(Barriers(in2), |Barriers(in1)|), k);
    BeforeInData(in1, k);
    BeforeInViews(s.out, k);
    BeforeNoBarrier(s.out, k);
  }

  lemma {:induction false} HeldRights<L, R>(in1: seq<StreamElement<L>>, in2: seq<StreamElement<R>>, s: State<L, R>)
    requires Conserves(Start(in1, in2), s) && (s.lane2.pending.Some? || !s.lane2.open)
    ensures Rights(s.out) == Records(Before(in2, |Barriers(s.out)|))
  {
    var k, view := |Barriers(s.out)|, RightView(s.out);
    var rest := Rest2(DueData(s.lane2), Due(s.lane1), Due(s.lane2));
    BarriersInRightView(s.out);
    assert Before(rest, 0) == [] by {
      if s.lane2.pending.Some? {
        ReleaseHeld(s.lane2);
      } else {
        NothingDue(s.lane2);
        BarElemsHead<R>(Drop(Due(s.lane1), 0));
        assert rest == BarElems(Drop(Due(s.lane1), 0));
      }
    }
    ViewIsBefore(view, rest);
    StartViews(in1, in2);
    BeforeInPadded(Rename(Data(in2), Barriers(in1)), Drop(Barriers(in1), |Barriers(in2)|), k);
    BeforeInRenamed(Data(in2), Barriers(in1), k);
    BeforeInData(in2, k);
    BeforeInViews(s.out, k);
    BeforeNoBarrier(s.out, k);
  }

  /** Where a right record comes out, all left records of its section are out. */
  ghost predicate LeftsEarly<L, R>(in1: seq<StreamElement<L>>, out: seq<StreamElement<Either<L, R>>>)
  {
    forall b :: 0 <= b < |out| && AsRight(out[b]).Some? ==>
      Lefts(out[..b]) == Records(Before(in1, SectionOf(out, b)))
  }

  ghost predicate RightsEarly<L, R>(in2: seq<StreamElement<R>>, out: seq<StreamElement<Either<L, R>>>)
  {
    forall a :: 0 <= a < |out| && AsLeft(out[a]).Some? ==>
      Rights(out[..a]) == Records(Before(in2, SectionOf(out, a)))
  }

  lemma {:induction false} LeftsEarlySnoc<L, R>(in1: seq<StreamElement<L>>, out: seq<StreamElement<Either<L, R>>>,
                                                added: seq<StreamElement<Either<L, R>>>)
    requires LeftsEarly(in1, out) && |added| <= 1
    requires added != [] && AsRight(added[0]).Some? ==> Lefts(out) == Records(Before(in1, |Barriers(out)|))
    ensures LeftsEarly(in1, out + added)
  {
    var all := out + added;
    forall b | 0 <= b < |all| && AsRight(all[b]).Some?
      ensures Lefts(all[..b]) == Records(Before(in1, SectionOf(all, b)))
    {
      if b < |out| {
        assert all[..b] == out[..b];
      } else {
        assert all[..b] == out;
      }
    }
  }

  lemma {:induction false} RightsEarlySnoc<L, R>(in2: seq<StreamElement<R>>, out: seq<StreamElement<Either<L, R>>>,
                                                 added: seq<StreamElement<Either<L, R>>>)
    requires RightsEarly(in2, out) && |added| <= 1
    requires added != [] && AsLeft(added[0]).Some? ==> Rights(out) == Records(Before(in2, |Barriers(out)|))
    ensures RightsEarly(in2, out + added)
  {
    var all := out + added;
    forall a | 0 <= a < |all| && AsLeft(all[a]).Some?
      ensures Rights(all[..a]) == Records(Before(in2, SectionOf(all, a)))
    {
      if a < |out| {
        assert all[..a] == out[..a];
      } else {
        assert all[..a] == out;
      }
    }
  }

  /** A scheduler that prefers input 1 turns to input 2 only when input 1 is held back or closed. */
  lemma {:induction false} PreferredWaits<L, R>(s: State<L, R>, added: seq<StreamElement<Either<L, R>>>)
    requires Inv(s) && added != []
    ensures Step(s, First).out == s.out + added && AsRight(added[0]).Some? ==>
              s.lane1.pending.Some? || !s.lane1.open
    ensures Step(s, Second).out == s.out + added && AsLeft(added[0]).Some? ==>
              s.lane2.pending.Some? || !s.lane2.open
  {
    assert (s.out + added)[|s.out|] == added[0];
  }

  ghost predicate Early1<L, R>(in1: seq<StreamElement<L>>, in2: seq<StreamElement<R>>, s: State<L, R>)
  {
    Conserves(Start(in1, in2), s) && LeftsEarly(in1, s.out)
  }

  ghost predicate Early2<L, R>(in1: seq<StreamElement<L>>, in2: seq<StreamElement<R>>, s: State<L, R>)
  {
    Conserves(Start(in1, in2), s) && RightsEarly(in2, s.out)
  }

  lemma {:induction false} FirstStepIsEarly<L, R>(in1: seq<StreamElement<L>>, in2: seq<StreamElement<R>>,
                                                  s: State<L, R>)
    requires Early1(in1, in2, s)
    ensures Early1(in1, in2, Step(s, First))
  {
    TurnConserves(Start(in1, in2), s, First);
    var added := MergeWatermarks.StepAppends(s, First);
    if added != [] && AsRight(added[0]).Some? {
      PreferredWaits(s, added);
      HeldLefts(in1, in2, s);
    }
    LeftsEarlySnoc(in1, s.out, added);
  }

  lemma {:induction false} FirstIsEarly<L, R>(in1: seq<StreamElement<L>>, in2: seq<StreamElement<R>>, n: nat)
    ensures Early1(in1, in2, Run(Start(in1, in2), Always(First), n))
  {
    if n > 0 {
      FirstIsEarly(in1, in2, n - 1);
      FirstStepIsEarly(in1, in2, Run(Start(in1, in2), Always(First), n - 1));
    }
  }

  lemma {:induction false} SecondStepIsEarly<L, R>(in1: seq<StreamElement<L>>, in2: seq<StreamElement<R>>,
                                                   s: State<L, R>)
    requires Early2(in1, in2, s)
    ensures Early2(in1, in2, Step(s, Second))
  {
    TurnConserves(Start(in1, in2), s, Second);
    var added := MergeWatermarks.StepAppends(s, Second);
    if added != [] && AsLeft(added[0]).Some? {
      PreferredWaits(s, added);
      HeldRights(in1, in2, s);
    }
    RightsEarlySnoc(in2, s.out, added);
  }

  lemma {:induction false} SecondIsEarly<L, R>(in1: seq<StreamElement<L>>, in2: seq<StreamElement<R>>, n: nat)
    ensures Early2(in1, in2, Run(Start(in1, in2), Always(Second), n))
  {
    if n > 0 {
      SecondIsEarly(in1, in2, n - 1);
      SecondStepIsEarly(in1, in2, Run(Start(in1, in2), Always(Second), n - 1));
    }
  }

  // ----- which orders are possible -----

  /** Record n of input 1 comes out before record m of input 2. */
  ghost predicate LeftFirst<L, R>(out: seq<StreamElement<Either<L, R>>>, n: nat, m: nat)
  {
    exists a, b :: 0 <= a < b < |out| && IsNth(out, AsLeft, a, n) && IsNth(out, AsRight, b, m)
  }

  ghost predicate RightFirst<L, R>(out: seq<StreamElement<Either<L, R>>>, n: nat, m: nat)
  {
    exists a, b :: 0 <= b < a < |out| && IsNth(out, AsLeft, a, n) && IsNth(out, AsRight, b, m)
  }

  /** Some schedule brings record n of input 1 out before record m of input 2 if and
      only if it stands in no later section; for the opposite order it is the other
      way round. So both orders are possible within a section and only there. */
  lemma {:induction false} OrderIff<L, R>(in1: seq<StreamElement<L>>, in2: seq<StreamElement<R>>,
                                          i: nat, n: nat, j: nat, m: nat)
    requires IsNth(in1, AsRecord, i, n) && IsNth(in2, AsRecord, j, m)
    ensures (exists select :: LeftFirst(Merged(in1, in2, select), n, m)) <==> SectionOf(in1, i) <= SectionOf(in2, j)
    ensures (exists select :: RightFirst(Merged(in1, in2, select), n, m)) <==> SectionOf(in2, j) <= SectionOf(in1, i)
  {
    forall select: nat -> Side
      ensures LeftFirst(Merged(in1, in2, select), n, m) ==> SectionOf(in1, i) <= SectionOf(in2, j)
      ensures RightFirst(Merged(in1, in2, select), n, m) ==> SectionOf(in2, j) <= SectionOf(in1, i)
    {
      OrderNeedsSections(in1, in2, select, i, n, j, m);
    }
    if SectionOf(in1, i) <= SectionOf(in2, j) {
      LeftsCanBeFirst(in1, in2, i, n, j, m);
    }
    if SectionOf(in2, j) <= SectionOf(in1, i) {
      RightsCanBeFirst(in1, in2, i, n, j, m);
    }
  }

  lemma {:induction false} OrderNeedsSections<L, R>(in1: seq<StreamElement<L>>, in2: seq<StreamElement<R>>,
                                                    select: nat -> Side, i: nat, n: nat, j: nat, m: nat)
    requires IsNth(in1, AsRecord, i, n) && IsNth(in2, AsRecord, j, m)
    ensures LeftFirst(Merged(in1, in2, select), n, m) ==> SectionOf(in1, i) <= SectionOf(in2, j)
    ensures RightFirst(Merged(in1, in2, select), n, m) ==> SectionOf(in2, j) <= SectionOf(in1, i)
  {
    var out := Merged(in1, in2, select);
    if LeftFirst(out, n, m) {
      var a, b :| 0 <= a < b < |out| && IsNth(out, AsLeft, a, n) && IsNth(out, AsRight, b, m);
      LeftSections(in1, in2, select, a, i, n);
      RightSections(in1, in2, select, b, j, m);
      SectionsGrow(out, a, b);
    }
    if RightFirst(out, n, m) {
      var a, b :| 0 <= b < a < |out| && IsNth(out, AsLeft, a, n) && IsNth(out, AsRight, b, m);
      LeftSections(in1, in2, select, a, i, n);
      RightSections(in1, in2, select, b, j, m);
      SectionsGrow(out, b, a);
    }
  }

  lemma {:induction false} EarlyOutputs<L, R>(in1: seq<StreamElement<L>>, in2: seq<StreamElement<R>>, n: nat)
    ensures LeftsEarly(in1, Run(Start(in1, in2), Always(First), n).out)
    ensures RightsEarly(in2, Run(Start(in1, in2), Always(Second), n).out)
  {
    FirstIsEarly(in1, in2, n);
    SecondIsEarly(in1, in2, n);
  }

  lemma {:induction false} MergedEarly<L, R>(in1: seq<StreamElement<L>>, in2: seq<StreamElement<R>>)
    ensures LeftsEarly(in1, Merged(in1, in2, Always(First)))
    ensures RightsEarly(in2, Merged(in1, in2, Always(Second)))
  {
    EarlyOutputs(in1, in2, 2 * |in1| + 2 * |in2| + 2);
  }

  lemma {:induction false} EarlyLeftIsFirst<L, R>(in1: seq<StreamElement<L>>, out: seq<StreamElement<Either<L, R>>>,
                                                  i: nat, n: nat, a: nat, b: nat, m: nat)
    requires LeftsEarly(in1, out) && IsNth(in1, AsRecord, i, n) && IsNth(out, AsLeft, a, n)
    requires IsNth(out, AsRight, b, m) && SectionOf(in1, i) <= SectionOf(out, b)
    ensures LeftFirst(out, n, m)
  {
    SectionByCount(in1, AsRecord, i, SectionOf(out, b));
    assert n < |Lefts(out[..b])|;
    if b <= a {
      CountGrows(out, AsLeft, b, a);
    }
  }

  lemma {:induction false} EarlyRightIsFirst<L, R>(in2: seq<StreamElement<R>>, out: seq<StreamElement<Either<L, R>>>,
                                                   j: nat, m: nat, a: nat, b: nat, n: nat)
    requires RightsEarly(in2, out) && IsNth(in2, AsRecord, j, m) && IsNth(out, AsRight, b, m)
    requires IsNth(out, AsLeft, a, n) && SectionOf(in2, j) <= SectionOf(out, a)
    ensures RightFirst(out, n, m)
  {
    SectionByCount(in2, AsRecord, j, SectionOf(out, a));
    assert m < |Rights(out[..a])|;
    if a <= b {
      CountGrows(out, AsRight, a, b);
    }
  }

  lemma {:induction false} LeftsCanBeFirst<L, R>(in1: seq<StreamElement<L>>, in2: seq<StreamElement<R>>,
                                                 i: nat, n: nat, j: nat, m: nat)
    requires IsNth(in1, AsRecord, i, n) && IsNth(in2, AsRecord, j, m) && SectionOf(in1, i) <= SectionOf(in2, j)
    ensures LeftFirst(Merged(in1, in2, Always(First)), n, m)
  {
    var a := PlaceOfLeft(in1, in2, Always(First), i, n);
    var b := PlaceOfRight(in1, in2, Always(First), j, m);
    MergedEarly(in1, in2);
    EarlyLeftIsFirst(in1, Merged(in1, in2, Always(First)), i, n, a, b, m);
  }

  lemma {:induction false} RightsCanBeFirst<L, R>(in1: seq<StreamElement<L>>, in2: seq<StreamElement<R>>,
                                                  i: nat, n: nat, j: nat, m: nat)
    requires IsNth(in1, AsRecord, i, n) && IsNth(in2, AsRecord, j, m) && SectionOf(in2, j) <= SectionOf(in1, i)
    ensures RightFirst(Merged(in1, in2, Always(Second)), n, m)
  {
    var a := PlaceOfLeft(in1, in2, Always(Second), i, n);
    var b := PlaceOfRight(in1, in2, Always(Second), j, m);
    MergedEarly(in1, in2);
    EarlyRightIsFirst(in2, Merged(in1, in2, Always(Second)), j, m, a, b, n);
  }
}
