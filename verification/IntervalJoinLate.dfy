/** The interval join on any stream, late records included: a pair comes out exactly
    when its range test admits it and its first record was not evicted in between. */
module IntervalJoinLate {
  import opened Streams
  import opened IntervalJoin
  import opened IntervalJoinBatch

  // ----- what eviction leaves -----

  /** No watermark behind element i has evicted it. */
  ghost predicate Kept<V>(upper: Timestamp, xs: seq<StreamElement<V>>, i: nat)
    requires i < |xs| && xs[i].Rec?
  {
    forall k :: i < k < |xs| && xs[k].Wm? ==> SatSub(xs[k].timestamp, upper) <= xs[i].record.timestamp
  }

  /** `pick` selects records only and keeps their time. */
  ghost predicate Picks<V(!new), W(!new)>(pick: StreamElement<W> -> Option<Record<V>>)
  {
    forall e :: pick(e).Some? ==> e.Rec? && pick(e).value.timestamp == e.record.timestamp
  }

  /** The answers of f to records at or after c. */
  function From<V, O>(c: Timestamp, f: Record<V> -> Option<O>): Record<V> -> Option<O>
  {
    (x: Record<V>) => if c <= x.timestamp then f(x) else None
  }

  lemma {:induction false} SameAnswers<A, B>(xs: seq<A>, f: A -> Option<B>, g: A -> Option<B>)
    requires forall x :: x in xs ==> f(x) == g(x)
    ensures FilterMap(xs, f) == FilterMap(xs, g)
  {
    if xs != [] {
      SameAnswers(xs[1..], f, g);
    }
  }

  lemma {:induction false} FilterOne<A, B>(x: A, f: A -> Option<B>)
    ensures FilterMap([x], f) == AsSeq(f(x))
  {
    assert [x][1..] == [];
  }

  lemma {:induction false} FlattenedAbove<V>(k: Bytes, b: seq<Bucket<V>>, c: Timestamp)
    requires forall i :: 0 <= i < |b| ==> c <= b[i].timestamp
    ensures forall x :: x in Flatten(k, b) ==> c <= x.timestamp
  {
    if b != [] {
      FlattenedAbove(k, b[1..], c);
    }
  }

  /** Evicting a sorted buffer leaves out exactly the answers below the cutoff. */
  lemma {:induction false} EvictedAnswers<V, O>(k: Bytes, b: seq<Bucket<V>>, d: Timestamp, c: Timestamp,
                                                f: Record<V> -> Option<O>)
    requires Sorted(b)
    ensures FilterMap(Flatten(k, Evict(b, d)), From(c, f)) == FilterMap(Flatten(k, b), From(Max(c, d), f))
  {
    if b != [] {
      if d <= b[0].timestamp {
        FlattenedAbove(k, b, d);
        SameAnswers(Flatten(k, b), From(c, f), From(Max(c, d), f));
      } else {
        EvictedAnswers(k, b[1..], d, c, f);
        FilterMapAppend(InBucket(k, b[0]), Flatten(k, b[1..]), From(Max(c, d), f));
        NoneFound(InBucket(k, b[0]), From(Max(c, d), f));
      }
    }
  }

  lemma {:induction false} KeptSnoc<W>(upper: Timestamp, xs: seq<StreamElement<W>>, e: StreamElement<W>, i: nat)
    requires i < |xs| && xs[i].Rec?
    ensures Kept(upper, xs + [e], i)
       <==> Kept(upper, xs, i) && (e.Wm? ==> SatSub(e.timestamp, upper) <= xs[i].record.timestamp)
  {
    var all := xs + [e];
    if Kept(upper, all, i) {
      forall k | i < k < |xs| && xs[k].Wm? ensures SatSub(xs[k].timestamp, upper) <= xs[i].record.timestamp {
        assert all[k] == xs[k];
      }
      assert all[|xs|] == e;
    }
  }

  /** What f answers to one element. */
  function Answer<V, W, O>(pick: StreamElement<W> -> Option<Record<V>>, f: Record<V> -> Option<O>,
                           e: StreamElement<W>): seq<O>
  {
    if e.Rec? && pick(e).Some? then AsSeq(f(pick(e).value)) else []
  }

  lemma {:induction false} AnswerOne<V, W, O>(pick: StreamElement<W> -> Option<Record<V>>, f: Record<V> -> Option<O>,
                                              e: StreamElement<W>)
    requires e.Rec?
    ensures FilterMap(AsSeq(pick(e)), f) == Answer(pick, f, e)
  {
    if pick(e).Some? {
      FilterOne(pick(e).value, f);
    }
  }

  /** What f answers to element i, if it is kept to the end. */
  ghost function AnswerIfKept<V, W, O>(upper: Timestamp, xs: seq<StreamElement<W>>,
            pick: StreamElement<W> -> Option<Record<V>>, f: Record<V> -> Option<O>, i: nat): seq<O>
    requires i < |xs|
  {
    if xs[i].Rec? && Kept(upper, xs, i) then Answer(pick, f, xs[i]) else []
  }

  /** What f answers to those of the first n elements that are kept to the end, in order. */
  ghost function KeptAnswers<V, W, O>(upper: Timestamp, xs: seq<StreamElement<W>>,
            pick: StreamElement<W> -> Option<Record<V>>, f: Record<V> -> Option<O>, n: nat): seq<O>
    requires n <= |xs|
  {
    if n == 0 then [] else KeptAnswers(upper, xs, pick, f, n - 1) + AnswerIfKept(upper, xs, pick, f, n - 1)
  }

  /** How far back a watermark moves the start of the answers. */
  function Raised<W>(upper: Timestamp, e: StreamElement<W>, c: Timestamp): Timestamp
  {
    if e.Wm? then Max(c, SatSub(e.timestamp, upper)) else c
  }

  lemma {:induction false} AnswerRaised<V, W, O>(upper: Timestamp, xs: seq<StreamElement<W>>, e: StreamElement<W>,
            pick: StreamElement<W> -> Option<Record<V>>, i: nat, c: Timestamp, f: Record<V> -> Option<O>)
    requires i < |xs|
    requires xs[i].Rec? && pick(xs[i]).Some? ==> pick(xs[i]).value.timestamp == xs[i].record.timestamp
    ensures AnswerIfKept(upper, xs + [e], pick, From(c, f), i)
         == AnswerIfKept(upper, xs, pick, From(Raised(upper, e, c), f), i)
  {
    assert (xs + [e])[i] == xs[i];
    if xs[i].Rec? {
      KeptSnoc(upper, xs, e, i);
    }
  }

  /** Two streams whose elements are answered alike are answered alike. */
  lemma {:induction false} KeptAgree<V, W, O>(upper: Timestamp, xs: seq<StreamElement<W>>,
            ys: seq<StreamElement<W>>, pick: StreamElement<W> -> Option<Record<V>>, n: nat,
            f: Record<V> -> Option<O>, g: Record<V> -> Option<O>)
    requires n <= |xs| && n <= |ys|
    requires forall i :: 0 <= i < n ==> AnswerIfKept(upper, ys, pick, g, i) == AnswerIfKept(upper, xs, pick, f, i)
    ensures KeptAnswers(upper, ys, pick, g, n) == KeptAnswers(upper, xs, pick, f, n)
  {
    if n > 0 {
      KeptAgree(upper, xs, ys, pick, n - 1, f, g);
    }
  }

  /** One more element evicts from the kept records what its watermark says, and nothing else. */
  lemma {:induction false} KeptAfter<V(!new), W(!new), O>(upper: Timestamp, xs: seq<StreamElement<W>>,
            e: StreamElement<W>, pick: StreamElement<W> -> Option<Record<V>>, c: Timestamp, f: Record<V> -> Option<O>)
    requires Picks(pick)
    ensures KeptAnswers(upper, xs + [e], pick, From(c, f), |xs| + 1)
         == KeptAnswers(upper, xs, pick, From(Raised(upper, e, c), f), |xs|) + Answer(pick, From(c, f), e)
  {
    var f', g := From(Raised(upper, e, c), f), From(c, f);
    assert (xs + [e])[|xs|] == e;
    forall i | 0 <= i < |xs|
      ensures AnswerIfKept(upper, xs + [e], pick, g, i) == AnswerIfKept(upper, xs, pick, f', i)
    {
      AnswerRaised(upper, xs, e, pick, i, c, f);
    }
    KeptAgree(upper, xs, xs + [e], pick, |xs|, f', g);
  }

  lemma {:induction false} FromTheStart<V, W, O>(upper: Timestamp, xs: seq<StreamElement<W>>,
            pick: StreamElement<W> -> Option<Record<V>>, f: Record<V> -> Option<O>)
    ensures KeptAnswers(upper, xs, pick, From(0, f), |xs|) == KeptAnswers(upper, xs, pick, f, |xs|)
  {
    forall i | 0 <= i < |xs|
      ensures AnswerIfKept(upper, xs, pick, From(0, f), i) == AnswerIfKept(upper, xs, pick, f, i)
    {
    }
    KeptAgree(upper, xs, xs, pick, |xs|, f, From(0, f));
  }

  // ----- the stored buffers -----

  lemma {:induction false} StaysSorted<L, R, O>(cfg: Config<L, R, O>, xs: seq<StreamElement<Either<L, R>>>, k: Bytes)
    ensures Sorted(Stored(StateAfter(cfg, xs), k).left) && Sorted(Stored(StateAfter(cfg, xs), k).right)
  {
    if xs != [] {
      var st, e := StateAfter(cfg, xs[..|xs| - 1]), xs[|xs| - 1];
      StaysSorted(cfg, xs[..|xs| - 1], k);
      if IsLeft(e) {
        PushKeepsSorted(Stored(st, k).left, e.record.timestamp, LeftOf(e.record).value);
      } else if IsRight(e) {
        PushKeepsSorted(Stored(st, k).right, e.record.timestamp, RightOf(e.record).value);
      } else if e.Wm? {
        var cutoff := SatSub(e.timestamp, cfg.upper);
        StoredAfterEviction(st, cutoff, k);
        EvictIsFilter(Stored(st, k).left, cutoff);
        EvictIsFilter(Stored(st, k).right, cutoff);
      }
    }
  }

  /** The stored lefts that answer a right record are those kept, each once. */
  lemma {:induction false} LeftsAreKept<L(!new), R(!new), O>(cfg: Config<L, R, O>,
            xs: seq<StreamElement<Either<L, R>>>, r: Record<R>, c: Timestamp)
    ensures multiset(LeftAnswers(cfg, StateAfter(cfg, xs), r, c))
         == multiset(KeptAnswers(cfg.upper, xs, AsLeft, From(c, ProbeLeft(cfg, r)), |xs|))
  {
    if xs != [] {
      var before, e := xs[..|xs| - 1], xs[|xs| - 1];
      InitAndLast(xs);
      LeftsAreKept(cfg, before, r, Raised(cfg.upper, e, c));
      StaysSorted(cfg, before, KeyOf(r));
      LeftsAfter(cfg, StateAfter(cfg, before), e, r, c);
      KeptAfter(cfg.upper, before, e, AsLeft, c, ProbeLeft(cfg, r));
    }
  }

  /** What the stored lefts answer from time c on. */
  function LeftAnswers<L, R, O>(cfg: Config<L, R, O>, st: State<L, R>, r: Record<R>, c: Timestamp): seq<Record<O>>
  {
    FilterMap(Flatten(KeyOf(r), Stored(st, KeyOf(r)).left), From(c, ProbeLeft(cfg, r)))
  }

  lemma {:induction false} LeftsAfter<L, R, O>(cfg: Config<L, R, O>, st: State<L, R>, e: StreamElement<Either<L, R>>,
                                               r: Record<R>, c: Timestamp)
    requires Sorted(Stored(st, KeyOf(r)).left)
    ensures multiset(LeftAnswers(cfg, Next(cfg, st, e), r, c))
         == multiset(LeftAnswers(cfg, st, r, Raised(cfg.upper, e, c)))
            + multiset(Answer(AsLeft, From(c, ProbeLeft(cfg, r)), e))
  {
    if IsLeft(e) {
      AddedLeft(cfg, st, LeftOf(e.record), r, c);
    } else if e.Wm? {
      StoredAfterEviction(st, SatSub(e.timestamp, cfg.upper), KeyOf(r));
      EvictedAnswers(KeyOf(r), Stored(st, KeyOf(r)).left, SatSub(e.timestamp, cfg.upper), c, ProbeLeft(cfg, r));
    } else {
      assert Stored(Next(cfg, st, e), KeyOf(r)).left == Stored(st, KeyOf(r)).left;
    }
  }

  lemma {:induction false} AddedLeft<L, R, O>(cfg: Config<L, R, O>, st: State<L, R>, l: Record<L>, r: Record<R>,
                                              c: Timestamp)
    ensures multiset(LeftAnswers(cfg, AddLeft(st, l), r, c))
         == multiset(LeftAnswers(cfg, st, r, c)) + multiset(AsSeq(From(c, ProbeLeft(cfg, r))(l)))
  {
    var x, f := Record(l.value, l.timestamp, Some(KeyOf(l))), From(c, ProbeLeft(cfg, r));
    ProbesIgnoreKeyForm(cfg, l, r);
    assert f(l) == f(x);
    if KeyOf(l) == KeyOf(r) {
      FlattenPush(KeyOf(r), Stored(st, KeyOf(r)).left, l.timestamp, l.value, f);
      FilterOne(x, f);
    }
  }

  /** The mirror image. */
  lemma {:induction false} RightsAreKept<L(!new), R(!new), O>(cfg: Config<L, R, O>,
            xs: seq<StreamElement<Either<L, R>>>, l: Record<L>, c: Timestamp)
    ensures multiset(RightAnswers(cfg, StateAfter(cfg, xs), l, c))
         == multiset(KeptAnswers(cfg.upper, xs, AsRight, From(c, ProbeRight(cfg, l)), |xs|))
  {
    if xs != [] {
      var before, e := xs[..|xs| - 1], xs[|xs| - 1];
      InitAndLast(xs);
      RightsAreKept(cfg, before, l, Raised(cfg.upper, e, c));
      StaysSorted(cfg, before, KeyOf(l));
      RightsAfter(cfg, StateAfter(cfg, before), e, l, c);
      KeptAfter(cfg.upper, before, e, AsRight, c, ProbeRight(cfg, l));
    }
  }

  function RightAnswers<L, R, O>(cfg: Config<L, R, O>, st: State<L, R>, l: Record<L>, c: Timestamp): seq<Record<O>>
  {
    FilterMap(Flatten(KeyOf(l), Stored(st, KeyOf(l)).right), From(c, ProbeRight(cfg, l)))
  }

  lemma {:induction false} RightsAfter<L, R, O>(cfg: Config<L, R, O>, st: State<L, R>, e: StreamElement<Either<L, R>>,
                                                l: Record<L>, c: Timestamp)
    requires Sorted(Stored(st, KeyOf(l)).right)
    ensures multiset(RightAnswers(cfg, Next(cfg, st, e), l, c))
         == multiset(RightAnswers(cfg, st, l, Raised(cfg.upper, e, c)))
            + multiset(Answer(AsRight, From(c, ProbeRight(cfg, l)), e))
  {
    if IsRight(e) {
      AddedRight(cfg, st, l, RightOf(e.record), c);
    } else if e.Wm? {
      StoredAfterEviction(st, SatSub(e.timestamp, cfg.upper), KeyOf(l));
      EvictedAnswers(KeyOf(l), Stored(st, KeyOf(l)).right, SatSub(e.timestamp, cfg.upper), c, ProbeRight(cfg, l));
    } else {
      assert Stored(Next(cfg, st, e), KeyOf(l)).right == Stored(st, KeyOf(l)).right;
    }
  }

  lemma {:induction false} AddedRight<L, R, O>(cfg: Config<L, R, O>, st: State<L, R>, l: Record<L>, r: Record<R>,
                                               c: Timestamp)
    ensures multiset(RightAnswers(cfg, AddRight(st, r), l, c))
         == multiset(RightAnswers(cfg, st, l, c)) + multiset(AsSeq(From(c, ProbeRight(cfg, l))(r)))
  {
    var x, f := Record(r.value, r.timestamp, Some(KeyOf(r))), From(c, ProbeRight(cfg, l));
    ProbesIgnoreKeyForm(cfg, l, r);
    assert f(r) == f(x);
    if KeyOf(l) == KeyOf(r) {
      FlattenPush(KeyOf(l), Stored(st, KeyOf(l)).right, r.timestamp, r.value, f);
      FilterOne(x, f);
    }
  }

  // ----- the output of any stream -----

  /** What the last element finds among the records that no watermark has evicted. */
  ghost function FindsKept<L, R, O>(cfg: Config<L, R, O>, xs: seq<StreamElement<Either<L, R>>>,
                                    e: StreamElement<Either<L, R>>): seq<Record<O>>
  {
    if IsLeft(e) then KeptAnswers(cfg.upper, xs, AsRight, ProbeRight(cfg, LeftOf(e.record)), |xs|)
    else if IsRight(e) then KeptAnswers(cfg.upper, xs, AsLeft, ProbeLeft(cfg, RightOf(e.record)), |xs|)
    else []
  }

  /** Every admitted pair whose first record was not evicted before the second came, once. */
  ghost function KeptPairs<L, R, O>(cfg: Config<L, R, O>, xs: seq<StreamElement<Either<L, R>>>): multiset<Record<O>>
  {
    if xs == [] then multiset{}
    else KeptPairs(cfg, xs[..|xs| - 1]) + multiset(FindsKept(cfg, xs[..|xs| - 1], xs[|xs| - 1]))
  }

  lemma {:induction false} EmitsKept<L(!new), R(!new), O>(cfg: Config<L, R, O>, xs: seq<StreamElement<Either<L, R>>>,
                                                          e: StreamElement<Either<L, R>>)
    ensures multiset(Records(Emit(cfg, StateAfter(cfg, xs), e))) == multiset(FindsKept(cfg, xs, e))
  {
    var st := StateAfter(cfg, xs);
    if IsLeft(e) {
      var l := LeftOf(e.record);
      ElementsRecords(EmitLeft(cfg, st, l));
      RightsAreKept(cfg, xs, l, 0);
      SameAnswers(Flatten(KeyOf(l), Stored(st, KeyOf(l)).right), From(0, ProbeRight(cfg, l)), ProbeRight(cfg, l));
      FromTheStart(cfg.upper, xs, AsRight, ProbeRight(cfg, l));
    } else if IsRight(e) {
      var r := RightOf(e.record);
      ElementsRecords(EmitRight(cfg, st, r));
      LeftsAreKept(cfg, xs, r, 0);
      SameAnswers(Flatten(KeyOf(r), Stored(st, KeyOf(r)).left), From(0, ProbeLeft(cfg, r)), ProbeLeft(cfg, r));
      FromTheStart(cfg.upper, xs, AsLeft, ProbeLeft(cfg, r));
    } else {
      NoRecordFindsNothing(cfg, xs, e);
    }
  }

  /** The output of any stream, however late its records: exactly the pairs that the
      range tests admit and whose first record no watermark evicted in between. */
  lemma {:induction false} OutputIsKeptPairs<L(!new), R(!new), O>(cfg: Config<L, R, O>,
                                                                  xs: seq<StreamElement<Either<L, R>>>)
    ensures multiset(Records(Output(cfg, xs))) == KeptPairs(cfg, xs)
  {
    if xs != [] {
      var before, e := xs[..|xs| - 1], xs[|xs| - 1];
      OutputIsKeptPairs(cfg, before);
      EmitsKept(cfg, before, e);
      FilterMapAppend(Output(cfg, before), Emit(cfg, StateAfter(cfg, before), e), AsRecord);
    }
  }

  // ----- exactly when lateness costs a pair -----

  /** `second` arrives after `first` and its range test admits it. */
  predicate Meets<L, R, O>(cfg: Config<L, R, O>, first: StreamElement<Either<L, R>>,
                           second: StreamElement<Either<L, R>>)
  {
    || (IsLeft(first) && IsRight(second) && LeftInRange(cfg, LeftOf(first.record), RightOf(second.record)))
    || (IsRight(first) && IsLeft(second) && RightInRange(cfg, LeftOf(second.record), RightOf(first.record)))
  }

  /** Element i would meet e but has been evicted. */
  ghost predicate Missed<L, R, O>(cfg: Config<L, R, O>, xs: seq<StreamElement<Either<L, R>>>, i: nat,
                                  e: StreamElement<Either<L, R>>)
    requires i < |xs|
  {
    Meets(cfg, xs[i], e) && !Kept(cfg.upper, xs, i)
  }

  /** f would answer to element i, but that is evicted. */
  ghost predicate Lost<V, W, O>(upper: Timestamp, xs: seq<StreamElement<W>>,
                                pick: StreamElement<W> -> Option<Record<V>>, f: Record<V> -> Option<O>, i: nat)
    requires i < |xs|
  {
    Answer(pick, f, xs[i]) != [] && xs[i].Rec? && !Kept(upper, xs, i)
  }

  lemma {:induction false} AllAnswers<V(!new), W(!new), O>(xs: seq<StreamElement<W>>,
            pick: StreamElement<W> -> Option<Record<V>>, f: Record<V> -> Option<O>, n: nat)
    requires Picks(pick) && 0 < n <= |xs|
    ensures FilterMap(FilterMap(xs[..n], pick), f)
         == FilterMap(FilterMap(xs[..n - 1], pick), f) + Answer(pick, f, xs[n - 1])
  {
    var x := pick(xs[n - 1]);
    assert xs[..n] == xs[..n - 1] + [xs[n - 1]];
    FilterMapSnoc(xs[..n - 1], xs[n - 1], pick);
    FilterMapAppend(FilterMap(xs[..n - 1], pick), AsSeq(x), f);
    if xs[n - 1].Rec? {
      AnswerOne(pick, f, xs[n - 1]);
    }
  }

  /** What f answers to the kept records among the first n elements, and to all of them. */
  ghost function KeptSum<V, W, O>(upper: Timestamp, xs: seq<StreamElement<W>>,
            pick: StreamElement<W> -> Option<Record<V>>, f: Record<V> -> Option<O>, n: nat): multiset<O>
    requires n <= |xs|
  {
    multiset(KeptAnswers(upper, xs, pick, f, n))
  }

  ghost function AllSum<V, W, O>(xs: seq<StreamElement<W>>, pick: StreamElement<W> -> Option<Record<V>>,
                                 f: Record<V> -> Option<O>, n: nat): multiset<O>
    requires n <= |xs|
  {
    multiset(FilterMap(FilterMap(xs[..n], pick), f))
  }

  lemma {:induction false} AnswersStep<V(!new), W(!new), O>(upper: Timestamp, xs: seq<StreamElement<W>>,
            pick: StreamElement<W> -> Option<Record<V>>, f: Record<V> -> Option<O>, n: nat)
    requires Picks(pick) && 0 < n <= |xs| && KeptSum(upper, xs, pick, f, n - 1) <= AllSum(xs, pick, f, n - 1)
    ensures KeptSum(upper, xs, pick, f, n) <= AllSum(xs, pick, f, n)
    ensures KeptSum(upper, xs, pick, f, n) == AllSum(xs, pick, f, n)
       <==> KeptSum(upper, xs, pick, f, n - 1) == AllSum(xs, pick, f, n - 1) && !Lost(upper, xs, pick, f, n - 1)
  {
    AllAnswers(xs, pick, f, n);
    MoreOnOneSide(KeptSum(upper, xs, pick, f, n - 1), AllSum(xs, pick, f, n - 1),
                  multiset(AnswerIfKept(upper, xs, pick, f, n - 1)), multiset(Answer(pick, f, xs[n - 1])));
  }

  ghost predicate NoneLost<V, W, O>(upper: Timestamp, xs: seq<StreamElement<W>>,
                                    pick: StreamElement<W> -> Option<Record<V>>, f: Record<V> -> Option<O>, n: nat)
    requires n <= |xs|
  {
    forall i :: 0 <= i < n ==> !Lost(upper, xs, pick, f, i)
  }

  lemma {:induction false} NoneLostStep<V, W, O>(upper: Timestamp, xs: seq<StreamElement<W>>,
            pick: StreamElement<W> -> Option<Record<V>>, f: Record<V> -> Option<O>, n: nat)
    requires 0 < n <= |xs|
    ensures NoneLost(upper, xs, pick, f, n)
       <==> NoneLost(upper, xs, pick, f, n - 1) && !Lost(upper, xs, pick, f, n - 1)
  {
  }

  /** Exactly what is lost is missing among the first n elements' answers. */
  ghost predicate LossShows<V, W, O>(upper: Timestamp, xs: seq<StreamElement<W>>,
                                     pick: StreamElement<W> -> Option<Record<V>>, f: Record<V> -> Option<O>, n: nat)
    requires n <= |xs|
  {
    && KeptSum(upper, xs, pick, f, n) <= AllSum(xs, pick, f, n)
    && (KeptSum(upper, xs, pick, f, n) == AllSum(xs, pick, f, n) <==> NoneLost(upper, xs, pick, f, n))
  }

  lemma {:induction false} LossShowsStep<V(!new), W(!new), O>(upper: Timestamp, xs: seq<StreamElement<W>>,
            pick: StreamElement<W> -> Option<Record<V>>, f: Record<V> -> Option<O>, n: nat)
    requires Picks(pick) && 0 < n <= |xs| && LossShows(upper, xs, pick, f, n - 1)
    ensures LossShows(upper, xs, pick, f, n)
  {
    AnswersStep(upper, xs, pick, f, n);
    NoneLostStep(upper, xs, pick, f, n);
  }

  lemma {:induction false} LossAlwaysShows<V(!new), W(!new), O>(upper: Timestamp, xs: seq<StreamElement<W>>,
            pick: StreamElement<W> -> Option<Record<V>>, f: Record<V> -> Option<O>, n: nat)
    requires Picks(pick) && n <= |xs|
    ensures LossShows(upper, xs, pick, f, n)
  {
    if n > 0 {
      LossAlwaysShows(upper, xs, pick, f, n - 1);
      LossShowsStep(upper, xs, pick, f, n);
    } else {
      NoLossAtFirst(upper, xs, pick, f);
    }
  }

  lemma {:induction false} NoLossAtFirst<V, W, O>(upper: Timestamp, xs: seq<StreamElement<W>>,
            pick: StreamElement<W> -> Option<Record<V>>, f: Record<V> -> Option<O>)
    ensures LossShows(upper, xs, pick, f, 0)
  {
    assert xs[..0] == [];
  }

  /** Sums of parts each within the other's are equal exactly when the parts are. */
  lemma {:induction false} MoreOnOneSide<T>(a: multiset<T>, b: multiset<T>, x: multiset<T>, y: multiset<T>)
    requires a <= b && x <= y
    ensures a + x <= b + y && (a + x == b + y <==> a == b && x == y)
  {
    if a + x == b + y {
      forall t ensures a[t] == b[t] && x[t] == y[t] {
        assert (a + x)[t] == (b + y)[t];
      }
    }
  }

  lemma {:induction false} LostIsMissed<L(!new), R(!new), O>(cfg: Config<L, R, O>,
            xs: seq<StreamElement<Either<L, R>>>, i: nat, e: StreamElement<Either<L, R>>)
    requires i < |xs|
    ensures IsLeft(e) ==>
              (Lost(cfg.upper, xs, AsRight, ProbeRight(cfg, LeftOf(e.record)), i) <==> Missed(cfg, xs, i, e))
    ensures IsRight(e) ==>
              (Lost(cfg.upper, xs, AsLeft, ProbeLeft(cfg, RightOf(e.record)), i) <==> Missed(cfg, xs, i, e))
    ensures !e.Rec? ==> !Missed(cfg, xs, i, e)
  {
  }

  lemma {:induction false} FindsAllIff<L(!new), R(!new), O>(cfg: Config<L, R, O>,
            xs: seq<StreamElement<Either<L, R>>>, e: StreamElement<Either<L, R>>)
    ensures multiset(FindsKept(cfg, xs, e)) <= multiset(Finds(cfg, xs, e))
    ensures multiset(FindsKept(cfg, xs, e)) == multiset(Finds(cfg, xs, e))
       <==> forall i :: 0 <= i < |xs| ==> !Missed(cfg, xs, i, e)
  {
    assert xs[..|xs|] == xs;
    if IsLeft(e) {
      var f := ProbeRight(cfg, LeftOf(e.record));
      LossAlwaysShows(cfg.upper, xs, AsRight, f, |xs|);
      forall i | 0 <= i < |xs| ensures Lost(cfg.upper, xs, AsRight, f, i) <==> Missed(cfg, xs, i, e) {
        LostIsMissed(cfg, xs, i, e);
      }
    } else if IsRight(e) {
      var f := ProbeLeft(cfg, RightOf(e.record));
      LossAlwaysShows(cfg.upper, xs, AsLeft, f, |xs|);
      forall i | 0 <= i < |xs| ensures Lost(cfg.upper, xs, AsLeft, f, i) <==> Missed(cfg, xs, i, e) {
        LostIsMissed(cfg, xs, i, e);
      }
    }
  }

  /** No record of the stream misses a partner. */
  ghost predicate NoneMissed<L, R, O>(cfg: Config<L, R, O>, xs: seq<StreamElement<Either<L, R>>>)
  {
    forall i, j :: 0 <= i < j < |xs| ==> !Missed(cfg, xs[..j], i, xs[j])
  }

  lemma {:induction false} NoneMissedSnoc<L, R, O>(cfg: Config<L, R, O>, xs: seq<StreamElement<Either<L, R>>>)
    requires xs != []
    ensures var m := |xs| - 1;
            NoneMissed(cfg, xs)
            <==> NoneMissed(cfg, xs[..m]) && forall i :: 0 <= i < m ==> !Missed(cfg, xs[..m], i, xs[m])
  {
    var m := |xs| - 1;
    if NoneMissed(cfg, xs) {
      forall i, j | 0 <= i < j < m ensures !Missed(cfg, xs[..m][..j], i, xs[..m][j]) {
        assert xs[..m][..j] == xs[..j];
        assert !Missed(cfg, xs[..j], i, xs[j]);
      }
    }
    if NoneMissed(cfg, xs[..m]) && forall i :: 0 <= i < m ==> !Missed(cfg, xs[..m], i, xs[m]) {
      forall i, j | 0 <= i < j < |xs| ensures !Missed(cfg, xs[..j], i, xs[j]) {
        if j < m {
          assert xs[..m][..j] == xs[..j];
          assert !Missed(cfg, xs[..m][..j], i, xs[..m][j]);
        }
      }
    }
  }

  lemma {:induction false} KeptPairsIff<L(!new), R(!new), O>(cfg: Config<L, R, O>,
                                                             xs: seq<StreamElement<Either<L, R>>>)
    ensures KeptPairs(cfg, xs) <= AllPairs(cfg, xs)
    ensures KeptPairs(cfg, xs) == AllPairs(cfg, xs) <==> NoneMissed(cfg, xs)
  {
    if xs != [] {
      var before, e := xs[..|xs| - 1], xs[|xs| - 1];
      KeptPairsIff(cfg, before);
      FindsAllIff(cfg, before, e);
      NoneMissedSnoc(cfg, xs);
      MoreOnOneSide(KeptPairs(cfg, before), AllPairs(cfg, before),
                    multiset(FindsKept(cfg, before, e)), multiset(Finds(cfg, before, e)));
    }
  }

  /** Lateness costs nothing, and the output is the batch join with the clamped pairs,
      if and only if no record came after the eviction of a partner it would have met. */
  lemma {:induction false} LosesNothingIff<L(!new), R(!new), O>(cfg: Config<L, R, O>,
                                                                xs: seq<StreamElement<Either<L, R>>>)
    requires WellFormed(cfg)
    ensures multiset(Records(Output(cfg, xs))) == Batch(cfg, Lefts(xs), Rights(xs)) + Clamped(cfg, xs)
       <==> NoneMissed(cfg, xs)
  {
    OutputIsKeptPairs(cfg, xs);
    KeptPairsIff(cfg, xs);
    AllPairsIsBatch(cfg, xs);
  }

  /** The loss is real: with bounds [0, 0] a left and a right at time 0 match, but
      not when a watermark at 1 comes between them. */
  lemma {:induction false} LateExample(cfg: Config<int, int, int>, l: Record<Either<int, int>>,
                                       r: Record<Either<int, int>>)
    requires cfg.lower == cfg.upper == 0
    requires l.value == Left(5) && r.value == Right(7) && l.timestamp == r.timestamp == 0 && l.key == r.key
    ensures var xs := [Rec(l), Wm(1), Rec(r)];
            && Within(cfg, LeftOf(l), RightOf(r))
            && multiset(Records(Output(cfg, xs))) != Batch(cfg, Lefts(xs), Rights(xs)) + Clamped(cfg, xs)
  {
    var xs: seq<StreamElement<Either<int, int>>> := [Rec(l), Wm(1), Rec(r)];
    assert !Kept(cfg.upper, xs[..2], 0) by {
      assert xs[..2][1] == Wm(1) && SatSub(1, cfg.upper) == 1;
    }
    assert Missed(cfg, xs[..2], 0, xs[2]);
    LosesNothingIff(cfg, xs);
  }
}
