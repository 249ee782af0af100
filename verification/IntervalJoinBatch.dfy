/** The streaming interval join against the batch join of its two sides. */
module IntervalJoinBatch {
  import opened Streams
  import opened IntervalJoin

  // ----- the batch join -----

  function WithinRight<L, R, O>(cfg: Config<L, R, O>, l: Record<L>): Record<R> -> Option<Record<O>>
  {
    (r: Record<R>) => if Within(cfg, l, r) then Some(Paired(cfg, l, r)) else None
  }

  function WithinLeft<L, R, O>(cfg: Config<L, R, O>, r: Record<R>): Record<L> -> Option<Record<O>>
  {
    (l: Record<L>) => if Within(cfg, l, r) then Some(Paired(cfg, l, r)) else None
  }

  /** Every same-key pair within the bounds, once, over two finite collections. */
  ghost function Batch<L, R, O>(cfg: Config<L, R, O>, ls: seq<Record<L>>, rs: seq<Record<R>>): multiset<Record<O>>
  {
    if ls == [] then multiset{}
    else Batch(cfg, ls[..|ls| - 1], rs) + multiset(FilterMap(rs, WithinRight(cfg, ls[|ls| - 1])))
  }

  lemma {:induction false} BatchMoreLeft<L, R, O>(cfg: Config<L, R, O>, ls: seq<Record<L>>, rs: seq<Record<R>>,
                                                  l: Record<L>)
    ensures Batch(cfg, ls + [l], rs) == Batch(cfg, ls, rs) + multiset(FilterMap(rs, WithinRight(cfg, l)))
  {
    assert (ls + [l])[..|ls|] == ls;
  }

  lemma {:induction false} BatchMoreRight<L, R, O>(cfg: Config<L, R, O>, ls: seq<Record<L>>, rs: seq<Record<R>>,
            r: Record<R>)
    ensures Batch(cfg, ls, rs + [r]) == Batch(cfg, ls, rs) + multiset(FilterMap(ls, WithinLeft(cfg, r)))
  {
    if ls != [] {
      var m := |ls| - 1;
      BatchMoreRight(cfg, ls[..m], rs, r);
      BatchMoreRightSnoc(cfg, ls[..m], ls[m], rs, r);
      InitAndLast(ls);
    }
  }

  lemma {:induction false} BatchMoreRightSnoc<L, R, O>(cfg: Config<L, R, O>, ls: seq<Record<L>>, l: Record<L>,
            rs: seq<Record<R>>, r: Record<R>)
    requires Batch(cfg, ls, rs + [r]) == Batch(cfg, ls, rs) + multiset(FilterMap(ls, WithinLeft(cfg, r)))
    ensures Batch(cfg, ls + [l], rs + [r])
         == Batch(cfg, ls + [l], rs) + multiset(FilterMap(ls + [l], WithinLeft(cfg, r)))
  {
    BatchMoreLeft(cfg, ls, rs, l);
    BatchMoreLeft(cfg, ls, rs + [r], l);
    FilterMapSnoc(rs, r, WithinRight(cfg, l));
    FilterMapSnoc(ls, l, WithinLeft(cfg, r));
  }

  // ----- the pairs the range tests admit, eviction left out -----

  /** What the last element would find if nothing had been evicted. */
  function Finds<L, R, O>(cfg: Config<L, R, O>, xs: seq<StreamElement<Either<L, R>>>, e: StreamElement<Either<L, R>>)
    : seq<Record<O>>
  {
    if IsLeft(e) then FilterMap(Rights(xs), ProbeRight(cfg, LeftOf(e.record)))
    else if IsRight(e) then FilterMap(Lefts(xs), ProbeLeft(cfg, RightOf(e.record)))
    else []
  }

  /** What the last element joins by the join condition. */
  function FindsWithin<L, R, O>(cfg: Config<L, R, O>, xs: seq<StreamElement<Either<L, R>>>,
                                e: StreamElement<Either<L, R>>)
    : seq<Record<O>>
  {
    if IsLeft(e) then FilterMap(Rights(xs), WithinRight(cfg, LeftOf(e.record)))
    else if IsRight(e) then FilterMap(Lefts(xs), WithinLeft(cfg, RightOf(e.record)))
    else []
  }

  ghost function AllPairs<L, R, O>(cfg: Config<L, R, O>, xs: seq<StreamElement<Either<L, R>>>): multiset<Record<O>>
  {
    if xs == [] then multiset{}
    else AllPairs(cfg, xs[..|xs| - 1]) + multiset(Finds(cfg, xs[..|xs| - 1], xs[|xs| - 1]))
  }

  /** A pair the saturated range test admits against the join condition, `l` first. */
  predicate ClampedAtZero<L, R, O>(cfg: Config<L, R, O>, l: Record<L>, r: Record<R>)
  {
    SameKey(l, r) && l.timestamp == 0 && r.timestamp < cfg.lower
  }

  /** The same with `r` first, at the top of the 64-bit range. */
  predicate ClampedAtMax<L, R, O>(cfg: Config<L, R, O>, l: Record<L>, r: Record<R>)
  {
    SameKey(l, r) && r.timestamp == U64_MAX && l.timestamp + cfg.lower > U64_MAX
  }

  /** The range tests differ from the join condition by the clamped pairs and nothing else. */
  lemma {:induction false} RangeTests<L, R, O>(cfg: Config<L, R, O>, l: Record<L>, r: Record<R>)
    requires WellFormed(cfg)
    ensures LeftInRange(cfg, l, r) <==> Within(cfg, l, r) || ClampedAtZero(cfg, l, r)
    ensures RightInRange(cfg, l, r) <==> Within(cfg, l, r) || ClampedAtMax(cfg, l, r)
    ensures !(Within(cfg, l, r) && ClampedAtZero(cfg, l, r))
    ensures !(Within(cfg, l, r) && ClampedAtMax(cfg, l, r))
  {
  }

  function ClampedLeft<L, R, O>(cfg: Config<L, R, O>, r: Record<R>): Record<L> -> Option<Record<O>>
  {
    (l: Record<L>) => if ClampedAtZero(cfg, l, r) then Some(Paired(cfg, l, r)) else None
  }

  function ClampedRight<L, R, O>(cfg: Config<L, R, O>, l: Record<L>): Record<R> -> Option<Record<O>>
  {
    (r: Record<R>) => if ClampedAtMax(cfg, l, r) then Some(Paired(cfg, l, r)) else None
  }

  /** What the last element joins only because of saturation. */
  function FindsClamped<L, R, O>(cfg: Config<L, R, O>, xs: seq<StreamElement<Either<L, R>>>,
                                 e: StreamElement<Either<L, R>>)
    : seq<Record<O>>
  {
    if IsLeft(e) then FilterMap(Rights(xs), ClampedRight(cfg, LeftOf(e.record)))
    else if IsRight(e) then FilterMap(Lefts(xs), ClampedLeft(cfg, RightOf(e.record)))
    else []
  }

  ghost function Clamped<L, R, O>(cfg: Config<L, R, O>, xs: seq<StreamElement<Either<L, R>>>): multiset<Record<O>>
  {
    if xs == [] then multiset{}
    else Clamped(cfg, xs[..|xs| - 1]) + multiset(FindsClamped(cfg, xs[..|xs| - 1], xs[|xs| - 1]))
  }

  /** When f answers exactly where g or else h does, its answers are theirs together. */
  lemma {:induction false} SplitFilter<A, B>(xs: seq<A>, f: A -> Option<B>, g: A -> Option<B>, h: A -> Option<B>)
    requires forall x :: x in xs ==> (g(x).None? || h(x).None?) && f(x) == if g(x).Some? then g(x) else h(x)
    ensures multiset(FilterMap(xs, f)) == multiset(FilterMap(xs, g)) + multiset(FilterMap(xs, h))
  {
    if xs != [] {
      SplitFilter(xs[1..], f, g, h);
    }
  }

  lemma {:induction false} FindsSplit<L, R, O>(cfg: Config<L, R, O>, xs: seq<StreamElement<Either<L, R>>>,
                                               e: StreamElement<Either<L, R>>)
    requires WellFormed(cfg)
    ensures multiset(Finds(cfg, xs, e)) == multiset(FindsWithin(cfg, xs, e)) + multiset(FindsClamped(cfg, xs, e))
  {
    if IsLeft(e) {
      var l := LeftOf(e.record);
      forall r | r in Rights(xs) ensures RightInRange(cfg, l, r) <==> Within(cfg, l, r) || ClampedAtMax(cfg, l, r) {
        RangeTests(cfg, l, r);
      }
      SplitFilter(Rights(xs), ProbeRight(cfg, l), WithinRight(cfg, l), ClampedRight(cfg, l));
    } else if IsRight(e) {
      var r := RightOf(e.record);
      forall l | l in Lefts(xs) ensures LeftInRange(cfg, l, r) <==> Within(cfg, l, r) || ClampedAtZero(cfg, l, r) {
        RangeTests(cfg, l, r);
      }
      SplitFilter(Lefts(xs), ProbeLeft(cfg, r), WithinLeft(cfg, r), ClampedLeft(cfg, r));
    }
  }

  lemma {:induction false} SidesSnoc<L, R>(xs: seq<StreamElement<Either<L, R>>>, e: StreamElement<Either<L, R>>)
    ensures Lefts(xs + [e]) == Lefts(xs) + if IsLeft(e) then [LeftOf(e.record)] else []
    ensures Rights(xs + [e]) == Rights(xs) + if IsRight(e) then [RightOf(e.record)] else []
  {
    FilterMapSnoc(xs, e, AsLeft);
    FilterMapSnoc(xs, e, AsRight);
  }

  lemma {:induction false} BatchMore<L, R, O>(cfg: Config<L, R, O>, xs: seq<StreamElement<Either<L, R>>>,
                                              e: StreamElement<Either<L, R>>)
    ensures Batch(cfg, Lefts(xs + [e]), Rights(xs + [e]))
         == Batch(cfg, Lefts(xs), Rights(xs)) + multiset(FindsWithin(cfg, xs, e))
  {
    SidesSnoc(xs, e);
    if IsLeft(e) {
      assert Rights(xs + [e]) == Rights(xs);
      BatchMoreLeft(cfg, Lefts(xs), Rights(xs), LeftOf(e.record));
    } else if IsRight(e) {
      assert Lefts(xs + [e]) == Lefts(xs);
      BatchMoreRight(cfg, Lefts(xs), Rights(xs), RightOf(e.record));
    } else {
      assert Lefts(xs + [e]) == Lefts(xs) && Rights(xs + [e]) == Rights(xs);
    }
  }

  /** In whatever order the two sides arrive, the admitted pairs are the batch join plus the clamped pairs. */
  lemma {:induction false} AllPairsIsBatch<L, R, O>(cfg: Config<L, R, O>, xs: seq<StreamElement<Either<L, R>>>)
    requires WellFormed(cfg)
    ensures AllPairs(cfg, xs) == Batch(cfg, Lefts(xs), Rights(xs)) + Clamped(cfg, xs)
  {
    if xs != [] {
      var before, e := xs[..|xs| - 1], xs[|xs| - 1];
      AllPairsIsBatch(cfg, before);
      AllPairsSnoc(cfg, before, e);
      InitAndLast(xs);
    }
  }

  lemma {:induction false} AllPairsSnoc<L, R, O>(cfg: Config<L, R, O>, xs: seq<StreamElement<Either<L, R>>>,
                                                 e: StreamElement<Either<L, R>>)
    requires WellFormed(cfg)
    requires AllPairs(cfg, xs) == Batch(cfg, Lefts(xs), Rights(xs)) + Clamped(cfg, xs)
    ensures AllPairs(cfg, xs + [e]) == Batch(cfg, Lefts(xs + [e]), Rights(xs + [e])) + Clamped(cfg, xs + [e])
  {
    BatchMore(cfg, xs, e);
    FindsSplit(cfg, xs, e);
    StateAfterSnoc(cfg, xs, e);
  }

  // ----- eviction loses no pair of an on-time stream -----

  ghost predicate PastWatermarks<V>(xs: seq<StreamElement<V>>, t: Timestamp)
  {
    forall i :: 0 <= i < |xs| && xs[i].Wm? ==> xs[i].timestamp < t
  }

  lemma {:induction false} PastSnoc<V>(xs: seq<StreamElement<V>>, e: StreamElement<V>, t: Timestamp)
    requires PastWatermarks(xs + [e], t)
    ensures PastWatermarks(xs, t) && (e.Wm? ==> e.timestamp < t)
  {
    assert (xs + [e])[|xs|] == e;
    forall i | 0 <= i < |xs| && xs[i].Wm? ensures xs[i].timestamp < t {
      assert (xs + [e])[i] == xs[i];
    }
  }

  lemma {:induction false} StateAfterSnoc<L, R, O>(cfg: Config<L, R, O>, xs: seq<StreamElement<Either<L, R>>>,
            e: StreamElement<Either<L, R>>)
    ensures StateAfter(cfg, xs + [e]) == Next(cfg, StateAfter(cfg, xs), e)
    ensures Output(cfg, xs + [e]) == Output(cfg, xs) + Emit(cfg, StateAfter(cfg, xs), e)
    ensures AllPairs(cfg, xs + [e]) == AllPairs(cfg, xs) + multiset(Finds(cfg, xs, e))
    ensures Clamped(cfg, xs + [e]) == Clamped(cfg, xs) + multiset(FindsClamped(cfg, xs, e))
  {
    assert (xs + [e])[..|xs|] == xs;
  }

  lemma {:induction false} ProbesIgnoreKeyForm<L, R, O>(cfg: Config<L, R, O>, l: Record<L>, r: Record<R>)
    ensures ProbeLeft(cfg, r)(l) == ProbeLeft(cfg, r)(Record(l.value, l.timestamp, Some(KeyOf(l))))
    ensures ProbeRight(cfg, l)(r) == ProbeRight(cfg, l)(Record(r.value, r.timestamp, Some(KeyOf(r))))
    ensures KeyOf(l) != KeyOf(r) ==> ProbeLeft(cfg, r)(l).None? && ProbeRight(cfg, l)(r).None?
  {
  }

  /** The stored lefts answer a right record as all lefts seen would, provided it
      is later than every watermark; otherwise with at most those answers. */
  lemma {:induction false} StoredLefts<L, R, O>(cfg: Config<L, R, O>, xs: seq<StreamElement<Either<L, R>>>,
                                                r: Record<R>)
    ensures multiset(EmitRight(cfg, StateAfter(cfg, xs), r)) <= multiset(FilterMap(Lefts(xs), ProbeLeft(cfg, r)))
    ensures PastWatermarks(xs, r.timestamp) ==>
              multiset(EmitRight(cfg, StateAfter(cfg, xs), r)) == multiset(FilterMap(Lefts(xs), ProbeLeft(cfg, r)))
  {
    if xs != [] {
      var before, e := xs[..|xs| - 1], xs[|xs| - 1];
      StoredLefts(cfg, before, r);
      StoredLeftsSnoc(cfg, before, e, r);
      InitAndLast(xs);
    }
  }

  lemma {:induction false} StoredLeftsSnoc<L, R, O>(cfg: Config<L, R, O>, xs: seq<StreamElement<Either<L, R>>>,
            e: StreamElement<Either<L, R>>, r: Record<R>)
    requires multiset(EmitRight(cfg, StateAfter(cfg, xs), r)) <= multiset(FilterMap(Lefts(xs), ProbeLeft(cfg, r)))
    requires PastWatermarks(xs, r.timestamp) ==>
               multiset(EmitRight(cfg, StateAfter(cfg, xs), r)) == multiset(FilterMap(Lefts(xs), ProbeLeft(cfg, r)))
    ensures multiset(EmitRight(cfg, StateAfter(cfg, xs + [e]), r))
         <= multiset(FilterMap(Lefts(xs + [e]), ProbeLeft(cfg, r)))
    ensures PastWatermarks(xs + [e], r.timestamp) ==>
              multiset(EmitRight(cfg, StateAfter(cfg, xs + [e]), r))
                  == multiset(FilterMap(Lefts(xs + [e]), ProbeLeft(cfg, r)))
  {
    StateAfterSnoc(cfg, xs, e);
    LeftsAnswer(cfg, xs, e, r);
    StoredLeftsAnswer(cfg, StateAfter(cfg, xs), e, r);
    if PastWatermarks(xs + [e], r.timestamp) {
      PastSnoc(xs, e, r.timestamp);
    }
  }

  /** What one element adds to the answers to a right record. */
  function FoundLeft<L, R, O>(cfg: Config<L, R, O>, e: StreamElement<Either<L, R>>, r: Record<R>): seq<Record<O>>
  {
    if IsLeft(e) then FilterMap([LeftOf(e.record)], ProbeLeft(cfg, r)) else []
  }

  function FoundRight<L, R, O>(cfg: Config<L, R, O>, e: StreamElement<Either<L, R>>, l: Record<L>): seq<Record<O>>
  {
    if IsRight(e) then FilterMap([RightOf(e.record)], ProbeRight(cfg, l)) else []
  }

  lemma {:induction false} LeftsAnswer<L, R, O>(cfg: Config<L, R, O>, xs: seq<StreamElement<Either<L, R>>>,
                                                e: StreamElement<Either<L, R>>, r: Record<R>)
    ensures FilterMap(Lefts(xs + [e]), ProbeLeft(cfg, r))
         == FilterMap(Lefts(xs), ProbeLeft(cfg, r)) + FoundLeft(cfg, e, r)
  {
    SidesSnoc(xs, e);
    if IsLeft(e) {
      FilterMapAppend(Lefts(xs), [LeftOf(e.record)], ProbeLeft(cfg, r));
    } else {
      assert Lefts(xs + [e]) == Lefts(xs);
    }
  }

  lemma {:induction false} StoredLeftsAnswer<L, R, O>(cfg: Config<L, R, O>, st: State<L, R>,
            e: StreamElement<Either<L, R>>, r: Record<R>)
    ensures var now, later := multiset(EmitRight(cfg, st, r)), multiset(EmitRight(cfg, Next(cfg, st, e), r));
            && (e.Wm? ==> later <= now)
            && (!e.Wm? || e.timestamp < r.timestamp ==>
                  later == now + multiset(FoundLeft(cfg, e, r)))
  {
    if IsLeft(e) {
      AddLeftFound(cfg, st, LeftOf(e.record), r);
    } else if IsRight(e) {
      assert Stored(Next(cfg, st, e), KeyOf(r)).left == Stored(st, KeyOf(r)).left;
    } else if e.Wm? {
      EvictLeftFound(cfg, st, e.timestamp, r);
    }
  }

  lemma {:induction false} AddLeftFound<L, R, O>(cfg: Config<L, R, O>, st: State<L, R>, l: Record<L>, r: Record<R>)
    ensures multiset(EmitRight(cfg, AddLeft(st, l), r))
         == multiset(EmitRight(cfg, st, r)) + multiset(FilterMap([l], ProbeLeft(cfg, r)))
  {
    ProbesIgnoreKeyForm(cfg, l, r);
    var x := Record(l.value, l.timestamp, Some(KeyOf(l)));
    assert FilterMap([l], ProbeLeft(cfg, r)) == FilterMap([x], ProbeLeft(cfg, r)) by {
      assert [l][1..] == [] && [x][1..] == [];
    }
    if KeyOf(l) == KeyOf(r) {
      FlattenPush(KeyOf(r), Stored(st, KeyOf(r)).left, l.timestamp, l.value, ProbeLeft(cfg, r));
    }
  }

  lemma {:induction false} EvictLeftFound<L, R, O>(cfg: Config<L, R, O>, st: State<L, R>, w: Timestamp, r: Record<R>)
    ensures var st' := EvictAll(st, SatSub(w, cfg.upper));
            && multiset(EmitRight(cfg, st', r)) <= multiset(EmitRight(cfg, st, r))
            && (w < r.timestamp ==> EmitRight(cfg, st', r) == EmitRight(cfg, st, r))
  {
    var cutoff := SatSub(w, cfg.upper);
    StoredAfterEviction(st, cutoff, KeyOf(r));
    FlattenEvict(KeyOf(r), Stored(st, KeyOf(r)).left, cutoff, ProbeLeft(cfg, r));
  }

  lemma {:induction false} StoredAfterEviction<L, R>(st: State<L, R>, cutoff: Timestamp, k: Bytes)
    ensures Stored(EvictAll(st, cutoff), k) == Evicted(Stored(st, k), cutoff)
  {
  }

  /** The mirror image: the stored rights answer a left record. */
  lemma {:induction false} StoredRights<L, R, O>(cfg: Config<L, R, O>, xs: seq<StreamElement<Either<L, R>>>,
                                                 l: Record<L>)
    ensures multiset(EmitLeft(cfg, StateAfter(cfg, xs), l)) <= multiset(FilterMap(Rights(xs), ProbeRight(cfg, l)))
    ensures PastWatermarks(xs, l.timestamp) ==>
              multiset(EmitLeft(cfg, StateAfter(cfg, xs), l)) == multiset(FilterMap(Rights(xs), ProbeRight(cfg, l)))
  {
    if xs != [] {
      var before, e := xs[..|xs| - 1], xs[|xs| - 1];
      StoredRights(cfg, before, l);
      StoredRightsSnoc(cfg, before, e, l);
      InitAndLast(xs);
    }
  }

  lemma {:induction false} StoredRightsSnoc<L, R, O>(cfg: Config<L, R, O>, xs: seq<StreamElement<Either<L, R>>>,
            e: StreamElement<Either<L, R>>, l: Record<L>)
    requires multiset(EmitLeft(cfg, StateAfter(cfg, xs), l)) <= multiset(FilterMap(Rights(xs), ProbeRight(cfg, l)))
    requires PastWatermarks(xs, l.timestamp) ==>
               multiset(EmitLeft(cfg, StateAfter(cfg, xs), l)) == multiset(FilterMap(Rights(xs), ProbeRight(cfg, l)))
    ensures multiset(EmitLeft(cfg, StateAfter(cfg, xs + [e]), l))
         <= multiset(FilterMap(Rights(xs + [e]), ProbeRight(cfg, l)))
    ensures PastWatermarks(xs + [e], l.timestamp) ==>
              multiset(EmitLeft(cfg, StateAfter(cfg, xs + [e]), l))
                  == multiset(FilterMap(Rights(xs + [e]), ProbeRight(cfg, l)))
  {
    StateAfterSnoc(cfg, xs, e);
    RightsAnswer(cfg, xs, e, l);
    StoredRightsAnswer(cfg, StateAfter(cfg, xs), e, l);
    if PastWatermarks(xs + [e], l.timestamp) {
      PastSnoc(xs, e, l.timestamp);
    }
  }

  lemma {:induction false} RightsAnswer<L, R, O>(cfg: Config<L, R, O>, xs: seq<StreamElement<Either<L, R>>>,
                                                 e: StreamElement<Either<L, R>>, l: Record<L>)
    ensures FilterMap(Rights(xs + [e]), ProbeRight(cfg, l))
         == FilterMap(Rights(xs), ProbeRight(cfg, l)) + FoundRight(cfg, e, l)
  {
    SidesSnoc(xs, e);
    if IsRight(e) {
      FilterMapAppend(Rights(xs), [RightOf(e.record)], ProbeRight(cfg, l));
    } else {
      assert Rights(xs + [e]) == Rights(xs);
    }
  }

  lemma {:induction false} StoredRightsAnswer<L, R, O>(cfg: Config<L, R, O>, st: State<L, R>,
            e: StreamElement<Either<L, R>>, l: Record<L>)
    ensures var now, later := multiset(EmitLeft(cfg, st, l)), multiset(EmitLeft(cfg, Next(cfg, st, e), l));
            && (e.Wm? ==> later <= now)
            && (!e.Wm? || e.timestamp < l.timestamp ==> later == now + multiset(FoundRight(cfg, e, l)))
  {
    if IsRight(e) {
      AddRightFound(cfg, st, l, RightOf(e.record));
    } else if IsLeft(e) {
      assert Stored(Next(cfg, st, e), KeyOf(l)).right == Stored(st, KeyOf(l)).right;
    } else if e.Wm? {
      EvictRightFound(cfg, st, e.timestamp, l);
    }
  }

  lemma {:induction false} AddRightFound<L, R, O>(cfg: Config<L, R, O>, st: State<L, R>, l: Record<L>, r: Record<R>)
    ensures multiset(EmitLeft(cfg, AddRight(st, r), l))
         == multiset(EmitLeft(cfg, st, l)) + multiset(FilterMap([r], ProbeRight(cfg, l)))
  {
    ProbesIgnoreKeyForm(cfg, l, r);
    var x := Record(r.value, r.timestamp, Some(KeyOf(r)));
    assert FilterMap([r], ProbeRight(cfg, l)) == FilterMap([x], ProbeRight(cfg, l)) by {
      assert [r][1..] == [] && [x][1..] == [];
    }
    if KeyOf(l) == KeyOf(r) {
      FlattenPush(KeyOf(l), Stored(st, KeyOf(l)).right, r.timestamp, r.value, ProbeRight(cfg, l));
    }
  }

  lemma {:induction false} EvictRightFound<L, R, O>(cfg: Config<L, R, O>, st: State<L, R>, w: Timestamp, l: Record<L>)
    ensures var st' := EvictAll(st, SatSub(w, cfg.upper));
            && multiset(EmitLeft(cfg, st', l)) <= multiset(EmitLeft(cfg, st, l))
            && (w < l.timestamp ==> EmitLeft(cfg, st', l) == EmitLeft(cfg, st, l))
  {
    var cutoff := SatSub(w, cfg.upper);
    StoredAfterEviction(st, cutoff, KeyOf(l));
    FlattenEvict(KeyOf(l), Stored(st, KeyOf(l)).right, cutoff, ProbeRight(cfg, l));
  }

  // ----- the streaming join is the batch join -----

  lemma {:induction false} NoRecordFindsNothing<L, R, O>(cfg: Config<L, R, O>, xs: seq<StreamElement<Either<L, R>>>,
            e: StreamElement<Either<L, R>>)
    requires !e.Rec?
    ensures Records(Emit(cfg, StateAfter(cfg, xs), e)) == [] && Finds(cfg, xs, e) == []
  {
    var out := Emit(cfg, StateAfter(cfg, xs), e);
    assert out == [] + [out[0]];
    FilterMapSnoc([], out[0], AsRecord);
  }

  lemma {:induction false} EmitFinds<L, R, O>(cfg: Config<L, R, O>, before: seq<StreamElement<Either<L, R>>>,
                                              e: StreamElement<Either<L, R>>)
    ensures multiset(Records(Emit(cfg, StateAfter(cfg, before), e))) <= multiset(Finds(cfg, before, e))
    ensures (e.Rec? ==> PastWatermarks(before, e.record.timestamp)) ==>
              multiset(Records(Emit(cfg, StateAfter(cfg, before), e))) == multiset(Finds(cfg, before, e))
  {
    if IsLeft(e) {
      ElementsRecords(EmitLeft(cfg, StateAfter(cfg, before), LeftOf(e.record)));
      StoredRights(cfg, before, LeftOf(e.record));
    } else if IsRight(e) {
      ElementsRecords(EmitRight(cfg, StateAfter(cfg, before), RightOf(e.record)));
      StoredLefts(cfg, before, RightOf(e.record));
    } else {
      NoRecordFindsNothing(cfg, before, e);
    }
  }

  lemma {:induction false} OnTimePrefix<V>(xs: seq<StreamElement<V>>)
    requires xs != [] && KeepsPromise(xs)
    ensures KeepsPromise(xs[..|xs| - 1])
    ensures xs[|xs| - 1].Rec? ==> PastWatermarks(xs[..|xs| - 1], xs[|xs| - 1].record.timestamp)
  {
  }

  lemma {:induction false} OutputIsAllPairs<L, R, O>(cfg: Config<L, R, O>, xs: seq<StreamElement<Either<L, R>>>)
    ensures multiset(Records(Output(cfg, xs))) <= AllPairs(cfg, xs)
    ensures KeepsPromise(xs) ==> multiset(Records(Output(cfg, xs))) == AllPairs(cfg, xs)
  {
    if xs != [] {
      var before, e := xs[..|xs| - 1], xs[|xs| - 1];
      OutputIsAllPairs(cfg, before);
      EmitFinds(cfg, before, e);
      FilterMapAppend(Output(cfg, before), Emit(cfg, StateAfter(cfg, before), e), AsRecord);
      if KeepsPromise(xs) {
        OnTimePrefix(xs);
      }
    }
  }

  /** The main result. For an on-time stream, in any arrival order, every pair of
      the batch join is emitted exactly once, and beyond it only the pairs that
      saturated arithmetic admits. A late stream loses pairs but invents none. */
  lemma {:induction false} StreamingIsBatch<L, R, O>(cfg: Config<L, R, O>, xs: seq<StreamElement<Either<L, R>>>)
    requires WellFormed(cfg)
    ensures multiset(Records(Output(cfg, xs))) <= Batch(cfg, Lefts(xs), Rights(xs)) + Clamped(cfg, xs)
    ensures KeepsPromise(xs) ==>
              multiset(Records(Output(cfg, xs))) == Batch(cfg, Lefts(xs), Rights(xs)) + Clamped(cfg, xs)
  {
    OutputIsAllPairs(cfg, xs);
    AllPairsIsBatch(cfg, xs);
  }

  // ----- exactly when the two agree -----

  /** No record meets a partner it would join only by saturation. */
  ghost predicate NoClamp<L, R, O>(cfg: Config<L, R, O>, xs: seq<StreamElement<Either<L, R>>>)
  {
    forall i, j :: 0 <= i < j < |xs| ==> !ClampsAt(cfg, xs[i], xs[j])
  }

  /** `second` arrives after `first` and is matched to it against the join condition. */
  predicate ClampsAt<L, R, O>(cfg: Config<L, R, O>, first: StreamElement<Either<L, R>>,
                              second: StreamElement<Either<L, R>>)
  {
    || (IsLeft(first) && IsRight(second) && ClampedAtZero(cfg, LeftOf(first.record), RightOf(second.record)))
    || (IsRight(first) && IsLeft(second) && ClampedAtMax(cfg, LeftOf(second.record), RightOf(first.record)))
  }

  lemma {:induction false} FindsClampedEmpty<L, R, O>(cfg: Config<L, R, O>, xs: seq<StreamElement<Either<L, R>>>,
                                                      e: StreamElement<Either<L, R>>)
    ensures FindsClamped(cfg, xs, e) == [] <==> forall i :: 0 <= i < |xs| ==> !ClampsAt(cfg, xs[i], e)
  {
    if xs != [] {
      var m := |xs| - 1;
      FindsClampedEmpty(cfg, xs[..m], e);
      assert xs == xs[..m] + [xs[m]];
      FindsClampedSnoc(cfg, xs[..m], xs[m], e);
      assert forall i :: 0 <= i < m ==> xs[..m][i] == xs[i];
    }
  }

  lemma {:induction false} FindsClampedSnoc<L, R, O>(cfg: Config<L, R, O>, xs: seq<StreamElement<Either<L, R>>>,
                                  x: StreamElement<Either<L, R>>, e: StreamElement<Either<L, R>>)
    ensures FindsClamped(cfg, xs + [x], e) == [] <==> FindsClamped(cfg, xs, e) == [] && !ClampsAt(cfg, x, e)
  {
    SidesSnoc(xs, x);
    if IsLeft(e) {
      if IsRight(x) {
        FilterMapSnoc(Rights(xs), RightOf(x.record), ClampedRight(cfg, LeftOf(e.record)));
      } else {
        assert Rights(xs + [x]) == Rights(xs);
      }
    } else if IsRight(e) {
      if IsLeft(x) {
        FilterMapSnoc(Lefts(xs), LeftOf(x.record), ClampedLeft(cfg, RightOf(e.record)));
      } else {
        assert Lefts(xs + [x]) == Lefts(xs);
      }
    }
  }

  lemma {:induction false} ClampedEmpty<L, R, O>(cfg: Config<L, R, O>, xs: seq<StreamElement<Either<L, R>>>)
    ensures Clamped(cfg, xs) == multiset{} <==> NoClamp(cfg, xs)
  {
    if xs != [] {
      var before, e := xs[..|xs| - 1], xs[|xs| - 1];
      ClampedEmpty(cfg, before);
      ClampedEmptySnoc(cfg, before, e);
      InitAndLast(xs);
    }
  }

  lemma {:induction false} ClampedEmptySnoc<L, R, O>(cfg: Config<L, R, O>, xs: seq<StreamElement<Either<L, R>>>,
            e: StreamElement<Either<L, R>>)
    requires Clamped(cfg, xs) == multiset{} <==> NoClamp(cfg, xs)
    ensures Clamped(cfg, xs + [e]) == multiset{} <==> NoClamp(cfg, xs + [e])
  {
    StateAfterSnoc(cfg, xs, e);
    FindsClampedEmpty(cfg, xs, e);
    NoClampSnoc(cfg, xs, e);
  }

  lemma {:induction false} NoClampSnoc<L, R, O>(cfg: Config<L, R, O>, xs: seq<StreamElement<Either<L, R>>>,
                                                e: StreamElement<Either<L, R>>)
    ensures NoClamp(cfg, xs + [e]) <==> NoClamp(cfg, xs) && forall i :: 0 <= i < |xs| ==> !ClampsAt(cfg, xs[i], e)
  {
    var all := xs + [e];
    assert forall i :: 0 <= i < |xs| ==> all[i] == xs[i];
    if NoClamp(cfg, all) {
      forall i | 0 <= i < |xs| ensures !ClampsAt(cfg, xs[i], e) {
        assert !ClampsAt(cfg, all[i], all[|xs|]);
      }
      forall i, j | 0 <= i < j < |xs| ensures !ClampsAt(cfg, xs[i], xs[j]) {
        assert !ClampsAt(cfg, all[i], all[j]);
      }
    }
  }

  /** The streaming join of an on-time stream is the batch join if and only if no pair is clamped. */
  lemma {:induction false} JoinIsBatchIff<L, R, O>(cfg: Config<L, R, O>, xs: seq<StreamElement<Either<L, R>>>)
    requires WellFormed(cfg) && KeepsPromise(xs)
    ensures multiset(Records(Output(cfg, xs))) == Batch(cfg, Lefts(xs), Rights(xs)) <==> NoClamp(cfg, xs)
  {
    StreamingIsBatch(cfg, xs);
    ClampedEmpty(cfg, xs);
  }

  lemma {:induction false} PairIsBatchIff<L, R, O>(cfg: Config<L, R, O>, a: Record<Either<L, R>>,
            b: Record<Either<L, R>>)
    requires WellFormed(cfg)
    ensures KeepsPromise([Rec(a), Rec(b)])
    ensures multiset(Records(Output(cfg, [Rec(a), Rec(b)])))
         == Batch(cfg, Lefts([Rec(a), Rec(b)]), Rights([Rec(a), Rec(b)]))
       <==> !ClampsAt(cfg, Rec(a), Rec(b))
  {
    var xs: seq<StreamElement<Either<L, R>>> := [Rec(a), Rec(b)];
    JoinIsBatchIff(cfg, xs);
    assert NoClamp(cfg, xs) <==> !ClampsAt(cfg, xs[0], xs[1]);
  }

  /** The clamp is real and depends on the arrival order: with bounds [1, 1] a left
      and a right at time 0 do not match, yet they are joined when the left is first. */
  lemma {:induction false} ClampedExample(cfg: Config<int, int, int>, l: Record<Either<int, int>>,
                                          r: Record<Either<int, int>>)
    requires cfg.lower == cfg.upper == 1
    requires l.value == Left(5) && r.value == Right(7) && l.timestamp == r.timestamp == 0 && l.key == r.key
    ensures KeepsPromise([Rec(l), Rec(r)]) && KeepsPromise([Rec(r), Rec(l)])
    ensures multiset(Records(Output(cfg, [Rec(l), Rec(r)])))
         != Batch(cfg, Lefts([Rec(l), Rec(r)]), Rights([Rec(l), Rec(r)]))
    ensures multiset(Records(Output(cfg, [Rec(r), Rec(l)])))
         == Batch(cfg, Lefts([Rec(r), Rec(l)]), Rights([Rec(r), Rec(l)]))
  {
    PairIsBatchIff(cfg, l, r);
    PairIsBatchIff(cfg, r, l);
    assert ClampsAt(cfg, Rec(l), Rec(r)) && !ClampsAt(cfg, Rec(r), Rec(l));
  }

  // ----- what the operator forwards -----

  lemma {:induction false} FilterMapLater<A, O>(xs: seq<A>, f: A -> Option<Record<O>>, t: Timestamp)
    requires forall x :: f(x).Some? ==> t <= f(x).value.timestamp
    ensures forall y :: y in FilterMap(xs, f) ==> t <= y.timestamp
  {
    if xs != [] {
      FilterMapLater(xs[1..], f, t);
    }
  }

  /** What a record makes the operator emit is no earlier than the record. */
  lemma {:induction false} EmitsLater<L, R, O>(cfg: Config<L, R, O>, st: State<L, R>, e: StreamElement<Either<L, R>>)
    ensures e.Rec? ==> forall i :: 0 <= i < |Emit(cfg, st, e)| ==>
              Emit(cfg, st, e)[i].Rec? && e.record.timestamp <= Emit(cfg, st, e)[i].record.timestamp
  {
    if IsLeft(e) {
      var l := LeftOf(e.record);
      FilterMapLater(Flatten(KeyOf(l), Stored(st, KeyOf(l)).right), ProbeRight(cfg, l), l.timestamp);
      var found := EmitLeft(cfg, st, l);
      forall i | 0 <= i < |found| ensures l.timestamp <= found[i].timestamp {
        assert found[i] in found;
      }
    } else if IsRight(e) {
      var r := RightOf(e.record);
      FilterMapLater(Flatten(KeyOf(r), Stored(st, KeyOf(r)).left), ProbeLeft(cfg, r), r.timestamp);
      var found := EmitRight(cfg, st, r);
      forall i | 0 <= i < |found| ensures r.timestamp <= found[i].timestamp {
        assert found[i] in found;
      }
    }
  }

  /** The join keeps the watermark promise. */
  lemma {:induction false} OutputKeepsPromise<L, R, O>(cfg: Config<L, R, O>, xs: seq<StreamElement<Either<L, R>>>)
    requires KeepsPromise(xs)
    ensures KeepsPromise(Output(cfg, xs))
    ensures forall t: Timestamp :: PastWatermarks(xs, t) ==> PastWatermarks(Output(cfg, xs), t)
  {
    if xs != [] {
      var before, e := xs[..|xs| - 1], xs[|xs| - 1];
      OnTimePrefix(xs);
      OutputKeepsPromise(cfg, before);
      EmitsLater(cfg, StateAfter(cfg, before), e);
      var out, added := Output(cfg, before), Emit(cfg, StateAfter(cfg, before), e);
      if e.Rec? {
        assert PastWatermarks(out, e.record.timestamp);
      }
      assert KeepsPromise(out + added);
      forall t: Timestamp | PastWatermarks(xs, t) ensures PastWatermarks(out + added, t) {
        InitAndLast(xs);
        PastSnoc(before, e, t);
      }
    }
  }

  ghost predicate ReachedBy<V>(b: seq<Bucket<V>>, w: Timestamp, upper: Timestamp)
  {
    forall i :: 0 <= i < |b| ==> w <= b[i].timestamp + upper
  }

  lemma {:induction false} EvictedReach<V>(b: seq<Bucket<V>>, w: Timestamp, upper: Timestamp)
    requires Sorted(b)
    ensures ReachedBy(Evict(b, SatSub(w, upper)), w, upper)
  {
    if b != [] && b[0].timestamp < SatSub(w, upper) {
      EvictedReach(b[1..], w, upper);
    }
  }

  /** After a watermark nothing that can no longer match remains, under any key, and no key is left empty. */
  lemma {:induction false} EvictionIsComplete<L, R, O>(cfg: Config<L, R, O>, st: State<L, R>, w: Timestamp)
    requires forall k :: k in st ==> Sorted(st[k].left) && Sorted(st[k].right)
    ensures var st' := Next(cfg, st, Wm(w));
            forall k :: k in st' ==>
              && !IsEmpty(st'[k]) && ReachedBy(st'[k].left, w, cfg.upper) && ReachedBy(st'[k].right, w, cfg.upper)
  {
    forall k | k in st
      ensures var s := Evicted(st[k], SatSub(w, cfg.upper));
              ReachedBy(s.left, w, cfg.upper) && ReachedBy(s.right, w, cfg.upper)
    {
      EvictedReach(st[k].left, w, cfg.upper);
      EvictedReach(st[k].right, w, cfg.upper);
    }
  }
}
