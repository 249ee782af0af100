/** What an output record of the interval join is made of, and that keys do not mix. */
module IntervalJoinKeys {
  import opened Streams
  import opened IntervalJoin
  import opened IntervalJoinBatch
  import opened IntervalJoinLate

  // ----- one key at a time -----

  /** Drops the records of other keys; an unkeyed record counts under the empty key. */
  function OfKey<V>(k: Bytes): StreamElement<V> -> Option<StreamElement<V>>
  {
    (e: StreamElement<V>) =>
      if e.Rec? && e.record.key != Some(k) && !(e.record.key == None && k == []) then None else Some(e)
  }

  function KeyOnly<V>(xs: seq<StreamElement<V>>, k: Bytes): seq<StreamElement<V>> { FilterMap(xs, OfKey(k)) }

  function CarriesKey<O>(k: Bytes): Record<O> -> Option<Record<O>>
  {
    (o: Record<O>) => if o.key == Some(k) then Some(o) else None
  }

  lemma {:induction false} EmitsOneKey<L, R, O>(cfg: Config<L, R, O>, st: State<L, R>, e: StreamElement<Either<L, R>>,
                                                k: Bytes)
    ensures FilterMap(Records(Emit(cfg, st, e)), CarriesKey(k))
         == if e.Rec? && Keyed(e.record, k) then Records(Emit(cfg, st, e)) else []
  {
    if IsLeft(e) {
      var l := LeftOf(e.record);
      ElementsRecords(EmitLeft(cfg, st, l));
      AnswersCarry(Flatten(KeyOf(l), Stored(st, KeyOf(l)).right), ProbeRight(cfg, l), KeyOf(l), k);
    } else if IsRight(e) {
      var r := RightOf(e.record);
      ElementsRecords(EmitRight(cfg, st, r));
      AnswersCarry(Flatten(KeyOf(r), Stored(st, KeyOf(r)).left), ProbeLeft(cfg, r), KeyOf(r), k);
    } else {
      NoRecordFindsNothing(cfg, [], e);
      assert Emit(cfg, st, e) == Emit(cfg, StateAfter(cfg, []), e);
    }
  }

  lemma {:induction false} AnswersCarry<V, O>(xs: seq<Record<V>>, f: Record<V> -> Option<Record<O>>,
                                                 own: Bytes, k: Bytes)
    requires forall x :: x in xs && f(x).Some? ==> f(x).value.key == Some(own)
    ensures FilterMap(FilterMap(xs, f), CarriesKey(k)) == if own == k then FilterMap(xs, f) else []
  {
    if xs != [] {
      AnswersCarry(xs[1..], f, own, k);
    }
  }

  lemma {:induction false} NextOfKey<L, R, O>(cfg: Config<L, R, O>, st: State<L, R>, st': State<L, R>,
            e: StreamElement<Either<L, R>>, k: Bytes)
    requires Stored(st, k) == Stored(st', k)
    ensures Stored(Next(cfg, st, e), k) == Stored(if OfKey(k)(e).Some? then Next(cfg, st', e) else st', k)
    ensures OfKey(k)(e).Some? ==>
              (if e.Rec? then Emit(cfg, st, e) == Emit(cfg, st', e) else Records(Emit(cfg, st', e)) == [])
  {
    if e.Wm? {
      StoredAfterEviction(st, SatSub(e.timestamp, cfg.upper), k);
      StoredAfterEviction(st', SatSub(e.timestamp, cfg.upper), k);
    }
    if !e.Rec? {
      NoRecordFindsNothing(cfg, [], e);
      assert Emit(cfg, st', e) == Emit(cfg, StateAfter(cfg, []), e);
    }
  }

  /** Key isolation: over any stream, the output records of a key are the output of that
      key's records alone. Nothing is stored, matched or evicted across keys. */
  lemma {:induction false} JoinIsPerKey<L, R, O>(cfg: Config<L, R, O>, xs: seq<StreamElement<Either<L, R>>>, k: Bytes)
    ensures Stored(StateAfter(cfg, xs), k) == Stored(StateAfter(cfg, KeyOnly(xs, k)), k)
    ensures FilterMap(Records(Output(cfg, xs)), CarriesKey(k)) == Records(Output(cfg, KeyOnly(xs, k)))
  {
    if xs != [] {
      var before, e := xs[..|xs| - 1], xs[|xs| - 1];
      JoinIsPerKey(cfg, before, k);
      StateIsPerKeySnoc(cfg, before, e, k);
      OutputIsPerKeySnoc(cfg, before, e, k);
      InitAndLast(xs);
    }
  }

  lemma {:induction false} KeyOnlySnoc<V>(xs: seq<StreamElement<V>>, e: StreamElement<V>, k: Bytes)
    ensures KeyOnly(xs + [e], k)
         == if e.Rec? && !Keyed(e.record, k) then KeyOnly(xs, k) else KeyOnly(xs, k) + [e]
  {
    FilterMapSnoc(xs, e, OfKey(k));
    assert KeyOnly(xs, k) + [] == KeyOnly(xs, k);
  }

  lemma {:induction false} StateIsPerKeySnoc<L, R, O>(cfg: Config<L, R, O>, xs: seq<StreamElement<Either<L, R>>>,
            e: StreamElement<Either<L, R>>, k: Bytes)
    requires Stored(StateAfter(cfg, xs), k) == Stored(StateAfter(cfg, KeyOnly(xs, k)), k)
    ensures Stored(StateAfter(cfg, xs + [e]), k) == Stored(StateAfter(cfg, KeyOnly(xs + [e], k)), k)
  {
    var own := KeyOnly(xs, k);
    StateAfterSnoc(cfg, xs, e);
    StateAfterSnoc(cfg, own, e);
    KeyOnlySnoc(xs, e, k);
    NextOfKey(cfg, StateAfter(cfg, xs), StateAfter(cfg, own), e, k);
  }

  lemma {:induction false} RecordsMore<L, R, O>(cfg: Config<L, R, O>, xs: seq<StreamElement<Either<L, R>>>,
                                                e: StreamElement<Either<L, R>>)
    ensures Records(Output(cfg, xs + [e])) == Records(Output(cfg, xs)) + Records(Emit(cfg, StateAfter(cfg, xs), e))
  {
    StateAfterSnoc(cfg, xs, e);
    FilterMapAppend(Output(cfg, xs), Emit(cfg, StateAfter(cfg, xs), e), AsRecord);
  }

  lemma {:induction false} OutputIsPerKeySnoc<L, R, O>(cfg: Config<L, R, O>, xs: seq<StreamElement<Either<L, R>>>,
            e: StreamElement<Either<L, R>>, k: Bytes)
    requires Stored(StateAfter(cfg, xs), k) == Stored(StateAfter(cfg, KeyOnly(xs, k)), k)
    requires FilterMap(Records(Output(cfg, xs)), CarriesKey(k)) == Records(Output(cfg, KeyOnly(xs, k)))
    ensures FilterMap(Records(Output(cfg, xs + [e])), CarriesKey(k)) == Records(Output(cfg, KeyOnly(xs + [e], k)))
  {
    var own := KeyOnly(xs, k);
    RecordsMore(cfg, xs, e);
    RecordsMore(cfg, own, e);
    KeyOnlySnoc(xs, e, k);
    EmitIsPerKey(cfg, StateAfter(cfg, xs), StateAfter(cfg, own), e, k);
    FilterMapAppend(Records(Output(cfg, xs)), Records(Emit(cfg, StateAfter(cfg, xs), e)), CarriesKey(k));
    if e.Rec? && !Keyed(e.record, k) {
      assert Records(Output(cfg, own)) + [] == Records(Output(cfg, own));
    }
  }

  lemma {:induction false} EmitIsPerKey<L, R, O>(cfg: Config<L, R, O>, st: State<L, R>, st': State<L, R>,
            e: StreamElement<Either<L, R>>, k: Bytes)
    requires Stored(st, k) == Stored(st', k)
    ensures FilterMap(Records(Emit(cfg, st, e)), CarriesKey(k))
         == if e.Rec? && !Keyed(e.record, k) then [] else Records(Emit(cfg, st', e))
  {
    NextOfKey(cfg, st, st', e, k);
    EmitsOneKey(cfg, st, e, k);
  }

  // ----- where an output record comes from -----

  /** The record that a left and a right record make, field by field. */
  ghost predicate Joins<L, R, O>(cfg: Config<L, R, O>, l: Record<L>, r: Record<R>, o: Record<O>)
  {
    && o.value == cfg.join(l.value, r.value)
    && o.timestamp == (if l.timestamp < r.timestamp then r.timestamp else l.timestamp)
    && o.key.Some?
    && (l.key == o.key || (l.key == None && o.key == Some([])))
    && (r.key == o.key || (r.key == None && o.key == Some([])))
  }

  lemma {:induction false} AnswerOrigin<V, W, O>(upper: Timestamp, xs: seq<StreamElement<W>>,
            pick: StreamElement<W> -> Option<Record<V>>, f: Record<V> -> Option<O>, n: nat, o: O) returns (i: nat)
    requires n <= |xs| && o in KeptAnswers(upper, xs, pick, f, n)
    ensures i < n && pick(xs[i]).Some? && f(pick(xs[i]).value) == Some(o)
  {
    if o in KeptAnswers(upper, xs, pick, f, n - 1) {
      i := AnswerOrigin(upper, xs, pick, f, n - 1, o);
    } else {
      i := n - 1;
      assert o in AnswerIfKept(upper, xs, pick, f, i);
    }
  }

  lemma {:induction false} PairOrigin<L, R, O>(cfg: Config<L, R, O>, xs: seq<StreamElement<Either<L, R>>>, o: Record<O>)
    returns (i: nat, j: nat)
    requires o in KeptPairs(cfg, xs)
    ensures i < |xs| && j < |xs| && IsLeft(xs[i]) && IsRight(xs[j])
    ensures Joins(cfg, LeftOf(xs[i].record), RightOf(xs[j].record), o)
  {
    var m := |xs| - 1;
    var before, e := xs[..m], xs[m];
    if o in KeptPairs(cfg, before) {
      i, j := PairOrigin(cfg, before, o);
    } else if IsLeft(e) {
      assert o in FindsKept(cfg, before, e);
      i := m;
      j := AnswerOrigin(cfg.upper, before, AsRight, ProbeRight(cfg, LeftOf(e.record)), m, o);
    } else {
      assert o in FindsKept(cfg, before, e);
      i := AnswerOrigin(cfg.upper, before, AsLeft, ProbeLeft(cfg, RightOf(e.record)), m, o);
      j := m;
    }
  }

  /** Over any stream each output record is made of one left and one right record of the
      stream: the join function's value, the later time, their common key. */
  lemma {:induction false} OutputOrigin<L(!new), R(!new), O>(cfg: Config<L, R, O>,
            xs: seq<StreamElement<Either<L, R>>>, o: Record<O>) returns (i: nat, j: nat)
    requires o in Records(Output(cfg, xs))
    ensures i < |xs| && j < |xs| && IsLeft(xs[i]) && IsRight(xs[j])
    ensures Joins(cfg, LeftOf(xs[i].record), RightOf(xs[j].record), o)
  {
    OutputIsKeptPairs(cfg, xs);
    assert o in multiset(Records(Output(cfg, xs)));
    i, j := PairOrigin(cfg, xs, o);
  }

  lemma {:induction false} WatermarksOfOne<L, R, O>(cfg: Config<L, R, O>, st: State<L, R>,
                                                    e: StreamElement<Either<L, R>>)
    ensures Watermarks(Emit(cfg, st, e)) == AsSeq(AsWatermark(e))
  {
    var added := Emit(cfg, st, e);
    if e.Rec? {
      NoneFound(added, AsWatermark);
    } else {
      FilterOne(added[0], AsWatermark);
      assert added == [added[0]];
    }
  }

  /** Watermarks go through unchanged and in order. */
  lemma {:induction false} WatermarksForwarded<L, R, O>(cfg: Config<L, R, O>, xs: seq<StreamElement<Either<L, R>>>)
    ensures Watermarks(Output(cfg, xs)) == Watermarks(xs)
  {
    if xs != [] {
      var before, e := xs[..|xs| - 1], xs[|xs| - 1];
      WatermarksForwarded(cfg, before);
      WatermarksOfOne(cfg, StateAfter(cfg, before), e);
      FilterMapAppend(Output(cfg, before), Emit(cfg, StateAfter(cfg, before), e), AsWatermark);
      FilterMapSnoc(before, e, AsWatermark);
      InitAndLast(xs);
    }
  }
}
