/** Interval join: per key and side an ordered buffer of records, probed by every
    record of the other side and evicted by watermarks. */
module IntervalJoin {
  import opened Streams

  // ----- ordered buffers (a BTreeMap from timestamp to the values with it) -----

  datatype Bucket<+V> = Bucket(timestamp: Timestamp, values: seq<V>)

  ghost predicate Sorted<V>(b: seq<Bucket<V>>)
  {
    forall i, j :: 0 <= i < j < |b| ==> b[i].timestamp < b[j].timestamp
  }

  /** Append `v` to the bucket of `t`, opening the bucket if need be. */
  function Push<V>(b: seq<Bucket<V>>, t: Timestamp, v: V): seq<Bucket<V>>
  {
    if b == [] || t < b[0].timestamp then [Bucket(t, [v])] + b
    else if t == b[0].timestamp then [Bucket(t, b[0].values + [v])] + b[1..]
    else [b[0]] + Push(b[1..], t, v)
  }

  function Remove<V>(b: seq<Bucket<V>>, t: Timestamp): seq<Bucket<V>>
  {
    if b == [] then [] else if b[0].timestamp == t then b[1..] else [b[0]] + Remove(b[1..], t)
  }

  /** Drop the buckets below `cutoff`. */
  function Evict<V>(b: seq<Bucket<V>>, cutoff: Timestamp): seq<Bucket<V>>
  {
    if b == [] || cutoff <= b[0].timestamp then b else Evict(b[1..], cutoff)
  }

  ghost function Times<V>(b: seq<Bucket<V>>): set<Timestamp> { set x | x in b :: x.timestamp }

  lemma {:induction false} TimesCons<V>(first: Bucket<V>, rest: seq<Bucket<V>>)
    ensures Times([first] + rest) == {first.timestamp} + Times(rest)
  {
    assert forall x :: x in [first] + rest <==> x == first || x in rest;
  }

  /** Inserting adds its own time and no other. */
  lemma {:induction false} PushAddsTime<V>(b: seq<Bucket<V>>, t: Timestamp, v: V)
    ensures Times(Push(b, t, v)) == Times(b) + {t}
  {
    if b == [] || t < b[0].timestamp {
      TimesCons(Bucket(t, [v]), b);
    } else {
      assert b == [b[0]] + b[1..];
      TimesCons(b[0], b[1..]);
      if t == b[0].timestamp {
        TimesCons(Bucket(t, b[0].values + [v]), b[1..]);
      } else {
        PushAddsTime(b[1..], t, v);
        TimesCons(b[0], Push(b[1..], t, v));
      }
    }
  }

  ghost predicate Above<V>(b: seq<Bucket<V>>, lo: Timestamp) { forall i :: 0 <= i < |b| ==> lo < b[i].timestamp }

  lemma {:induction false} SortedTail<V>(b: seq<Bucket<V>>)
    requires b != [] && Sorted(b)
    ensures Sorted(b[1..]) && Above(b[1..], b[0].timestamp)
  {
  }

  lemma {:induction false} SortedOnto<V>(first: Bucket<V>, rest: seq<Bucket<V>>)
    requires Sorted(rest) && Above(rest, first.timestamp)
    ensures Sorted([first] + rest)
  {
  }

  lemma {:induction false} PushAbove<V>(b: seq<Bucket<V>>, t: Timestamp, v: V, lo: Timestamp)
    requires Above(b, lo) && lo < t
    ensures Above(Push(b, t, v), lo)
  {
    if b != [] && b[0].timestamp < t {
      PushAbove(b[1..], t, v, lo);
    }
  }

  lemma {:induction false} PushKeepsSorted<V>(b: seq<Bucket<V>>, t: Timestamp, v: V)
    requires Sorted(b)
    ensures Sorted(Push(b, t, v)) && Times(Push(b, t, v)) == Times(b) + {t}
  {
    PushAddsTime(b, t, v);
    if b != [] {
      SortedTail(b);
      if t < b[0].timestamp {
        SortedOnto(Bucket(t, [v]), b);
      } else if t == b[0].timestamp {
        SortedOnto(Bucket(t, b[0].values + [v]), b[1..]);
      } else {
        PushKeepsSorted(b[1..], t, v);
        PushAbove(b[1..], t, v, b[0].timestamp);
        SortedOnto(b[0], Push(b[1..], t, v));
      }
    }
  }

  lemma {:induction false} EvictIsFilter<V>(b: seq<Bucket<V>>, cutoff: Timestamp)
    requires Sorted(b)
    ensures Sorted(Evict(b, cutoff))
    ensures forall x :: x in Evict(b, cutoff) <==> x in b && cutoff <= x.timestamp
  {
    if b != [] && b[0].timestamp < cutoff {
      EvictIsFilter(b[1..], cutoff);
    }
  }

  // ----- configuration, state and the two sides' probes -----

  datatype Config<!L, !R, !O> = Config(lower: Timestamp, upper: Timestamp, join: (L, R) -> O)

  /** The map's range query refuses an inverted range. */
  ghost predicate WellFormed<L, R, O>(cfg: Config<L, R, O>) { cfg.lower <= cfg.upper }

  datatype JoinState<+L, +R> = JoinState(left: seq<Bucket<L>>, right: seq<Bucket<R>>)

  type State<L, R> = map<Bytes, JoinState<L, R>>

  function Stored<L, R>(st: State<L, R>, k: Bytes): JoinState<L, R>
  {
    if k in st then st[k] else JoinState([], [])
  }

  /** The records of a buffer kept under key `k`, in iteration order. */
  function Flatten<V>(k: Bytes, b: seq<Bucket<V>>): seq<Record<V>>
  {
    if b == [] then [] else InBucket(k, b[0]) + Flatten(k, b[1..])
  }

  function InBucket<V>(k: Bytes, x: Bucket<V>): seq<Record<V>>
  {
    seq(|x.values|, i requires 0 <= i < |x.values| => Record(x.values[i], x.timestamp, Some(k)))
  }

  /** The output record of a joined pair. */
  function Paired<L, R, O>(cfg: Config<L, R, O>, l: Record<L>, r: Record<R>): Record<O>
  {
    Record(cfg.join(l.value, r.value), Max(l.timestamp, r.timestamp), Some(KeyOf(l)))
  }

  /** The join condition as documented. */
  predicate Within<L, R, O>(cfg: Config<L, R, O>, l: Record<L>, r: Record<R>)
  {
    SameKey(l, r) && l.timestamp + cfg.lower <= r.timestamp <= l.timestamp + cfg.upper
  }

  /** The range test made when `r` arrives after `l`. */
  predicate LeftInRange<L, R, O>(cfg: Config<L, R, O>, l: Record<L>, r: Record<R>)
  {
    && KeyOf(l) == KeyOf(r)
    && SatSub(r.timestamp, cfg.upper) <= l.timestamp <= SatSub(r.timestamp, cfg.lower)
  }

  /** The range test made when `l` arrives after `r`. */
  predicate RightInRange<L, R, O>(cfg: Config<L, R, O>, l: Record<L>, r: Record<R>)
  {
    && KeyOf(l) == KeyOf(r)
    && SatAdd(l.timestamp, cfg.lower) <= r.timestamp <= SatAdd(l.timestamp, cfg.upper)
  }

  /** The lefts a right record finds. */
  function ProbeLeft<L, R, O>(cfg: Config<L, R, O>, r: Record<R>): Record<L> -> Option<Record<O>>
  {
    (l: Record<L>) => if LeftInRange(cfg, l, r) then Some(Paired(cfg, l, r)) else None
  }

  /** The rights a left record finds. */
  function ProbeRight<L, R, O>(cfg: Config<L, R, O>, l: Record<L>): Record<R> -> Option<Record<O>>
  {
    (r: Record<R>) => if RightInRange(cfg, l, r) then Some(Paired(cfg, l, r)) else None
  }

  // ----- one element -----

  function AddLeft<L, R>(st: State<L, R>, l: Record<L>): State<L, R>
  {
    var s := Stored(st, KeyOf(l));
    st[KeyOf(l) := s.(left := Push(s.left, l.timestamp, l.value))]
  }

  function AddRight<L, R>(st: State<L, R>, r: Record<R>): State<L, R>
  {
    var s := Stored(st, KeyOf(r));
    st[KeyOf(r) := s.(right := Push(s.right, r.timestamp, r.value))]
  }

  function EmitLeft<L, R, O>(cfg: Config<L, R, O>, st: State<L, R>, l: Record<L>): seq<Record<O>>
  {
    FilterMap(Flatten(KeyOf(l), Stored(st, KeyOf(l)).right), ProbeRight(cfg, l))
  }

  function EmitRight<L, R, O>(cfg: Config<L, R, O>, st: State<L, R>, r: Record<R>): seq<Record<O>>
  {
    FilterMap(Flatten(KeyOf(r), Stored(st, KeyOf(r)).left), ProbeLeft(cfg, r))
  }

  function Evicted<L, R>(s: JoinState<L, R>, cutoff: Timestamp): JoinState<L, R>
  {
    JoinState(Evict(s.left, cutoff), Evict(s.right, cutoff))
  }

  predicate IsEmpty<L, R>(s: JoinState<L, R>) { s.left == [] && s.right == [] }

  function EvictAll<L, R>(st: State<L, R>, cutoff: Timestamp): State<L, R>
  {
    map k | k in st && !IsEmpty(Evicted(st[k], cutoff)) :: Evicted(st[k], cutoff)
  }

  function LeftOf<L, R>(r: Record<Either<L, R>>): Record<L>
    requires r.value.Left?
  {
    Record(r.value.left, r.timestamp, r.key)
  }

  function RightOf<L, R>(r: Record<Either<L, R>>): Record<R>
    requires r.value.Right?
  {
    Record(r.value.right, r.timestamp, r.key)
  }

  predicate IsLeft<L, R>(e: StreamElement<Either<L, R>>) { e.Rec? && e.record.value.Left? }

  predicate IsRight<L, R>(e: StreamElement<Either<L, R>>) { e.Rec? && e.record.value.Right? }

  /** The state after one element. */
  function Next<L, R, O>(cfg: Config<L, R, O>, st: State<L, R>, e: StreamElement<Either<L, R>>): State<L, R>
  {
    if IsLeft(e) then AddLeft(st, LeftOf(e.record))
    else if IsRight(e) then AddRight(st, RightOf(e.record))
    else if e.Wm? then EvictAll(st, SatSub(e.timestamp, cfg.upper))
    else st
  }

  /** What one element makes the operator emit. */
  function Emit<L, R, O>(cfg: Config<L, R, O>, st: State<L, R>, e: StreamElement<Either<L, R>>): seq<StreamElement<O>>
  {
    if IsLeft(e) then Elements(EmitLeft(cfg, st, LeftOf(e.record)))
    else if IsRight(e) then Elements(EmitRight(cfg, st, RightOf(e.record)))
    else if e.Wm? then [Wm(e.timestamp)]
    else [Bar(e.barrier)]
  }

  function StateAfter<L, R, O>(cfg: Config<L, R, O>, xs: seq<StreamElement<Either<L, R>>>): State<L, R>
  {
    if xs == [] then map[] else Next(cfg, StateAfter(cfg, xs[..|xs| - 1]), xs[|xs| - 1])
  }

  function Output<L, R, O>(cfg: Config<L, R, O>, xs: seq<StreamElement<Either<L, R>>>): seq<StreamElement<O>>
  {
    if xs == [] then []
    else Output(cfg, xs[..|xs| - 1]) + Emit(cfg, StateAfter(cfg, xs[..|xs| - 1]), xs[|xs| - 1])
  }

  // ----- the operator -----

  method EvictBefore<V>(buffer: seq<Bucket<V>>, cutoff: Timestamp) returns (kept: seq<Bucket<V>>)
    ensures kept == Evict(buffer, cutoff)
  {
    var toRemove: seq<Timestamp> := [];
    var i := 0;
    while i < |buffer| && buffer[i].timestamp < cutoff
      invariant i <= |buffer| && |toRemove| == i
      invariant forall j :: 0 <= j < i ==> toRemove[j] == buffer[j].timestamp
      invariant Evict(buffer, cutoff) == Evict(buffer[i..], cutoff)
    {
      toRemove := toRemove + [buffer[i].timestamp];
      i := i + 1;
    }
    kept := buffer;
    for j := 0 to |toRemove|
      invariant kept == buffer[j..]
    {
      kept := Remove(kept, toRemove[j]);
    }
  }

  class IntervalJoinOperator<!L, !R, !O> {
    const cfg: Config<L, R, O>
    var state: State<L, R>
    var currentWatermark: Timestamp

    ghost predicate Valid()
      reads this
    {
      && WellFormed(cfg)
      && forall k :: k in state ==> Sorted(state[k].left) && Sorted(state[k].right)
    }

    constructor (cfg: Config<L, R, O>)
      requires WellFormed(cfg)
      ensures Valid() && this.cfg == cfg && state == map[] && currentWatermark == 0
    {
      this.cfg, state, currentWatermark := cfg, map[], 0;
    }

    method ProcessRecord(record: Record<Either<L, R>>) returns (emitted: seq<StreamElement<O>>)
      requires Valid()
      modifies this`state
      ensures Valid()
      ensures state == Next(cfg, old(state), Rec(record))
      ensures emitted == Emit(cfg, old(state), Rec(record))
    {
      var key := if record.key.Some? then record.key.value else [];
      var perKey := Stored(state, key);
      match record.value
      case Left(value) =>
        PushKeepsSorted(perKey.left, record.timestamp, value);
        perKey := perKey.(left := Push(perKey.left, record.timestamp, value));
        state := state[key := perKey];
        var found := ScanRight(key, perKey.right, Record(value, record.timestamp, record.key));
        emitted := Elements(found);
      case Right(value) =>
        PushKeepsSorted(perKey.right, record.timestamp, value);
        perKey := perKey.(right := Push(perKey.right, record.timestamp, value));
        state := state[key := perKey];
        var found := ScanLeft(key, perKey.left, Record(value, record.timestamp, record.key));
        emitted := Elements(found);
    }

    method ScanRight(key: Bytes, buffer: seq<Bucket<R>>, l: Record<L>) returns (found: seq<Record<O>>)
      requires key == KeyOf(l)
      ensures found == FilterMap(Flatten(key, buffer), ProbeRight(cfg, l))
    {
      var rangeStart, rangeEnd := SatAdd(l.timestamp, cfg.lower), SatAdd(l.timestamp, cfg.upper);
      found := [];
      for i := 0 to |buffer|
        invariant found == FilterMap(Flatten(key, buffer[..i]), ProbeRight(cfg, l))
      {
        var rightTs := buffer[i].timestamp;
        ghost var whole := InBucket(key, buffer[i]);
        ghost var before := found;
        if rangeStart <= rightTs <= rangeEnd {
          for j := 0 to |buffer[i].values|
            invariant found == before + FilterMap(whole[..j], ProbeRight(cfg, l))
          {
            var output := cfg.join(l.value, buffer[i].values[j]);
            found := found + [Record(output, Max(l.timestamp, rightTs), Some(key))];
            assert whole[..j + 1] == whole[..j] + [whole[j]];
            FilterMapSnoc(whole[..j], whole[j], ProbeRight(cfg, l));
          }
          assert whole[..|whole|] == whole;
        } else {
          NoneFound(whole, ProbeRight(cfg, l));
        }
        FlattenSnoc(key, buffer, i);
        FilterMapAppend(Flatten(key, buffer[..i]), whole, ProbeRight(cfg, l));
      }
      assert buffer[..|buffer|] == buffer;
    }

    method ScanLeft(key: Bytes, buffer: seq<Bucket<L>>, r: Record<R>) returns (found: seq<Record<O>>)
      requires key == KeyOf(r)
      ensures found == FilterMap(Flatten(key, buffer), ProbeLeft(cfg, r))
    {
      var rangeStart, rangeEnd := SatSub(r.timestamp, cfg.upper), SatSub(r.timestamp, cfg.lower);
      found := [];
      for i := 0 to |buffer|
        invariant found == FilterMap(Flatten(key, buffer[..i]), ProbeLeft(cfg, r))
      {
        var leftTs := buffer[i].timestamp;
        ghost var whole := InBucket(key, buffer[i]);
        ghost var before := found;
        if rangeStart <= leftTs <= rangeEnd {
          for j := 0 to |buffer[i].values|
            invariant found == before + FilterMap(whole[..j], ProbeLeft(cfg, r))
          {
            var output := cfg.join(buffer[i].values[j], r.value);
            found := found + [Record(output, Max(leftTs, r.timestamp), Some(key))];
            assert whole[..j + 1] == whole[..j] + [whole[j]];
            FilterMapSnoc(whole[..j], whole[j], ProbeLeft(cfg, r));
          }
          assert whole[..|whole|] == whole;
        } else {
          NoneFound(whole, ProbeLeft(cfg, r));
        }
        FlattenSnoc(key, buffer, i);
        FilterMapAppend(Flatten(key, buffer[..i]), whole, ProbeLeft(cfg, r));
      }
      assert buffer[..|buffer|] == buffer;
    }

    method ProcessWatermark(watermark: Timestamp) returns (emitted: seq<StreamElement<O>>)
      requires Valid()
      modifies this`state, this`currentWatermark
      ensures Valid()
      ensures currentWatermark == watermark
      ensures state == Next(cfg, old(state), Wm(watermark))
      ensures emitted == Emit(cfg, old(state), Wm(watermark))
    {
      currentWatermark := watermark;
      EvictAllKeepsSorted(state, SatSub(watermark, cfg.upper));
      EvictExpired(SatSub(watermark, cfg.upper));
      emitted := [Wm(watermark)];
    }

    method EvictExpired(leftCutoff: Timestamp)
      modifies this`state
      ensures state == EvictAll(old(state), leftCutoff)
    {
      ghost var before := state;
      var emptyKeys: set<Bytes> := {};
      var todo := state.Keys;
      while todo != {}
        invariant todo <= before.Keys == state.Keys
        invariant forall k :: k in todo ==> state[k] == before[k]
        invariant forall k :: k in before && k !in todo ==> state[k] == Evicted(before[k], leftCutoff)
        invariant forall k :: k in emptyKeys <==> k in before && k !in todo && IsEmpty(Evicted(before[k], leftCutoff))
        decreases todo
      {
        var key :| key in todo;
        var perKey := state[key];
        var left := EvictBefore(perKey.left, leftCutoff);
        var right := EvictBefore(perKey.right, leftCutoff);
        perKey := JoinState(left, right);
        assert perKey == Evicted(before[key], leftCutoff);
        state := state[key := perKey];
        if IsEmpty(perKey) {
          emptyKeys := emptyKeys + {key};
        }
        todo := todo - {key};
      }
      state := state - emptyKeys;
    }
  }

  lemma {:induction false} EvictAllKeepsSorted<L, R>(st: State<L, R>, cutoff: Timestamp)
    requires forall k :: k in st ==> Sorted(st[k].left) && Sorted(st[k].right)
    ensures forall k :: k in EvictAll(st, cutoff) ==>
              Sorted(EvictAll(st, cutoff)[k].left) && Sorted(EvictAll(st, cutoff)[k].right)
  {
    forall k | k in EvictAll(st, cutoff)
      ensures Sorted(EvictAll(st, cutoff)[k].left) && Sorted(EvictAll(st, cutoff)[k].right)
    {
      EvictIsFilter(st[k].left, cutoff);
      EvictIsFilter(st[k].right, cutoff);
    }
  }

  lemma {:induction false} NoneFound<A, B>(xs: seq<A>, f: A -> Option<B>)
    requires forall x :: x in xs ==> f(x).None?
    ensures FilterMap(xs, f) == []
  {
    if xs != [] {
      NoneFound(xs[1..], f);
    }
  }

  lemma {:induction false} FlattenAppend<V>(k: Bytes, a: seq<Bucket<V>>, b: seq<Bucket<V>>)
    ensures Flatten(k, a + b) == Flatten(k, a) + Flatten(k, b)
  {
    if a == [] {
      assert a + b == b;
    } else {
      assert (a + b)[1..] == a[1..] + b;
      FlattenAppend(k, a[1..], b);
    }
  }

  lemma {:induction false} FlattenSnoc<V>(k: Bytes, b: seq<Bucket<V>>, i: nat)
    requires i < |b|
    ensures Flatten(k, b[..i + 1]) == Flatten(k, b[..i]) + InBucket(k, b[i])
  {
    assert b[..i + 1] == b[..i] + [b[i]];
    FlattenAppend(k, b[..i], [b[i]]);
  }

  // ----- what each buffer operation does to the records in it -----

  lemma {:induction false} FlattenCons<V, O>(k: Bytes, first: Bucket<V>, rest: seq<Bucket<V>>,
                                             f: Record<V> -> Option<O>)
    ensures FilterMap(Flatten(k, [first] + rest), f)
         == FilterMap(InBucket(k, first), f) + FilterMap(Flatten(k, rest), f)
  {
    assert ([first] + rest)[1..] == rest;
    FilterMapAppend(InBucket(k, first), Flatten(k, rest), f);
  }

  lemma {:induction false} BucketGrows<V, O>(k: Bytes, b: Bucket<V>, v: V, f: Record<V> -> Option<O>)
    ensures FilterMap(InBucket(k, Bucket(b.timestamp, b.values + [v])), f)
         == FilterMap(InBucket(k, b), f) + FilterMap([Record(v, b.timestamp, Some(k))], f)
  {
    var x := Record(v, b.timestamp, Some(k));
    assert InBucket(k, Bucket(b.timestamp, b.values + [v])) == InBucket(k, b) + [x];
    FilterMapAppend(InBucket(k, b), [x], f);
  }

  /** Pushing a record adds exactly its own contribution to whatever a probe finds. */
  lemma {:induction false} FlattenPush<V, O>(k: Bytes, b: seq<Bucket<V>>, t: Timestamp, v: V, f: Record<V> -> Option<O>)
    ensures multiset(FilterMap(Flatten(k, Push(b, t, v)), f))
         == multiset(FilterMap(Flatten(k, b), f)) + multiset(FilterMap([Record(v, t, Some(k))], f))
  {
    if b == [] || t < b[0].timestamp {
      FlattenCons(k, Bucket(t, [v]), b, f);
      assert InBucket(k, Bucket(t, [v])) == [Record(v, t, Some(k))];
    } else {
      assert b == [b[0]] + b[1..];
      FlattenCons(k, b[0], b[1..], f);
      if t == b[0].timestamp {
        FlattenCons(k, Bucket(t, b[0].values + [v]), b[1..], f);
        BucketGrows(k, b[0], v, f);
      } else {
        FlattenCons(k, b[0], Push(b[1..], t, v), f);
        FlattenPush(k, b[1..], t, v, f);
      }
    }
  }

  lemma {:induction false} FlattenEvict<V, O>(k: Bytes, b: seq<Bucket<V>>, cutoff: Timestamp, f: Record<V> -> Option<O>)
    ensures multiset(FilterMap(Flatten(k, Evict(b, cutoff)), f)) <= multiset(FilterMap(Flatten(k, b), f))
    ensures (forall x: Record<V> :: x.timestamp < cutoff ==> f(x).None?) ==>
              FilterMap(Flatten(k, Evict(b, cutoff)), f) == FilterMap(Flatten(k, b), f)
  {
    if b != [] && b[0].timestamp < cutoff {
      FlattenEvict(k, b[1..], cutoff, f);
      FilterMapAppend(InBucket(k, b[0]), Flatten(k, b[1..]), f);
      if forall x: Record<V> :: x.timestamp < cutoff ==> f(x).None? {
        NoneFound(InBucket(k, b[0]), f);
      }
    }
  }
}
