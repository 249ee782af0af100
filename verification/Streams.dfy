/** Event time, records, control elements and the projections of element
    sequences that the other modules are stated with. */
module Streams {

  const U64_MAX: nat := 0xFFFF_FFFF_FFFF_FFFF

  /** Milliseconds since the epoch, a 64-bit unsigned integer. */
  type Timestamp = t: nat | t <= U64_MAX

  type Byte = b: nat | b < 256
  type Bytes = seq<Byte>

  datatype Option<+T> = None | Some(value: T)

  datatype Either<+L, +R> = Left(left: L) | Right(right: R)

  datatype Record<+V> = Record(value: V, timestamp: Timestamp, key: Option<Bytes>)

  /** The record is filed under k: its own key, or the empty one when it has none. */
  predicate Keyed<V>(r: Record<V>, k: Bytes) { r.key == Some(k) || (r.key == None && k == []) }

  /** The two records are filed under one key. */
  predicate SameKey<V, W>(l: Record<V>, r: Record<W>)
  {
    match (l.key, r.key)
    case (Some(a), Some(b)) => a == b
    case (Some(a), None) => a == []
    case (None, Some(b)) => b == []
    case (None, None) => true
  }

  function KeyOf<V>(r: Record<V>): (k: Bytes)
    ensures forall k' :: Keyed(r, k') <==> k' == k
  {
    if r.key.Some? then r.key.value else []
  }

  datatype CheckpointBarrier = CheckpointBarrier(id: nat, timestamp: Timestamp)

  /** What travels through a channel: data and control messages in one order. */
  datatype StreamElement<+V> =
    | Rec(record: Record<V>)
    | Wm(timestamp: Timestamp)
    | Bar(barrier: CheckpointBarrier)

  /** `saturating_add` on the 64-bit representation. */
  function SatAdd(t: Timestamp, d: Timestamp): (r: Timestamp)
    ensures r == t + d || (r == U64_MAX && t + d > U64_MAX)
  {
    if t + d <= U64_MAX then t + d else U64_MAX
  }

  /** `saturating_sub` on the 64-bit representation. */
  function SatSub(t: Timestamp, d: Timestamp): (r: Timestamp)
    ensures r == t - d || (r == 0 && t < d)
  {
    if d <= t then t - d else 0
  }

  function Max(a: Timestamp, b: Timestamp): (m: Timestamp)
    ensures a <= m && b <= m && (m == a || m == b)
  {
    if a < b then b else a
  }

  function Min(a: Timestamp, b: Timestamp): (m: Timestamp)
    ensures m <= a && m <= b && (m == a || m == b)
  {
    if b < a then b else a
  }

  // ----- projections -----

  function FilterMap<A, B>(xs: seq<A>, f: A -> Option<B>): seq<B>
  {
    if xs == [] then []
    else
      var rest := FilterMap(xs[1..], f);
      match f(xs[0])
      case Some(b) => [b] + rest
      case None => rest
  }

  lemma {:induction false} FilterMapAppend<A, B>(xs: seq<A>, ys: seq<A>, f: A -> Option<B>)
    ensures FilterMap(xs + ys, f) == FilterMap(xs, f) + FilterMap(ys, f)
  {
    if xs == [] {
      assert xs + ys == ys;
    } else {
      assert (xs + ys)[1..] == xs[1..] + ys;
      FilterMapAppend(xs[1..], ys, f);
    }
  }

  lemma {:induction false} FilterMapSnoc<A, B>(xs: seq<A>, x: A, f: A -> Option<B>)
    ensures FilterMap(xs + [x], f) == FilterMap(xs, f) + (match f(x) case Some(b) => [b] case None => [])
  {
    FilterMapAppend(xs, [x], f);
    assert [x][1..] == [];
  }

  function AsRecord<V>(e: StreamElement<V>): Option<Record<V>>
  {
    if e.Rec? then Some(e.record) else None
  }

  function AsWatermark<V>(e: StreamElement<V>): Option<Timestamp>
  {
    if e.Wm? then Some(e.timestamp) else None
  }

  function AsBarrier<V>(e: StreamElement<V>): Option<CheckpointBarrier>
  {
    if e.Bar? then Some(e.barrier) else None
  }

  /** Records as stream elements. */
  function Elements<V>(rs: seq<Record<V>>): seq<StreamElement<V>>
  {
    seq(|rs|, i requires 0 <= i < |rs| => Rec(rs[i]))
  }

  /** The left records of a merged stream, untagged. */
  function AsLeft<L, R>(e: StreamElement<Either<L, R>>): Option<Record<L>>
  {
    if e.Rec? && e.record.value.Left?
    then Some(Record(e.record.value.left, e.record.timestamp, e.record.key)) else None
  }

  function AsRight<L, R>(e: StreamElement<Either<L, R>>): Option<Record<R>>
  {
    if e.Rec? && e.record.value.Right?
    then Some(Record(e.record.value.right, e.record.timestamp, e.record.key)) else None
  }

  function Lefts<L, R>(xs: seq<StreamElement<Either<L, R>>>): seq<Record<L>> { FilterMap(xs, AsLeft) }

  function Rights<L, R>(xs: seq<StreamElement<Either<L, R>>>): seq<Record<R>> { FilterMap(xs, AsRight) }

  function Records<V>(xs: seq<StreamElement<V>>): seq<Record<V>> { FilterMap(xs, AsRecord) }

  function Watermarks<V>(xs: seq<StreamElement<V>>): seq<Timestamp> { FilterMap(xs, AsWatermark) }

  function Barriers<V>(xs: seq<StreamElement<V>>): seq<CheckpointBarrier> { FilterMap(xs, AsBarrier) }

  lemma {:induction false} ElementsRecords<V>(rs: seq<Record<V>>)
    ensures Records(Elements(rs)) == rs
  {
    if rs != [] {
      ElementsRecords(rs[1..]);
      assert Elements(rs)[1..] == Elements(rs[1..]);
    }
  }

  // ----- collections -----

  function AsSeq<T>(o: Option<T>): seq<T> { if o.Some? then [o.value] else [] }

  lemma {:induction false} SubsetSize<T>(a: set<T>, b: set<T>)
    requires a <= b
    ensures |a| <= |b|
    ensures |a| == |b| ==> a == b
  {
    if a != {} {
      var x :| x in a;
      SubsetSize(a - {x}, b - {x});
    }
  }

  lemma {:induction false} Regroup<T>(a: seq<T>, b: seq<T>, c: seq<T>)
    ensures (a + b) + c == a + (b + c)
  {
  }

  lemma {:induction false} InitAndLast<T>(xs: seq<T>)
    requires xs != []
    ensures xs[..|xs| - 1] + [xs[|xs| - 1]] == xs
  {
  }

  lemma {:induction false} HeadAndRest<T>(a: seq<T>, b: seq<T>)
    requires a != []
    ensures (a + b)[0] == a[0] && (a + b)[1..] == a[1..] + b && a + b == [a[0]] + (a[1..] + b)
  {
  }

  // ----- the part of a stream before a barrier -----

  /** What precedes barrier number k (from 0); everything when there is no such barrier. */
  function Before<V>(xs: seq<StreamElement<V>>, k: nat): seq<StreamElement<V>>
  {
    if xs == [] then []
    else if xs[0].Bar? then (if k == 0 then [] else [xs[0]] + Before(xs[1..], k - 1))
    else [xs[0]] + Before(xs[1..], k)
  }

  lemma {:induction false} BarriersCons<V>(xs: seq<StreamElement<V>>)
    requires xs != []
    ensures |Barriers(xs)| == |Barriers(xs[1..])| + (if xs[0].Bar? then 1 else 0)
  {
  }

  lemma {:induction false} BeforeConcat<V>(a: seq<StreamElement<V>>, b: seq<StreamElement<V>>, k: nat)
    ensures Before(a + b, k)
         == if k < |Barriers(a)| then Before(a, k) else a + Before(b, k - |Barriers(a)|)
  {
    if a == [] {
      assert a + b == b;
    } else {
      HeadAndRest(a, b);
      BarriersCons(a);
      if !a[0].Bar? || k != 0 {
        BeforeConcat(a[1..], b, if a[0].Bar? then k - 1 else k);
        if k >= |Barriers(a)| {
          HeadAndRest(a, Before(b, k - |Barriers(a)|));
        }
      }
    }
  }

  lemma {:induction false} BeforeNoBarrier<V>(xs: seq<StreamElement<V>>, k: nat)
    requires |Barriers(xs)| <= k
    ensures Before(xs, k) == xs
  {
    if xs != [] {
      BeforeNoBarrier(xs[1..], if xs[0].Bar? then k - 1 else k);
    }
  }

  lemma {:induction false} BeforeIsPrefix<V>(xs: seq<StreamElement<V>>, k: nat)
    ensures Before(xs, k) <= xs
  {
    if xs != [] {
      BeforeIsPrefix(xs[1..], k);
      if k != 0 {
        BeforeIsPrefix(xs[1..], k - 1);
      }
    }
  }

  lemma {:induction false} BarriersAtMost<V>(xs: seq<StreamElement<V>>)
    ensures |Barriers(xs)| <= |xs|
  {
    if xs != [] {
      BarriersAtMost(xs[1..]);
    }
  }

  // ----- watermarks -----

  /** The watermark promise: a record that follows a watermark is later than it. */
  ghost predicate KeepsPromise<V>(xs: seq<StreamElement<V>>)
  {
    forall i, j :: 0 <= i < j < |xs| && xs[i].Wm? && xs[j].Rec? ==> xs[i].timestamp < xs[j].record.timestamp
  }

  ghost predicate StrictlyAscending(ts: seq<Timestamp>)
  {
    forall i, j :: 0 <= i < j < |ts| ==> ts[i] < ts[j]
  }
}
