/** The interval join's output as a sequence: each arriving record is answered by the
    kept records of the other side in order of time, those of one time as they arrived. */
module IntervalJoinOrder {
  import opened Streams
  import opened IntervalJoin
  import opened IntervalJoinBatch
  import opened IntervalJoinLate

  // ----- records in order of time -----

  ghost predicate Ascends<V>(s: seq<Record<V>>)
  {
    forall i, j :: 0 <= i < j < |s| ==> s[i].timestamp <= s[j].timestamp
  }

  /** Behind the records that are not later. */
  function Insert<V>(s: seq<Record<V>>, x: Record<V>): seq<Record<V>>
  {
    if s == [] || x.timestamp < s[0].timestamp then [x] + s else [s[0]] + Insert(s[1..], x)
  }

  function ByTime<V>(s: seq<Record<V>>): seq<Record<V>>
  {
    if s == [] then [] else Insert(ByTime(s[..|s| - 1]), s[|s| - 1])
  }

  function AtTime<V>(t: Timestamp): Record<V> -> Option<Record<V>>
  {
    (x: Record<V>) => if x.timestamp == t then Some(x) else None
  }

  ghost predicate KeepsTime<V(!new), W>(f: Record<V> -> Option<Record<W>>)
  {
    forall x :: f(x).Some? ==> f(x).value.timestamp == x.timestamp
  }

  lemma {:induction false} InsertAscends<V>(s: seq<Record<V>>, x: Record<V>)
    requires Ascends(s)
    ensures Ascends(Insert(s, x))
    ensures |Insert(s, x)| == |s| + 1
    ensures Insert(s, x)[0] == x || (s != [] && Insert(s, x)[0] == s[0])
  {
    if s != [] && s[0].timestamp <= x.timestamp {
      InsertAscends(s[1..], x);
    }
  }

  lemma {:induction false} InsertBehind<V>(a: seq<Record<V>>, s: seq<Record<V>>, x: Record<V>)
    requires forall y :: y in a ==> y.timestamp <= x.timestamp
    ensures Insert(a + s, x) == a + Insert(s, x)
  {
    if a == [] {
      assert a + s == s;
    } else {
      HeadAndRest(a, s);
      InsertBehind(a[1..], s, x);
    }
  }

  lemma {:induction false} InsertBefore<V>(s: seq<Record<V>>, x: Record<V>)
    requires forall y :: y in s ==> x.timestamp < y.timestamp
    ensures Insert(s, x) == [x] + s
  {
  }

  lemma {:induction false} LaterOnly<V(!new), W>(s: seq<Record<V>>, f: Record<V> -> Option<Record<W>>, t: Timestamp)
    requires KeepsTime(f) && forall y :: y in s ==> t < y.timestamp
    ensures forall y :: y in FilterMap(s, f) ==> t < y.timestamp
  {
    if s != [] {
      LaterOnly(s[1..], f, t);
    }
  }

  /** Selecting and inserting commute. */
  lemma {:induction false} InsertSelected<V(!new), W>(s: seq<Record<V>>, x: Record<V>,
                                                      f: Record<V> -> Option<Record<W>>)
    requires Ascends(s) && KeepsTime(f)
    ensures FilterMap(Insert(s, x), f)
         == if f(x).Some? then Insert(FilterMap(s, f), f(x).value) else FilterMap(s, f)
  {
    if s == [] || x.timestamp < s[0].timestamp {
      assert ([x] + s)[1..] == s;
      if f(x).Some? {
        LaterOnly(s, f, x.timestamp);
        InsertBefore(FilterMap(s, f), f(x).value);
      }
    } else {
      var rest := Insert(s[1..], x);
      assert ([s[0]] + rest)[1..] == rest;
      InsertSelected(s[1..], x, f);
      if f(x).Some? && f(s[0]).Some? {
        InsertBehind([f(s[0]).value], FilterMap(s[1..], f), f(x).value);
      }
    }
  }

  lemma {:induction false} ByTimeAscends<V>(s: seq<Record<V>>)
    ensures Ascends(ByTime(s))
  {
    if s != [] {
      ByTimeAscends(s[..|s| - 1]);
      InsertAscends(ByTime(s[..|s| - 1]), s[|s| - 1]);
    }
  }

  lemma {:induction false} ByTimeSnoc<V>(s: seq<Record<V>>, x: Record<V>)
    ensures ByTime(s + [x]) == Insert(ByTime(s), x)
  {
    assert (s + [x])[..|s|] == s;
  }

  /** Selecting and ordering commute. */
  lemma {:induction false} ByTimeSelected<V(!new), W>(s: seq<Record<V>>, f: Record<V> -> Option<Record<W>>)
    requires KeepsTime(f)
    ensures FilterMap(ByTime(s), f) == ByTime(FilterMap(s, f))
  {
    if s != [] {
      ByTimeSelected(s[..|s| - 1], f);
      SelectedSnoc(s[..|s| - 1], s[|s| - 1], f);
      InitAndLast(s);
    }
  }

  lemma {:induction false} SelectedSnoc<V(!new), W>(s: seq<Record<V>>, x: Record<V>, f: Record<V> -> Option<Record<W>>)
    requires KeepsTime(f) && FilterMap(ByTime(s), f) == ByTime(FilterMap(s, f))
    ensures FilterMap(ByTime(s + [x]), f) == ByTime(FilterMap(s + [x], f))
  {
    ByTimeAscends(s);
    ByTimeSnoc(s, x);
    InsertSelected(ByTime(s), x, f);
    FilterMapSnoc(s, x, f);
    if f(x).Some? {
      ByTimeSnoc(FilterMap(s, f), f(x).value);
    } else {
      assert FilterMap(s, f) + [] == FilterMap(s, f);
    }
  }

  /** Ordering is by time, and leaves the records of one time as they were. */
  lemma {:induction false} ByTimeIsStable<V(!new)>(s: seq<Record<V>>, t: Timestamp)
    ensures Ascends(ByTime(s)) && FilterMap(ByTime(s), AtTime(t)) == FilterMap(s, AtTime(t))
  {
    ByTimeAscends(s);
    ByTimeSelected(s, AtTime(t));
    OneTime(s, t);
  }

  lemma {:induction false} OneTime<V>(s: seq<Record<V>>, t: Timestamp)
    ensures ByTime(FilterMap(s, AtTime(t))) == FilterMap(s, AtTime(t))
    ensures forall y :: y in FilterMap(s, AtTime(t)) ==> y.timestamp == t
  {
    if s != [] {
      var front, x := s[..|s| - 1], s[|s| - 1];
      OneTime(front, t);
      var same := FilterMap(front, AtTime(t));
      FilterMapSnoc(front, x, AtTime(t));
      if x.timestamp == t {
        ByTimeSnoc(same, x);
        InsertBehind(same, [], x);
        assert same + [] == same;
      }
      InitAndLast(s);
    }
  }

  // ----- a buffer is its records in order of time -----

  lemma {:induction false} PushInserts<V>(k: Bytes, b: seq<Bucket<V>>, t: Timestamp, v: V)
    requires Sorted(b)
    ensures Flatten(k, Push(b, t, v)) == Insert(Flatten(k, b), Record(v, t, Some(k)))
  {
    var x := Record(v, t, Some(k));
    if b == [] || t < b[0].timestamp {
      assert InBucket(k, Bucket(t, [v])) == [x];
      assert ([Bucket(t, [v])] + b)[1..] == b;
      LaterThan(k, b, t);
      InsertBefore(Flatten(k, b), x);
    } else {
      var rest := Flatten(k, b[1..]);
      SortedTail(b);
      InsertBehind(InBucket(k, b[0]), rest, x);
      if t == b[0].timestamp {
        var grown := Bucket(t, b[0].values + [v]);
        assert InBucket(k, grown) == InBucket(k, b[0]) + [x];
        assert ([grown] + b[1..])[1..] == b[1..];
        LaterThan(k, b[1..], t);
        InsertBefore(rest, x);
        Regroup(InBucket(k, b[0]), [x], rest);
      } else {
        PushInserts(k, b[1..], t, v);
        assert ([b[0]] + Push(b[1..], t, v))[1..] == Push(b[1..], t, v);
      }
    }
  }

  lemma {:induction false} LaterThan<V>(k: Bytes, b: seq<Bucket<V>>, t: Timestamp)
    requires Above(b, t)
    ensures forall x :: x in Flatten(k, b) ==> t < x.timestamp
  {
    if b != [] {
      LaterThan(k, b[1..], t);
    }
  }

  function NotBefore<V>(c: Timestamp): Record<V> -> Option<Record<V>>
  {
    (x: Record<V>) => if c <= x.timestamp then Some(x) else None
  }

  lemma {:induction false} AllSelected<V>(s: seq<Record<V>>, c: Timestamp)
    requires forall x :: x in s ==> c <= x.timestamp
    ensures FilterMap(s, NotBefore(c)) == s
  {
    if s != [] {
      AllSelected(s[1..], c);
    }
  }

  lemma {:induction false} EvictSelects<V>(k: Bytes, b: seq<Bucket<V>>, c: Timestamp)
    requires Sorted(b)
    ensures Flatten(k, Evict(b, c)) == FilterMap(Flatten(k, b), NotBefore(c))
  {
    if b == [] {
    } else if c <= b[0].timestamp {
      FlattenedAbove(k, b, c);
      AllSelected(Flatten(k, b), c);
    } else {
      EvictSelects(k, b[1..], c);
      FilterMapAppend(InBucket(k, b[0]), Flatten(k, b[1..]), NotBefore(c));
      NoneFound(InBucket(k, b[0]), NotBefore(c));
    }
  }

  // ----- what is kept of one side -----

  /** Element i of one side, unless a watermark has evicted it. */
  ghost function KeptAt<V, W>(upper: Timestamp, xs: seq<StreamElement<W>>, pick: StreamElement<W> -> Option<Record<V>>)
    : nat -> seq<Record<V>>
  {
    (i: nat) => if i < |xs| && xs[i].Rec? && Kept(upper, xs, i) then AsSeq(pick(xs[i])) else []
  }

  ghost function Concat<T>(parts: nat -> seq<T>, n: nat): seq<T>
  {
    if n == 0 then [] else Concat(parts, n - 1) + parts(n - 1)
  }

  lemma {:induction false} ConcatFiltered<A, B>(parts: nat -> seq<A>, parts': nat -> seq<B>, f: A -> Option<B>, n: nat)
    requires forall i :: 0 <= i < n ==> parts'(i) == FilterMap(parts(i), f)
    ensures Concat(parts', n) == FilterMap(Concat(parts, n), f)
  {
    if n > 0 {
      ConcatFiltered(parts, parts', f, n - 1);
      FilterMapAppend(Concat(parts, n - 1), parts(n - 1), f);
    }
  }

  lemma {:induction false} ConcatSame<T>(parts: nat -> seq<T>, parts': nat -> seq<T>, n: nat)
    requires forall i :: 0 <= i < n ==> parts'(i) == parts(i)
    ensures Concat(parts', n) == Concat(parts, n)
  {
    if n > 0 {
      ConcatSame(parts, parts', n - 1);
    }
  }

  /** The records of one side that no watermark has evicted, in order of arrival. */
  ghost function KeptOf<V, W>(upper: Timestamp, xs: seq<StreamElement<W>>,
                              pick: StreamElement<W> -> Option<Record<V>>): seq<Record<V>>
  {
    Concat(KeptAt(upper, xs, pick), |xs|)
  }

  lemma {:induction false} KeptAtSnoc<V(!new), W(!new)>(upper: Timestamp, xs: seq<StreamElement<W>>,
            e: StreamElement<W>, pick: StreamElement<W> -> Option<Record<V>>, i: nat)
    requires i < |xs| && Picks(pick)
    ensures KeptAt(upper, xs + [e], pick)(i)
         == if e.Wm? then FilterMap(KeptAt(upper, xs, pick)(i), NotBefore(SatSub(e.timestamp, upper)))
            else KeptAt(upper, xs, pick)(i)
  {
    assert (xs + [e])[i] == xs[i];
    if xs[i].Rec? {
      KeptSnoc(upper, xs, e, i);
      if e.Wm? && pick(xs[i]).Some? {
        FilterOne(pick(xs[i]).value, NotBefore(SatSub(e.timestamp, upper)));
      }
    }
  }

  /** One more element on one side. */
  lemma {:induction false} KeptOfMore<V(!new), W(!new)>(upper: Timestamp, xs: seq<StreamElement<W>>,
            e: StreamElement<W>, pick: StreamElement<W> -> Option<Record<V>>)
    requires Picks(pick)
    ensures KeptOf(upper, xs + [e], pick)
         == if e.Wm? then FilterMap(KeptOf(upper, xs, pick), NotBefore(SatSub(e.timestamp, upper)))
            else KeptOf(upper, xs, pick) + AsSeq(pick(e))
  {
    var now, later := KeptAt(upper, xs, pick), KeptAt(upper, xs + [e], pick);
    forall i | 0 <= i < |xs|
      ensures later(i) == if e.Wm? then FilterMap(now(i), NotBefore(SatSub(e.timestamp, upper))) else now(i)
    {
      KeptAtSnoc(upper, xs, e, pick, i);
    }
    assert (xs + [e])[|xs|] == e;
    if e.Wm? {
      ConcatFiltered(now, later, NotBefore(SatSub(e.timestamp, upper)), |xs|);
    } else {
      ConcatSame(now, later, |xs|);
      assert e.Rec? ==> Kept(upper, xs + [e], |xs|);
    }
  }

  // ----- the stored side is what is kept of it -----

  /** The records of key k, as the buffers keep them. */
  function Under<V>(k: Bytes): Record<V> -> Option<Record<V>>
  {
    (x: Record<V>) => if Keyed(x, k) then Some(Record(x.value, x.timestamp, Some(k))) else None
  }

  ghost predicate Holds<V>(b: seq<Bucket<V>>, kept: seq<Record<V>>, k: Bytes)
  {
    Flatten(k, b) == FilterMap(ByTime(kept), Under(k))
  }

  lemma {:induction false} HoldsAfterPush<V(!new)>(b: seq<Bucket<V>>, kept: seq<Record<V>>, k: Bytes, x: Record<V>)
    requires Sorted(b) && Holds(b, kept, k)
    ensures Holds(if Keyed(x, k) then Push(b, x.timestamp, x.value) else b, kept + [x], k)
  {
    ByTimeSnoc(kept, x);
    ByTimeAscends(kept);
    InsertSelected(ByTime(kept), x, Under(k));
    if Keyed(x, k) {
      PushInserts(k, b, x.timestamp, x.value);
    }
  }

  lemma {:induction false} HoldsAfterEvict<V(!new)>(b: seq<Bucket<V>>, kept: seq<Record<V>>, k: Bytes, c: Timestamp)
    requires Sorted(b) && Holds(b, kept, k)
    ensures Holds(Evict(b, c), FilterMap(kept, NotBefore(c)), k)
  {
    EvictSelects(k, b, c);
    ByTimeSelected(kept, NotBefore(c));
    Swapped(ByTime(kept), k, c);
  }

  lemma {:induction false} Swapped<V>(s: seq<Record<V>>, k: Bytes, c: Timestamp)
    ensures FilterMap(FilterMap(s, Under(k)), NotBefore(c)) == FilterMap(FilterMap(s, NotBefore(c)), Under(k))
  {
    if s != [] {
      Swapped(s[1..], k, c);
      var x := s[0];
      if Keyed(x, k) && c <= x.timestamp {
        var y := Record(x.value, x.timestamp, Some(k));
        assert ([y] + FilterMap(s[1..], Under(k)))[1..] == FilterMap(s[1..], Under(k));
        assert ([x] + FilterMap(s[1..], NotBefore(c)))[1..] == FilterMap(s[1..], NotBefore(c));
      } else if Keyed(x, k) {
        var y := Record(x.value, x.timestamp, Some(k));
        assert ([y] + FilterMap(s[1..], Under(k)))[1..] == FilterMap(s[1..], Under(k));
      } else if c <= x.timestamp {
        assert ([x] + FilterMap(s[1..], NotBefore(c)))[1..] == FilterMap(s[1..], NotBefore(c));
      }
    }
  }

  lemma {:induction false} StoredIsKept<L(!new), R(!new), O>(cfg: Config<L, R, O>,
            xs: seq<StreamElement<Either<L, R>>>, k: Bytes)
    ensures var s := Stored(StateAfter(cfg, xs), k);
            && Holds(s.left, KeptOf(cfg.upper, xs, AsLeft), k)
            && Holds(s.right, KeptOf(cfg.upper, xs, AsRight), k)
  {
    if xs != [] {
      var before, e := xs[..|xs| - 1], xs[|xs| - 1];
      StoredIsKept(cfg, before, k);
      StaysSorted(cfg, before, k);
      KeptOfMore(cfg.upper, before, e, AsLeft);
      KeptOfMore(cfg.upper, before, e, AsRight);
      NextHoldsLeft(cfg, StateAfter(cfg, before), e, KeptOf(cfg.upper, before, AsLeft), k);
      NextHoldsRight(cfg, StateAfter(cfg, before), e, KeptOf(cfg.upper, before, AsRight), k);
      InitAndLast(xs);
    }
  }

  /** What is kept of a side after one more element. */
  ghost function KeptNext<V, W>(upper: Timestamp, kept: seq<Record<V>>, e: StreamElement<W>,
                                pick: StreamElement<W> -> Option<Record<V>>): seq<Record<V>>
  {
    if e.Wm? then FilterMap(kept, NotBefore(SatSub(e.timestamp, upper))) else kept + AsSeq(pick(e))
  }

  lemma {:induction false} NextHoldsLeft<L(!new), R(!new), O>(cfg: Config<L, R, O>, st: State<L, R>,
            e: StreamElement<Either<L, R>>, ls: seq<Record<L>>, k: Bytes)
    requires Sorted(Stored(st, k).left) && Holds(Stored(st, k).left, ls, k)
    ensures Holds(Stored(Next(cfg, st, e), k).left, KeptNext(cfg.upper, ls, e, AsLeft), k)
  {
    var b := Stored(st, k).left;
    if IsLeft(e) {
      HoldsAfterPush(b, ls, k, LeftOf(e.record));
    } else if e.Wm? {
      StoredAfterEviction(st, SatSub(e.timestamp, cfg.upper), k);
      HoldsAfterEvict(b, ls, k, SatSub(e.timestamp, cfg.upper));
    } else {
      assert ls + [] == ls && Stored(Next(cfg, st, e), k).left == b;
    }
  }

  lemma {:induction false} NextHoldsRight<L(!new), R(!new), O>(cfg: Config<L, R, O>, st: State<L, R>,
            e: StreamElement<Either<L, R>>, rs: seq<Record<R>>, k: Bytes)
    requires Sorted(Stored(st, k).right) && Holds(Stored(st, k).right, rs, k)
    ensures Holds(Stored(Next(cfg, st, e), k).right, KeptNext(cfg.upper, rs, e, AsRight), k)
  {
    var b := Stored(st, k).right;
    if IsRight(e) {
      HoldsAfterPush(b, rs, k, RightOf(e.record));
    } else if e.Wm? {
      StoredAfterEviction(st, SatSub(e.timestamp, cfg.upper), k);
      HoldsAfterEvict(b, rs, k, SatSub(e.timestamp, cfg.upper));
    } else {
      assert rs + [] == rs && Stored(Next(cfg, st, e), k).right == b;
    }
  }

  // ----- the whole output -----

  lemma {:induction false} Through<A, B, C>(s: seq<A>, f: A -> Option<B>, g: B -> Option<C>, h: A -> Option<C>)
    requires forall x :: x in s ==> h(x) == if f(x).Some? then g(f(x).value) else None
    ensures FilterMap(FilterMap(s, f), g) == FilterMap(s, h)
  {
    if s != [] {
      Through(s[1..], f, g, h);
      if f(s[0]).Some? {
        var rest := FilterMap(s[1..], f);
        assert ([f(s[0]).value] + rest)[1..] == rest;
      }
    }
  }

  /** What one element makes the join put out, told from the elements before it: a record
      is answered by the kept records of the other side in order of time, anything else
      goes through. */
  ghost function Reply<L, R, O>(cfg: Config<L, R, O>, seen: seq<StreamElement<Either<L, R>>>,
                                e: StreamElement<Either<L, R>>): seq<StreamElement<O>>
  {
    match e
    case Rec(Record(Left(v), t, k)) =>
      Elements(FilterMap(ByTime(KeptOf(cfg.upper, seen, AsRight)), ProbeRight(cfg, Record(v, t, k))))
    case Rec(Record(Right(v), t, k)) =>
      Elements(FilterMap(ByTime(KeptOf(cfg.upper, seen, AsLeft)), ProbeLeft(cfg, Record(v, t, k))))
    case Wm(t) => [Wm(t)]
    case Bar(b) => [Bar(b)]
  }

  ghost function Replies<L, R, O>(cfg: Config<L, R, O>, xs: seq<StreamElement<Either<L, R>>>): seq<StreamElement<O>>
  {
    if xs == [] then [] else Replies(cfg, xs[..|xs| - 1]) + Reply(cfg, xs[..|xs| - 1], xs[|xs| - 1])
  }

  lemma {:induction false} EmitsReply<L(!new), R(!new), O>(cfg: Config<L, R, O>,
            seen: seq<StreamElement<Either<L, R>>>, e: StreamElement<Either<L, R>>)
    ensures Emit(cfg, StateAfter(cfg, seen), e) == Reply(cfg, seen, e)
  {
    if IsLeft(e) {
      var l, k := LeftOf(e.record), KeyOf(e.record);
      StoredIsKept(cfg, seen, k);
      var kept := ByTime(KeptOf(cfg.upper, seen, AsRight));
      forall r | r in kept
        ensures ProbeRight(cfg, l)(r) == if Under(k)(r).Some? then ProbeRight(cfg, l)(Under(k)(r).value) else None
      {
        ProbesIgnoreKeyForm(cfg, l, r);
      }
      Through(kept, Under(k), ProbeRight(cfg, l), ProbeRight(cfg, l));
    } else if IsRight(e) {
      var r, k := RightOf(e.record), KeyOf(e.record);
      StoredIsKept(cfg, seen, k);
      var kept := ByTime(KeptOf(cfg.upper, seen, AsLeft));
      forall l | l in kept
        ensures ProbeLeft(cfg, r)(l) == if Under(k)(l).Some? then ProbeLeft(cfg, r)(Under(k)(l).value) else None
      {
        ProbesIgnoreKeyForm(cfg, l, r);
      }
      Through(kept, Under(k), ProbeLeft(cfg, r), ProbeLeft(cfg, r));
    }
  }

  /** The output as a sequence, for every stream. */
  lemma {:induction false} OutputInOrder<L(!new), R(!new), O>(cfg: Config<L, R, O>,
                                                              xs: seq<StreamElement<Either<L, R>>>)
    ensures Output(cfg, xs) == Replies(cfg, xs)
  {
    if xs != [] {
      OutputInOrder(cfg, xs[..|xs| - 1]);
      EmitsReply(cfg, xs[..|xs| - 1], xs[|xs| - 1]);
    }
  }
}
