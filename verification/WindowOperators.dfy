/** The window aggregation, join and cogroup operators over the keyed window state. */
module WindowOperators {
  import opened Streams
  import opened Windows
  import opened KeyedWindows

  /** Reusable key buffers kept at most. */
  const KEY_POOL_CAP: nat := 1024

  // ----- assigners as configurations use them -----

  /** The sliding windows of every timestamp whose latest window ends within the 64-bit range. */
  function SlidingAssigner(size: Timestamp, slide: Timestamp): Timestamp -> seq<Window>
    requires slide > 0
  {
    (t: Timestamp) => if EndFits(size, slide, t) then Sliding(size, slide, t) else []
  }

  /** The assigners meet what the operators rely on, and a record belongs to exactly
      the aligned windows that contain its timestamp. */
  lemma {:induction false} SlidingIsWellFormed<V, A>(cfg: Config<V, A>, size: Timestamp, slide: Timestamp)
    requires slide > 0 && cfg.assign == SlidingAssigner(size, slide)
    ensures WellFormed(cfg)
    ensures forall wk: WindowKey, r: Record<V> :: EndFits(size, slide, r.timestamp) ==>
              (Belongs(cfg, wk, r) <==> KeyOf(r) == wk.key && IsSliding(size, slide, r.timestamp, wk.window))
  {
    forall t: Timestamp
      ensures forall i :: 0 <= i < |cfg.assign(t)| ==> Contains(cfg.assign(t)[i], t)
      ensures forall i, j :: 0 <= i < j < |cfg.assign(t)| ==> cfg.assign(t)[i] != cfg.assign(t)[j]
      ensures EndFits(size, slide, t) ==> forall w :: w in cfg.assign(t) <==> IsSliding(size, slide, t, w)
    {
      if EndFits(size, slide, t) {
        SlidingIsExact(size, slide, t);
        forall i | 0 <= i < |cfg.assign(t)| ensures Contains(cfg.assign(t)[i], t) {
          assert cfg.assign(t)[i] in Sliding(size, slide, t);
        }
      }
    }
  }

  // ----- what the three operators share -----

  /** `order` lists the set, each member once: the hash map's iteration order. */
  ghost predicate Enumerates(order: seq<WindowKey>, s: set<WindowKey>)
  {
    && (forall i, j :: 0 <= i < j < |order| ==> order[i] != order[j])
    && (forall wk :: wk in order <==> wk in s)
  }

  lemma {:induction false} DueAreActive<A>(st: State<A>, watermark: Timestamp, order: seq<WindowKey>)
    requires Enumerates(order, Due(st, watermark))
    ensures forall i :: 0 <= i < |order| ==> order[i] in st
    ensures (set wk | wk in order) == Due(st, watermark)
  {
    forall i | 0 <= i < |order| ensures order[i] in st {
      assert order[i] in order;
    }
  }

  /** What a fired window hands out; a window without an entry hands out nothing. */
  function EmitAt<A, O>(emit: (WindowKey, A) -> seq<O>, st: State<A>, wk: WindowKey): seq<O>
  {
    if wk in st then emit(wk, st[wk]) else []
  }

  /** What the fired windows hand out, one after the other. */
  function EmittedAll<A, O>(emit: (WindowKey, A) -> seq<O>, st: State<A>, order: seq<WindowKey>): seq<O>
  {
    if order == [] then []
    else EmittedAll(emit, st, order[..|order| - 1]) + EmitAt(emit, st, order[|order| - 1])
  }

  /** Evaluate the trigger for every active window. */
  method CollectDue<A>(state: State<A>, watermark: Timestamp) returns (toFire: seq<WindowKey>, toPurge: seq<WindowKey>)
    ensures Enumerates(toFire, Due(state, watermark)) && toPurge == toFire
  {
    toFire, toPurge := [], [];
    var todo := state.Keys;
    while todo != {}
      invariant todo <= state.Keys && toPurge == toFire
      invariant Enumerates(toFire, Due(state, watermark) - todo)
      decreases todo
    {
      var wk :| wk in todo;
      match OnEventTime(watermark, wk.window) {
        case Fire => toFire := toFire + [wk];
        case Purge => toPurge := toPurge + [wk];
        case FireAndPurge =>
          toFire := toFire + [wk];
          toPurge := toPurge + [wk];
        case Continue =>
      }
      todo := todo - {wk};
    }
  }

  /** Remove the purged entries and return their key buffers to the pool. */
  method PurgeAll<A>(state: State<A>, toPurge: seq<WindowKey>, pool: seq<Bytes>) returns (state': State<A>,
                     pool': seq<Bytes>)
    ensures state' == state - (set wk | wk in toPurge)
    ensures |pool| <= 1024 ==> |pool'| <= 1024
  {
    state', pool' := state, pool;
    for i := 0 to |toPurge|
      invariant state' == state - (set wk | wk in toPurge[..i])
      invariant |pool| <= KEY_POOL_CAP ==> |pool'| <= KEY_POOL_CAP
    {
      if toPurge[i] in state' {
        state' := state' - {toPurge[i]};
        if |pool'| < KEY_POOL_CAP {
          pool' := pool' + [toPurge[i].key];
        }
      }
      assert toPurge[..i + 1] == toPurge[..i] + [toPurge[i]];
    }
    assert toPurge[..|toPurge|] == toPurge;
  }

  /** The buffer last put in the pool, cleared, or a fresh one. */
  method TakeBuffer(pool: seq<Bytes>) returns (buffer: Bytes, pool': seq<Bytes>)
    ensures buffer == []
    ensures pool' == if pool == [] then pool else pool[..|pool| - 1]
  {
    if pool == [] {
      return [], pool;
    }
    buffer, pool' := pool[|pool| - 1], pool[..|pool| - 1];
    while buffer != []
      decreases |buffer|
    {
      buffer := buffer[..|buffer| - 1];
    }
  }

  ghost predicate EndsPositive<A>(st: State<A>) { forall wk :: wk in st ==> wk.window.end > 0 }

  lemma {:induction false} AddAllEndsPositive<V, A>(cfg: Config<V, A>, st: State<A>, windows: seq<Window>, r: Record<V>)
    requires EndsPositive(st) && forall i :: 0 <= i < |windows| ==> windows[i].end > 0
    ensures EndsPositive(AddAll(cfg, st, windows, r))
  {
    if windows != [] {
      AddAllEndsPositive(cfg, st, windows[..|windows| - 1], r);
    }
  }

  /** The loop body shared by the record paths: fold the record into each window's entry. */
  method FileRecord<V, A>(cfg: Config<V, A>, state: State<A>, key: Bytes, record: Record<V>) returns (state': State<A>)
    requires WellFormed(cfg) && key == KeyOf(record) && EndsPositive(state)
    ensures state' == Next(cfg, state, Rec(record)) && EndsPositive(state')
  {
    var windows := cfg.assign(record.timestamp);
    state' := state;
    for i := 0 to |windows|
      invariant state' == AddAll(cfg, state, windows[..i], record)
    {
      var wk := WindowKey(key, windows[i]);
      var acc := if wk in state' then state'[wk] else cfg.create;
      state' := state'[wk := cfg.add(acc, record)];
      assert windows[..i + 1][..i] == windows[..i];
    }
    assert windows[..|windows|] == windows;
    assert forall i :: 0 <= i < |windows| ==> Contains(windows[i], record.timestamp);
    AddAllEndsPositive(cfg, state, windows, record);
  }

  // ----- window aggregation -----

  /** Incremental aggregation of values as a configuration. */
  function Aggregation<V, A>(assign: Timestamp -> seq<Window>, create: A, add: (A, V) -> A): Config<V, A>
  {
    Config(assign, create, (a: A, r: Record<V>) => add(a, r.value))
  }

  /** The timestamp results carry. */
  function LastInstant(wk: WindowKey): Timestamp { if wk.window.end > 0 then wk.window.end - 1 else 0 }

  /** What the window operator emits for a fired entry. */
  function Aggregated<A, O>(getResult: A -> O, wk: WindowKey, acc: A): Record<O>
  {
    Record(getResult(acc), LastInstant(wk), Some(wk.key))
  }

  function Aggregates<A, O>(getResult: A -> O): (WindowKey, A) -> seq<Record<O>>
  {
    (wk: WindowKey, acc: A) => [Aggregated(getResult, wk, acc)]
  }

  class WindowOperator<!V, !A, !O> {
    const cfg: Config<V, A>
    const getResult: A -> O
    var accumulators: State<A>
    var keyPool: seq<Bytes>

    ghost predicate Valid()
      reads this
    {
      WellFormed(cfg) && EndsPositive(accumulators) && |keyPool| <= KEY_POOL_CAP
    }

    constructor (assign: Timestamp -> seq<Window>, create: A, add: (A, V) -> A, getResult: A -> O)
      requires WellFormed(Aggregation(assign, create, add))
      ensures Valid() && accumulators == map[] && cfg == Aggregation(assign, create, add) && this.getResult == getResult
    {
      cfg := Aggregation(assign, create, add);
      this.getResult := getResult;
      accumulators, keyPool := map[], [];
    }

    method ProcessRecord(record: Record<V>)
      requires Valid()
      modifies this
      ensures Valid() && accumulators == Next(cfg, old(accumulators), Rec(record))
    {
      var key;
      if record.key.Some? {
        key := record.key.value;
      } else {
        key, keyPool := TakeBuffer(keyPool);
      }
      accumulators := FileRecord(cfg, accumulators, key, record);
    }

    /** Fires and purges the due entries, in some order, and forwards the watermark. */
    method ProcessWatermark(watermark: Timestamp) returns (emitted: seq<StreamElement<O>>, ghost order: seq<WindowKey>)
      requires Valid()
      modifies this
      ensures Valid() && accumulators == Next(cfg, old(accumulators), Wm(watermark))
      ensures Enumerates(order, Due(old(accumulators), watermark))
      ensures emitted == Elements(EmittedAll(Aggregates(getResult), old(accumulators), order)) + [Wm(watermark)]
    {
      var toFire, toPurge := CollectDue(accumulators, watermark);
      order := toFire;
      var records: seq<Record<O>> := [];
      DueAreActive(accumulators, watermark, toFire);
      for i := 0 to |toFire|
        invariant accumulators == old(accumulators) && keyPool == old(keyPool)
        invariant records == EmittedAll(Aggregates(getResult), accumulators, toFire[..i])
      {
        var wk := toFire[i];
        var result := getResult(accumulators[wk]);
        records := records + [Record(result, wk.window.end - 1, Some(wk.key))];
        assert toFire[..i + 1][..i] == toFire[..i];
      }
      assert toFire[..|toFire|] == toFire;
      accumulators, keyPool := PurgeAll(accumulators, toPurge, keyPool);
      emitted := Elements(records) + [Wm(watermark)];
    }
  }

  // ----- window join -----

  datatype Sides<+L, +R> = Sides(left: seq<(L, Timestamp)>, right: seq<(R, Timestamp)>)

  function AddSide<L, R>(s: Sides<L, R>, r: Record<Either<L, R>>): Sides<L, R>
  {
    match r.value
    case Left(v) => s.(left := s.left + [(v, r.timestamp)])
    case Right(v) => s.(right := s.right + [(v, r.timestamp)])
  }

  function Joining<L, R>(assign: Timestamp -> seq<Window>): Config<Either<L, R>, Sides<L, R>>
  {
    Config(assign, Sides([], []), AddSide)
  }

  function Pair<L, R, O>(join: (L, R) -> O, key: Bytes, l: (L, Timestamp), r: (R, Timestamp)): Record<O>
  {
    Record(join(l.0, r.0), Max(l.1, r.1), Some(key))
  }

  function Row<L, R, O>(join: (L, R) -> O, key: Bytes, l: (L, Timestamp), right: seq<(R, Timestamp)>): seq<Record<O>>
  {
    seq(|right|, j requires 0 <= j < |right| => Pair(join, key, l, right[j]))
  }

  /** Every left with every right, left by left. */
  function Cross<L, R, O>(join: (L, R) -> O, key: Bytes, s: Sides<L, R>): seq<Record<O>>
    decreases |s.left|
  {
    if s.left == [] then []
    else Cross(join, key, s.(left := s.left[..|s.left| - 1])) + Row(join, key, s.left[|s.left| - 1], s.right)
  }

  function Crosses<L, R, O>(join: (L, R) -> O): (WindowKey, Sides<L, R>) -> seq<Record<O>>
  {
    (wk: WindowKey, s: Sides<L, R>) => Cross(join, wk.key, s)
  }

  class WindowJoinOperator<!L, !R, !O> {
    const cfg: Config<Either<L, R>, Sides<L, R>>
    const join: (L, R) -> O
    var state: State<Sides<L, R>>
    var keyPool: seq<Bytes>

    ghost predicate Valid()
      reads this
    {
      WellFormed(cfg) && EndsPositive(state) && |keyPool| <= KEY_POOL_CAP
    }

    constructor (assign: Timestamp -> seq<Window>, join: (L, R) -> O)
      requires WellFormed(Joining<L, R>(assign))
      ensures Valid() && state == map[] && cfg == Joining(assign) && this.join == join
    {
      cfg := Joining(assign);
      this.join := join;
      state, keyPool := map[], [];
    }

    method ProcessRecord(record: Record<Either<L, R>>)
      requires Valid()
      modifies this
      ensures Valid() && state == Next(cfg, old(state), Rec(record))
    {
      var key;
      if record.key.Some? {
        key := record.key.value;
      } else {
        key, keyPool := TakeBuffer(keyPool);
      }
      state := FileRecord(cfg, state, key, record);
    }

    method ProcessWatermark(watermark: Timestamp) returns (emitted: seq<StreamElement<O>>, ghost order: seq<WindowKey>)
      requires Valid()
      modifies this
      ensures Valid() && state == Next(cfg, old(state), Wm(watermark))
      ensures Enumerates(order, Due(old(state), watermark))
      ensures emitted == Elements(EmittedAll(Crosses(join), old(state), order)) + [Wm(watermark)]
    {
      var toFire, toPurge := CollectDue(state, watermark);
      order := toFire;
      var records: seq<Record<O>> := [];
      DueAreActive(state, watermark, toFire);
      for i := 0 to |toFire|
        invariant state == old(state) && keyPool == old(keyPool)
        invariant records == EmittedAll(Crosses(join), state, toFire[..i])
      {
        var wk := toFire[i];
        var crossed := EmitCross(wk.key, state[wk]);
        records := records + crossed;
        assert toFire[..i + 1][..i] == toFire[..i];
      }
      assert toFire[..|toFire|] == toFire;
      state, keyPool := PurgeAll(state, toPurge, keyPool);
      emitted := Elements(records) + [Wm(watermark)];
    }

    method EmitCross(key: Bytes, s: Sides<L, R>) returns (records: seq<Record<O>>)
      ensures records == Cross(join, key, s)
    {
      records := [];
      for i := 0 to |s.left|
        invariant records == Cross(join, key, s.(left := s.left[..i]))
      {
        ghost var before := records;
        for j := 0 to |s.right|
          invariant records == before + Row(join, key, s.left[i], s.right)[..j]
        {
          var output := join(s.left[i].0, s.right[j].0);
          records := records + [Record(output, Max(s.left[i].1, s.right[j].1), Some(key))];
        }
        assert s.left[..i + 1][..i] == s.left[..i];
      }
      assert s.left[..|s.left|] == s.left;
    }
  }

  function TimedLeft<L, R>(r: Record<Either<L, R>>): Option<(L, Timestamp)>
  {
    if r.value.Left? then Some((r.value.left, r.timestamp)) else None
  }

  function TimedRight<L, R>(r: Record<Either<L, R>>): Option<(R, Timestamp)>
  {
    if r.value.Right? then Some((r.value.right, r.timestamp)) else None
  }

  /** The accumulated sides are the group's left and right records in arrival order;
      with `FiredIsBatch`, a fired entry emits exactly their cross product. */
  lemma {:induction false} FoldIsSides<L, R>(assign: Timestamp -> seq<Window>, rs: seq<Record<Either<L, R>>>)
    ensures Fold(Joining(assign), rs) == Sides(FilterMap(rs, TimedLeft), FilterMap(rs, TimedRight))
  {
    if rs != [] {
      var m := |rs| - 1;
      FoldIsSides(assign, rs[..m]);
      assert rs == rs[..m] + [rs[m]];
      FilterMapSnoc(rs[..m], rs[m], TimedLeft);
      FilterMapSnoc(rs[..m], rs[m], TimedRight);
    }
  }

  /** The cross product holds every pair, by position, and nothing else. */
  lemma {:induction false} CrossAt<L, R, O>(join: (L, R) -> O, key: Bytes, s: Sides<L, R>, i: nat, j: nat)
    requires i < |s.left| && j < |s.right|
    ensures |Cross(join, key, s)| == |s.left| * |s.right|
    ensures i * |s.right| + j < |Cross(join, key, s)|
         && Cross(join, key, s)[i * |s.right| + j] == Pair(join, key, s.left[i], s.right[j])
    decreases |s.left|
  {
    var m, n := |s.left| - 1, |s.right|;
    var front := s.(left := s.left[..m]);
    assert (m + 1) * n == m * n + n;
    if i < m {
      CrossAt(join, key, front, i, j);
    } else if m > 0 {
      CrossAt(join, key, front, 0, 0);
    }
  }

  // ----- window cogroup -----

  datatype Groups<+L, +R> = Groups(left: seq<L>, right: seq<R>)

  function AddGroup<L, R>(g: Groups<L, R>, r: Record<Either<L, R>>): Groups<L, R>
  {
    match r.value
    case Left(v) => g.(left := g.left + [v])
    case Right(v) => g.(right := g.right + [v])
  }

  function Cogrouping<L, R>(assign: Timestamp -> seq<Window>): Config<Either<L, R>, Groups<L, R>>
  {
    Config(assign, Groups([], []), AddGroup)
  }

  function Stamped<O>(values: seq<O>, wk: WindowKey): seq<Record<O>>
  {
    seq(|values|, i requires 0 <= i < |values| => Record(values[i], LastInstant(wk), Some(wk.key)))
  }

  function Cogroups<L, R, O>(cogroup: (Bytes, seq<L>, seq<R>) -> seq<O>): (WindowKey, Groups<L, R>) -> seq<Record<O>>
  {
    (wk: WindowKey, g: Groups<L, R>) => Stamped(cogroup(wk.key, g.left, g.right), wk)
  }

  class WindowCogroupOperator<!L, !R, !O> {
    const cfg: Config<Either<L, R>, Groups<L, R>>
    const cogroup: (Bytes, seq<L>, seq<R>) -> seq<O>
    var state: State<Groups<L, R>>
    var keyPool: seq<Bytes>

    ghost predicate Valid()
      reads this
    {
      WellFormed(cfg) && EndsPositive(state) && |keyPool| <= KEY_POOL_CAP
    }

    constructor (assign: Timestamp -> seq<Window>, cogroup: (Bytes, seq<L>, seq<R>) -> seq<O>)
      requires WellFormed(Cogrouping<L, R>(assign))
      ensures Valid() && state == map[] && cfg == Cogrouping(assign) && this.cogroup == cogroup
    {
      cfg := Cogrouping(assign);
      this.cogroup := cogroup;
      state, keyPool := map[], [];
    }

    method ProcessRecord(record: Record<Either<L, R>>)
      requires Valid()
      modifies this
      ensures Valid() && state == Next(cfg, old(state), Rec(record))
    {
      var key;
      if record.key.Some? {
        key := record.key.value;
      } else {
        key, keyPool := TakeBuffer(keyPool);
      }
      state := FileRecord(cfg, state, key, record);
    }

    method ProcessWatermark(watermark: Timestamp) returns (emitted: seq<StreamElement<O>>, ghost order: seq<WindowKey>)
      requires Valid()
      modifies this
      ensures Valid() && state == Next(cfg, old(state), Wm(watermark))
      ensures Enumerates(order, Due(old(state), watermark))
      ensures emitted == Elements(EmittedAll(Cogroups(cogroup), old(state), order)) + [Wm(watermark)]
    {
      var toFire, toPurge := CollectDue(state, watermark);
      order := toFire;
      var records: seq<Record<O>> := [];
      DueAreActive(state, watermark, toFire);
      for i := 0 to |toFire|
        invariant state == old(state) && keyPool == old(keyPool)
        invariant records == EmittedAll(Cogroups(cogroup), state, toFire[..i])
      {
        var wk := toFire[i];
        assert wk in state && LastInstant(wk) == wk.window.end - 1;
        var results := cogroup(wk.key, state[wk].left, state[wk].right);
        ghost var before := records;
        for j := 0 to |results|
          invariant records == before + Stamped(results, wk)[..j]
        {
          records := records + [Record(results[j], wk.window.end - 1, Some(wk.key))];
          assert Stamped(results, wk)[..j + 1] == Stamped(results, wk)[..j] + [Stamped(results, wk)[j]];
        }
        assert toFire[..i + 1][..i] == toFire[..i];
      }
      assert toFire[..|toFire|] == toFire;
      state, keyPool := PurgeAll(state, toPurge, keyPool);
      emitted := Elements(records) + [Wm(watermark)];
    }
  }

  // ----- join and cogroup agree -----

  function First<T>(p: (T, Timestamp)): Option<T> { Some(p.0) }

  function ValueOf<O>(r: Record<O>): Option<O> { Some(r.value) }

  /** The cogroup holds the join's values without their timestamps. */
  ghost predicate Matches<L, R>(s: Sides<L, R>, g: Groups<L, R>)
  {
    FilterMap(s.left, First) == g.left && FilterMap(s.right, First) == g.right
  }

  ghost predicate StatesMatch<L, R>(js: State<Sides<L, R>>, cs: State<Groups<L, R>>)
  {
    js.Keys == cs.Keys && forall wk :: wk in js ==> Matches(js[wk], cs[wk])
  }

  lemma {:induction false} AddMatches<L, R>(s: Sides<L, R>, g: Groups<L, R>, r: Record<Either<L, R>>)
    requires Matches(s, g)
    ensures Matches(AddSide(s, r), AddGroup(g, r))
  {
    match r.value
    case Left(v) => FilterMapSnoc(s.left, (v, r.timestamp), First);
    case Right(v) => FilterMapSnoc(s.right, (v, r.timestamp), First);
  }

  lemma {:induction false} AddAllMatches<L, R>(assign: Timestamp -> seq<Window>, js: State<Sides<L, R>>,
                                               cs: State<Groups<L, R>>,
                                               windows: seq<Window>, r: Record<Either<L, R>>)
    requires StatesMatch(js, cs)
    ensures StatesMatch(AddAll(Joining(assign), js, windows, r), AddAll(Cogrouping(assign), cs, windows, r))
  {
    if windows != [] {
      var front := windows[..|windows| - 1];
      AddAllMatches(assign, js, cs, front, r);
      var js', cs' := AddAll(Joining(assign), js, front, r), AddAll(Cogrouping(assign), cs, front, r);
      var wk := WindowKey(KeyOf(r), windows[|windows| - 1]);
      AddMatches(if wk in js' then js'[wk] else Sides([], []), if wk in cs' then cs'[wk] else Groups([], []), r);
    }
  }

  /** On any stream the two operators keep matching states, so the same windows are due in both. */
  lemma {:induction false} JoinMatchesCogroup<L, R>(assign: Timestamp -> seq<Window>,
            xs: seq<StreamElement<Either<L, R>>>)
    ensures StatesMatch(StateAfter(Joining(assign), xs), StateAfter(Cogrouping(assign), xs))
  {
    if xs != [] {
      var before, e := xs[..|xs| - 1], xs[|xs| - 1];
      JoinMatchesCogroup(assign, before);
      if e.Rec? {
        AddAllMatches(assign, StateAfter(Joining(assign), before), StateAfter(Cogrouping(assign), before),
                      assign(e.record.timestamp), e.record);
      }
    }
  }

  function RowValues<L, R, O>(join: (L, R) -> O, l: L, right: seq<R>): seq<O>
  {
    seq(|right|, j requires 0 <= j < |right| => join(l, right[j]))
  }

  /** The cross-product cogroup function. */
  function CrossValues<L, R, O>(join: (L, R) -> O, left: seq<L>, right: seq<R>): seq<O>
  {
    if left == [] then [] else CrossValues(join, left[..|left| - 1], right) + RowValues(join, left[|left| - 1], right)
  }

  lemma {:induction false} FirstsAt<T>(xs: seq<(T, Timestamp)>)
    ensures |FilterMap(xs, First)| == |xs| && forall i :: 0 <= i < |xs| ==> FilterMap(xs, First)[i] == xs[i].0
  {
    if xs != [] {
      FirstsAt(xs[1..]);
    }
  }

  lemma {:induction false} ValuesAt<O>(xs: seq<Record<O>>)
    ensures |FilterMap(xs, ValueOf)| == |xs| && forall i :: 0 <= i < |xs| ==> FilterMap(xs, ValueOf)[i] == xs[i].value
  {
    if xs != [] {
      ValuesAt(xs[1..]);
    }
  }

  /** A fired join emits, value for value and in the same order, what a cogroup
      with the cross-product function emits for the same entry. */
  lemma {:induction false} JoinValuesAreCogroupValues<L, R, O>(join: (L, R) -> O, key: Bytes, s: Sides<L, R>,
            g: Groups<L, R>)
    requires Matches(s, g)
    ensures FilterMap(Cross(join, key, s), ValueOf) == CrossValues(join, g.left, g.right)
    decreases |s.left|
  {
    FirstsAt(s.left);
    FirstsAt(s.right);
    if s.left != [] {
      var m := |s.left| - 1;
      var s' := s.(left := s.left[..m]);
      var g' := g.(left := g.left[..m]);
      FirstsAt(s'.left);
      assert FilterMap(s'.left, First) == g'.left;
      JoinValuesAreCogroupValues(join, key, s', g');
      var row := Row(join, key, s.left[m], s.right);
      FilterMapAppend(Cross(join, key, s'), row, ValueOf);
      ValuesAt(row);
      assert FilterMap(row, ValueOf) == RowValues(join, g.left[m], g.right);
    }
  }
}
