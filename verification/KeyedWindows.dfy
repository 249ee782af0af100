/** State per (key, window) that records build up and watermarks fire and purge:
    the common core of window aggregation, window join and window cogroup. */
module KeyedWindows {
  import opened Streams
  import opened Windows

  datatype WindowKey = WindowKey(key: Bytes, window: Window)

  /** How records are assigned to windows and folded into accumulators. */
  datatype Config<!V, !A> = Config(assign: Timestamp -> seq<Window>, create: A, add: (A, Record<V>) -> A)

  /** What the assigners guarantee: distinct windows that contain the timestamp. */
  ghost predicate WellFormed<V, A>(cfg: Config<V, A>)
  {
    forall t: Timestamp ::
      && (forall i :: 0 <= i < |cfg.assign(t)| ==> Contains(cfg.assign(t)[i], t))
      && (forall i, j :: 0 <= i < j < |cfg.assign(t)| ==> cfg.assign(t)[i] != cfg.assign(t)[j])
  }

  type State<A> = map<WindowKey, A>

  function AddTo<V, A>(cfg: Config<V, A>, st: State<A>, wk: WindowKey, r: Record<V>): State<A>
  {
    st[wk := cfg.add(if wk in st then st[wk] else cfg.create, r)]
  }

  /** Fold the record into each of the windows. */
  function AddAll<V, A>(cfg: Config<V, A>, st: State<A>, windows: seq<Window>, r: Record<V>): State<A>
  {
    if windows == [] then st
    else AddTo(cfg, AddAll(cfg, st, windows[..|windows| - 1], r), WindowKey(KeyOf(r), windows[|windows| - 1]), r)
  }

  /** The entries a watermark fires, which are those it purges. */
  function Due<A>(st: State<A>, watermark: Timestamp): set<WindowKey>
  {
    set wk | wk in st && OnEventTime(watermark, wk.window).FireAndPurge?
  }

  function Next<V, A>(cfg: Config<V, A>, st: State<A>, e: StreamElement<V>): State<A>
  {
    match e
    case Rec(r) => AddAll(cfg, st, cfg.assign(r.timestamp), r)
    case Wm(t) => st - Due(st, t)
    case Bar(_) => st
  }

  /** The entries fired by an element, with their accumulators. */
  ghost function Fired<V, A(!new)>(st: State<A>, e: StreamElement<V>): set<(WindowKey, A)>
  {
    if e.Wm? then set wk | wk in Due(st, e.timestamp) :: (wk, st[wk]) else {}
  }

  function StateAfter<V, A>(cfg: Config<V, A>, xs: seq<StreamElement<V>>): State<A>
  {
    if xs == [] then map[] else Next(cfg, StateAfter(cfg, xs[..|xs| - 1]), xs[|xs| - 1])
  }

  /** Everything fired over a stream, with multiplicity. */
  ghost function AllFired<V, A(!new)>(cfg: Config<V, A>, xs: seq<StreamElement<V>>): multiset<(WindowKey, A)>
  {
    if xs == [] then multiset{}
    else AllFired(cfg, xs[..|xs| - 1]) + multiset(Fired(StateAfter(cfg, xs[..|xs| - 1]), xs[|xs| - 1]))
  }

  // ----- the batch group-by -----

  /** The record belongs to this key and window. */
  predicate Belongs<V, A>(cfg: Config<V, A>, wk: WindowKey, r: Record<V>)
  {
    Keyed(r, wk.key) && wk.window in cfg.assign(r.timestamp)
  }

  function Selects<V, A>(cfg: Config<V, A>, wk: WindowKey): StreamElement<V> -> Option<Record<V>>
  {
    (e: StreamElement<V>) => if e.Rec? && Belongs(cfg, wk, e.record) then Some(e.record) else None
  }

  /** A key and window's records, in arrival order. */
  function Group<V, A>(cfg: Config<V, A>, xs: seq<StreamElement<V>>, wk: WindowKey): seq<Record<V>>
  {
    FilterMap(xs, Selects(cfg, wk))
  }

  function Fold<V, A>(cfg: Config<V, A>, rs: seq<Record<V>>): A
  {
    if rs == [] then cfg.create else cfg.add(Fold(cfg, rs[..|rs| - 1]), rs[|rs| - 1])
  }

  lemma {:induction false} GroupSnoc<V, A>(cfg: Config<V, A>, xs: seq<StreamElement<V>>, e: StreamElement<V>,
                                           wk: WindowKey)
    ensures Group(cfg, xs + [e], wk)
         == if e.Rec? && Belongs(cfg, wk, e.record) then Group(cfg, xs, wk) + [e.record] else Group(cfg, xs, wk)
  {
    FilterMapSnoc(xs, e, Selects(cfg, wk));
    assert Group(cfg, xs, wk) + [] == Group(cfg, xs, wk);
  }

  lemma {:induction false} FoldSnoc<V, A>(cfg: Config<V, A>, rs: seq<Record<V>>, r: Record<V>)
    ensures Fold(cfg, rs + [r]) == cfg.add(Fold(cfg, rs), r)
  {
    assert (rs + [r])[..|rs|] == rs;
  }

  /** Some watermark has reached t. */
  ghost predicate Reached<V>(xs: seq<StreamElement<V>>, t: Timestamp)
  {
    exists i :: 0 <= i < |xs| && xs[i].Wm? && xs[i].timestamp >= t
  }

  // ----- one step -----

  lemma {:induction false} AddAllAt<V, A>(cfg: Config<V, A>, st: State<A>, windows: seq<Window>, r: Record<V>,
                                          wk: WindowKey)
    requires forall i, j :: 0 <= i < j < |windows| ==> windows[i] != windows[j]
    ensures var st' := AddAll(cfg, st, windows, r);
            if wk.key == KeyOf(r) && wk.window in windows then
              wk in st' && st'[wk] == cfg.add(if wk in st then st[wk] else cfg.create, r)
            else (wk in st' <==> wk in st) && (wk in st ==> st'[wk] == st[wk])
  {
    if windows != [] {
      var front, last := windows[..|windows| - 1], windows[|windows| - 1];
      AddAllAt(cfg, st, front, r, wk);
      assert windows == front + [last];
      assert wk.window in windows <==> wk.window in front || wk.window == last;
      assert last !in front;
    }
  }

  lemma {:induction false} ReachedSnoc<V>(xs: seq<StreamElement<V>>, e: StreamElement<V>, t: Timestamp)
    ensures Reached(xs + [e], t) <==> Reached(xs, t) || (e.Wm? && e.timestamp >= t)
  {
    var all := xs + [e];
    if Reached(xs, t) {
      var i :| 0 <= i < |xs| && xs[i].Wm? && xs[i].timestamp >= t;
      assert all[i] == xs[i];
    }
    if e.Wm? && e.timestamp >= t {
      assert all[|xs|] == e;
    }
    if Reached(all, t) {
      var i :| 0 <= i < |all| && all[i].Wm? && all[i].timestamp >= t;
      if i < |xs| {
        assert all[i] == xs[i];
      }
    }
  }

  /** On an on-time stream no record joins a window that some watermark has reached. */
  lemma {:induction false} NoneAfterReached<V, A>(cfg: Config<V, A>, xs: seq<StreamElement<V>>, e: StreamElement<V>,
                                                  wk: WindowKey)
    requires WellFormed(cfg) && KeepsPromise(xs + [e]) && e.Rec? && Belongs(cfg, wk, e.record)
    ensures !Reached(xs, wk.window.end)
  {
    var all := xs + [e];
    assert all[|xs|] == e;
    var windows := cfg.assign(e.record.timestamp);
    var i :| 0 <= i < |windows| && windows[i] == wk.window;
    assert Contains(windows[i], e.record.timestamp);
    forall j | 0 <= j < |xs| && xs[j].Wm? ensures xs[j].timestamp < wk.window.end {
      assert all[j] == xs[j];
    }
  }

  /** What the state holds for a key and window after an on-time stream. */
  ghost predicate HoldsGroup<V, A>(cfg: Config<V, A>, st: State<A>, xs: seq<StreamElement<V>>, wk: WindowKey)
  {
    var rs := Group(cfg, xs, wk);
    && (wk in st <==> rs != [] && !Reached(xs, wk.window.end))
    && (wk in st ==> st[wk] == Fold(cfg, rs))
  }

  lemma {:induction false} HoldsGroupSnoc<V, A>(cfg: Config<V, A>, xs: seq<StreamElement<V>>, e: StreamElement<V>,
                                                wk: WindowKey)
    requires WellFormed(cfg) && KeepsPromise(xs + [e])
    requires HoldsGroup(cfg, StateAfter(cfg, xs), xs, wk)
    ensures HoldsGroup(cfg, Next(cfg, StateAfter(cfg, xs), e), xs + [e], wk)
  {
    GroupSnoc(cfg, xs, e, wk);
    ReachedSnoc(xs, e, wk.window.end);
    if e.Rec? {
      AddAllAt(cfg, StateAfter(cfg, xs), cfg.assign(e.record.timestamp), e.record, wk);
      if Belongs(cfg, wk, e.record) {
        NoneAfterReached(cfg, xs, e, wk);
        FoldSnoc(cfg, Group(cfg, xs, wk), e.record);
      }
    }
  }

  /** The state of an on-time stream: a key and window is present exactly while it
      has records and no watermark has reached its end, and holds the fold, in
      arrival order, of precisely its records. */
  lemma {:induction false} StateIsGroups<V, A>(cfg: Config<V, A>, xs: seq<StreamElement<V>>, wk: WindowKey)
    requires WellFormed(cfg) && KeepsPromise(xs)
    ensures HoldsGroup(cfg, StateAfter(cfg, xs), xs, wk)
  {
    if xs != [] {
      var before, e := xs[..|xs| - 1], xs[|xs| - 1];
      InitAndLast(xs);
      PromiseOfPrefix(before, e);
      StateIsGroups(cfg, before, wk);
      HoldsGroupSnoc(cfg, before, e, wk);
    }
  }

  lemma {:induction false} PromiseOfPrefix<V>(xs: seq<StreamElement<V>>, e: StreamElement<V>)
    requires KeepsPromise(xs + [e])
    ensures KeepsPromise(xs)
  {
    var all := xs + [e];
    forall i, j | 0 <= i < j < |xs| && xs[i].Wm? && xs[j].Rec? ensures xs[i].timestamp < xs[j].record.timestamp {
      assert all[i] == xs[i] && all[j] == xs[j];
    }
  }

  // ----- whole runs -----

  /** A group is complete once its window has been reached: later records never join it. */
  lemma {:induction false} GroupIsComplete<V, A>(cfg: Config<V, A>, xs: seq<StreamElement<V>>, e: StreamElement<V>,
                                                 wk: WindowKey)
    requires WellFormed(cfg) && KeepsPromise(xs + [e]) && Reached(xs, wk.window.end)
    ensures Group(cfg, xs + [e], wk) == Group(cfg, xs, wk)
  {
    GroupSnoc(cfg, xs, e, wk);
    if e.Rec? && Belongs(cfg, wk, e.record) {
      NoneAfterReached(cfg, xs, e, wk);
    }
  }

  /** How often (wk, a) is due by the batch definition. */
  ghost function Expected<V, A(!new)>(cfg: Config<V, A>, xs: seq<StreamElement<V>>, wk: WindowKey, a: A): nat
  {
    var rs := Group(cfg, xs, wk);
    if rs != [] && Reached(xs, wk.window.end) && a == Fold(cfg, rs) then 1 else 0
  }

  lemma {:induction false} FiredSnoc<V, A(!new)>(cfg: Config<V, A>, xs: seq<StreamElement<V>>, e: StreamElement<V>,
                                          wk: WindowKey, a: A)
    requires WellFormed(cfg) && KeepsPromise(xs + [e])
    ensures Expected(cfg, xs + [e], wk, a)
         == Expected(cfg, xs, wk, a) + multiset(Fired(StateAfter(cfg, xs), e))[(wk, a)]
  {
    var st := StateAfter(cfg, xs);
    PromiseOfPrefix(xs, e);
    StateIsGroups(cfg, xs, wk);
    ReachedSnoc(xs, e, wk.window.end);
    GroupSnoc(cfg, xs, e, wk);
    if Reached(xs, wk.window.end) {
      GroupIsComplete(cfg, xs, e, wk);
      assert (wk, a) !in Fired(st, e);
    } else if e.Wm? && e.timestamp >= wk.window.end {
      assert (wk, a) in Fired(st, e) <==> wk in st && a == st[wk] by {
        if wk in st {
          assert wk in Due(st, e.timestamp);
        }
      }
    } else {
      assert (wk, a) !in Fired(st, e);
    }
  }

  /** The main result: over an on-time stream each key and window fires exactly once
      if it has records and some watermark reaches its end, and never otherwise; it
      fires with the fold, in arrival order, of exactly its records. */
  lemma {:induction false} FiredIsBatch<V, A(!new)>(cfg: Config<V, A>, xs: seq<StreamElement<V>>, wk: WindowKey, a: A)
    requires WellFormed(cfg) && KeepsPromise(xs)
    ensures AllFired(cfg, xs)[(wk, a)] == Expected(cfg, xs, wk, a)
  {
    if xs != [] {
      var before, e := xs[..|xs| - 1], xs[|xs| - 1];
      InitAndLast(xs);
      PromiseOfPrefix(before, e);
      FiredIsBatch(cfg, before, wk, a);
      FiredSnoc(cfg, before, e, wk, a);
    }
  }

  /** A window fires at the first watermark that reaches its end, not later and not earlier. */
  lemma {:induction false} FiresWhenReached<V, A(!new)>(cfg: Config<V, A>, xs: seq<StreamElement<V>>, t: Timestamp,
                                                 wk: WindowKey)
    requires WellFormed(cfg) && KeepsPromise(xs)
    ensures wk in Due(StateAfter(cfg, xs), t) <==>
              Group(cfg, xs, wk) != [] && !Reached(xs, wk.window.end) && t >= wk.window.end
  {
    StateIsGroups(cfg, xs, wk);
  }

  // ----- any stream, late records included -----

  /** What follows the last watermark that reached t. */
  function Since<V>(xs: seq<StreamElement<V>>, t: Timestamp): seq<StreamElement<V>>
  {
    if xs == [] then []
    else
      var e := xs[|xs| - 1];
      if e.Wm? && e.timestamp >= t then [] else Since(xs[..|xs| - 1], t) + [e]
  }

  lemma {:induction false} SinceSnoc<V>(xs: seq<StreamElement<V>>, e: StreamElement<V>, t: Timestamp)
    ensures Since(xs + [e], t) == if e.Wm? && e.timestamp >= t then [] else Since(xs, t) + [e]
  {
    assert (xs + [e])[..|xs|] == xs;
  }

  /** The state holds for a key and window the fold of the records since its end was last reached. */
  ghost predicate HoldsRecent<V, A>(cfg: Config<V, A>, st: State<A>, xs: seq<StreamElement<V>>, wk: WindowKey)
  {
    var rs := Group(cfg, Since(xs, wk.window.end), wk);
    && (wk in st <==> rs != [])
    && (wk in st ==> st[wk] == Fold(cfg, rs))
  }

  lemma {:induction false} HoldsRecentSnoc<V, A>(cfg: Config<V, A>, xs: seq<StreamElement<V>>, e: StreamElement<V>,
                                                 wk: WindowKey)
    requires WellFormed(cfg) && HoldsRecent(cfg, StateAfter(cfg, xs), xs, wk)
    ensures HoldsRecent(cfg, StateAfter(cfg, xs + [e]), xs + [e], wk)
  {
    var recent := Since(xs, wk.window.end);
    assert (xs + [e])[..|xs|] == xs;
    SinceSnoc(xs, e, wk.window.end);
    GroupSnoc(cfg, recent, e, wk);
    if e.Rec? {
      AddAllAt(cfg, StateAfter(cfg, xs), cfg.assign(e.record.timestamp), e.record, wk);
      FoldSnoc(cfg, Group(cfg, recent, wk), e.record);
    }
  }

  /** On any stream, late records included, an entry is present exactly when records
      of its group have arrived since a watermark last reached its end, and holds the
      fold of those; in particular a watermark leaves no entry that it reaches. */
  lemma {:induction false} StateIsRecent<V, A>(cfg: Config<V, A>, xs: seq<StreamElement<V>>, wk: WindowKey)
    requires WellFormed(cfg)
    ensures HoldsRecent(cfg, StateAfter(cfg, xs), xs, wk)
  {
    if xs != [] {
      StateIsRecent(cfg, xs[..|xs| - 1], wk);
      HoldsRecentSnoc(cfg, xs[..|xs| - 1], xs[|xs| - 1], wk);
      InitAndLast(xs);
    }
  }

  /** After a watermark nothing it reaches is left, and everything else is as before. */
  lemma {:induction false} PurgeIsComplete<V, A>(cfg: Config<V, A>, xs: seq<StreamElement<V>>, t: Timestamp,
                                                 wk: WindowKey)
    requires WellFormed(cfg)
    ensures wk in StateAfter(cfg, xs + [Wm(t)]) <==>
              t < wk.window.end && Group(cfg, Since(xs, wk.window.end), wk) != []
  {
    StateIsRecent(cfg, xs + [Wm(t)], wk);
    SinceSnoc(xs, Wm(t), wk.window.end);
    GroupSnoc(cfg, Since(xs, wk.window.end), Wm(t), wk);
  }
}
