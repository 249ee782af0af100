/** What the window operators put out over whole streams: the batch results of the
    windows reached, whatever the iteration orders of their hash maps. */
module WindowOutputs {
  import opened Streams
  import opened Windows
  import opened KeyedWindows
  import opened WindowOperators

  // ----- the output stream -----

  /** What one element makes an operator put out, `order` being the iteration order
      in which it fires. */
  function EmitOne<V, A, O>(emit: (WindowKey, A) -> seq<Record<O>>, st: State<A>, e: StreamElement<V>,
                            order: seq<WindowKey>): seq<StreamElement<O>>
  {
    match e
    case Rec(_) => []
    case Wm(t) => Elements(EmittedAll(emit, st, order)) + [Wm(t)]
    case Bar(b) => [Bar(b)]
  }

  /** `orders[i]` is the order in which the operator fires at element i. */
  function Output<V, A, O>(cfg: Config<V, A>, emit: (WindowKey, A) -> seq<Record<O>>, xs: seq<StreamElement<V>>,
                           orders: seq<seq<WindowKey>>): seq<StreamElement<O>>
    requires |orders| == |xs|
  {
    if xs == [] then []
    else
      var m := |xs| - 1;
      Output(cfg, emit, xs[..m], orders[..m]) + EmitOne(emit, StateAfter(cfg, xs[..m]), xs[m], orders[m])
  }

  /** At every watermark the order lists the due entries, each once. */
  ghost predicate Possible<V, A>(cfg: Config<V, A>, xs: seq<StreamElement<V>>, orders: seq<seq<WindowKey>>)
  {
    && |orders| == |xs|
    && forall i :: 0 <= i < |xs| && xs[i].Wm? ==>
         Enumerates(orders[i], Due(StateAfter(cfg, xs[..i]), xs[i].timestamp))
  }

  // ----- sums over windows -----

  ghost function Sum<O(!new)>(s: set<WindowKey>, f: WindowKey -> multiset<O>): multiset<O>
  {
    if s == {} then multiset{}
    else
      var wk :| wk in s;
      f(wk) + Sum(s - {wk}, f)
  }

  /** The order of summation does not matter. */
  lemma {:induction false} SumTakesAny<O(!new)>(s: set<WindowKey>, f: WindowKey -> multiset<O>, x: WindowKey)
    requires x in s
    ensures Sum(s, f) == f(x) + Sum(s - {x}, f)
  {
    var wk :| wk in s && Sum(s, f) == f(wk) + Sum(s - {wk}, f);
    if wk != x {
      SumTakesAny(s - {wk}, f, x);
      SumTakesAny(s - {x}, f, wk);
      assert s - {wk} - {x} == s - {x} - {wk};
    }
  }

  lemma {:induction false} SumAgrees<O(!new)>(s: set<WindowKey>, f: WindowKey -> multiset<O>,
                                              g: WindowKey -> multiset<O>)
    requires forall wk :: wk in s ==> f(wk) == g(wk)
    ensures Sum(s, f) == Sum(s, g)
  {
    if s != {} {
      var wk :| wk in s;
      SumTakesAny(s, f, wk);
      SumTakesAny(s, g, wk);
      SumAgrees(s - {wk}, f, g);
    }
  }

  lemma {:induction false} SumUnion<O(!new)>(a: set<WindowKey>, b: set<WindowKey>, f: WindowKey -> multiset<O>)
    requires a !! b
    ensures Sum(a + b, f) == Sum(a, f) + Sum(b, f)
  {
    if b == {} {
      assert a + b == a;
    } else {
      var wk :| wk in b;
      SumTakesAny(b, f, wk);
      SumTakesAny(a + b, f, wk);
      assert a + b - {wk} == a + (b - {wk});
      SumUnion(a, b - {wk}, f);
    }
  }

  /** What a window hands out, as a multiset. */
  ghost function Handed<A, O(!new)>(emit: (WindowKey, A) -> seq<O>, st: State<A>): WindowKey -> multiset<O>
  {
    (wk: WindowKey) => multiset(EmitAt(emit, st, wk))
  }

  /** What an element makes all due windows hand out. */
  ghost function HandedAt<V, A, O(!new)>(emit: (WindowKey, A) -> seq<O>, st: State<A>, e: StreamElement<V>): multiset<O>
  {
    if e.Wm? then Sum(Due(st, e.timestamp), Handed(emit, st)) else multiset{}
  }

  /** Whatever the order, the due entries hand out the sum over them. */
  lemma {:induction false} EmittedIsSum<A, O(!new)>(emit: (WindowKey, A) -> seq<O>, st: State<A>,
                                                    order: seq<WindowKey>, due: set<WindowKey>)
    requires Enumerates(order, due)
    ensures multiset(EmittedAll(emit, st, order)) == Sum(due, Handed(emit, st))
  {
    if order == [] {
      assert forall wk :: wk in due ==> wk in order;
      assert due == {};
    } else {
      var m := |order| - 1;
      var front, last := order[..m], order[m];
      EnumeratesFront(order, due);
      EmittedIsSum(emit, st, front, due - {last});
      assert last in order;
      SumTakesAny(due, Handed(emit, st), last);
    }
  }

  lemma {:induction false} EnumeratesFront(order: seq<WindowKey>, due: set<WindowKey>)
    requires order != [] && Enumerates(order, due)
    ensures Enumerates(order[..|order| - 1], due - {order[|order| - 1]})
  {
    var front, last := order[..|order| - 1], order[|order| - 1];
    InitAndLast(order);
    assert last !in front;
    forall wk ensures wk in front <==> wk in due - {last} {
      assert wk in order <==> wk in front || wk == last;
    }
  }

  function AsEntry<A>(): (WindowKey, A) -> seq<(WindowKey, A)> { (wk: WindowKey, a: A) => [(wk, a)] }

  /** The entries of some of the windows. */
  ghost function EntriesAt<A(!new)>(st: State<A>, s: set<WindowKey>): set<(WindowKey, A)>
  {
    set wk | wk in s && wk in st :: (wk, st[wk])
  }

  lemma {:induction false} EntriesTake<A(!new)>(st: State<A>, s: set<WindowKey>, x: WindowKey)
    requires x in s && x in st
    ensures EntriesAt(st, s) == EntriesAt(st, s - {x}) + {(x, st[x])} && (x, st[x]) !in EntriesAt(st, s - {x})
  {
    forall p | p in EntriesAt(st, s) ensures p in EntriesAt(st, s - {x}) + {(x, st[x])} {
      var wk :| wk in s && wk in st && p == (wk, st[wk]);
      assert wk == x || wk in s - {x};
    }
  }

  lemma {:induction false} EntriesInOrder<A(!new)>(st: State<A>, order: seq<WindowKey>, due: set<WindowKey>)
    requires Enumerates(order, due) && due <= st.Keys
    ensures multiset(EmittedAll(AsEntry(), st, order)) == multiset(EntriesAt(st, due))
  {
    if order == [] {
      assert forall wk :: wk in due ==> wk in order;
      assert EntriesAt(st, due) == {};
    } else {
      var front, last := order[..|order| - 1], order[|order| - 1];
      EnumeratesFront(order, due);
      EntriesInOrder(st, front, due - {last});
      assert last in order;
      EntriesTake(st, due, last);
    }
  }

  /** The entries an operator goes through over a stream, as its orders list them. */
  ghost function Visited<V, A>(cfg: Config<V, A>, xs: seq<StreamElement<V>>, orders: seq<seq<WindowKey>>)
    : seq<(WindowKey, A)>
    requires |orders| == |xs|
  {
    if xs == [] then []
    else
      var m := |xs| - 1;
      Visited(cfg, xs[..m], orders[..m])
      + if xs[m].Wm? then EmittedAll(AsEntry(), StateAfter(cfg, xs[..m]), orders[m]) else []
  }

  /** Over a stream, in whatever orders, an operator goes through exactly the entries
      that `AllFired` and with it `FiredIsBatch` count, each as often. */
  lemma {:induction false} EntriesAreFired<V, A(!new)>(cfg: Config<V, A>, xs: seq<StreamElement<V>>,
                                                       orders: seq<seq<WindowKey>>)
    requires Possible(cfg, xs, orders)
    ensures multiset(Visited(cfg, xs, orders)) == AllFired(cfg, xs)
  {
    if xs != [] {
      var m := |xs| - 1;
      var st := StateAfter(cfg, xs[..m]);
      PossibleFront(cfg, xs, orders);
      EntriesAreFired(cfg, xs[..m], orders[..m]);
      if xs[m].Wm? {
        var due := Due(st, xs[m].timestamp);
        EntriesInOrder(st, orders[m], due);
        assert EntriesAt(st, due) == Fired(st, xs[m]);
      }
    }
  }

  // ----- the batch -----

  function KeysOf(key: Bytes, windows: seq<Window>): set<WindowKey>
  {
    if windows == [] then {}
    else KeysOf(key, windows[..|windows| - 1]) + {WindowKey(key, windows[|windows| - 1])}
  }

  lemma {:induction false} KeysOfMember(key: Bytes, windows: seq<Window>, wk: WindowKey)
    ensures wk in KeysOf(key, windows) <==> wk.key == key && wk.window in windows
  {
    if windows != [] {
      KeysOfMember(key, windows[..|windows| - 1], wk);
      InitAndLast(windows);
    }
  }

  /** The keys and windows that have records. */
  function Populated<V, A>(cfg: Config<V, A>, xs: seq<StreamElement<V>>): set<WindowKey>
  {
    if xs == [] then {}
    else
      var e := xs[|xs| - 1];
      Populated(cfg, xs[..|xs| - 1])
      + if e.Rec? then KeysOf(KeyOf(e.record), cfg.assign(e.record.timestamp)) else {}
  }

  lemma {:induction false} PopulatedIff<V, A>(cfg: Config<V, A>, xs: seq<StreamElement<V>>, wk: WindowKey)
    ensures wk in Populated(cfg, xs) <==> Group(cfg, xs, wk) != []
  {
    if xs != [] {
      var before, e := xs[..|xs| - 1], xs[|xs| - 1];
      PopulatedIff(cfg, before, wk);
      GroupSnoc(cfg, before, e, wk);
      if e.Rec? {
        KeysOfMember(KeyOf(e.record), cfg.assign(e.record.timestamp), wk);
      }
      InitAndLast(xs);
    }
  }

  /** The keys and windows that have records and whose end some watermark has reached. */
  ghost function Complete<V, A>(cfg: Config<V, A>, xs: seq<StreamElement<V>>): set<WindowKey>
  {
    set wk | wk in Populated(cfg, xs) && Reached(xs, wk.window.end)
  }

  /** What a window results in by the batch definition: its group, folded. */
  ghost function Result<V, A, O(!new)>(cfg: Config<V, A>, emit: (WindowKey, A) -> seq<O>, xs: seq<StreamElement<V>>)
    : WindowKey -> multiset<O>
  {
    (wk: WindowKey) => multiset(emit(wk, Fold(cfg, Group(cfg, xs, wk))))
  }

  /** The batch results of all complete windows. */
  ghost function Batch<V, A, O(!new)>(cfg: Config<V, A>, emit: (WindowKey, A) -> seq<O>, xs: seq<StreamElement<V>>)
    : multiset<O>
  {
    Sum(Complete(cfg, xs), Result(cfg, emit, xs))
  }

  /** An element completes the windows it makes due and leaves the results of those
      already complete as they are. */
  lemma {:induction false} CompleteSnoc<V, A>(cfg: Config<V, A>, xs: seq<StreamElement<V>>, e: StreamElement<V>,
                                              wk: WindowKey)
    requires WellFormed(cfg) && KeepsPromise(xs + [e])
    ensures wk in Complete(cfg, xs + [e]) <==>
              wk in Complete(cfg, xs) || (e.Wm? && wk in Due(StateAfter(cfg, xs), e.timestamp))
    ensures wk in Complete(cfg, xs) ==> Group(cfg, xs + [e], wk) == Group(cfg, xs, wk)
    ensures e.Wm? && wk in Due(StateAfter(cfg, xs), e.timestamp) ==>
              && wk !in Complete(cfg, xs)
              && StateAfter(cfg, xs)[wk] == Fold(cfg, Group(cfg, xs + [e], wk))
  {
    PopulatedIff(cfg, xs, wk);
    PopulatedIff(cfg, xs + [e], wk);
    ReachedSnoc(xs, e, wk.window.end);
    GroupSnoc(cfg, xs, e, wk);
    PromiseOfPrefix(xs, e);
    StateIsGroups(cfg, xs, wk);
    if Reached(xs, wk.window.end) {
      GroupIsComplete(cfg, xs, e, wk);
    }
  }

  lemma {:induction false} BatchSnoc<V, A, O(!new)>(cfg: Config<V, A>, emit: (WindowKey, A) -> seq<O>,
                                                    xs: seq<StreamElement<V>>, e: StreamElement<V>)
    requires WellFormed(cfg) && KeepsPromise(xs + [e])
    ensures Batch(cfg, emit, xs + [e])
         == Batch(cfg, emit, xs) + HandedAt(emit, StateAfter(cfg, xs), e)
  {
    var st, done := StateAfter(cfg, xs), Complete(cfg, xs);
    var due := if e.Wm? then Due(st, e.timestamp) else {};
    forall wk
      ensures wk in Complete(cfg, xs + [e]) <==> wk in done || wk in due
      ensures wk in done ==> Result(cfg, emit, xs + [e])(wk) == Result(cfg, emit, xs)(wk)
      ensures wk in due ==> wk !in done && Result(cfg, emit, xs + [e])(wk) == Handed(emit, st)(wk)
    {
      CompleteSnoc(cfg, xs, e, wk);
    }
    assert Complete(cfg, xs + [e]) == done + due;
    SumUnion(done, due, Result(cfg, emit, xs + [e]));
    SumAgrees(done, Result(cfg, emit, xs + [e]), Result(cfg, emit, xs));
    SumAgrees(due, Result(cfg, emit, xs + [e]), Handed(emit, st));
  }

  // ----- whole runs -----

  lemma {:induction false} PossibleFront<V, A>(cfg: Config<V, A>, xs: seq<StreamElement<V>>,
                                               orders: seq<seq<WindowKey>>)
    requires xs != [] && Possible(cfg, xs, orders)
    ensures Possible(cfg, xs[..|xs| - 1], orders[..|xs| - 1])
    ensures xs[|xs| - 1].Wm? ==>
              Enumerates(orders[|xs| - 1], Due(StateAfter(cfg, xs[..|xs| - 1]), xs[|xs| - 1].timestamp))
  {
    var m := |xs| - 1;
    forall i | 0 <= i < m && xs[..m][i].Wm?
      ensures Enumerates(orders[..m][i], Due(StateAfter(cfg, xs[..m][..i]), xs[..m][i].timestamp))
    {
      assert xs[..m][..i] == xs[..i];
    }
  }

  lemma {:induction false} EmitOneRecords<V, A, O>(emit: (WindowKey, A) -> seq<Record<O>>, st: State<A>,
                                                   e: StreamElement<V>, order: seq<WindowKey>)
    ensures Records(EmitOne(emit, st, e, order)) == if e.Wm? then EmittedAll(emit, st, order) else []
  {
    match e
    case Rec(_) =>
    case Wm(t) =>
      var records := EmittedAll(emit, st, order);
      FilterMapSnoc(Elements(records), Wm(t), AsRecord);
      ElementsRecords(records);
    case Bar(b) =>
      var out: seq<StreamElement<O>> := [Bar(b)];
      FilterMapSnoc([], out[0], AsRecord);
      assert [] + [out[0]] == out;
  }

  /** The main result. Over an on-time stream, in whatever orders the operator fires,
      its output records are the batch results of exactly the windows that have
      records and were reached, each once. */
  lemma {:induction false} OutputIsBatch<V, A, O(!new)>(cfg: Config<V, A>, emit: (WindowKey, A) -> seq<Record<O>>,
                                                        xs: seq<StreamElement<V>>, orders: seq<seq<WindowKey>>)
    requires WellFormed(cfg) && KeepsPromise(xs) && Possible(cfg, xs, orders)
    ensures multiset(Records(Output(cfg, emit, xs, orders))) == Batch(cfg, emit, xs)
  {
    if xs == [] {
      assert Complete(cfg, xs) == {};
    } else {
      var m := |xs| - 1;
      var before, e := xs[..m], xs[m];
      InitAndLast(xs);
      PromiseOfPrefix(before, e);
      PossibleFront(cfg, xs, orders);
      OutputIsBatch(cfg, emit, before, orders[..m]);
      BatchSnoc(cfg, emit, before, e);
      OutputSnoc(cfg, emit, xs, orders);
    }
  }

  lemma {:induction false} OutputSnoc<V, A, O(!new)>(cfg: Config<V, A>, emit: (WindowKey, A) -> seq<Record<O>>,
                                                     xs: seq<StreamElement<V>>, orders: seq<seq<WindowKey>>)
    requires xs != [] && Possible(cfg, xs, orders)
    ensures multiset(Records(Output(cfg, emit, xs, orders)))
         == multiset(Records(Output(cfg, emit, xs[..|xs| - 1], orders[..|xs| - 1])))
            + HandedAt(emit, StateAfter(cfg, xs[..|xs| - 1]), xs[|xs| - 1])
  {
    var m := |xs| - 1;
    var st := StateAfter(cfg, xs[..m]);
    FilterMapAppend(Output(cfg, emit, xs[..m], orders[..m]), EmitOne(emit, st, xs[m], orders[m]), AsRecord);
    EmitOneRecords(emit, st, xs[m], orders[m]);
    PossibleFront(cfg, xs, orders);
    if xs[m].Wm? {
      EmittedIsSum(emit, st, orders[m], Due(st, xs[m].timestamp));
    }
  }

  /** The iteration orders do not change what comes out. */
  lemma {:induction false} OrdersDoNotMatter<V, A, O(!new)>(cfg: Config<V, A>, emit: (WindowKey, A) -> seq<Record<O>>,
            xs: seq<StreamElement<V>>, orders: seq<seq<WindowKey>>, orders': seq<seq<WindowKey>>)
    requires Possible(cfg, xs, orders) && Possible(cfg, xs, orders')
    ensures multiset(Records(Output(cfg, emit, xs, orders))) == multiset(Records(Output(cfg, emit, xs, orders')))
  {
    if xs != [] {
      var m := |xs| - 1;
      PossibleFront(cfg, xs, orders);
      PossibleFront(cfg, xs, orders');
      OrdersDoNotMatter(cfg, emit, xs[..m], orders[..m], orders'[..m]);
      OutputSnoc(cfg, emit, xs, orders);
      OutputSnoc(cfg, emit, xs, orders');
    }
  }

  // ----- what is passed through -----

  /** Watermarks and barriers go through unchanged and in order, on any stream. */
  lemma {:induction false} ControlsForwarded<V, A, O>(cfg: Config<V, A>, emit: (WindowKey, A) -> seq<Record<O>>,
            xs: seq<StreamElement<V>>, orders: seq<seq<WindowKey>>)
    requires |orders| == |xs|
    ensures Watermarks(Output(cfg, emit, xs, orders)) == Watermarks(xs)
    ensures Barriers(Output(cfg, emit, xs, orders)) == Barriers(xs)
  {
    if xs != [] {
      var m := |xs| - 1;
      var out := Output(cfg, emit, xs[..m], orders[..m]);
      var added := EmitOne(emit, StateAfter(cfg, xs[..m]), xs[m], orders[m]);
      ControlsForwarded(cfg, emit, xs[..m], orders[..m]);
      ControlsOfOne(emit, StateAfter(cfg, xs[..m]), xs[m], orders[m]);
      FilterMapAppend(out, added, AsWatermark);
      FilterMapAppend(out, added, AsBarrier);
      InitAndLast(xs);
      FilterMapSnoc(xs[..m], xs[m], AsWatermark);
      FilterMapSnoc(xs[..m], xs[m], AsBarrier);
    }
  }

  lemma {:induction false} NoControls<V>(rs: seq<Record<V>>)
    ensures Watermarks(Elements(rs)) == [] && Barriers(Elements(rs)) == []
  {
    if rs != [] {
      NoControls(rs[1..]);
      assert Elements(rs)[1..] == Elements(rs[1..]);
    }
  }

  lemma {:induction false} ControlsOfOne<V, A, O>(emit: (WindowKey, A) -> seq<Record<O>>, st: State<A>,
                                                  e: StreamElement<V>, order: seq<WindowKey>)
    ensures Watermarks(EmitOne(emit, st, e, order)) == if e.Wm? then [e.timestamp] else []
    ensures Barriers(EmitOne(emit, st, e, order)) == if e.Bar? then [e.barrier] else []
  {
    var before := if e.Wm? then Elements(EmittedAll(emit, st, order)) else [];
    NoControls<O>(if e.Wm? then EmittedAll(emit, st, order) else []);
    if !e.Rec? {
      var last: StreamElement<O> := if e.Wm? then Wm(e.timestamp) else Bar(e.barrier);
      assert EmitOne(emit, st, e, order) == before + [last];
      FilterMapSnoc(before, last, AsWatermark);
      FilterMapSnoc(before, last, AsBarrier);
    }
  }

  /** What a watermark fires comes out before the watermark itself. */
  lemma {:induction false} FiresBeforeWatermark<V, A, O>(cfg: Config<V, A>, emit: (WindowKey, A) -> seq<Record<O>>,
            xs: seq<StreamElement<V>>, orders: seq<seq<WindowKey>>)
    requires xs != [] && |orders| == |xs| && xs[|xs| - 1].Wm?
    ensures var out := Output(cfg, emit, xs, orders);
            out != [] && out[|out| - 1] == Wm(xs[|xs| - 1].timestamp)
  {
  }

  // ----- join against cogroup -----

  function Values<O>(rs: seq<Record<O>>): seq<O> { FilterMap(rs, ValueOf) }

  /** The values alone of what a window hands out. */
  function ValuesOf<A, O>(emit: (WindowKey, A) -> seq<Record<O>>): (WindowKey, A) -> seq<O>
  {
    (wk: WindowKey, a: A) => Values(emit(wk, a))
  }

  lemma {:induction false} EmittedValues<A, O>(emit: (WindowKey, A) -> seq<Record<O>>, st: State<A>,
                                               order: seq<WindowKey>)
    ensures Values(EmittedAll(emit, st, order)) == EmittedAll(ValuesOf(emit), st, order)
  {
    if order != [] {
      var m := |order| - 1;
      EmittedValues(emit, st, order[..m]);
      FilterMapAppend(EmittedAll(emit, st, order[..m]), EmitAt(emit, st, order[m]), ValueOf);
    }
  }

  /** The cogroup with the cross-product function. */
  function CrossCogroup<L, R, O>(join: (L, R) -> O): (Bytes, seq<L>, seq<R>) -> seq<O>
  {
    (key: Bytes, left: seq<L>, right: seq<R>) => CrossValues(join, left, right)
  }

  lemma {:induction false} StampedValues<O>(values: seq<O>, wk: WindowKey)
    ensures Values(Stamped(values, wk)) == values
  {
    ValuesAt(Stamped(values, wk));
  }

  lemma {:induction false} SameValuesInWindow<L, R, O(!new)>(join: (L, R) -> O, js: State<Sides<L, R>>,
            cs: State<Groups<L, R>>, wk: WindowKey)
    requires StatesMatch(js, cs) && wk in js
    ensures EmitAt(ValuesOf(Crosses(join)), js, wk) == EmitAt(ValuesOf(Cogroups(CrossCogroup(join))), cs, wk)
  {
    var g := cs[wk];
    JoinValuesAreCogroupValues(join, wk.key, js[wk], g);
    StampedValues(CrossValues(join, g.left, g.right), wk);
    assert EmitAt(ValuesOf(Crosses(join)), js, wk) == Values(Cross(join, wk.key, js[wk]));
    assert EmitAt(ValuesOf(Cogroups(CrossCogroup(join))), cs, wk)
        == Values(Stamped(CrossValues(join, g.left, g.right), wk));
  }

  /** One watermark: matching states hand out the same values, whatever the two orders. */
  lemma {:induction false} SameValuesAt<L, R, O(!new)>(join: (L, R) -> O, js: State<Sides<L, R>>,
            cs: State<Groups<L, R>>, t: Timestamp, order: seq<WindowKey>, order': seq<WindowKey>)
    requires StatesMatch(js, cs) && Enumerates(order, Due(js, t)) && Enumerates(order', Due(cs, t))
    ensures multiset(Values(EmittedAll(Crosses(join), js, order)))
         == multiset(Values(EmittedAll(Cogroups(CrossCogroup(join)), cs, order')))
  {
    var je, ce := ValuesOf(Crosses(join)), ValuesOf(Cogroups(CrossCogroup(join)));
    EmittedValues(Crosses(join), js, order);
    EmittedValues(Cogroups(CrossCogroup(join)), cs, order');
    assert Due(js, t) == Due(cs, t);
    EmittedIsSum(je, js, order, Due(js, t));
    EmittedIsSum(ce, cs, order', Due(js, t));
    forall wk | wk in Due(js, t) ensures Handed(je, js)(wk) == Handed(ce, cs)(wk) {
      SameValuesInWindow(join, js, cs, wk);
    }
    SumAgrees(Due(js, t), Handed(je, js), Handed(ce, cs));
  }

  /** Over any stream, late records included and whatever the iteration orders, a window
      join puts out the same multiset of values as a cogroup with the cross-product function. */
  lemma {:induction false} JoinIsCrossCogroup<L, R, O(!new)>(assign: Timestamp -> seq<Window>, join: (L, R) -> O,
            xs: seq<StreamElement<Either<L, R>>>, orders: seq<seq<WindowKey>>, orders': seq<seq<WindowKey>>)
    requires Possible(Joining<L, R>(assign), xs, orders) && Possible(Cogrouping<L, R>(assign), xs, orders')
    ensures multiset(Values(Records(Output(Joining(assign), Crosses(join), xs, orders))))
         == multiset(Values(Records(Output(Cogrouping(assign), Cogroups(CrossCogroup(join)), xs, orders'))))
  {
    if xs != [] {
      var m := |xs| - 1;
      PossibleFront(Joining<L, R>(assign), xs, orders);
      PossibleFront(Cogrouping<L, R>(assign), xs, orders');
      JoinIsCrossCogroup(assign, join, xs[..m], orders[..m], orders'[..m]);
      OutputValuesSnoc(Joining(assign), Crosses(join), xs, orders);
      OutputValuesSnoc(Cogrouping(assign), Cogroups(CrossCogroup(join)), xs, orders');
      JoinMatchesCogroup<L, R>(assign, xs[..m]);
      if xs[m].Wm? {
        SameValuesAt(join, StateAfter(Joining(assign), xs[..m]), StateAfter(Cogrouping(assign), xs[..m]),
                     xs[m].timestamp, orders[m], orders'[m]);
      }
    }
  }

  lemma {:induction false} OutputValuesSnoc<V, A, O(!new)>(cfg: Config<V, A>, emit: (WindowKey, A) -> seq<Record<O>>,
            xs: seq<StreamElement<V>>, orders: seq<seq<WindowKey>>)
    requires xs != [] && |orders| == |xs|
    ensures Values(Records(Output(cfg, emit, xs, orders)))
         == Values(Records(Output(cfg, emit, xs[..|xs| - 1], orders[..|xs| - 1])))
            + (if !xs[|xs| - 1].Wm? then []
               else Values(EmittedAll(emit, StateAfter(cfg, xs[..|xs| - 1]), orders[|xs| - 1])))
  {
    var m := |xs| - 1;
    var st := StateAfter(cfg, xs[..m]);
    var before, added := Output(cfg, emit, xs[..m], orders[..m]), EmitOne(emit, st, xs[m], orders[m]);
    FilterMapAppend(before, added, AsRecord);
    EmitOneRecords(emit, st, xs[m], orders[m]);
    FilterMapAppend(Records(before), Records(added), ValueOf);
  }
}
