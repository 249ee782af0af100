/** The three window operators against batch results written out from the input alone:
    records by key and window, values in arrival order, output records field by field. */
module WindowBatches {
  import opened Streams
  import opened Windows
  import opened KeyedWindows
  import opened WindowOperators
  import opened WindowOutputs

  // ----- the records of a key and window -----

  /** The element is a record of this key, assigned to this window; an unkeyed record
      counts under the empty key. */
  predicate IsIn<V>(assign: Timestamp -> seq<Window>, wk: WindowKey, e: StreamElement<V>)
  {
    && e.Rec? && (e.record.key == Some(wk.key) || (e.record.key == None && wk.key == []))
    && wk.window in assign(e.record.timestamp)
  }

  function ValueIn<V>(assign: Timestamp -> seq<Window>, wk: WindowKey): StreamElement<V> -> Option<V>
  {
    (e: StreamElement<V>) => if IsIn(assign, wk, e) then Some(e.record.value) else None
  }

  function LeftIn<L, R>(assign: Timestamp -> seq<Window>, wk: WindowKey)
    : StreamElement<Either<L, R>> -> Option<(L, Timestamp)>
  {
    (e: StreamElement<Either<L, R>>) =>
      if IsIn(assign, wk, e) && e.record.value.Left? then Some((e.record.value.left, e.record.timestamp)) else None
  }

  function RightIn<L, R>(assign: Timestamp -> seq<Window>, wk: WindowKey)
    : StreamElement<Either<L, R>> -> Option<(R, Timestamp)>
  {
    (e: StreamElement<Either<L, R>>) =>
      if IsIn(assign, wk, e) && e.record.value.Right? then Some((e.record.value.right, e.record.timestamp)) else None
  }

  /** The window is reached and has records of the key. */
  ghost predicate Finished<V>(assign: Timestamp -> seq<Window>, xs: seq<StreamElement<V>>, wk: WindowKey)
  {
    && (exists i :: 0 <= i < |xs| && IsIn(assign, wk, xs[i]))
    && (exists i :: 0 <= i < |xs| && xs[i].Wm? && xs[i].timestamp >= wk.window.end)
  }

  lemma {:induction false} GroupIff<V, A>(cfg: Config<V, A>, xs: seq<StreamElement<V>>, wk: WindowKey)
    ensures Group(cfg, xs, wk) != [] <==> exists i :: 0 <= i < |xs| && IsIn(cfg.assign, wk, xs[i])
  {
    if xs != [] {
      var m := |xs| - 1;
      GroupIff(cfg, xs[..m], wk);
      InitAndLast(xs);
      GroupSnoc(cfg, xs[..m], xs[m], wk);
      if i :| 0 <= i < m && IsIn(cfg.assign, wk, xs[..m][i]) {
        assert IsIn(cfg.assign, wk, xs[i]);
      }
      if i :| 0 <= i < |xs| && IsIn(cfg.assign, wk, xs[i]) {
        if i < m {
          assert IsIn(cfg.assign, wk, xs[..m][i]);
        }
      }
    }
  }

  /** The windows that the batch sums range over. */
  lemma {:induction false} CompleteIsFinished<V, A>(cfg: Config<V, A>, xs: seq<StreamElement<V>>, wk: WindowKey)
    requires WellFormed(cfg)
    ensures wk in Complete(cfg, xs) <==> Finished(cfg.assign, xs, wk)
    ensures wk in Complete(cfg, xs) ==> wk.window.end > 0
  {
    PopulatedIff(cfg, xs, wk);
    GroupIff(cfg, xs, wk);
    if wk in Complete(cfg, xs) {
      var i :| 0 <= i < |xs| && IsIn(cfg.assign, wk, xs[i]);
      var t := xs[i].record.timestamp;
      var j :| 0 <= j < |cfg.assign(t)| && cfg.assign(t)[j] == wk.window;
      assert Contains(cfg.assign(t)[j], t);
    }
  }

  ghost predicate ExactlyFinished<V>(s: set<WindowKey>, assign: Timestamp -> seq<Window>, xs: seq<StreamElement<V>>)
  {
    forall wk :: wk in s <==> Finished(assign, xs, wk)
  }

  lemma {:induction false} CompleteIsExact<V, A>(cfg: Config<V, A>, xs: seq<StreamElement<V>>)
    requires WellFormed(cfg)
    ensures ExactlyFinished(Complete(cfg, xs), cfg.assign, xs)
    ensures forall wk :: wk in Complete(cfg, xs) ==> wk.window.end > 0
  {
    forall wk
      ensures wk in Complete(cfg, xs) <==> Finished(cfg.assign, xs, wk)
      ensures wk in Complete(cfg, xs) ==> wk.window.end > 0
    {
      CompleteIsFinished(cfg, xs, wk);
    }
  }

  /** The instant before the end of a window that has one. */
  function BeforeEnd(wk: WindowKey): Timestamp { if wk.window.end == 0 then 0 else wk.window.end - 1 }

  // ----- aggregation -----

  /** The user's `add` over values, first to last. */
  function FoldValues<V, A>(create: A, add: (A, V) -> A, vs: seq<V>): A
  {
    if vs == [] then create else add(FoldValues(create, add, vs[..|vs| - 1]), vs[|vs| - 1])
  }

  lemma {:induction false} FoldIsValues<V, A>(assign: Timestamp -> seq<Window>, create: A, add: (A, V) -> A,
                                              xs: seq<StreamElement<V>>, wk: WindowKey)
    ensures var cfg := Aggregation(assign, create, add);
            Fold(cfg, Group(cfg, xs, wk)) == FoldValues(create, add, FilterMap(xs, ValueIn(assign, wk)))
  {
    var cfg := Aggregation(assign, create, add);
    if xs != [] {
      var m := |xs| - 1;
      var before, e := xs[..m], xs[m];
      FoldIsValues(assign, create, add, before, wk);
      InitAndLast(xs);
      GroupSnoc(cfg, before, e, wk);
      FilterMapSnoc(before, e, ValueIn(assign, wk));
      var vs := FilterMap(before, ValueIn(assign, wk));
      if IsIn(assign, wk, e) {
        FoldSnoc(cfg, Group(cfg, before, wk), e.record);
        assert (vs + [e.record.value])[..|vs|] == vs;
      } else {
        assert vs + [] == vs;
      }
    }
  }

  /** What aggregation results in: one record, the user's functions over the window's
      values, at the last instant of the window, under its key. */
  ghost function AggregateOf<V, A, O(!new)>(assign: Timestamp -> seq<Window>, create: A, add: (A, V) -> A,
            getResult: A -> O, xs: seq<StreamElement<V>>): WindowKey -> multiset<Record<O>>
  {
    (wk: WindowKey) =>
      var values := FilterMap(xs, ValueIn(assign, wk));
      multiset{Record(getResult(FoldValues(create, add, values)), BeforeEnd(wk), Some(wk.key))}
  }

  /** Aggregation: one such record per finished window and nothing else. */
  lemma {:induction false} AggregationIsBatch<V, A, O(!new)>(assign: Timestamp -> seq<Window>, create: A,
            add: (A, V) -> A, getResult: A -> O, xs: seq<StreamElement<V>>, orders: seq<seq<WindowKey>>)
    returns (done: set<WindowKey>)
    requires WellFormed(Aggregation(assign, create, add)) && KeepsPromise(xs)
    requires Possible(Aggregation(assign, create, add), xs, orders)
    ensures ExactlyFinished(done, assign, xs)
    ensures multiset(Records(Output(Aggregation(assign, create, add), Aggregates(getResult), xs, orders)))
         == Sum(done, AggregateOf(assign, create, add, getResult, xs))
  {
    var cfg := Aggregation(assign, create, add);
    done := Complete(cfg, xs);
    CompleteIsExact(cfg, xs);
    OutputIsBatch(cfg, Aggregates(getResult), xs, orders);
    forall wk | wk in done
      ensures Result(cfg, Aggregates(getResult), xs)(wk) == AggregateOf(assign, create, add, getResult, xs)(wk)
    {
      FoldIsValues(assign, create, add, xs, wk);
    }
    SumAgrees(done, Result(cfg, Aggregates(getResult), xs), AggregateOf(assign, create, add, getResult, xs));
  }

  // ----- join and cogroup -----

  lemma {:induction false} SidesOfGroup<L, R, A>(cfg: Config<Either<L, R>, A>, xs: seq<StreamElement<Either<L, R>>>,
                                                 wk: WindowKey)
    ensures FilterMap(Group(cfg, xs, wk), TimedLeft) == FilterMap(xs, LeftIn(cfg.assign, wk))
    ensures FilterMap(Group(cfg, xs, wk), TimedRight) == FilterMap(xs, RightIn(cfg.assign, wk))
  {
    if xs != [] {
      var m := |xs| - 1;
      var before, e := xs[..m], xs[m];
      SidesOfGroup(cfg, before, wk);
      InitAndLast(xs);
      GroupSnoc(cfg, before, e, wk);
      FilterMapSnoc(before, e, LeftIn(cfg.assign, wk));
      FilterMapSnoc(before, e, RightIn(cfg.assign, wk));
      if IsIn(cfg.assign, wk, e) {
        FilterMapSnoc(Group(cfg, before, wk), e.record, TimedLeft);
        FilterMapSnoc(Group(cfg, before, wk), e.record, TimedRight);
      }
    }
  }

  /** One left with every right: the user's value, the later time, the key. */
  function JoinRow<L, R, O>(join: (L, R) -> O, key: Bytes, l: (L, Timestamp), rs: seq<(R, Timestamp)>): seq<Record<O>>
  {
    seq(|rs|, j requires 0 <= j < |rs| =>
      Record(join(l.0, rs[j].0), if l.1 < rs[j].1 then rs[j].1 else l.1, Some(key)))
  }

  /** Every left with every right, once. */
  ghost function JoinAll<L, R, O(!new)>(join: (L, R) -> O, key: Bytes, ls: seq<(L, Timestamp)>, rs: seq<(R, Timestamp)>)
    : multiset<Record<O>>
  {
    if ls == [] then multiset{}
    else JoinAll(join, key, ls[..|ls| - 1], rs) + multiset(JoinRow(join, key, ls[|ls| - 1], rs))
  }

  lemma {:induction false} CrossIsJoinAll<L, R, O(!new)>(join: (L, R) -> O, key: Bytes, ls: seq<(L, Timestamp)>,
                                                         rs: seq<(R, Timestamp)>)
    ensures multiset(Cross(join, key, Sides(ls, rs))) == JoinAll(join, key, ls, rs)
  {
    if ls != [] {
      var m := |ls| - 1;
      CrossIsJoinAll(join, key, ls[..m], rs);
      assert Row(join, key, ls[m], rs) == JoinRow(join, key, ls[m], rs);
      assert Sides(ls, rs).(left := ls[..m]) == Sides(ls[..m], rs);
    }
  }

  ghost function JoinOf<L, R, O(!new)>(assign: Timestamp -> seq<Window>, join: (L, R) -> O,
            xs: seq<StreamElement<Either<L, R>>>): WindowKey -> multiset<Record<O>>
  {
    (wk: WindowKey) =>
      JoinAll(join, wk.key, FilterMap(xs, LeftIn(assign, wk)), FilterMap(xs, RightIn(assign, wk)))
  }

  /** Join: every left with every right of each finished window, so a pair once per window it shares. */
  lemma {:induction false} JoinIsBatch<L, R, O(!new)>(assign: Timestamp -> seq<Window>, join: (L, R) -> O,
            xs: seq<StreamElement<Either<L, R>>>, orders: seq<seq<WindowKey>>) returns (done: set<WindowKey>)
    requires WellFormed(Joining<L, R>(assign)) && KeepsPromise(xs) && Possible(Joining<L, R>(assign), xs, orders)
    ensures ExactlyFinished(done, assign, xs)
    ensures multiset(Records(Output(Joining<L, R>(assign), Crosses(join), xs, orders)))
         == Sum(done, JoinOf(assign, join, xs))
  {
    var cfg := Joining<L, R>(assign);
    done := Complete(cfg, xs);
    CompleteIsExact(cfg, xs);
    OutputIsBatch(cfg, Crosses(join), xs, orders);
    forall wk ensures Result(cfg, Crosses(join), xs)(wk) == JoinOf(assign, join, xs)(wk) {
      FoldIsSides(assign, Group(cfg, xs, wk));
      SidesOfGroup(cfg, xs, wk);
      CrossIsJoinAll(join, wk.key, FilterMap(xs, LeftIn(assign, wk)), FilterMap(xs, RightIn(assign, wk)));
    }
    SumAgrees(done, Result(cfg, Crosses(join), xs), JoinOf(assign, join, xs));
  }

  function Untimed<T>(ps: seq<(T, Timestamp)>): seq<T>
  {
    seq(|ps|, i requires 0 <= i < |ps| => ps[i].0)
  }

  /** What a cogroup results in: the user's values for the key, the left values and the
      right values, each at the last instant of the window, under its key. */
  function CogroupRecords<L, R, O>(cogroup: (Bytes, seq<L>, seq<R>) -> seq<O>, wk: WindowKey, left: seq<L>,
                                   right: seq<R>): seq<Record<O>>
  {
    var vs := cogroup(wk.key, left, right);
    seq(|vs|, i requires 0 <= i < |vs| => Record(vs[i], BeforeEnd(wk), Some(wk.key)))
  }

  ghost function CogroupOf<L, R, O(!new)>(assign: Timestamp -> seq<Window>, cogroup: (Bytes, seq<L>, seq<R>) -> seq<O>,
            xs: seq<StreamElement<Either<L, R>>>): WindowKey -> multiset<Record<O>>
  {
    (wk: WindowKey) =>
      multiset(CogroupRecords(cogroup, wk, Untimed(FilterMap(xs, LeftIn<L, R>(assign, wk))),
                              Untimed(FilterMap(xs, RightIn<L, R>(assign, wk)))))
  }

  lemma {:induction false} FoldMatches<L, R>(assign: Timestamp -> seq<Window>, rs: seq<Record<Either<L, R>>>)
    ensures Matches(Fold(Joining(assign), rs), Fold(Cogrouping(assign), rs))
  {
    if rs != [] {
      var m := |rs| - 1;
      FoldMatches(assign, rs[..m]);
      AddMatches(Fold(Joining(assign), rs[..m]), Fold(Cogrouping(assign), rs[..m]), rs[m]);
    }
  }

  /** The sides that a cogroup sees, without their times. */
  lemma {:induction false} CogroupSides<L, R>(assign: Timestamp -> seq<Window>, xs: seq<StreamElement<Either<L, R>>>,
                                              wk: WindowKey)
    ensures var cfg := Cogrouping<L, R>(assign);
            Fold(cfg, Group(cfg, xs, wk))
            == Groups(Untimed(FilterMap(xs, LeftIn<L, R>(assign, wk))),
                      Untimed(FilterMap(xs, RightIn<L, R>(assign, wk))))
  {
    var group := Group(Cogrouping<L, R>(assign), xs, wk);
    FoldMatches(assign, group);
    FoldIsSides(assign, group);
    SidesOfGroup(Cogrouping<L, R>(assign), xs, wk);
    FirstsAt(FilterMap(group, TimedLeft));
    FirstsAt(FilterMap(group, TimedRight));
  }

  lemma {:induction false} StampedIsRecords<L, R, O>(cogroup: (Bytes, seq<L>, seq<R>) -> seq<O>, wk: WindowKey,
                                                     left: seq<L>, right: seq<R>)
    ensures Cogroups(cogroup)(wk, Groups(left, right)) == CogroupRecords(cogroup, wk, left, right)
  {
    var stamped, written := Stamped(cogroup(wk.key, left, right), wk), CogroupRecords(cogroup, wk, left, right);
    assert LastInstant(wk) == BeforeEnd(wk);
    assert |stamped| == |written| && forall i :: 0 <= i < |stamped| ==> stamped[i] == written[i];
  }

  lemma {:induction false} ResultIsCogroup<L, R, O(!new)>(assign: Timestamp -> seq<Window>,
            cogroup: (Bytes, seq<L>, seq<R>) -> seq<O>, xs: seq<StreamElement<Either<L, R>>>, wk: WindowKey)
    ensures Result(Cogrouping<L, R>(assign), Cogroups(cogroup), xs)(wk) == CogroupOf(assign, cogroup, xs)(wk)
  {
    CogroupSides<L, R>(assign, xs, wk);
    StampedIsRecords(cogroup, wk, Untimed(FilterMap(xs, LeftIn<L, R>(assign, wk))),
                     Untimed(FilterMap(xs, RightIn<L, R>(assign, wk))));
  }

  /** Cogroup: those records for each finished window and nothing else. */
  lemma {:induction false} CogroupIsBatch<L, R, O(!new)>(assign: Timestamp -> seq<Window>,
            cogroup: (Bytes, seq<L>, seq<R>) -> seq<O>, xs: seq<StreamElement<Either<L, R>>>,
            orders: seq<seq<WindowKey>>) returns (done: set<WindowKey>)
    requires WellFormed(Cogrouping<L, R>(assign)) && KeepsPromise(xs) && Possible(Cogrouping<L, R>(assign), xs, orders)
    ensures ExactlyFinished(done, assign, xs)
    ensures multiset(Records(Output(Cogrouping<L, R>(assign), Cogroups(cogroup), xs, orders)))
         == Sum(done, CogroupOf(assign, cogroup, xs))
  {
    var cfg := Cogrouping<L, R>(assign);
    done := Complete(cfg, xs);
    CompleteIsExact(cfg, xs);
    OutputIsBatch(cfg, Cogroups(cogroup), xs, orders);
    forall wk ensures Result(cfg, Cogroups(cogroup), xs)(wk) == CogroupOf(assign, cogroup, xs)(wk) {
      ResultIsCogroup(assign, cogroup, xs, wk);
    }
    SumAgrees(done, Result(cfg, Cogroups(cogroup), xs), CogroupOf(assign, cogroup, xs));
  }
}
