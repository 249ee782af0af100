/** The slot queues hand out every free slot once; Pack touches as few
    TaskManagers as any placement can; when Spread is even. */
module SlotTheorems {
  import opened Streams
  import opened SlotQueues

  // ----- every free slot, once -----

  lemma {:induction false} AllSlotsPermuted(xs: seq<SlotOffer>, ys: seq<SlotOffer>)
    requires multiset(xs) == multiset(ys)
    ensures multiset(AllSlots(xs)) == multiset(AllSlots(ys)) && Free(xs) == Free(ys)
  {
    if xs == [] {
      assert |ys| == |multiset(ys)| == 0;
    } else {
      var i := Match(xs, ys);
      AllSlotsPermuted(xs[1..], ys[..i] + ys[i + 1..]);
      TakeOut(ys, i);
    }
  }

  /** Where the first of one arrangement stands in the other. */
  lemma {:induction false} Match(xs: seq<SlotOffer>, ys: seq<SlotOffer>) returns (i: nat)
    requires xs != [] && multiset(xs) == multiset(ys)
    ensures i < |ys| && ys[i] == xs[0] && multiset(xs[1..]) == multiset(ys[..i] + ys[i + 1..])
  {
    assert xs[0] in multiset(ys);
    i :| 0 <= i < |ys| && ys[i] == xs[0];
    assert xs == [xs[0]] + xs[1..];
    assert multiset(xs) == multiset(xs[1..]) + multiset{xs[0]};
    TakeOut(ys, i);
    Cancel(multiset(xs[1..]), multiset(ys[..i] + ys[i + 1..]), multiset{xs[0]});
  }

  lemma {:induction false} Cancel(a: multiset<SlotOffer>, b: multiset<SlotOffer>, c: multiset<SlotOffer>)
    requires a + c == b + c
    ensures a == b
  {
    assert forall o :: a[o] == (a + c)[o] - c[o];
    assert forall o :: b[o] == (b + c)[o] - c[o];
  }

  /** Taking one offer out takes out its slots. */
  lemma {:induction false} TakeOut(ys: seq<SlotOffer>, i: nat)
    requires i < |ys|
    ensures var rest := ys[..i] + ys[i + 1..];
            && multiset(ys) == multiset(rest) + multiset{ys[i]}
            && multiset(AllSlots(ys)) == multiset(AllSlots(rest)) + multiset(Slots(ys[i]))
            && Free(ys) == Free(rest) + Available(ys[i])
  {
    var a, b := ys[..i], ys[i + 1..];
    assert ys == a + ([ys[i]] + b);
    AllSlotsAppend(a, [ys[i]] + b);
    AllSlotsAppend(a, b);
    FreeAppend(a, [ys[i]] + b);
    FreeAppend(a, b);
    assert ([ys[i]] + b)[1..] == b;
  }

  lemma {:induction false} FreeAppend(a: seq<SlotOffer>, b: seq<SlotOffer>)
    ensures Free(a + b) == Free(a) + Free(b)
  {
    if a == [] {
      assert a + b == b;
    } else {
      assert (a + b)[1..] == a[1..] + b;
      FreeAppend(a[1..], b);
    }
  }

  lemma {:induction false} AllSlotsLength(offers: seq<SlotOffer>)
    ensures |AllSlots(offers)| == Free(offers)
  {
    if offers != [] {
      AllSlotsLength(offers[1..]);
    }
  }

  lemma {:induction false} RoundsOfFirst(offers: seq<SlotOffer>, lo: nat, hi: nat)
    requires offers != [] && lo <= hi
    ensures multiset(Rounds(offers, lo, hi)) + multiset(Rest(offers[0], hi))
         == multiset(Rest(offers[0], lo)) + multiset(Rounds(offers[1..], lo, hi))
    decreases hi - lo
  {
    if lo < hi {
      var o, rest := offers[0], offers[1..];
      RoundsOfFirst(offers, lo + 1, hi);
      RoundOfFirst(offers, lo);
      RegroupSlots(multiset(Round(offers, lo)), multiset(Rounds(offers, lo + 1, hi)),
              multiset(Rest(o, hi)), multiset(Rest(o, lo + 1)),
              multiset(Rounds(rest, lo + 1, hi)), multiset(Round(rest, lo)), multiset(Rest(o, lo)));
    }
  }

  lemma {:induction false} RegroupSlots(a: multiset<Slot>, b: multiset<Slot>, c: multiset<Slot>, d: multiset<Slot>,
                e: multiset<Slot>, f: multiset<Slot>, g: multiset<Slot>)
    requires b + c == d + e && a + d == f + g
    ensures (a + b) + c == g + (f + e)
  {
    assert forall s :: ((a + b) + c)[s] == a[s] + (b + c)[s];
    assert forall s :: (g + (f + e))[s] == (f + g)[s] + e[s];
  }

  lemma {:induction false} RoundOfFirst(offers: seq<SlotOffer>, r: nat)
    requires offers != []
    ensures multiset(Round(offers, r)) + multiset(Rest(offers[0], r + 1))
         == multiset(Round(offers[1..], r)) + multiset(Rest(offers[0], r))
  {
    RestStep(offers[0], r);
    assert Round(offers, r) == AsSeq(SlotAt(r)(offers[0])) + Round(offers[1..], r);
  }

  lemma {:induction false} RoundsAreAll(offers: seq<SlotOffer>, hi: nat)
    requires hi >= Deepest(offers)
    ensures multiset(Rounds(offers, 0, hi)) == multiset(AllSlots(offers))
  {
    if offers == [] {
      NoRounds(0, hi);
    } else {
      RoundsOfFirst(offers, 0, hi);
      RoundsAreAll(offers[1..], hi);
      assert Rest(offers[0], hi) == [] && Rest(offers[0], 0) == Slots(offers[0]);
    }
  }

  lemma {:induction false} NoRounds(lo: nat, hi: nat)
    ensures Rounds([], lo, hi) == []
    decreases hi - lo
  {
    if lo < hi {
      NoRounds(lo + 1, hi);
    }
  }

  ghost predicate NoRepeats(xs: seq<Slot>) { forall i, j :: 0 <= i < j < |xs| ==> xs[i] != xs[j] }

  lemma {:induction false} NoRepeatsIsOnce(xs: seq<Slot>)
    ensures NoRepeats(xs) <==> forall s :: multiset(xs)[s] <= 1
  {
    if xs != [] {
      var rest := xs[1..];
      NoRepeatsIsOnce(rest);
      assert xs == [xs[0]] + rest;
      assert multiset(xs) == multiset{xs[0]} + multiset(rest);
      if NoRepeats(xs) {
        assert NoRepeats(rest);
        assert xs[0] !in rest;
      }
      if forall s :: multiset(xs)[s] <= 1 {
        assert forall s :: multiset(rest)[s] <= multiset(xs)[s];
        assert multiset(xs)[xs[0]] <= 1;
        assert xs[0] !in rest;
      }
    }
  }

  predicate Owns(o: SlotOffer, s: Slot)
  {
    o.taskManager == s.taskManager && o.used <= s.index < o.used + Available(o)
  }

  lemma {:induction false} SlotsOwned(o: SlotOffer, s: Slot)
    ensures s in Slots(o) <==> Owns(o, s)
  {
    if Owns(o, s) {
      assert Slots(o)[s.index - o.used] == s;
    }
  }

  lemma {:induction false} SlotOwner(offers: seq<SlotOffer>, s: Slot)
    ensures s in AllSlots(offers) <==> exists i :: 0 <= i < |offers| && Owns(offers[i], s)
  {
    if offers != [] {
      var rest := offers[1..];
      SlotOwner(rest, s);
      SlotsOwned(offers[0], s);
      if i :| 0 <= i < |rest| && Owns(rest[i], s) {
        assert Owns(offers[i + 1], s);
      }
      if i :| 1 <= i < |offers| && Owns(offers[i], s) {
        assert Owns(rest[i - 1], s);
      }
    }
  }

  /** Two offers name the same TaskManager and a common free slot of it. */
  predicate Overlap(a: SlotOffer, b: SlotOffer)
  {
    a.taskManager == b.taskManager && a.used < b.total && b.used < a.total && a.used < a.total && b.used < b.total
  }

  /** No free slot is offered twice; TaskManagers that make one offer each offer none twice. */
  ghost predicate Disjoint(offers: seq<SlotOffer>)
  {
    forall i, j :: 0 <= i < j < |offers| ==> !Overlap(offers[i], offers[j])
  }

  lemma {:induction false} OverlapIsShared(a: SlotOffer, b: SlotOffer) returns (s: Slot)
    ensures Overlap(a, b) ==> Owns(a, s) && Owns(b, s)
    ensures !Overlap(a, b) ==> forall s' :: !(Owns(a, s') && Owns(b, s'))
  {
    s := Slot(a.taskManager, if a.used < b.used then b.used else a.used);
  }

  lemma {:induction false} DisjointCons(offers: seq<SlotOffer>)
    requires offers != []
    ensures Disjoint(offers)
       <==> Disjoint(offers[1..]) && forall s :: !(Owns(offers[0], s) && s in AllSlots(offers[1..]))
  {
    var o, rest := offers[0], offers[1..];
    if Disjoint(offers) {
      forall i, j | 0 <= i < j < |rest| ensures !Overlap(rest[i], rest[j]) {
        assert !Overlap(offers[i + 1], offers[j + 1]);
      }
      forall s ensures !(Owns(o, s) && s in AllSlots(rest)) {
        SlotOwner(rest, s);
        if j :| 0 <= j < |rest| && Owns(rest[j], s) {
          assert !Overlap(offers[0], offers[j + 1]);
          var _ := OverlapIsShared(o, rest[j]);
        }
      }
    }
    if Disjoint(rest) && forall s :: !(Owns(o, s) && s in AllSlots(rest)) {
      forall i, j | 0 <= i < j < |offers| ensures !Overlap(offers[i], offers[j]) {
        assert offers[j] == rest[j - 1];
        if i == 0 {
          var s := OverlapIsShared(o, rest[j - 1]);
          SlotOwner(rest, s);
        } else {
          assert offers[i] == rest[i - 1];
        }
      }
    }
  }

  lemma {:induction false} NoRepeatsSplit(a: seq<Slot>, b: seq<Slot>)
    ensures NoRepeats(a + b) <==> NoRepeats(a) && NoRepeats(b) && forall s :: !(s in a && s in b)
  {
    var all := a + b;
    if NoRepeats(all) {
      forall i, j | 0 <= i < j < |a| ensures a[i] != a[j] {
        assert all[i] == a[i] && all[j] == a[j];
      }
      forall i, j | 0 <= i < j < |b| ensures b[i] != b[j] {
        assert all[|a| + i] == b[i] && all[|a| + j] == b[j];
      }
      forall i, j | 0 <= i < |a| && 0 <= j < |b| ensures a[i] != b[j] {
        assert all[i] == a[i] && all[|a| + j] == b[j];
      }
    }
    if NoRepeats(a) && NoRepeats(b) && forall s :: !(s in a && s in b) {
      forall i, j | 0 <= i < j < |all| ensures all[i] != all[j] {
        if i < |a| <= j {
          assert a[i] in a && b[j - |a|] in b;
        }
      }
    }
  }

  lemma {:induction false} AllSlotsDistinctIff(offers: seq<SlotOffer>)
    ensures NoRepeats(AllSlots(offers)) <==> Disjoint(offers)
  {
    if offers != [] {
      AllSlotsDistinctIff(offers[1..]);
      DisjointCons(offers);
      NoRepeatsSplit(Slots(offers[0]), AllSlots(offers[1..]));
      forall s ensures s in Slots(offers[0]) <==> Owns(offers[0], s) {
        SlotsOwned(offers[0], s);
      }
    }
  }

  /** The queue is as long as the offers have room, distinct ids or not. */
  lemma {:induction false} QueueHoldsAll(offers: seq<SlotOffer>, strategy: Strategy)
    ensures multiset(SlotQueue(offers, strategy)) == multiset(AllSlots(offers))
    ensures |SlotQueue(offers, strategy)| == Free(offers)
  {
    var q := SlotQueue(offers, strategy);
    if strategy.Pack? {
      SortSorts(offers, LeastAvailable);
      AllSlotsPermuted(SortBy(offers, LeastAvailable), offers);
    } else {
      SortSorts(offers, MostAvailable);
      RoundsAreAll(SortBy(offers, MostAvailable), Deepest(SortBy(offers, MostAvailable)));
      AllSlotsPermuted(SortBy(offers, MostAvailable), offers);
    }
    AllSlotsLength(offers);
    assert |q| == |multiset(q)| == |AllSlots(offers)|;
  }

  /** Whatever the strategy, the queue holds the free slots of the offers, slot
      `used..total` of that TaskManager, and nothing else, and it holds each of them
      once if and only if no slot is offered twice. */
  lemma {:induction false} QueueIsExact(offers: seq<SlotOffer>, strategy: Strategy)
    ensures var q := SlotQueue(offers, strategy);
            && |q| == Free(offers) && multiset(q) == multiset(AllSlots(offers))
            && (NoRepeats(q) <==> Disjoint(offers))
            && forall s :: s in q <==> exists i :: 0 <= i < |offers| && offers[i].taskManager == s.taskManager
                                                   && offers[i].used <= s.index < offers[i].total
  {
    var q := SlotQueue(offers, strategy);
    QueueHoldsAll(offers, strategy);
    AllSlotsDistinctIff(offers);
    NoRepeatsIsOnce(AllSlots(offers));
    NoRepeatsIsOnce(q);
    forall s ensures s in q <==> exists i :: 0 <= i < |offers| && offers[i].taskManager == s.taskManager
                                             && offers[i].used <= s.index < offers[i].total {
      SlotOwner(offers, s);
      assert s in q <==> s in multiset(q);
      if i :| 0 <= i < |offers| && offers[i].taskManager == s.taskManager
              && offers[i].used <= s.index < offers[i].total {
        assert Owns(offers[i], s);
      }
    }
  }

  /** A TaskManager that offers its one slot twice has it handed out twice. */
  lemma {:induction false} OfferedTwiceExample(id: TaskManagerId, strategy: Strategy)
    ensures var offers := [SlotOffer(id, 1, 0), SlotOffer(id, 1, 0)];
            |Placement(offers, strategy, 2)| == 2 && !NoRepeats(Placement(offers, strategy, 2))
  {
    var offers := [SlotOffer(id, 1, 0), SlotOffer(id, 1, 0)];
    assert Overlap(offers[0], offers[1]);
    assert offers[1..] == [offers[1]] && offers[1..][1..] == [];
    assert Free(offers[1..][1..]) == 0 && Free(offers[1..]) == 1;
    QueueIsExact(offers, strategy);
    assert Placement(offers, strategy, 2) == SlotQueue(offers, strategy);
  }

  // ----- Pack -----

  /** The slots used by the first `demand` subtasks. */
  function Placement(offers: seq<SlotOffer>, strategy: Strategy, demand: nat): seq<Slot>
  {
    Last(SlotQueue(offers, strategy), demand)
  }

  ghost function Used(xs: seq<Slot>): set<Slot> { set s | s in xs }

  ghost function Touched(slots: set<Slot>): set<TaskManagerId> { set s | s in slots :: s.taskManager }

  /** Availability of the k offers at the end. */
  function Top(offers: seq<SlotOffer>, k: nat): nat
  {
    if k <= |offers| then Free(offers[|offers| - k..]) else Free(offers)
  }

  lemma {:induction false} FreeShifts(offers: seq<SlotOffer>, i: nat, k: nat)
    requires Ascending(offers, LeastAvailable) && i + k < |offers|
    ensures Free(offers[i..i + k]) <= Free(offers[i + 1..i + 1 + k])
    decreases k
  {
    if k != 0 {
      FreeShifts(offers, i + 1, k - 1);
      assert offers[i..i + k][1..] == offers[i + 1..i + k];
      assert offers[i + 1..i + 1 + k][1..] == offers[i + 2..i + 1 + k];
      assert LeastAvailable(offers[i]) <= LeastAvailable(offers[i + 1]);
    }
  }

  lemma {:induction false} TopWithoutLast(offers: seq<SlotOffer>, k: nat)
    requires offers != [] && Ascending(offers, LeastAvailable)
    ensures Top(offers[..|offers| - 1], k) <= Top(offers, k)
  {
    var n := |offers|;
    var front := offers[..n - 1];
    if k < n {
      FreeShifts(offers, n - 1 - k, k);
      assert front[n - 1 - k..] == offers[n - 1 - k..n - 1];
      assert offers[n - k..] == offers[n - k..n];
    } else {
      assert offers == front + [offers[n - 1]] && front[0..] == front && offers[0..] == offers;
      FreeAppend(front, [offers[n - 1]]);
    }
  }

  lemma {:induction false} TopTakesLast(offers: seq<SlotOffer>, k: nat)
    requires offers != [] && k > 0
    ensures Top(offers, k) == Top(offers[..|offers| - 1], k - 1) + Available(offers[|offers| - 1])
  {
    var n := |offers|;
    var front, tail := offers[..n - 1], if k <= n then n - k else 0;
    assert offers[tail..] == front[tail..] + [offers[n - 1]];
    FreeAppend(front[tail..], [offers[n - 1]]);
    assert offers[0..] == offers && front[0..] == front;
  }

  lemma {:induction false} TopAtLast(offers: seq<SlotOffer>, k: nat, left: nat)
    requires offers != [] && Ascending(offers, LeastAvailable) && left <= k <= left + 1
    ensures Top(offers[..|offers| - 1], left) + (if left == k then 0 else Available(offers[|offers| - 1]))
         <= Top(offers, k)
  {
    if left == k {
      TopWithoutLast(offers, k);
    } else {
      TopTakesLast(offers, k);
    }
  }

  lemma {:induction false} UsedAtMost(xs: seq<Slot>)
    ensures |Used(xs)| <= |xs|
    ensures NoRepeats(xs) ==> |Used(xs)| == |xs|
  {
    if xs != [] {
      UsedAtMost(xs[1..]);
      assert Used(xs) == Used(xs[1..]) + {xs[0]};
    }
  }

  ghost function Own(slots: set<Slot>, id: TaskManagerId): set<Slot> { set s | s in slots && s.taskManager == id }

  lemma {:induction false} BeforeOrLast(offers: seq<SlotOffer>, s: Slot)
    requires offers != [] && s in AllSlots(offers)
    requires forall i :: 0 <= i < |offers| - 1 ==> offers[i].taskManager != offers[|offers| - 1].taskManager
    ensures var o := offers[|offers| - 1];
            if s.taskManager == o.taskManager then s in Slots(o)
            else s !in Slots(o) && s in AllSlots(offers[..|offers| - 1])
  {
    var front, o := offers[..|offers| - 1], offers[|offers| - 1];
    InitAndLast(offers);
    AllSlotsAppend(front, [o]);
    assert AllSlots([o]) == Slots(o) by { assert [o][1..] == []; }
    SlotOwner(front, s);
  }

  /** A placement splits into the last offer's slots and those of the offers before it. */
  lemma {:induction false} SplitByLast(offers: seq<SlotOffer>, slots: set<Slot>)
    requires offers != [] && slots <= Used(AllSlots(offers))
    requires forall i :: 0 <= i < |offers| - 1 ==> offers[i].taskManager != offers[|offers| - 1].taskManager
    ensures var o := offers[|offers| - 1];
            && |Own(slots, o.taskManager)| <= Available(o)
            && slots - Own(slots, o.taskManager) <= Used(AllSlots(offers[..|offers| - 1]))
  {
    var front, o := offers[..|offers| - 1], offers[|offers| - 1];
    forall s | s in slots ensures s.taskManager == o.taskManager <==> s in Slots(o)
                          ensures s in AllSlots(front) || s in Slots(o) {
      BeforeOrLast(offers, s);
    }
    UsedAtMost(Slots(o));
    SubsetSize(Own(slots, o.taskManager), Used(Slots(o)));
  }

  lemma {:induction false} OthersTouch(slots: set<Slot>, id: TaskManagerId, s: Slot)
    requires s in slots && s.taskManager == id
    ensures |Touched(slots - Own(slots, id))| < |Touched(slots)|
  {
    assert id in Touched(slots);
    assert Touched(slots - Own(slots, id)) <= Touched(slots) - {id};
    SubsetSize(Touched(slots - Own(slots, id)), Touched(slots) - {id});
  }

  /** How many TaskManagers a placement may still touch once the last offer's slots are set aside. */
  lemma {:induction false} TouchesLeft(slots: set<Slot>, id: TaskManagerId, k: nat) returns (left: nat)
    requires |Touched(slots)| <= k
    ensures |Touched(slots - Own(slots, id))| <= left <= k
    ensures left == k <==> Own(slots, id) == {}
    ensures left + 1 >= k
  {
    if Own(slots, id) == {} {
      assert slots - Own(slots, id) == slots;
      left := k;
    } else {
      var s :| s in Own(slots, id);
      OthersTouch(slots, id, s);
      left := k - 1;
    }
  }

  lemma {:induction false} SizeSplits(slots: set<Slot>, own: set<Slot>)
    requires own <= slots
    ensures |slots| == |own| + |slots - own|
  {
    assert slots == own + (slots - own);
  }

  lemma {:induction false} FrontIsOrdered(offers: seq<SlotOffer>)
    requires offers != [] && WellFormed(offers) && Ascending(offers, LeastAvailable)
    ensures WellFormed(offers[..|offers| - 1]) && Ascending(offers[..|offers| - 1], LeastAvailable)
    ensures forall i :: 0 <= i < |offers| - 1 ==> offers[i].taskManager != offers[|offers| - 1].taskManager
  {
  }

  /** A placement that touches at most k TaskManagers has at most the k largest availabilities. */
  lemma {:induction false} FewTouchedFewPlaced(offers: seq<SlotOffer>, slots: set<Slot>, k: nat)
    requires WellFormed(offers) && Ascending(offers, LeastAvailable)
    requires slots <= Used(AllSlots(offers)) && |Touched(slots)| <= k
    ensures |slots| <= Top(offers, k)
  {
    if slots != {} {
      var front, id := offers[..|offers| - 1], offers[|offers| - 1].taskManager;
      FrontIsOrdered(offers);
      SplitByLast(offers, slots);
      var left := TouchesLeft(slots, id, k);
      SizeSplits(slots, Own(slots, id));
      FewTouchedFewPlaced(front, slots - Own(slots, id), left);
      TopAtLast(offers, k, left);
    }
  }

  /** The fewest offers, taken from the end, that have room for `demand`. */
  lemma {:induction false} EnoughFromEnd(offers: seq<SlotOffer>, demand: nat, k: nat) returns (m: nat)
    requires k <= |offers| && demand <= Top(offers, k)
    ensures m <= k && demand <= Top(offers, m) && (m == 0 || Top(offers, m - 1) < demand)
  {
    if k == 0 || Top(offers, k - 1) < demand {
      m := k;
    } else {
      m := EnoughFromEnd(offers, demand, k - 1);
    }
  }

  function Ids(offers: seq<SlotOffer>): seq<TaskManagerId>
  {
    seq(|offers|, i requires 0 <= i < |offers| => offers[i].taskManager)
  }

  lemma {:induction false} IdSetAtMost(ids: seq<TaskManagerId>)
    ensures |set x | x in ids| <= |ids|
  {
    if ids != [] {
      IdSetAtMost(ids[1..]);
      assert (set x | x in ids) == (set x | x in ids[1..]) + {ids[0]};
    }
  }

  /** The last `demand` slots of the queue all belong to the last m offers, if those have room. */
  lemma {:induction false} SuffixOwners(offers: seq<SlotOffer>, demand: nat, m: nat)
    requires m <= |offers| && demand <= Top(offers, m)
    ensures demand <= |AllSlots(offers)|
    ensures forall s :: s in Last(AllSlots(offers), demand) ==> s in AllSlots(offers[|offers| - m..])
  {
    var front, back := offers[..|offers| - m], offers[|offers| - m..];
    assert offers == front + back;
    AllSlotsAppend(front, back);
    AllSlotsLength(back);
    var all := AllSlots(offers);
    assert all[|all| - demand..] == AllSlots(back)[|AllSlots(back)| - demand..];
  }

  lemma {:induction false} OwnersTouched(back: seq<SlotOffer>, slots: set<Slot>)
    requires forall s :: s in slots ==> s in AllSlots(back)
    ensures |Touched(slots)| <= |back|
  {
    var ids := Ids(back);
    forall t | t in Touched(slots) ensures t in set x | x in ids {
      var s :| s in slots && s.taskManager == t;
      SlotOwner(back, s);
      var i :| 0 <= i < |back| && back[i].taskManager == t;
      assert ids[i] == t;
    }
    IdSetAtMost(ids);
    SubsetSize(Touched(slots), set x | x in ids);
  }

  lemma {:induction false} SortedPack(offers: seq<SlotOffer>)
    requires WellFormed(offers)
    ensures var sorted := SortBy(offers, LeastAvailable);
            && WellFormed(sorted) && Ascending(sorted, LeastAvailable)
            && multiset(sorted) == multiset(offers) && Used(AllSlots(sorted)) == Used(AllSlots(offers))
            && Free(sorted) == Free(offers)
  {
    var sorted := SortBy(offers, LeastAvailable);
    SortSorts(offers, LeastAvailable);
    AllSlotsPermuted(sorted, offers);
    PermutedWellFormed(offers, sorted);
    forall s ensures s in AllSlots(sorted) <==> s in AllSlots(offers) {
      assert s in AllSlots(sorted) <==> s in multiset(AllSlots(sorted));
    }
  }

  lemma {:induction false} PermutedWellFormed(xs: seq<SlotOffer>, ys: seq<SlotOffer>)
    requires WellFormed(xs) && multiset(xs) == multiset(ys)
    ensures WellFormed(ys)
  {
    forall i | 0 <= i < |ys| ensures Sound(ys[i]) {
      assert ys[i] in multiset(xs);
    }
    forall i, j | 0 <= i < j < |ys| ensures ys[i].taskManager != ys[j].taskManager {
      if ys[i].taskManager == ys[j].taskManager {
        assert ys[i] in multiset(xs) && ys[j] in multiset(xs);
        assert ys[i] == ys[j];
        Twice(ys, i, j);
        OnceEach(xs, ys[i]);
      }
    }
  }

  lemma {:induction false} Twice(ys: seq<SlotOffer>, i: nat, j: nat)
    requires i < j < |ys| && ys[i] == ys[j]
    ensures multiset(ys)[ys[i]] >= 2
  {
    assert ys == ys[..j] + ([ys[j]] + ys[j + 1..]);
    assert ys[..j][i] == ys[i];
    assert multiset(ys[..j])[ys[i]] >= 1;
  }

  lemma {:induction false} OnceEach(xs: seq<SlotOffer>, o: SlotOffer)
    requires WellFormed(xs)
    ensures multiset(xs)[o] <= 1
  {
    if xs != [] {
      OnceEach(xs[1..], o);
      assert xs == [xs[0]] + xs[1..];
      if o == xs[0] {
        assert forall i :: 0 <= i < |xs[1..]| ==> xs[1..][i] == xs[i + 1];
        assert o !in xs[1..];
      }
    }
  }

  lemma {:induction false} SuffixIsOptimal(sorted: seq<SlotOffer>, demand: nat, other: set<Slot>)
    requires WellFormed(sorted) && Ascending(sorted, LeastAvailable) && demand <= Free(sorted)
    requires other <= Used(AllSlots(sorted)) && |other| == demand
    ensures |AllSlots(sorted)| == Free(sorted)
    ensures |Touched(Used(Last(AllSlots(sorted), demand)))| <= |Touched(other)|
  {
    AllSlotsLength(sorted);
    assert sorted[0..] == sorted;
    var m := EnoughFromEnd(sorted, demand, |sorted|);
    SuffixOwners(sorted, demand, m);
    OwnersTouched(sorted[|sorted| - m..], Used(Last(AllSlots(sorted), demand)));
    if |Touched(other)| < m {
      FewTouchedFewPlaced(sorted, other, |Touched(other)|);
      TopMonotone(sorted, |Touched(other)|, m - 1);
    }
  }

  /** Pack is optimal: no placement of as many subtasks on free slots of these
      offers touches fewer TaskManagers. */
  lemma {:induction false} PackIsOptimal(offers: seq<SlotOffer>, demand: nat, other: set<Slot>)
    requires WellFormed(offers) && demand <= Free(offers)
    requires other <= Used(AllSlots(offers)) && |other| == demand
    ensures |SlotQueue(offers, Pack)| == Free(offers)
    ensures |Touched(Used(Placement(offers, Pack, demand)))| <= |Touched(other)|
  {
    SortedPack(offers);
    SuffixIsOptimal(SortBy(offers, LeastAvailable), demand, other);
  }

  lemma {:induction false} TopMonotone(offers: seq<SlotOffer>, j: nat, k: nat)
    requires j <= k <= |offers|
    ensures Top(offers, j) <= Top(offers, k)
  {
    var n := |offers|;
    assert offers[n - k..] == offers[n - k..n - j] + offers[n - j..];
    FreeAppend(offers[n - k..n - j], offers[n - j..]);
  }

  ghost predicate PartlyUsed(o: SlotOffer, placed: seq<Slot>)
  {
    (exists s :: s in Slots(o) && s in placed) && (exists s :: s in Slots(o) && s !in placed)
  }

  lemma {:induction false} PartialIsLast(sorted: seq<SlotOffer>, demand: nat, m: nat, i: nat)
    requires WellFormed(sorted) && i < |sorted| && m <= |sorted|
    requires demand <= Top(sorted, m) && (m == 0 || Top(sorted, m - 1) < demand)
    requires demand <= |AllSlots(sorted)|
    requires PartlyUsed(sorted[i], Last(AllSlots(sorted), demand))
    ensures i == |sorted| - m
  {
    var placed := Last(AllSlots(sorted), demand);
    var s :| s in Slots(sorted[i]) && s in placed;
    assert i >= |sorted| - m by {
      SuffixOwners(sorted, demand, m);
      OwnerIsLate(sorted, |sorted| - m, i, s);
    }
    if i > |sorted| - m {
      var f :| f in Slots(sorted[i]) && f !in placed;
      TopMonotoneTail(sorted, |sorted| - m + 1, i);
      FullBehind(sorted, demand, i, i, f);
    }
  }

  lemma {:induction false} TopMonotoneTail(offers: seq<SlotOffer>, i: nat, j: nat)
    requires i <= j <= |offers|
    ensures Free(offers[j..]) <= Free(offers[i..])
  {
    assert offers[i..] == offers[i..j] + offers[j..];
    FreeAppend(offers[i..j], offers[j..]);
  }

  lemma {:induction false} OwnerIsLate(offers: seq<SlotOffer>, from: nat, i: nat, s: Slot)
    requires WellFormed(offers) && from <= |offers| && i < |offers|
    requires s in Slots(offers[i]) && s in AllSlots(offers[from..])
    ensures from <= i
  {
    var back := offers[from..];
    SlotOwner(back, s);
    var k :| 0 <= k < |back| && back[k].taskManager == s.taskManager;
    assert back[k] == offers[from + k];
  }

  /** The offers whose room the placement needs in full are used in full. */
  lemma {:induction false} FullBehind(sorted: seq<SlotOffer>, demand: nat, from: nat, i: nat, f: Slot)
    requires from <= i < |sorted| && Free(sorted[from..]) <= demand <= |AllSlots(sorted)| && f in Slots(sorted[i])
    ensures f in Last(AllSlots(sorted), demand)
  {
    var all, front, back := AllSlots(sorted), sorted[..from], sorted[from..];
    assert sorted == front + back;
    AllSlotsAppend(front, back);
    AllSlotsLength(back);
    assert back[i - from] == sorted[i];
    SlotOwner(back, f);
    var p :| 0 <= p < |AllSlots(back)| && AllSlots(back)[p] == f;
    assert all[|all| - |AllSlots(back)| + p] == f;
    assert Last(all, demand)[demand - |AllSlots(back)| + p] == f;
  }

  /** Pack leaves at most one TaskManager with its free slots partly used. */
  lemma {:induction false} PackLeavesOnePartial(offers: seq<SlotOffer>, demand: nat, a: SlotOffer, b: SlotOffer)
    requires WellFormed(offers) && demand <= Free(offers) && a in offers && b in offers
    requires PartlyUsed(a, Placement(offers, Pack, demand)) && PartlyUsed(b, Placement(offers, Pack, demand))
    ensures a == b
  {
    var sorted := SortBy(offers, LeastAvailable);
    assert WellFormed(sorted) && Free(sorted) == Free(offers) && a in sorted && b in sorted by {
      SortedPack(offers);
      assert a in multiset(sorted) && b in multiset(sorted);
    }
    QueueHoldsAll(offers, Pack);
    OnePartial(sorted, demand, a, b);
  }

  lemma {:induction false} OnePartial(sorted: seq<SlotOffer>, demand: nat, a: SlotOffer, b: SlotOffer)
    requires WellFormed(sorted) && demand <= Free(sorted) && demand <= |AllSlots(sorted)|
    requires a in sorted && b in sorted
    requires var placed := Last(AllSlots(sorted), demand); PartlyUsed(a, placed) && PartlyUsed(b, placed)
    ensures a == b
  {
    assert sorted[0..] == sorted;
    var m := EnoughFromEnd(sorted, demand, |sorted|);
    var i :| 0 <= i < |sorted| && sorted[i] == a;
    var j :| 0 <= j < |sorted| && sorted[j] == b;
    PartialIsLast(sorted, demand, m, i);
    PartialIsLast(sorted, demand, m, j);
  }
}
