/** The order inside the slot queue: ties between offers, and the slots of one TaskManager. */
module SlotOrders {
  import opened Streams
  import opened SlotQueues
  import opened SlotTheorems
  import opened SpreadTheorems

  // ----- offers of equal availability -----

  function WithKey(key: SlotOffer -> int, k: int): SlotOffer -> Option<SlotOffer>
  {
    (o: SlotOffer) => if key(o) == k then Some(o) else None
  }

  lemma {:induction false} InsertBehindEqual(xs: seq<SlotOffer>, x: SlotOffer, key: SlotOffer -> int, k: int)
    requires Ascending(xs, key)
    ensures FilterMap(InsertBy(xs, x, key), WithKey(key, k))
         == FilterMap(xs, WithKey(key, k)) + if key(x) == k then [x] else []
  {
    if xs == [] || key(x) >= key(xs[|xs| - 1]) {
      FilterMapSnoc(xs, x, WithKey(key, k));
    } else {
      var front, last := xs[..|xs| - 1], xs[|xs| - 1];
      InsertBehindEqual(front, x, key, k);
      FilterMapSnoc(InsertBy(front, x, key), last, WithKey(key, k));
      FilterMapSnoc(front, last, WithKey(key, k));
      InitAndLast(xs);
    }
  }

  /** Sorting leaves the offers of one key in the order in which they were made. */
  lemma {:induction false} SortIsStable(xs: seq<SlotOffer>, key: SlotOffer -> int, k: int)
    ensures FilterMap(SortBy(xs, key), WithKey(key, k)) == FilterMap(xs, WithKey(key, k))
  {
    if xs != [] {
      var front, last := xs[..|xs| - 1], xs[|xs| - 1];
      SortIsStable(front, key, k);
      SortSorts(front, key);
      InsertBehindEqual(SortBy(front, key), last, key, k);
      FilterMapSnoc(front, last, WithKey(key, k));
      InitAndLast(xs);
    }
  }

  // ----- the slots of one TaskManager -----

  function Of(id: TaskManagerId): Slot -> Option<Slot>
  {
    (s: Slot) => if s.taskManager == id then Some(s) else None
  }

  ghost predicate AllOf(s: seq<Slot>, id: TaskManagerId) { forall i :: 0 <= i < |s| ==> s[i].taskManager == id }

  lemma {:induction false} OneOwner(s: seq<Slot>, owner: TaskManagerId, id: TaskManagerId)
    requires AllOf(s, owner)
    ensures FilterMap(s, Of(id)) == if owner == id then s else []
  {
    if s != [] {
      OneOwner(s[1..], owner, id);
    }
  }

  /** What one offer has at index r. */
  function OwnAt(o: SlotOffer, r: nat): seq<Slot> { AsSeq(SlotAt(r)(o)) }

  ghost predicate DistinctIds(offers: seq<SlotOffer>)
  {
    forall i, j :: 0 <= i < j < |offers| ==> offers[i].taskManager != offers[j].taskManager
  }

  lemma {:induction false} NoneInRound(offers: seq<SlotOffer>, id: TaskManagerId, r: nat)
    requires forall i :: 0 <= i < |offers| ==> offers[i].taskManager != id
    ensures FilterMap(Round(offers, r), Of(id)) == []
  {
    if offers != [] {
      NoneInRound(offers[1..], id, r);
      OneOwner(OwnAt(offers[0], r), offers[0].taskManager, id);
      FilterMapAppend(OwnAt(offers[0], r), Round(offers[1..], r), Of(id));
    }
  }

  lemma {:induction false} NoneInAll(offers: seq<SlotOffer>, id: TaskManagerId)
    requires forall i :: 0 <= i < |offers| ==> offers[i].taskManager != id
    ensures FilterMap(AllSlots(offers), Of(id)) == []
  {
    if offers != [] {
      NoneInAll(offers[1..], id);
      OneOwner(Slots(offers[0]), offers[0].taskManager, id);
      FilterMapAppend(Slots(offers[0]), AllSlots(offers[1..]), Of(id));
    }
  }

  lemma {:induction false} OwnPart(offers: seq<SlotOffer>, j: nat, r: nat)
    requires j < |offers| && DistinctIds(offers)
    ensures FilterMap(Round(offers, r), Of(offers[j].taskManager)) == OwnAt(offers[j], r)
  {
    var first, rest, id := offers[0], offers[1..], offers[j].taskManager;
    OneOwner(OwnAt(first, r), first.taskManager, id);
    FilterMapAppend(OwnAt(first, r), Round(rest, r), Of(id));
    if j == 0 {
      NoneInRound(rest, id, r);
    } else {
      OwnPart(rest, j - 1, r);
    }
  }

  lemma {:induction false} OwnBlock(offers: seq<SlotOffer>, j: nat)
    requires j < |offers| && DistinctIds(offers)
    ensures FilterMap(AllSlots(offers), Of(offers[j].taskManager)) == Slots(offers[j])
  {
    var first, rest, id := offers[0], offers[1..], offers[j].taskManager;
    OneOwner(Slots(first), first.taskManager, id);
    FilterMapAppend(Slots(first), AllSlots(rest), Of(id));
    if j == 0 {
      NoneInAll(rest, id);
      assert Slots(first) + [] == Slots(first);
    } else {
      OwnBlock(rest, j - 1);
    }
  }

  lemma {:induction false} OwnRounds(offers: seq<SlotOffer>, j: nat, lo: nat, hi: nat)
    requires j < |offers| && DistinctIds(offers) && lo <= hi && Available(offers[j]) <= hi
    ensures FilterMap(Rounds(offers, lo, hi), Of(offers[j].taskManager)) == Rest(offers[j], lo)
    decreases hi - lo
  {
    if lo < hi {
      OwnRounds(offers, j, lo + 1, hi);
      OwnPart(offers, j, lo);
      FilterMapAppend(Round(offers, lo), Rounds(offers, lo + 1, hi), Of(offers[j].taskManager));
      RestStep(offers[j], lo);
    }
  }

  /** Under either strategy the free slots of a TaskManager stand in the queue from the
      lowest index up, so they are handed out from the highest down. */
  lemma {:induction false} OwnSlotsAscend(offers: seq<SlotOffer>, strategy: Strategy, o: SlotOffer)
    requires WellFormed(offers) && o in offers
    ensures var own := FilterMap(SlotQueue(offers, strategy), Of(o.taskManager));
            |own| == o.total - o.used && forall i :: 0 <= i < |own| ==> own[i] == Slot(o.taskManager, o.used + i)
  {
    var key := if strategy.Pack? then LeastAvailable else MostAvailable;
    var sorted := SortBy(offers, key);
    SortSorts(offers, key);
    PermutedWellFormed(offers, sorted);
    assert o in multiset(sorted);
    var j :| 0 <= j < |sorted| && sorted[j] == o;
    if strategy.Pack? {
      OwnBlock(sorted, j);
    } else {
      DeepestIsMost(sorted, j);
      OwnRounds(sorted, j, 0, Deepest(sorted));
    }
  }
}
