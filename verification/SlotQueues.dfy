/** The order in which free TaskManager slots are handed out, and what the two
    strategies make of it. Slots are taken from the END of the queue. */
module SlotQueues {
  import opened Streams

  type TaskManagerId = string

  datatype SlotOffer = SlotOffer(taskManager: TaskManagerId, total: nat, used: nat)

  datatype Slot = Slot(taskManager: TaskManagerId, index: nat)

  datatype Strategy = Spread | Pack

  /** An offer never reports more used slots than it has. */
  predicate Sound(o: SlotOffer) { o.used <= o.total }

  function Available(o: SlotOffer): nat { if Sound(o) then o.total - o.used else 0 }

  ghost predicate AllSound(offers: seq<SlotOffer>) { forall i :: 0 <= i < |offers| ==> Sound(offers[i]) }

  /** Offers as TaskManagers make them: sound, and one each. */
  ghost predicate WellFormed(offers: seq<SlotOffer>)
  {
    && AllSound(offers)
    && (forall i, j :: 0 <= i < j < |offers| ==> offers[i].taskManager != offers[j].taskManager)
  }

  function Free(offers: seq<SlotOffer>): nat
  {
    if offers == [] then 0 else Available(offers[0]) + Free(offers[1..])
  }

  // ----- stable sorting by a key -----

  function InsertBy(xs: seq<SlotOffer>, x: SlotOffer, key: SlotOffer -> int): seq<SlotOffer>
  {
    if xs == [] || key(x) >= key(xs[|xs| - 1]) then xs + [x]
    else InsertBy(xs[..|xs| - 1], x, key) + [xs[|xs| - 1]]
  }

  /** The library's stable sort. */
  function SortBy(xs: seq<SlotOffer>, key: SlotOffer -> int): seq<SlotOffer>
  {
    if xs == [] then [] else InsertBy(SortBy(xs[..|xs| - 1], key), xs[|xs| - 1], key)
  }

  ghost predicate Ascending(xs: seq<SlotOffer>, key: SlotOffer -> int)
  {
    forall i, j :: 0 <= i < j < |xs| ==> key(xs[i]) <= key(xs[j])
  }

  lemma {:induction false} InsertKeepsAll(xs: seq<SlotOffer>, x: SlotOffer, key: SlotOffer -> int)
    ensures multiset(InsertBy(xs, x, key)) == multiset(xs) + multiset{x}
  {
    if xs != [] && key(x) < key(xs[|xs| - 1]) {
      InsertKeepsAll(xs[..|xs| - 1], x, key);
      InitAndLast(xs);
    }
  }

  lemma {:induction false} InsertAtMost(xs: seq<SlotOffer>, x: SlotOffer, key: SlotOffer -> int, k: int)
    requires (forall i :: 0 <= i < |xs| ==> key(xs[i]) <= k) && key(x) <= k
    ensures forall i :: 0 <= i < |InsertBy(xs, x, key)| ==> key(InsertBy(xs, x, key)[i]) <= k
  {
    if xs != [] && key(x) < key(xs[|xs| - 1]) {
      InsertAtMost(xs[..|xs| - 1], x, key, k);
    }
  }

  lemma {:induction false} InsertSorts(xs: seq<SlotOffer>, x: SlotOffer, key: SlotOffer -> int)
    requires Ascending(xs, key)
    ensures Ascending(InsertBy(xs, x, key), key)
    ensures multiset(InsertBy(xs, x, key)) == multiset(xs) + multiset{x}
  {
    InsertKeepsAll(xs, x, key);
    if xs != [] && key(x) < key(xs[|xs| - 1]) {
      InsertSorts(xs[..|xs| - 1], x, key);
      InsertAtMost(xs[..|xs| - 1], x, key, key(xs[|xs| - 1]));
    }
  }

  lemma {:induction false} SortSorts(xs: seq<SlotOffer>, key: SlotOffer -> int)
    ensures Ascending(SortBy(xs, key), key)
    ensures multiset(SortBy(xs, key)) == multiset(xs)
  {
    if xs != [] {
      SortSorts(xs[..|xs| - 1], key);
      InsertSorts(SortBy(xs[..|xs| - 1], key), xs[|xs| - 1], key);
      assert xs == xs[..|xs| - 1] + [xs[|xs| - 1]];
    }
  }

  function LeastAvailable(o: SlotOffer): int { Available(o) }

  function MostAvailable(o: SlotOffer): int { 0 - (Available(o) as int) }

  // ----- the two queues -----

  function Slots(o: SlotOffer): seq<Slot>
  {
    seq(Available(o), i requires 0 <= i => Slot(o.taskManager, o.used + i))
  }

  function AllSlots(offers: seq<SlotOffer>): seq<Slot>
  {
    if offers == [] then [] else Slots(offers[0]) + AllSlots(offers[1..])
  }

  function SlotAt(r: nat): SlotOffer -> Option<Slot>
  {
    (o: SlotOffer) => if r < Available(o) then Some(Slot(o.taskManager, o.used + r)) else None
  }

  /** Slot number r of every offer that has one. */
  function Round(offers: seq<SlotOffer>, r: nat): seq<Slot> { FilterMap(offers, SlotAt(r)) }

  function Rounds(offers: seq<SlotOffer>, lo: nat, hi: nat): seq<Slot>
    decreases hi - lo
  {
    if lo >= hi then [] else Round(offers, lo) + Rounds(offers, lo + 1, hi)
  }

  function Deepest(offers: seq<SlotOffer>): nat
  {
    if offers == [] then 0
    else if Available(offers[0]) > Deepest(offers[1..]) then Available(offers[0])
    else Deepest(offers[1..])
  }

  function SlotQueue(offers: seq<SlotOffer>, strategy: Strategy): seq<Slot>
  {
    match strategy
    case Pack => AllSlots(SortBy(offers, LeastAvailable))
    case Spread => var sorted := SortBy(offers, MostAvailable); Rounds(sorted, 0, Deepest(sorted))
  }

  /** The slots in the last `demand` positions, which are handed out first. */
  function Last(q: seq<Slot>, demand: nat): seq<Slot>
  {
    if demand <= |q| then q[|q| - demand..] else q
  }

  /** `build_slot_queue`. */
  method BuildSlotQueue(offers: seq<SlotOffer>, strategy: Strategy) returns (result: seq<Slot>)
    requires AllSound(offers)
    ensures result == SlotQueue(offers, strategy)
  {
    match strategy
    case Spread =>
      var sorted := SortBy(offers, MostAvailable);
      result := Interleave(sorted);
    case Pack =>
      var sorted := SortBy(offers, LeastAvailable);
      result := [];
      for j := 0 to |sorted|
        invariant result == AllSlots(sorted[..j])
      {
        assert sorted[..j + 1] == sorted[..j] + [sorted[j]];
        AllSlotsAppend(sorted[..j], [sorted[j]]);
        result := result + Slots(sorted[j]);
      }
      assert sorted[..|sorted|] == sorted;
  }

  /** Round-robin: one slot from the front of every queue in turn, until none is left. */
  method Interleave(sorted: seq<SlotOffer>) returns (result: seq<Slot>)
    ensures result == Rounds(sorted, 0, Deepest(sorted))
  {
    var queues := seq(|sorted|, j requires 0 <= j < |sorted| => Slots(sorted[j]));
    result := [];
    var any := true;
    ghost var r: nat := 0;
    while any
      invariant |queues| == |sorted| && forall j :: 0 <= j < |sorted| ==> queues[j] == Rest(sorted[j], r)
      invariant result == Rounds(sorted, 0, r)
      invariant if any then r <= Deepest(sorted) else r == Deepest(sorted) + 1
      decreases Deepest(sorted) + 1 - r
    {
      RoundsSnoc(sorted, 0, r);
      RoundEmpty(sorted, r);
      queues, result, any := OneRound(sorted, queues, result, r);
      r := r + 1;
    }
    RoundsSnoc(sorted, 0, Deepest(sorted));
    RoundEmpty(sorted, Deepest(sorted));
  }

  method OneRound(ghost sorted: seq<SlotOffer>, queues: seq<seq<Slot>>, result: seq<Slot>, ghost r: nat)
    returns (queues': seq<seq<Slot>>, result': seq<Slot>, any: bool)
    requires |queues| == |sorted| && forall j :: 0 <= j < |sorted| ==> queues[j] == Rest(sorted[j], r)
    ensures |queues'| == |sorted| && forall j :: 0 <= j < |sorted| ==> queues'[j] == Rest(sorted[j], r + 1)
    ensures result' == result + Round(sorted, r)
    ensures any <==> Round(sorted, r) != []
  {
    queues', result', any := queues, result, false;
    ghost var handed: seq<Slot> := [];
    for j := 0 to |queues|
      invariant |queues'| == |sorted|
      invariant forall i :: 0 <= i < j ==> queues'[i] == Rest(sorted[i], r + 1)
      invariant forall i :: j <= i < |sorted| ==> queues'[i] == Rest(sorted[i], r)
      invariant handed == Round(sorted[..j], r) && result' == result + handed
      invariant any <==> handed != []
    {
      RoundNext(sorted, r, j);
      RestStep(sorted[j], r);
      if queues'[j] != [] {
        result' := result' + [queues'[j][0]];
        handed := handed + [queues'[j][0]];
        queues' := queues'[j := queues'[j][1..]];
        any := true;
      }
    }
    assert sorted[..|sorted|] == sorted;
  }

  lemma {:induction false} RoundNext(sorted: seq<SlotOffer>, r: nat, j: nat)
    requires j < |sorted|
    ensures Round(sorted[..j + 1], r) == Round(sorted[..j], r) + AsSeq(SlotAt(r)(sorted[j]))
  {
    assert sorted[..j + 1] == sorted[..j] + [sorted[j]];
    FilterMapSnoc(sorted[..j], sorted[j], SlotAt(r));
  }

  /** A round takes an offer's first remaining slot, if there is one. */
  lemma {:induction false} RestStep(o: SlotOffer, r: nat)
    ensures Rest(o, r) == AsSeq(SlotAt(r)(o)) + Rest(o, r + 1)
    ensures Rest(o, r) == [] ==> Rest(o, r + 1) == []
  {
  }

  /** What is left of an offer's slots after r rounds. */
  function Rest(o: SlotOffer, r: nat): seq<Slot>
  {
    if r <= Available(o) then Slots(o)[r..] else []
  }

  lemma {:induction false} RoundsSnoc(offers: seq<SlotOffer>, lo: nat, hi: nat)
    requires lo <= hi
    ensures Rounds(offers, lo, hi + 1) == Rounds(offers, lo, hi) + Round(offers, hi)
    decreases hi - lo
  {
    if lo < hi {
      RoundsSnoc(offers, lo + 1, hi);
    }
  }

  lemma {:induction false} RoundEmpty(offers: seq<SlotOffer>, r: nat)
    ensures Round(offers, r) == [] <==> r >= Deepest(offers)
  {
    if offers != [] {
      RoundEmpty(offers[1..], r);
    }
  }

  lemma {:induction false} AllSlotsAppend(a: seq<SlotOffer>, b: seq<SlotOffer>)
    ensures AllSlots(a + b) == AllSlots(a) + AllSlots(b)
  {
    if a == [] {
      assert a + b == b;
    } else {
      assert (a + b)[1..] == a[1..] + b;
      AllSlotsAppend(a[1..], b);
    }
  }
}
