/** When the Spread strategy really spreads evenly. */
module SpreadTheorems {
  import opened Streams
  import opened SlotQueues
  import opened SlotTheorems

  function OfManager(id: TaskManagerId): Slot -> Option<Slot>
  {
    (s: Slot) => if s.taskManager == id then Some(s) else None
  }

  /** How many of these slots are on TaskManager `id`. */
  function Count(xs: seq<Slot>, id: TaskManagerId): nat { |FilterMap(xs, OfManager(id))| }

  lemma {:induction false} CountAppend(xs: seq<Slot>, ys: seq<Slot>, id: TaskManagerId)
    ensures Count(xs + ys, id) == Count(xs, id) + Count(ys, id)
  {
    FilterMapAppend(xs, ys, OfManager(id));
  }

  lemma {:induction false} CountElsewhere(offers: seq<SlotOffer>, r: nat, t: nat, id: TaskManagerId)
    requires t <= |Round(offers, r)| && forall i :: 0 <= i < |offers| ==> offers[i].taskManager != id
    ensures Count(Round(offers, r)[t..], id) == 0
  {
    if offers != [] {
      var rest := Round(offers[1..], r);
      if r < Available(offers[0]) {
        if t > 0 {
          CountElsewhere(offers[1..], r, t - 1, id);
          assert Round(offers, r)[t..] == rest[t - 1..];
        } else {
          CountElsewhere(offers[1..], r, 0, id);
          assert rest[0..] == rest;
          assert Round(offers, r)[t..] == Round(offers, r);
        }
      } else {
        CountElsewhere(offers[1..], r, t, id);
      }
    }
  }

  /** Offers sorted by falling availability: a round is taken by the first ones, in
      order, so what is left of it from position t on belongs to offers t and later. */
  lemma {:induction false} CountInRound(offers: seq<SlotOffer>, r: nat, t: nat, j: nat)
    requires WellFormed(offers) && Ascending(offers, MostAvailable) && j < |offers| && t <= |Round(offers, r)|
    ensures Count(Round(offers, r)[t..], offers[j].taskManager) == if r < Available(offers[j]) && t <= j then 1 else 0
  {
    var o, rest, id := offers[0], offers[1..], offers[j].taskManager;
    assert forall i :: 0 <= i < |rest| ==> rest[i] == offers[i + 1];
    assert MostAvailable(offers[0]) <= MostAvailable(offers[j]) by {
      if j > 0 { assert MostAvailable(offers[0]) <= MostAvailable(offers[j]); }
    }
    if Available(o) <= r {
      NothingThisDeep(offers, r);
    } else {
      var slot := Slot(o.taskManager, o.used + r);
      assert Round(offers, r) == [slot] + Round(rest, r);
      var u := if t > 0 then t - 1 else 0;
      if j > 0 {
        CountInRound(rest, r, u, j - 1);
      } else {
        CountElsewhere(rest, r, u, id);
      }
      if t > 0 {
        assert Round(offers, r)[t..] == Round(rest, r)[u..];
      } else {
        assert Round(offers, r)[t..] == [slot] + Round(rest, r)[u..];
        CountAppend([slot], Round(rest, r)[u..], id);
        assert Count([slot], id) == if j == 0 then 1 else 0 by { assert [slot][1..] == []; }
      }
    }
  }

  lemma {:induction false} NothingThisDeep(offers: seq<SlotOffer>, r: nat)
    requires Ascending(offers, MostAvailable) && (offers != [] ==> Available(offers[0]) <= r)
    ensures Round(offers, r) == []
  {
    if offers != [] {
      if |offers| > 1 {
        assert MostAvailable(offers[0]) <= MostAvailable(offers[1]);
      }
      NothingThisDeep(offers[1..], r);
    }
  }

  lemma {:induction false} CountInRounds(offers: seq<SlotOffer>, lo: nat, hi: nat, j: nat)
    requires WellFormed(offers) && Ascending(offers, MostAvailable) && j < |offers| && Available(offers[j]) <= hi
    ensures Count(Rounds(offers, lo, hi), offers[j].taskManager)
         == if lo < Available(offers[j]) then Available(offers[j]) - lo else 0
    decreases hi - lo
  {
    if lo < hi {
      CountInRounds(offers, lo + 1, hi, j);
      CountInRound(offers, lo, 0, j);
      assert Round(offers, lo)[0..] == Round(offers, lo);
      CountAppend(Round(offers, lo), Rounds(offers, lo + 1, hi), offers[j].taskManager);
    }
  }

  /** What is taken from the end is the end of one round and all deeper rounds. */
  lemma {:induction false} SuffixForm(offers: seq<SlotOffer>, lo: nat, hi: nat, demand: nat) returns (r: nat, t: nat)
    requires 0 < demand <= |Rounds(offers, lo, hi)|
    ensures lo <= r < hi && t <= |Round(offers, r)|
    ensures Rounds(offers, lo, hi)[|Rounds(offers, lo, hi)| - demand..]
         == Round(offers, r)[t..] + Rounds(offers, r + 1, hi)
    ensures demand == |Round(offers, r)| - t + |Rounds(offers, r + 1, hi)|
    decreases hi - lo
  {
    var deeper, all := Rounds(offers, lo + 1, hi), Rounds(offers, lo, hi);
    if demand <= |deeper| {
      r, t := SuffixForm(offers, lo + 1, hi, demand);
      assert all[|all| - demand..] == deeper[|deeper| - demand..];
    } else {
      r, t := lo, |all| - demand;
      assert all[t..] == Round(offers, lo)[t..] + deeper;
    }
  }

  lemma {:induction false} DeepestIsMost(offers: seq<SlotOffer>, j: nat)
    requires j < |offers|
    ensures Available(offers[j]) <= Deepest(offers)
  {
    if j > 0 {
      DeepestIsMost(offers[1..], j - 1);
    }
  }

  /** The two counts differ by at most one. */
  predicate Close(x: nat, y: nat) { x <= y + 1 && y <= x + 1 }

  /** Two TaskManagers hold the same number of slots or one apart. */
  ghost predicate CloseCounts(placed: seq<Slot>, offers: seq<SlotOffer>, i: nat, j: nat)
    requires i < |offers| && j < |offers|
  {
    Close(Count(placed, offers[i].taskManager), Count(placed, offers[j].taskManager))
  }

  lemma {:induction false} PairIsClose(offers: seq<SlotOffer>, demand: nat, i: nat, j: nat)
    requires WellFormed(offers) && Ascending(offers, MostAvailable) && i < j < |offers|
    requires demand <= |Rounds(offers, 0, Deepest(offers))|
    requires Close(Available(offers[i]), Available(offers[j]))
    ensures CloseCounts(Last(Rounds(offers, 0, Deepest(offers)), demand), offers, i, j)
  {
    var all, hi := Rounds(offers, 0, Deepest(offers)), Deepest(offers);
    if demand == 0 {
      assert all[|all|..] == [];
    } else {
      var r, t := SuffixForm(offers, 0, hi, demand);
      var a, b := Round(offers, r)[t..], Rounds(offers, r + 1, hi);
      CountSuffix(offers, r, t, i);
      CountSuffix(offers, r, t, j);
      assert MostAvailable(offers[i]) <= MostAvailable(offers[j]);
    }
  }

  lemma {:induction false} CountSuffix(offers: seq<SlotOffer>, r: nat, t: nat, j: nat)
    requires WellFormed(offers) && Ascending(offers, MostAvailable) && j < |offers| && t <= |Round(offers, r)|
    ensures Count(Round(offers, r)[t..] + Rounds(offers, r + 1, Deepest(offers)), offers[j].taskManager)
         == (if r < Available(offers[j]) && t <= j then 1 else 0)
            + if r + 1 < Available(offers[j]) then Available(offers[j]) - (r + 1) else 0
  {
    DeepestIsMost(offers, j);
    CountInRound(offers, r, t, j);
    CountInRounds(offers, r + 1, Deepest(offers), j);
    CountAppend(Round(offers, r)[t..], Rounds(offers, r + 1, Deepest(offers)), offers[j].taskManager);
  }

  /** Some demand takes the slots below the shallower offer and gives the deeper one two more. */
  lemma {:induction false} PairIsUneven(offers: seq<SlotOffer>, i: nat, j: nat) returns (demand: nat)
    requires WellFormed(offers) && Ascending(offers, MostAvailable) && i < |offers| && j < |offers|
    requires Available(offers[i]) > Available(offers[j]) + 1
    ensures demand <= |Rounds(offers, 0, Deepest(offers))|
    ensures !CloseCounts(Last(Rounds(offers, 0, Deepest(offers)), demand), offers, i, j)
  {
    var all, hi, a := Rounds(offers, 0, Deepest(offers)), Deepest(offers), Available(offers[j]);
    DeepestIsMost(offers, i);
    DeepestIsMost(offers, j);
    demand := |Rounds(offers, a, hi)|;
    RoundsSplit(offers, 0, a, hi);
    assert all[|all| - demand..] == Rounds(offers, a, hi);
    CountInRounds(offers, a, hi, i);
    CountInRounds(offers, a, hi, j);
  }

  lemma {:induction false} RoundsSplit(offers: seq<SlotOffer>, lo: nat, mid: nat, hi: nat)
    requires lo <= mid <= hi
    ensures Rounds(offers, lo, hi) == Rounds(offers, lo, mid) + Rounds(offers, mid, hi)
    decreases mid - lo
  {
    if lo < mid {
      RoundsSplit(offers, lo + 1, mid, hi);
    }
  }

  /** The placed slots are shared out evenly among the offers. */
  ghost predicate Even(placed: seq<Slot>, offers: seq<SlotOffer>)
  {
    forall i, j :: 0 <= i < |offers| && 0 <= j < |offers| ==> CloseCounts(placed, offers, i, j)
  }

  ghost predicate Balanced(offers: seq<SlotOffer>)
  {
    forall i, j :: 0 <= i < |offers| && 0 <= j < |offers| ==> Close(Available(offers[i]), Available(offers[j]))
  }

  lemma {:induction false} SortedEven(sorted: seq<SlotOffer>, demand: nat)
    requires WellFormed(sorted) && Ascending(sorted, MostAvailable) && Balanced(sorted)
    requires demand <= |Rounds(sorted, 0, Deepest(sorted))|
    ensures Even(Last(Rounds(sorted, 0, Deepest(sorted)), demand), sorted)
  {
    var placed := Last(Rounds(sorted, 0, Deepest(sorted)), demand);
    forall i, j | 0 <= i < |sorted| && 0 <= j < |sorted| ensures CloseCounts(placed, sorted, i, j) {
      if i < j {
        PairIsClose(sorted, demand, i, j);
      } else if j < i {
        PairIsClose(sorted, demand, j, i);
      }
    }
  }

  lemma {:induction false} SortedUneven(sorted: seq<SlotOffer>) returns (demand: nat)
    requires WellFormed(sorted) && Ascending(sorted, MostAvailable) && !Balanced(sorted)
    ensures demand <= |Rounds(sorted, 0, Deepest(sorted))|
         && !Even(Last(Rounds(sorted, 0, Deepest(sorted)), demand), sorted)
  {
    var i, j :| 0 <= i < |sorted| && 0 <= j < |sorted| && !Close(Available(sorted[i]), Available(sorted[j]));
    if Available(sorted[i]) < Available(sorted[j]) {
      i, j := j, i;
    }
    demand := PairIsUneven(sorted, i, j);
    assert !CloseCounts(Last(Rounds(sorted, 0, Deepest(sorted)), demand), sorted, i, j);
  }

  /** The same offers, in whatever order. */
  ghost predicate SameOffers(a: seq<SlotOffer>, b: seq<SlotOffer>)
  {
    forall i :: 0 <= i < |a| ==> a[i] in b
  }

  lemma {:induction false} EvenTransfers(placed: seq<Slot>, a: seq<SlotOffer>, b: seq<SlotOffer>)
    requires SameOffers(a, b)
    ensures Even(placed, b) ==> Even(placed, a)
    ensures Balanced(b) ==> Balanced(a)
  {
    forall i, j | 0 <= i < |a| && 0 <= j < |a|
      ensures Even(placed, b) ==> CloseCounts(placed, a, i, j)
      ensures Balanced(b) ==> Close(Available(a[i]), Available(a[j]))
    {
      var p :| 0 <= p < |b| && b[p] == a[i];
      var q :| 0 <= q < |b| && b[q] == a[j];
      assert Even(placed, b) ==> CloseCounts(placed, b, p, q);
    }
  }

  lemma {:induction false} SortedSpread(offers: seq<SlotOffer>)
    requires WellFormed(offers)
    ensures var sorted := SortBy(offers, MostAvailable);
            WellFormed(sorted) && Ascending(sorted, MostAvailable) && SameOffers(offers, sorted)
                && SameOffers(sorted, offers)
  {
    var sorted := SortBy(offers, MostAvailable);
    SortSorts(offers, MostAvailable);
    PermutedWellFormed(offers, sorted);
    forall i | 0 <= i < |offers| ensures offers[i] in sorted {
      assert offers[i] in multiset(sorted);
    }
    forall i | 0 <= i < |sorted| ensures sorted[i] in offers {
      assert sorted[i] in multiset(offers);
    }
  }

  /** Spread hands out slots evenly for every demand exactly when the offers'
      availabilities differ by at most one; equal availability is a special case. */
  lemma {:induction false} SpreadIsEvenIff(offers: seq<SlotOffer>)
    requires WellFormed(offers)
    ensures (forall demand: nat :: demand <= |SlotQueue(offers, Spread)| ==>
              Even(Placement(offers, Spread, demand), offers))
       <==> Balanced(offers)
  {
    var sorted := SortBy(offers, MostAvailable);
    SortedSpread(offers);
    EvenTransfers([], offers, sorted);
    EvenTransfers([], sorted, offers);
    if Balanced(offers) {
      forall demand: nat | demand <= |SlotQueue(offers, Spread)|
        ensures Even(Placement(offers, Spread, demand), offers)
      {
        SortedEven(sorted, demand);
        EvenWhenSorted(offers, demand);
      }
    } else {
      var demand := SortedUneven(sorted);
      EvenWhenSorted(offers, demand);
    }
  }

  lemma {:induction false} EvenWhenSorted(offers: seq<SlotOffer>, demand: nat)
    requires WellFormed(offers)
    ensures var sorted := SortBy(offers, MostAvailable);
            var queue := Rounds(sorted, 0, Deepest(sorted));
            Even(Placement(offers, Spread, demand), offers) <==> Even(Last(queue, demand), sorted)
  {
    var sorted := SortBy(offers, MostAvailable);
    SortedSpread(offers);
    EvenTransfers(Placement(offers, Spread, demand), offers, sorted);
    EvenTransfers(Placement(offers, Spread, demand), sorted, offers);
  }

  // ----- a given demand -----

  /** What offer j of the sorted ones gives when the demand takes the rounds deeper
      than r, and round r from position t on. */
  function Share(sorted: seq<SlotOffer>, r: nat, t: nat, j: nat): nat
    requires j < |sorted|
  {
    (if r < Available(sorted[j]) && t <= j then 1 else 0)
    + if r + 1 < Available(sorted[j]) then Available(sorted[j]) - (r + 1) else 0
  }

  /** The demand that takes the rounds deeper than r, and round r from position t on. */
  predicate Reaches(sorted: seq<SlotOffer>, demand: nat, r: nat, t: nat)
  {
    t <= |Round(sorted, r)| && demand == |Round(sorted, r)| - t + |Rounds(sorted, r + 1, Deepest(sorted))|
  }

  /** Every demand there is room for comes to a halt somewhere. */
  lemma {:induction false} SomeRoundIsReached(offers: seq<SlotOffer>, demand: nat) returns (r: nat, t: nat)
    requires demand <= |SlotQueue(offers, Spread)|
    ensures Reaches(SortBy(offers, MostAvailable), demand, r, t)
  {
    var sorted := SortBy(offers, MostAvailable);
    if demand == 0 {
      r, t := Deepest(sorted), 0;
      RoundEmpty(sorted, r);
    } else {
      r, t := SuffixForm(sorted, 0, Deepest(sorted), demand);
    }
  }

  lemma {:induction false} ReachedSuffix(sorted: seq<SlotOffer>, demand: nat, r: nat, t: nat)
    requires Reaches(sorted, demand, r, t)
    ensures Last(Rounds(sorted, 0, Deepest(sorted)), demand)
         == Round(sorted, r)[t..] + Rounds(sorted, r + 1, Deepest(sorted))
  {
    var all, hi := Rounds(sorted, 0, Deepest(sorted)), Deepest(sorted);
    if r < hi {
      RoundsSplit(sorted, 0, r, hi);
      var early, deeper := Rounds(sorted, 0, r), Rounds(sorted, r + 1, hi);
      assert all == (early + Round(sorted, r)[..t]) + (Round(sorted, r)[t..] + deeper);
    } else {
      RoundEmpty(sorted, r);
      assert all[|all|..] == [];
    }
  }

  /** The exact share of every TaskManager in a Spread placement. */
  lemma {:induction false} SpreadShares(offers: seq<SlotOffer>, demand: nat, r: nat, t: nat)
    requires WellFormed(offers) && Reaches(SortBy(offers, MostAvailable), demand, r, t)
    ensures HasShares(Placement(offers, Spread, demand), SortBy(offers, MostAvailable), r, t)
  {
    var sorted := SortBy(offers, MostAvailable);
    SortedSpread(offers);
    ReachedSuffix(sorted, demand, r, t);
    forall j | 0 <= j < |sorted|
      ensures Count(Placement(offers, Spread, demand), sorted[j].taskManager) == Share(sorted, r, t, j)
    {
      CountSuffix(sorted, r, t, j);
    }
  }

  ghost predicate HasShares(placed: seq<Slot>, sorted: seq<SlotOffer>, r: nat, t: nat)
  {
    forall j :: 0 <= j < |sorted| ==> Count(placed, sorted[j].taskManager) == Share(sorted, r, t, j)
  }

  ghost predicate EvenShares(sorted: seq<SlotOffer>, r: nat, t: nat)
  {
    forall i, j :: 0 <= i < |sorted| && 0 <= j < |sorted| ==> Close(Share(sorted, r, t, i), Share(sorted, r, t, j))
  }

  lemma {:induction false} SharesDecide(placed: seq<Slot>, sorted: seq<SlotOffer>, r: nat, t: nat)
    requires HasShares(placed, sorted, r, t)
    ensures Even(placed, sorted) <==> EvenShares(sorted, r, t)
  {
    if Even(placed, sorted) {
      forall i, j | 0 <= i < |sorted| && 0 <= j < |sorted|
        ensures Close(Share(sorted, r, t, i), Share(sorted, r, t, j))
      {
        assert CloseCounts(placed, sorted, i, j);
      }
    }
  }

  /** Which demands a given set of offers spreads evenly: those whose shares differ by at most one. */
  lemma {:induction false} DemandIsEvenIff(offers: seq<SlotOffer>, demand: nat, r: nat, t: nat)
    requires WellFormed(offers) && Reaches(SortBy(offers, MostAvailable), demand, r, t)
    ensures Even(Placement(offers, Spread, demand), offers) <==> EvenShares(SortBy(offers, MostAvailable), r, t)
  {
    var sorted, placed := SortBy(offers, MostAvailable), Placement(offers, Spread, demand);
    SpreadShares(offers, demand, r, t);
    SharesDecide(placed, sorted, r, t);
    assert SameOffers(offers, sorted) && SameOffers(sorted, offers) by { SortedSpread(offers); }
    EvenTransfers(placed, offers, sorted);
    EvenTransfers(placed, sorted, offers);
  }

  lemma {:induction false} FilterTwo<A, B>(x: A, y: A, f: A -> Option<B>)
    ensures FilterMap([x, y], f) == AsSeq(f(x)) + AsSeq(f(y))
  {
    assert [x, y][1..] == [y] && [y][1..] == [];
    assert FilterMap([y], f) == AsSeq(f(y));
  }

  lemma {:induction false} SortedPair(x: SlotOffer, y: SlotOffer)
    requires MostAvailable(x) <= MostAvailable(y)
    ensures SortBy([x, y], MostAvailable) == [x, y]
  {
    assert [x, y][..1] == [x] && [x][..0] == [];
    assert SortBy([x], MostAvailable) == InsertBy(SortBy([], MostAvailable), x, MostAvailable) == [x];
  }

  /** The failure is real: of offers with three slots and with one, two subtasks both
      go to the first. */
  lemma {:induction false} UnevenExample(a: TaskManagerId, b: TaskManagerId)
    requires a != b
    ensures var offers := [SlotOffer(a, 3, 0), SlotOffer(b, 1, 0)];
            && WellFormed(offers)
            && Placement(offers, Spread, 2) == [Slot(a, 1), Slot(a, 2)] && !Even(Placement(offers, Spread, 2), offers)
  {
    var x, y := SlotOffer(a, 3, 0), SlotOffer(b, 1, 0);
    var offers := [x, y];
    SortedPair(x, y);
    FilterTwo(x, y, SlotAt(0));
    FilterTwo(x, y, SlotAt(1));
    FilterTwo(x, y, SlotAt(2));
    assert offers[1..] == [y] && [y][1..] == [];
    assert Deepest([y]) == 1 && Deepest(offers) == 3;
    assert Rounds(offers, 2, 3) == [Slot(a, 2)] + Rounds(offers, 3, 3);
    assert Rounds(offers, 1, 3) == [Slot(a, 1), Slot(a, 2)];
    assert SlotQueue(offers, Spread) == [Slot(a, 0), Slot(b, 0), Slot(a, 1), Slot(a, 2)];
    var placed := Placement(offers, Spread, 2);
    assert placed == [Slot(a, 1), Slot(a, 2)];
    FilterTwo(placed[0], placed[1], OfManager(a));
    FilterTwo(placed[0], placed[1], OfManager(b));
    assert Count(placed, a) == 2 && Count(placed, b) == 0;
    assert !CloseCounts(placed, offers, 0, 1);
  }
}
