/** Windows, the two assigners and the event-time trigger. */
module Windows {
  import opened Arithmetic
  import opened Streams

  /** A time range, start included, end excluded. */
  datatype Window = Window(start: Timestamp, end: Timestamp)

  predicate Contains(w: Window, t: Timestamp) { w.start <= t < w.end }

  datatype TriggerResult = Continue | Fire | Purge | FireAndPurge

  /** `EventTimeTrigger`. */
  function OnEventTime(watermark: Timestamp, w: Window): TriggerResult
  {
    if watermark >= w.end then FireAndPurge else Continue
  }

  /** The latest multiple of the slide at or below t. */
  function LatestStart(slide: Timestamp, t: Timestamp): (start: Timestamp)
    requires slide > 0
    ensures start <= t < start + slide && start % slide == 0
  {
    AlignedBelow(t, slide);
    (t / slide) * slide
  }

  /** The one addition the assigners make without saturating stays in the 64-bit range. */
  predicate EndFits(size: Timestamp, slide: Timestamp, t: Timestamp)
    requires slide > 0
  {
    LatestStart(slide, t) + size <= U64_MAX
  }

  // ----- tumbling -----

  function Tumbling(size: Timestamp, t: Timestamp): seq<Window>
    requires size > 0 && EndFits(size, size, t)
  {
    var start := LatestStart(size, t);
    [Window(start, start + size)]
  }

  /** The largest multiple of n at or below t. */
  lemma {:induction false} AlignedBelow(t: nat, n: nat)
    requires n > 0
    ensures (t / n) * n <= t < (t / n) * n + n && ((t / n) * n) % n == 0
  {
    assert t == n * (t / n) + t % n;
    MultipleIsAligned(t / n, n);
  }

  lemma {:induction false} MultipleIsAligned(q: nat, n: nat)
    requires n > 0
    ensures (q * n) % n == 0
  {
    RemainderUnique(n * q, n, q, 0);
  }

  /** Multiples of n below a multiple of n are at least n below it. */
  lemma {:induction false} NextMultiple(s: nat, start: nat, n: nat)
    requires n > 0 && s % n == 0 && start % n == 0 && s < start
    ensures s + n <= start && (start - n) % n == 0
  {
    var a, b := s / n, start / n;
    assert s == n * a && start == n * b;
    MulGap(n, b, a);
    MulGap(n, a, b);
    PreviousMultiple(start, n);
  }

  lemma {:induction false} PreviousMultiple(start: nat, n: nat)
    requires n > 0 && start % n == 0 && n <= start
    ensures (start - n) % n == 0
  {
    var b := start / n;
    assert start == n * b;
    assert b >= 1 by { MulGap(n, 0, b); }
    assert n * (b - 1) == n * b - n;
    MultipleIsAligned(b - 1, n);
    assert (b - 1) * n == start - n;
  }

  // ----- sliding -----

  /** What it means to be a sliding window of t. */
  ghost predicate IsSliding(size: Timestamp, slide: Timestamp, t: Timestamp, w: Window)
    requires slide > 0
  {
    w.start % slide == 0 && w.start <= t < w.start + size && w.end == w.start + size
  }

  ghost predicate AscendingStarts(ws: seq<Window>)
  {
    forall i, j :: 0 <= i < j < |ws| ==> ws[i].start < ws[j].start
  }

  /** The window at `start`, when it contains t. */
  function OwnWindow(size: Timestamp, t: Timestamp, start: Timestamp): seq<Window>
    requires start + size <= U64_MAX
  {
    if t < start + size then [Window(start, start + size)] else []
  }

  /** The windows met walking back from `start`. */
  function WalkBack(size: Timestamp, slide: Timestamp, t: Timestamp, start: Timestamp): seq<Window>
    requires slide > 0 && start <= t && start + size <= U64_MAX
    decreases start
  {
    if start < slide || start - slide + size <= t then OwnWindow(size, t, start)
    else OwnWindow(size, t, start) + WalkBack(size, slide, t, start - slide)
  }

  function Reverse(ws: seq<Window>): seq<Window>
  {
    if ws == [] then [] else Reverse(ws[1..]) + [ws[0]]
  }

  function Sliding(size: Timestamp, slide: Timestamp, t: Timestamp): seq<Window>
    requires slide > 0 && EndFits(size, slide, t)
  {
    Reverse(WalkBack(size, slide, t, LatestStart(slide, t)))
  }

  /** `SlidingWindow::assign_windows`: walk back from the latest start, then reverse. */
  method AssignSliding(size: Timestamp, slide: Timestamp, t: Timestamp) returns (windows: seq<Window>)
    requires slide > 0 && EndFits(size, slide, t)
    ensures windows == Sliding(size, slide, t)
    ensures forall w :: w in windows <==> IsSliding(size, slide, t, w)
    ensures AscendingStarts(windows)
  {
    var lastStart := LatestStart(slide, t);
    windows := CollectBackwards(size, slide, t, lastStart);
    windows := ReverseInOrder(windows);
    SlidingIsExact(size, slide, t);
  }

  method CollectBackwards(size: Timestamp, slide: Timestamp, t: Timestamp,
                          lastStart: Timestamp) returns (windows: seq<Window>)
    requires slide > 0 && lastStart <= t && lastStart + size <= U64_MAX
    ensures windows == WalkBack(size, slide, t, lastStart)
  {
    var start: Timestamp := lastStart;
    windows := [];
    var walking := true;
    ghost var ahead := WalkBack(size, slide, t, lastStart);
    while walking
      invariant start <= lastStart
      invariant WalkBack(size, slide, t, lastStart) == windows + ahead
      invariant ahead == if walking then WalkBack(size, slide, t, start) else []
      decreases walking, start
    {
      var end := start + size;
      ghost var own := OwnWindow(size, t, start);
      ghost var before := windows;
      if t < end {
        windows := windows + [Window(start, end)];
      }
      if start < slide {
        walking := false;
      } else {
        start := start - slide;
        if start + size <= t {
          walking := false;
        }
      }
      ghost var rest := if walking then WalkBack(size, slide, t, start) else [];
      assert ahead == own + rest && windows == before + own;
      Regroup(before, own, rest);
      ahead := rest;
    }
  }

  method ReverseInOrder(ws: seq<Window>) returns (r: seq<Window>)
    ensures r == Reverse(ws)
  {
    r := [];
    var i := |ws|;
    while i > 0
      invariant 0 <= i <= |ws|
      invariant r == Reverse(ws[i..])
    {
      i := i - 1;
      assert ws[i..][1..] == ws[i + 1..];
      r := r + [ws[i]];
    }
    assert ws[0..] == ws;
  }

  lemma {:induction false} WalkIsExact(size: Timestamp, slide: Timestamp, t: Timestamp, start: Timestamp)
    requires slide > 0 && start <= t && start + size <= U64_MAX && start % slide == 0
    ensures forall w :: w in WalkBack(size, slide, t, start) <==> IsSliding(size, slide, t, w) && w.start <= start
    ensures AscendingStarts(Reverse(WalkBack(size, slide, t, start)))
    decreases start
  {
    var ws := WalkBack(size, slide, t, start);
    forall w | IsSliding(size, slide, t, w) && w.start < start ensures w.start + slide <= start {
      NextMultiple(w.start, start, slide);
    }
    if !(start < slide || start - slide + size <= t) {
      PreviousMultiple(start, slide);
      WalkIsExact(size, slide, t, start - slide);
      var rest := WalkBack(size, slide, t, start - slide);
      assert t < start + size;
      assert ws == [Window(start, start + size)] + rest;
      assert ws[1..] == rest;
      InReverse(rest);
    } else {
      assert forall w :: IsSliding(size, slide, t, w) && w.start <= start ==> w.start == start;
      if ws != [] {
        assert ws[1..] == [];
      }
    }
  }

  lemma {:induction false} InReverse(ws: seq<Window>)
    ensures forall w :: w in Reverse(ws) <==> w in ws
    ensures |Reverse(ws)| == |ws|
  {
    if ws != [] {
      InReverse(ws[1..]);
    }
  }

  /** Exactly the aligned windows that contain t, in ascending order, for any slide. */
  lemma {:induction false} SlidingIsExact(size: Timestamp, slide: Timestamp, t: Timestamp)
    requires slide > 0 && EndFits(size, slide, t)
    ensures forall w :: w in Sliding(size, slide, t) <==> IsSliding(size, slide, t, w)
    ensures AscendingStarts(Sliding(size, slide, t))
  {
    var start := LatestStart(slide, t);
    WalkIsExact(size, slide, t, start);
    InReverse(WalkBack(size, slide, t, start));
    forall w | IsSliding(size, slide, t, w) ensures w.start <= start {
      if w.start > start {
        NextMultiple(start, w.start, slide);
      }
    }
  }

  /** A tumbling window is the sliding window whose slide is its size. */
  lemma {:induction false} TumblingIsSliding(size: Timestamp, t: Timestamp)
    requires size > 0 && EndFits(size, size, t)
    ensures Tumbling(size, t) == Sliding(size, size, t)
  {
    var start := LatestStart(size, t);
    var w := Window(start, start + size);
    assert WalkBack(size, size, t, start) == [w];
    assert [w][1..] == [] && Reverse([]) + [w] == [w];
  }
}
