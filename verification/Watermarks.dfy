/** The n-input watermark tracker: the output watermark is the minimum over the
    inputs, forwarded only when it advances. */
module Watermarks {
  import opened Streams

  datatype Tracked = Tracked(inputs: seq<Timestamp>, current: Timestamp)

  function Fresh(n: nat): Tracked { Tracked(seq(n, _ => 0), 0) }

  function MinOf(ts: seq<Timestamp>): (m: Timestamp)
    ensures forall i :: 0 <= i < |ts| ==> m <= ts[i]
    ensures ts != [] ==> m in ts
  {
    if ts == [] then 0
    else if |ts| == 1 then ts[0]
    else Min(ts[0], MinOf(ts[1..]))
  }

  function Observe(tr: Tracked, i: nat, t: Timestamp): Tracked
    requires i < |tr.inputs|
  {
    var inputs := tr.inputs[i := t];
    Tracked(inputs, Max(tr.current, MinOf(inputs)))
  }

  /** What one update forwards. */
  function Forwarded(before: Tracked, after: Tracked): seq<Timestamp>
  {
    if after.current > before.current then [after.current] else []
  }

  datatype Arrival = Arrival(input: nat, timestamp: Timestamp)

  ghost predicate ForInputs(arrivals: seq<Arrival>, n: nat)
  {
    forall k :: 0 <= k < |arrivals| ==> arrivals[k].input < n
  }

  /** The tracker after a sequence of arrivals. */
  function After(n: nat, arrivals: seq<Arrival>): (tr: Tracked)
    requires ForInputs(arrivals, n)
    ensures |tr.inputs| == n
  {
    if arrivals == [] then Fresh(n)
    else
      var k := |arrivals| - 1;
      Observe(After(n, arrivals[..k]), arrivals[k].input, arrivals[k].timestamp)
  }

  /** Every watermark the tracker forwards over a sequence of arrivals. */
  function Outputs(n: nat, arrivals: seq<Arrival>): seq<Timestamp>
    requires ForInputs(arrivals, n)
  {
    if arrivals == [] then []
    else
      var k := |arrivals| - 1;
      Outputs(n, arrivals[..k]) + Forwarded(After(n, arrivals[..k]), After(n, arrivals))
  }

  lemma {:induction false} OneMore(n: nat, arrivals: seq<Arrival>, a: Arrival)
    requires ForInputs(arrivals, n) && a.input < n
    ensures After(n, arrivals + [a]) == Observe(After(n, arrivals), a.input, a.timestamp)
    ensures Outputs(n, arrivals + [a]) == Outputs(n, arrivals) + Forwarded(After(n, arrivals), After(n, arrivals + [a]))
  {
    assert (arrivals + [a])[..|arrivals|] == arrivals;
  }

  /** After the first `k` arrivals all inputs stood at `w` or later. */
  ghost predicate AllReached(n: nat, arrivals: seq<Arrival>, k: nat, w: Timestamp)
    requires ForInputs(arrivals, n)
  {
    k <= |arrivals| && forall i :: 0 <= i < n ==> w <= After(n, arrivals[..k]).inputs[i]
  }

  /** Forwarded watermarks strictly increase up to the tracker's current one. */
  lemma {:induction false} OutputsAscend(n: nat, arrivals: seq<Arrival>)
    requires ForInputs(arrivals, n)
    ensures StrictlyAscending(Outputs(n, arrivals))
    ensures forall w :: w in Outputs(n, arrivals) ==> 0 < w <= After(n, arrivals).current
  {
    if arrivals != [] {
      var before := arrivals[..|arrivals| - 1];
      OutputsAscend(n, before);
      var sofar := Outputs(n, before);
      forall i | 0 <= i < |sofar| ensures sofar[i] <= After(n, before).current {
        assert sofar[i] in sofar;
      }
    }
  }

  /** The last one forwarded is the current one. */
  lemma {:induction false} LastIsCurrent(n: nat, arrivals: seq<Arrival>)
    requires ForInputs(arrivals, n)
    ensures var out := Outputs(n, arrivals);
            After(n, arrivals).current == if out == [] then 0 else out[|out| - 1]
  {
    if arrivals != [] {
      LastIsCurrent(n, arrivals[..|arrivals| - 1]);
    }
  }

  /** Each forwarded watermark is one that all inputs had reached at some moment. */
  lemma {:induction false} OutputsReached(n: nat, arrivals: seq<Arrival>, w: Timestamp) returns (k: nat)
    requires ForInputs(arrivals, n) && w in Outputs(n, arrivals)
    ensures AllReached(n, arrivals, k, w)
  {
    var before := arrivals[..|arrivals| - 1];
    if w in Outputs(n, before) {
      k := OutputsReached(n, before, w);
      assert before[..k] == arrivals[..k];
    } else {
      k := |arrivals|;
      assert arrivals[..k] == arrivals;
    }
  }

  /** What all inputs have reached at some moment has been forwarded, or something later. */
  lemma {:induction false} ReachedIsForwarded(n: nat, arrivals: seq<Arrival>, k: nat, w: Timestamp)
    requires ForInputs(arrivals, n) && n > 0 && AllReached(n, arrivals, k, w)
    ensures w <= After(n, arrivals).current
    decreases |arrivals| - k
  {
    if k == |arrivals| {
      assert arrivals[..k] == arrivals;
      AtLeastMinimum(n, arrivals);
    } else {
      var before := arrivals[..|arrivals| - 1];
      assert before[..k] == arrivals[..k];
      ReachedIsForwarded(n, before, k, w);
    }
  }

  lemma {:induction false} AtLeastMinimum(n: nat, arrivals: seq<Arrival>)
    requires ForInputs(arrivals, n) && n > 0
    ensures MinOf(After(n, arrivals).inputs) <= After(n, arrivals).current
  {
    if arrivals == [] {
      assert Fresh(n).inputs[0] == 0;
    }
  }

  /** No input's watermark goes back. */
  ghost predicate Monotone(arrivals: seq<Arrival>)
  {
    forall j, k :: 0 <= j < k < |arrivals| && arrivals[j].input == arrivals[k].input ==>
      arrivals[j].timestamp <= arrivals[k].timestamp
  }

  /** The latest watermark of input i. */
  function Latest(arrivals: seq<Arrival>, i: nat): Timestamp
  {
    if arrivals == [] then 0
    else if arrivals[|arrivals| - 1].input == i then arrivals[|arrivals| - 1].timestamp
    else Latest(arrivals[..|arrivals| - 1], i)
  }

  lemma {:induction false} LatestIsInput(n: nat, arrivals: seq<Arrival>, i: nat)
    requires ForInputs(arrivals, n) && i < n
    ensures After(n, arrivals).inputs[i] == Latest(arrivals, i)
  {
    if arrivals != [] {
      LatestIsInput(n, arrivals[..|arrivals| - 1], i);
    }
  }

  lemma {:induction false} LatestArrived(arrivals: seq<Arrival>, i: nat)
    ensures || Latest(arrivals, i) == 0
            || exists j :: 0 <= j < |arrivals| && arrivals[j] == Arrival(i, Latest(arrivals, i))
  {
    if arrivals != [] {
      var m := |arrivals| - 1;
      LatestArrived(arrivals[..m], i);
      if arrivals[m].input == i {
        assert arrivals[m] == Arrival(i, Latest(arrivals, i));
      } else if Latest(arrivals, i) != 0 {
        var j :| 0 <= j < m && arrivals[..m][j] == Arrival(i, Latest(arrivals, i));
        assert arrivals[j] == Arrival(i, Latest(arrivals, i));
      }
    }
  }

  /** With monotone inputs the current watermark is the minimum of the inputs' latest ones. */
  lemma {:induction false} CurrentIsMinimum(n: nat, arrivals: seq<Arrival>)
    requires ForInputs(arrivals, n) && Monotone(arrivals) && n > 0
    ensures After(n, arrivals).current == MinOf(After(n, arrivals).inputs)
    ensures forall i :: 0 <= i < n ==> After(n, arrivals).inputs[i] == Latest(arrivals, i)
  {
    forall i | 0 <= i < n ensures After(n, arrivals).inputs[i] == Latest(arrivals, i) {
      LatestIsInput(n, arrivals, i);
    }
    if arrivals != [] {
      var m := |arrivals| - 1;
      var before := After(n, arrivals[..m]);
      CurrentIsMinimum(n, arrivals[..m]);
      LatestBounded(arrivals, m);
      LatestIsInput(n, arrivals[..m], arrivals[m].input);
      assert MinOf(before.inputs) <= MinOf(After(n, arrivals).inputs);
    }
  }

  lemma {:induction false} LatestBounded(arrivals: seq<Arrival>, m: nat)
    requires m < |arrivals| && Monotone(arrivals)
    ensures Latest(arrivals[..m], arrivals[m].input) <= arrivals[m].timestamp
  {
    LatestArrived(arrivals[..m], arrivals[m].input);
  }

  class WatermarkTracker {
    var inputWatermarks: array<Timestamp>
    var currentWatermark: Timestamp

    ghost function Model(): Tracked
      reads this, inputWatermarks
    {
      Tracked(inputWatermarks[..], currentWatermark)
    }

    constructor (numInputs: nat)
      ensures Model() == Fresh(numInputs) && fresh(inputWatermarks)
    {
      inputWatermarks := new Timestamp[numInputs](_ => 0);
      currentWatermark := 0;
    }

    method Update(inputIndex: nat, watermark: Timestamp) returns (advanced: Option<Timestamp>)
      requires inputIndex < inputWatermarks.Length
      modifies this`currentWatermark, inputWatermarks
      ensures Model() == Observe(old(Model()), inputIndex, watermark)
      ensures Forwarded(old(Model()), Model()) == if advanced.Some? then [advanced.value] else []
    {
      inputWatermarks[inputIndex] := watermark;
      assert inputWatermarks[..] == old(inputWatermarks[..])[inputIndex := watermark];
      var newMin := MinOf(inputWatermarks[..]);
      if newMin > currentWatermark {
        currentWatermark := newMin;
        advanced := Some(newMin);
      } else {
        advanced := None;
      }
    }
  }
}
