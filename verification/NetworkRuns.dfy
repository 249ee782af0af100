/** Both ends of the network over whole runs: what arrives is what was sent, when that
    fails, and how credits and batch sizes are kept. */
module NetworkRuns {
  import opened Streams
  import opened Network

  function Start<V>(): System<V> { System(Sender([], 0, 0, []), 0, [], []) }

  function Run<V>(c: Codec<V>, cfg: Config, turns: seq<Turn<V>>): System<V> { ApplyAll(c, cfg, Start(), turns) }

  /** What turn k of a run returned. */
  function Result<V>(c: Codec<V>, cfg: Config, turns: seq<Turn<V>>, k: nat): Outcome
    requires k < |turns|
  {
    Apply(c, cfg, Run(c, cfg, turns[..k]), turns[k]).1
  }

  ghost predicate NeverRefused<V>(c: Codec<V>, cfg: Config, turns: seq<Turn<V>>)
  {
    forall k :: 0 <= k < |turns| ==> Result(c, cfg, turns, k) != Refused
  }

  ghost predicate AllDone<V>(c: Codec<V>, cfg: Config, turns: seq<Turn<V>>)
  {
    forall k :: 0 <= k < |turns| ==> Result(c, cfg, turns, k) == Done
  }

  ghost predicate RecordsFit<V>(c: Codec<V>, turns: seq<Turn<V>>)
  {
    forall k :: 0 <= k < |turns| && turns[k].SendRecord? ==> Fits(c, Rec(turns[k].record))
  }

  /** Delivered, then in the reader's hands, then on the wire, then still buffered. */
  ghost function Stream<V>(c: Codec<V>, s: System<V>): seq<StreamElement<V>>
    requires s.Valid()
  {
    ((s.output + s.elementBuffer) + AllContents(c, s.InFlight())) + Decode(c, s.sender.buffer)
  }

  /** What one call adds to the stream: a record even when the flush it triggered
      found no credit; a watermark whatever its bytes decode to. */
  function Carried<V>(c: Codec<V>, t: Turn<V>, o: Outcome): seq<StreamElement<V>>
  {
    match t
    case SendRecord(r, _) => [Rec(r)]
    case SendWm(w, _, _) => if o == Done then Decode(c, c.ser(Wm(w))) else []
    case SendBar(b, _, _) => if o == Done then [Bar(CheckpointBarrier(b.id, 0))] else []
    case _ => []
  }

  lemma {:induction false} OfferAdds<V>(c: Codec<V>, s: System<V>, sender: Sender, b: DataBatch)
    requires s.Valid() && sender.wire == s.sender.wire + [b] && sender.buffer == []
    ensures s.(sender := sender).Valid()
    ensures Stream(c, s.(sender := sender))
         == ((s.output + s.elementBuffer) + AllContents(c, s.InFlight())) + Contents(c, b)
  {
    assert sender.wire[s.taken..] == s.InFlight() + [b];
    AllContentsSnoc(c, s.InFlight(), b);
    Regroup(s.output + s.elementBuffer, AllContents(c, s.InFlight()), Contents(c, b));
  }

  /** Flushing moves the buffer to the wire and changes nothing in the stream. */
  lemma {:induction false} FlushKeepsStream<V>(c: Codec<V>, cfg: Config, s: System<V>, room: bool)
    requires s.Valid() && Flush(cfg, s.sender, room).1 != Refused
    ensures var (sender, o) := Flush(cfg, s.sender, room);
            && s.(sender := sender).Valid()
            && Stream(c, s.(sender := sender)) == Stream(c, s)
            && (o == Done ==> sender.buffer == [])
  {
    var (sender, o) := Flush(cfg, s.sender, room);
    if o == Done && s.sender.buffer != [] {
      OfferAdds(c, s, sender, DataBatch(cfg.channelId, s.sender.buffer, s.sender.recordCount, false, 0));
    }
  }

  lemma {:induction false} BufferAdds<V(!new)>(c: Codec<V>, s: System<V>, r: Record<V>)
    requires s.Valid() && Inverse(c) && Fits(c, Rec(r))
    ensures s.(sender := Buffered(c, s.sender, r)).Valid()
    ensures Stream(c, s.(sender := Buffered(c, s.sender, r))) == Stream(c, s) + [Rec(r)]
  {
    DecodeFrame(c, Rec(r));
    DecodeAppend(c, s.sender.buffer, Frame(c, Rec(r)));
    FramesAppend(s.sender.buffer, Frame(c, Rec(r)));
    Regroup((s.output + s.elementBuffer) + AllContents(c, s.InFlight()), Decode(c, s.sender.buffer), [Rec(r)]);
  }

  lemma {:induction false} SendAdds<V>(c: Codec<V>, cfg: Config, s: System<V>, t: Turn<V>)
    requires s.Valid() && (t.SendWm? || t.SendBar?) && Apply(c, cfg, s, t).1 != Refused
    ensures Apply(c, cfg, s, t).0.Valid()
    ensures Stream(c, Apply(c, cfg, s, t).0) == Stream(c, s) + Carried(c, t, Apply(c, cfg, s, t).1)
  {
    FlushKeepsStream(c, cfg, s, t.room);
    var (sender, o) := Flush(cfg, s.sender, t.room);
    if Apply(c, cfg, s, t).1 == Done {
      var flushed := s.(sender := sender);
      var after := Apply(c, cfg, s, t).0.sender;
      var batch := after.wire[|after.wire| - 1];
      assert Stream(c, flushed) == (s.output + s.elementBuffer) + AllContents(c, flushed.InFlight());
      OfferAdds(c, flushed, after, batch);
      assert Contents(c, batch) == Carried(c, t, Done);
    }
  }

  lemma {:induction false} ReadKeepsStream<V>(c: Codec<V>, cfg: Config, s: System<V>, t: Turn<V>)
    requires s.Valid() && (t.Take? || t.Pop?)
    ensures Apply(c, cfg, s, t).0.Valid() && Stream(c, Apply(c, cfg, s, t).0) == Stream(c, s)
  {
    if s.elementBuffer != [] {
      if t.Pop? {
        Regroup(s.output, [s.elementBuffer[0]], s.elementBuffer[1..]);
        assert [s.elementBuffer[0]] + s.elementBuffer[1..] == s.elementBuffer;
      }
    } else if t.Take? && s.taken < |s.sender.wire| {
      var batch := s.sender.wire[s.taken];
      assert s.InFlight()[0] == batch && s.InFlight()[1..] == s.sender.wire[s.taken + 1..];
      assert s.output + s.elementBuffer == s.output;
      Regroup(s.output, Contents(c, batch), AllContents(c, s.sender.wire[s.taken + 1..]));
    }
  }

  /** Every turn the channel does not refuse appends exactly what it carries. */
  lemma {:induction false} StepAppends<V(!new)>(c: Codec<V>, cfg: Config, s: System<V>, t: Turn<V>)
    requires s.Valid() && Inverse(c) && (t.SendRecord? ==> Fits(c, Rec(t.record)))
    requires Apply(c, cfg, s, t).1 != Refused
    ensures Apply(c, cfg, s, t).0.Valid()
    ensures Stream(c, Apply(c, cfg, s, t).0) == Stream(c, s) + Carried(c, t, Apply(c, cfg, s, t).1)
  {
    match t
    case Grant(_) =>
    case SendRecord(r, room) =>
      BufferAdds(c, s, r);
      var s' := s.(sender := Buffered(c, s.sender, r));
      if s'.sender.recordCount >= cfg.batchSize {
        FlushKeepsStream(c, cfg, s', room);
      }
    case SendWm(_, _, _) => SendAdds(c, cfg, s, t);
    case SendBar(_, _, _) => SendAdds(c, cfg, s, t);
    case Take => ReadKeepsStream(c, cfg, s, t);
    case Pop => ReadKeepsStream(c, cfg, s, t);
  }

  // ----- refused flushes -----

  /** The buffer that a flush in this turn would send. */
  function Pending<V>(c: Codec<V>, s: Sender, t: Turn<V>): Bytes
  {
    if t.SendRecord? then Buffered(c, s, t.record).buffer else s.buffer
  }

  /** The channel refuses the flush of a non-empty buffer. */
  predicate Drops<V>(cfg: Config, s: Sender, t: Turn<V>)
  {
    match t
    case SendRecord(_, room) => !room && s.credits > 0 && s.recordCount + 1 >= cfg.batchSize
    case SendWm(_, room, _) => !room && s.credits > 0 && s.buffer != []
    case SendBar(_, room, _) => !room && s.credits > 0 && s.buffer != []
    case _ => false
  }

  /** What this turn loses. */
  function Lost<V>(c: Codec<V>, cfg: Config, s: Sender, t: Turn<V>): seq<StreamElement<V>>
  {
    if Drops(cfg, s, t) then Decode(c, Pending(c, s, t)) else []
  }

  /** The sender's bytes are frames, and if there are any they hold an element. */
  ghost predicate Sound<V>(c: Codec<V>, s: System<V>)
  {
    s.Valid() && (s.sender.buffer != [] ==> Decode(c, s.sender.buffer) != [])
  }

  /** A refused flush, whichever call made it, loses exactly what was buffered and one
      credit, and the call sends nothing more. */
  lemma {:induction false} RefusalLosesTheBuffer<V(!new)>(c: Codec<V>, cfg: Config, s: System<V>, t: Turn<V>)
    requires Sound(c, s) && Inverse(c) && (t.SendRecord? ==> Fits(c, Rec(t.record)))
    requires Drops(cfg, s.sender, t)
    ensures var (s', o) := Apply(c, cfg, s, t);
            && o == Refused && s'.Valid() && s'.sender.buffer == [] && s'.sender.credits == s.sender.credits - 1
            && Lost(c, cfg, s.sender, t) != []
            && Stream(c, s') + Lost(c, cfg, s.sender, t) == Stream(c, s) + Carried(c, t, o)
  {
    var kept := (s.output + s.elementBuffer) + AllContents(c, s.InFlight());
    if t.SendRecord? {
      BufferAdds(c, s, t.record);
      DecodeFrame(c, Rec(t.record));
      DecodeAppend(c, s.sender.buffer, Frame(c, Rec(t.record)));
    }
    var s' := Apply(c, cfg, s, t).0;
    assert Decode(c, s'.sender.buffer) == [];
    assert Stream(c, s') == kept;
  }

  /** A refused control batch behind a flush that went through loses no data. */
  lemma {:induction false} RefusedControl<V>(c: Codec<V>, cfg: Config, s: System<V>, t: Turn<V>)
    requires s.Valid() && Apply(c, cfg, s, t).1 == Refused && !Drops(cfg, s.sender, t)
    ensures t.SendWm? || t.SendBar?
    ensures Apply(c, cfg, s, t).0.Valid() && Apply(c, cfg, s, t).0.sender.buffer == []
    ensures Stream(c, Apply(c, cfg, s, t).0) == Stream(c, s)
  {
    if t.SendWm? || t.SendBar? {
      FlushKeepsStream(c, cfg, s, t.room);
      var flushed := s.(sender := Flush(cfg, s.sender, t.room).0);
      assert Apply(c, cfg, s, t).0.InFlight() == flushed.InFlight();
    }
  }

  /** Every turn appends what it carries, less what it loses. */
  lemma {:induction false} StepAccounted<V(!new)>(c: Codec<V>, cfg: Config, s: System<V>, t: Turn<V>)
    requires Sound(c, s) && Inverse(c) && (t.SendRecord? ==> Fits(c, Rec(t.record)))
    ensures var (s', o) := Apply(c, cfg, s, t);
            && s'.Valid()
            && Stream(c, s') + Lost(c, cfg, s.sender, t) == Stream(c, s) + Carried(c, t, o)
  {
    if Drops(cfg, s.sender, t) {
      RefusalLosesTheBuffer(c, cfg, s, t);
    } else if Apply(c, cfg, s, t).1 == Refused {
      RefusedControl(c, cfg, s, t);
    } else {
      StepAppends(c, cfg, s, t);
    }
  }

  lemma {:induction false} StepKeepsSound<V(!new)>(c: Codec<V>, cfg: Config, s: System<V>, t: Turn<V>)
    requires Sound(c, s) && Inverse(c) && (t.SendRecord? ==> Fits(c, Rec(t.record)))
    ensures Sound(c, Apply(c, cfg, s, t).0)
  {
    StepAccounted(c, cfg, s, t);
    if t.SendRecord? {
      DecodeFrame(c, Rec(t.record));
      DecodeAppend(c, s.sender.buffer, Frame(c, Rec(t.record)));
    }
  }

  // ----- whole runs -----

  /** What the calls of a run carried, in call order. */
  function AllCarried<V>(c: Codec<V>, cfg: Config, turns: seq<Turn<V>>): seq<StreamElement<V>>
  {
    if turns == [] then []
    else
      var m := |turns| - 1;
      AllCarried(c, cfg, turns[..m]) + Carried(c, turns[m], Result(c, cfg, turns, m))
  }

  lemma {:induction false} ResultOfPrefix<V>(c: Codec<V>, cfg: Config, turns: seq<Turn<V>>, m: nat, k: nat)
    requires k < m <= |turns|
    ensures Result(c, cfg, turns[..m], k) == Result(c, cfg, turns, k)
  {
    assert turns[..m][..k] == turns[..k];
  }

  /** What survives of it: a refused flush cuts off the end that was in the buffer. */
  function Survived<V>(c: Codec<V>, cfg: Config, turns: seq<Turn<V>>): seq<StreamElement<V>>
  {
    if turns == [] then []
    else
      var m := |turns| - 1;
      var all := Survived(c, cfg, turns[..m]) + Carried(c, turns[m], Result(c, cfg, turns, m));
      var lost := |Lost(c, cfg, Run(c, cfg, turns[..m]).sender, turns[m])|;
      if lost <= |all| then all[..|all| - lost] else []
  }

  function TotalLost<V>(c: Codec<V>, cfg: Config, turns: seq<Turn<V>>): nat
  {
    if turns == [] then 0
    else
      var m := |turns| - 1;
      TotalLost(c, cfg, turns[..m]) + |Lost(c, cfg, Run(c, cfg, turns[..m]).sender, turns[m])|
  }

  /** The flush of a non-empty buffer is refused in turn k. */
  predicate DropsAt<V>(c: Codec<V>, cfg: Config, turns: seq<Turn<V>>, k: nat)
    requires k < |turns|
  {
    Drops(cfg, Run(c, cfg, turns[..k]).sender, turns[k])
  }

  ghost predicate NothingDropped<V>(c: Codec<V>, cfg: Config, turns: seq<Turn<V>>)
  {
    forall k :: 0 <= k < |turns| ==> !DropsAt(c, cfg, turns, k)
  }

  lemma {:induction false} RunIsSound<V(!new)>(c: Codec<V>, cfg: Config, turns: seq<Turn<V>>)
    requires Inverse(c) && RecordsFit(c, turns)
    ensures Sound(c, Run(c, cfg, turns))
  {
    if turns != [] {
      var m := |turns| - 1;
      RunIsSound(c, cfg, turns[..m]);
      StepKeepsSound(c, cfg, Run(c, cfg, turns[..m]), turns[m]);
    }
  }

  /** For any interleaving of calls, grants, reads and refusals: delivered, in the
      reader's hands, on the wire and buffered are together what the calls carried,
      in order and once, less exactly what refused flushes cut off. */
  lemma {:induction false} StreamIsSurvived<V(!new)>(c: Codec<V>, cfg: Config, turns: seq<Turn<V>>)
    requires Inverse(c) && RecordsFit(c, turns)
    ensures Run(c, cfg, turns).Valid()
    ensures Stream(c, Run(c, cfg, turns)) == Survived(c, cfg, turns)
    ensures |Stream(c, Run(c, cfg, turns))| + TotalLost(c, cfg, turns) == |AllCarried(c, cfg, turns)|
  {
    RunIsSound(c, cfg, turns);
    if turns != [] {
      var m := |turns| - 1;
      var s := Run(c, cfg, turns[..m]);
      RunIsSound(c, cfg, turns[..m]);
      StreamIsSurvived(c, cfg, turns[..m]);
      StepAccounted(c, cfg, s, turns[m]);
      CutOff(Stream(c, Run(c, cfg, turns)), Lost(c, cfg, s.sender, turns[m]));
    }
  }

  lemma {:induction false} CutOff<T>(kept: seq<T>, lost: seq<T>)
    ensures (kept + lost)[..|kept + lost| - |lost|] == kept
  {
  }

  lemma {:induction false} DroppedBefore<V>(c: Codec<V>, cfg: Config, turns: seq<Turn<V>>)
    requires turns != []
    ensures NothingDropped(c, cfg, turns) <==>
              NothingDropped(c, cfg, turns[..|turns| - 1]) && !DropsAt(c, cfg, turns, |turns| - 1)
  {
    var m := |turns| - 1;
    forall k | 0 <= k < m ensures DropsAt(c, cfg, turns[..m], k) <==> DropsAt(c, cfg, turns, k) {
      assert turns[..m][..k] == turns[..k];
    }
  }

  lemma {:induction false} LossIsDrop<V(!new)>(c: Codec<V>, cfg: Config, s: System<V>, t: Turn<V>)
    requires Sound(c, s) && Inverse(c) && (t.SendRecord? ==> Fits(c, Rec(t.record)))
    ensures |Lost(c, cfg, s.sender, t)| == 0 <==> !Drops(cfg, s.sender, t)
  {
    if Drops(cfg, s.sender, t) {
      RefusalLosesTheBuffer(c, cfg, s, t);
    }
  }

  lemma {:induction false} LossesAreDrops<V(!new)>(c: Codec<V>, cfg: Config, turns: seq<Turn<V>>)
    requires Inverse(c) && RecordsFit(c, turns)
    ensures TotalLost(c, cfg, turns) == 0 <==> NothingDropped(c, cfg, turns)
    ensures NothingDropped(c, cfg, turns) ==> Survived(c, cfg, turns) == AllCarried(c, cfg, turns)
  {
    if turns != [] {
      var m := |turns| - 1;
      LossesAreDrops(c, cfg, turns[..m]);
      RunIsSound(c, cfg, turns[..m]);
      DroppedBefore(c, cfg, turns);
      LossIsDrop(c, cfg, Run(c, cfg, turns[..m]), turns[m]);
    }
  }

  /** What arrives is what the calls carried if and only if the channel never refused
      the flush of a non-empty buffer. */
  lemma {:induction false} StreamIsCarriedIff<V(!new)>(c: Codec<V>, cfg: Config, turns: seq<Turn<V>>)
    requires Inverse(c) && RecordsFit(c, turns)
    ensures Run(c, cfg, turns).Valid()
    ensures Stream(c, Run(c, cfg, turns)) == AllCarried(c, cfg, turns) <==> NothingDropped(c, cfg, turns)
  {
    StreamIsSurvived(c, cfg, turns);
    LossesAreDrops(c, cfg, turns);
  }

  lemma {:induction false} DropIsRefused<V>(c: Codec<V>, cfg: Config, s: System<V>, t: Turn<V>)
    ensures Drops(cfg, s.sender, t) ==> Apply(c, cfg, s, t).1 == Refused
  {
    if t.SendRecord? {
      assert |Buffered(c, s.sender, t.record).buffer| > 0;
    }
  }

  /** In particular when the channel refused nothing at all. */
  lemma {:induction false} StreamIsCarried<V(!new)>(c: Codec<V>, cfg: Config, turns: seq<Turn<V>>)
    requires Inverse(c) && RecordsFit(c, turns) && NeverRefused(c, cfg, turns)
    ensures Run(c, cfg, turns).Valid()
    ensures Stream(c, Run(c, cfg, turns)) == AllCarried(c, cfg, turns)
  {
    forall k | 0 <= k < |turns| ensures !DropsAt(c, cfg, turns, k) {
      DropIsRefused(c, cfg, Run(c, cfg, turns[..k]), turns[k]);
      assert Result(c, cfg, turns, k) != Refused;
    }
    StreamIsCarriedIff(c, cfg, turns);
  }

  /** The loss is real: one credit, one record, a full channel; the call fails, the
      record is gone and so is the credit. */
  lemma {:induction false} RefusalExample<V(!new)>(c: Codec<V>, cfg: Config, r: Record<V>)
    requires Inverse(c) && Fits(c, Rec(r)) && cfg.batchSize == 1
    ensures var turns := [Grant(1), SendRecord(r, false)];
            && Run(c, cfg, turns).Valid() && Stream(c, Run(c, cfg, turns)) == []
            && AllCarried(c, cfg, turns) == [Rec(r)] && Run(c, cfg, turns).sender.credits == 0
  {
    var turns: seq<Turn<V>> := [Grant(1), SendRecord(r, false)];
    assert turns == ([] + [Grant(1)]) + [SendRecord(r, false)];
    ApplyOneMore(c, cfg, Start(), [], Grant(1));
    ApplyOneMore(c, cfg, Start(), [] + [Grant(1)], SendRecord(r, false));
    assert turns[..1] == [] + [Grant(1)] && turns[..1][..0] == [];
    assert Run(c, cfg, turns) == Start();
    assert Stream(c, Start<V>()) == [] by { assert Start<V>().InFlight() == [] && Decode(c, []) == []; }
    assert AllCarried(c, cfg, turns[..1]) == [] by { assert Carried(c, turns[0], Done) == []; }
    assert AllCarried(c, cfg, turns) == [] + [Rec(r)];
  }

  /** What a caller expects of a turn. */
  function Wanted<V>(t: Turn<V>): seq<StreamElement<V>>
  {
    match t
    case SendRecord(r, _) => [Rec(r)]
    case SendWm(w, _, _) => [Wm(w)]
    case SendBar(b, _, _) => [Bar(CheckpointBarrier(b.id, 0))]
    case _ => []
  }

  function AllWanted<V>(turns: seq<Turn<V>>): seq<StreamElement<V>>
  {
    if turns == [] then [] else AllWanted(turns[..|turns| - 1]) + Wanted(turns[|turns| - 1])
  }

  ghost predicate NoWatermarks<V>(turns: seq<Turn<V>>) { forall k :: 0 <= k < |turns| ==> !turns[k].SendWm? }

  lemma {:induction false} CarriedIsWanted<V>(c: Codec<V>, cfg: Config, turns: seq<Turn<V>>)
    requires AllDone(c, cfg, turns) && NoWatermarks(turns)
    ensures AllCarried(c, cfg, turns) == AllWanted(turns)
  {
    if turns != [] {
      var m := |turns| - 1;
      forall k | 0 <= k < m ensures Result(c, cfg, turns[..m], k) == Done {
        ResultOfPrefix(c, cfg, turns, m, k);
      }
      CarriedIsWanted(c, cfg, turns[..m]);
      assert Result(c, cfg, turns, m) == Done && !turns[m].SendWm?;
    }
  }

  /** Calls that all succeed, watermarks aside: delivered, in the reader's hands, on
      the wire and still buffered are together exactly what was sent, in order. */
  lemma {:induction false} RoundTrip<V(!new)>(c: Codec<V>, cfg: Config, turns: seq<Turn<V>>)
    requires Inverse(c) && RecordsFit(c, turns) && AllDone(c, cfg, turns) && NoWatermarks(turns)
    ensures Run(c, cfg, turns).Valid() && Stream(c, Run(c, cfg, turns)) == AllWanted(turns)
  {
    forall k | 0 <= k < |turns| ensures Result(c, cfg, turns, k) != Refused {
      assert Result(c, cfg, turns, k) == Done;
    }
    StreamIsCarried(c, cfg, turns);
    CarriedIsWanted(c, cfg, turns);
  }

  // ----- watermarks do not survive -----

  /** The longest watermark of a run. */
  lemma {:induction false} LongestWatermark<V>(c: Codec<V>, turns: seq<Turn<V>>) returns (k: nat)
    requires !NoWatermarks(turns)
    ensures k < |turns| && turns[k].SendWm?
    ensures forall j :: 0 <= j < |turns| && turns[j].SendWm? ==>
                          |c.ser(Wm(turns[j].timestamp))| <= |c.ser(Wm(turns[k].timestamp))|
  {
    var m := |turns| - 1;
    var front := turns[..m];
    if NoWatermarks(front) {
      assert forall j :: 0 <= j < m ==> !front[j].SendWm? && turns[j] == front[j];
      k := m;
    } else {
      k := LongestWatermark(c, front);
      assert forall j :: 0 <= j < m ==> turns[j] == front[j];
      if turns[m].SendWm? && |c.ser(Wm(turns[m].timestamp))| > |c.ser(Wm(turns[k].timestamp))| {
        k := m;
      }
    }
  }

  lemma {:induction false} TurnDoesNotCarry<V(!new)>(c: Codec<V>, t: Turn<V>, o: Outcome, w: Timestamp)
    requires Shortest(c) && (t.SendWm? ==> |c.ser(Wm(t.timestamp))| <= |c.ser(Wm(w))|)
    ensures Wm(w) !in Carried(c, t, o)
  {
    if t.SendWm? && Wm(w) in Decode(c, c.ser(Wm(t.timestamp))) {
      DecodedAreShorter(c, c.ser(Wm(t.timestamp)), Wm(w));
      assert false;
    }
  }

  lemma {:induction false} LongestIsNotCarried<V(!new)>(c: Codec<V>, cfg: Config, turns: seq<Turn<V>>, w: Timestamp)
    requires Shortest(c)
    requires forall j :: 0 <= j < |turns| && turns[j].SendWm? ==> |c.ser(Wm(turns[j].timestamp))| <= |c.ser(Wm(w))|
    ensures Wm(w) !in AllCarried(c, cfg, turns)
  {
    if turns != [] {
      var m := |turns| - 1;
      LongestIsNotCarried(c, cfg, turns[..m], w);
      TurnDoesNotCarry(c, turns[m], Result(c, cfg, turns, m), w);
    }
  }

  lemma {:induction false} SentIsWanted<V>(turns: seq<Turn<V>>, k: nat)
    requires k < |turns| && turns[k].SendWm?
    ensures Wm(turns[k].timestamp) in AllWanted(turns)
  {
    if k < |turns| - 1 {
      SentIsWanted(turns[..|turns| - 1], k);
    }
  }

  /** Even when every call succeeds, what arrives is what was sent if and only if no
      watermark was sent: a watermark's bytes, without their length, are never read
      back as that watermark. */
  lemma {:induction false} IntactIffNoWatermarks<V(!new)>(c: Codec<V>, cfg: Config, turns: seq<Turn<V>>)
    requires Shortest(c) && RecordsFit(c, turns) && AllDone(c, cfg, turns)
    ensures Run(c, cfg, turns).Valid()
    ensures Stream(c, Run(c, cfg, turns)) == AllWanted(turns) <==> NoWatermarks(turns)
  {
    forall k | 0 <= k < |turns| ensures Result(c, cfg, turns, k) != Refused {
      assert Result(c, cfg, turns, k) == Done;
    }
    StreamIsCarried(c, cfg, turns);
    if NoWatermarks(turns) {
      CarriedIsWanted(c, cfg, turns);
    } else {
      var k := LongestWatermark(c, turns);
      SentIsWanted(turns, k);
      LongestIsNotCarried(c, cfg, turns, turns[k].timestamp);
    }
  }

  /** The failure is real for every such serializer: one watermark with two credits in
      hand and room on the channel is reported as sent and never arrives. */
  lemma {:induction false} WatermarkExample<V(!new)>(c: Codec<V>, cfg: Config, w: Timestamp)
    requires Shortest(c)
    ensures var turns := [Grant(2), SendWm(w, true, true)];
            && AllDone(c, cfg, turns) && Run(c, cfg, turns).Valid()
            && Wm(w) !in Stream(c, Run(c, cfg, turns))
  {
    var turns: seq<Turn<V>> := [Grant(2), SendWm(w, true, true)];
    assert turns[..1] == [Grant(2)] && turns[..1][..0] == [];
    assert Result(c, cfg, turns, 0) == Done && Result(c, cfg, turns, 1) == Done;
    StreamIsCarried(c, cfg, turns);
    LongestIsNotCarried(c, cfg, turns, w);
  }

  // ----- credits and batch sizes -----

  function DataBatches(wire: seq<DataBatch>): nat
  {
    if wire == [] then 0
    else DataBatches(wire[..|wire| - 1]) + (if wire[|wire| - 1].isBarrier then 0 else 1)
  }

  function TotalGranted<V>(turns: seq<Turn<V>>): nat
  {
    if turns == [] then 0
    else
      var t := turns[|turns| - 1];
      TotalGranted(turns[..|turns| - 1]) + (if t.Grant? then t.n else 0)
  }

  /** Credits in hand and credits spent on data batches. */
  function Accounted(s: Sender): nat { DataBatches(s.wire) + s.credits }

  lemma {:induction false} OfferAccounts(s: Sender, b: DataBatch, room: bool)
    ensures Accounted(Offer(s, b, room).0) == Accounted(s) + (if room && !b.isBarrier then 1 else 0)
  {
    if room {
      assert (s.wire + [b])[..|s.wire|] == s.wire;
    }
  }

  lemma {:induction false} FlushAccounts(cfg: Config, s: Sender, room: bool)
    ensures Accounted(Flush(cfg, s, room).0) <= Accounted(s)
    ensures Flush(cfg, s, room).1 != Refused ==> Accounted(Flush(cfg, s, room).0) == Accounted(s)
  {
    if s.buffer != [] && s.credits > 0 {
      var batch := DataBatch(cfg.channelId, s.buffer, s.recordCount, false, 0);
      OfferAccounts(Sender([], 0, s.credits - 1, s.wire), batch, room);
    }
  }

  /** A watermark's flush and its own batch each spend a credit. */
  lemma {:induction false} WatermarkAccounts<V>(c: Codec<V>, cfg: Config, s: Sender, w: Timestamp, room: bool,
                                                after: bool)
    ensures var (s', o) := CollectWatermark(c, cfg, s, w, room, after);
            Accounted(s') <= Accounted(s) && (o != Refused ==> Accounted(s') == Accounted(s))
  {
    FlushAccounts(cfg, s, room);
    var flushed := Flush(cfg, s, room).0;
    if flushed.credits > 0 {
      var batch := DataBatch(cfg.channelId, c.ser(Wm(w)), 0, false, 0);
      OfferAccounts(flushed.(credits := flushed.credits - 1), batch, after);
    }
  }

  lemma {:induction false} BarrierAccounts(cfg: Config, s: Sender, b: CheckpointBarrier, room: bool, after: bool)
    ensures var (s', o) := CollectBarrier(cfg, s, b, room, after);
            Accounted(s') <= Accounted(s) && (o != Refused ==> Accounted(s') == Accounted(s))
  {
    FlushAccounts(cfg, s, room);
    OfferAccounts(Flush(cfg, s, room).0, DataBatch(cfg.channelId, [], 0, true, b.id), after);
  }

  lemma {:induction false} StepAccounts<V>(c: Codec<V>, cfg: Config, s: System<V>, t: Turn<V>)
    ensures var (s', o) := Apply(c, cfg, s, t);
            var grant := if t.Grant? then t.n else 0;
            && Accounted(s'.sender) <= Accounted(s.sender) + grant
            && (o != Refused && s.sender.credits + grant <= U32_MAX ==>
                  Accounted(s'.sender) == Accounted(s.sender) + grant)
  {
    match t
    case SendRecord(r, room) => FlushAccounts(cfg, Buffered(c, s.sender, r), room);
    case SendWm(w, room, after) => WatermarkAccounts(c, cfg, s.sender, w, room, after);
    case SendBar(b, room, after) => BarrierAccounts(cfg, s.sender, b, room, after);
    case _ =>
  }

  /** Flow control: data batches never outrun the credits granted; unless a batch was
      refused or the counter saturated, batches sent and credits left are the credits granted. */
  lemma {:induction false} CreditsAreConserved<V>(c: Codec<V>, cfg: Config, turns: seq<Turn<V>>)
    ensures Accounted(Run(c, cfg, turns).sender) <= TotalGranted(turns)
    ensures NeverRefused(c, cfg, turns) && TotalGranted(turns) <= U32_MAX ==>
              Accounted(Run(c, cfg, turns).sender) == TotalGranted(turns)
  {
    if turns != [] {
      var m := |turns| - 1;
      CreditsAreConserved(c, cfg, turns[..m]);
      StepAccounts(c, cfg, Run(c, cfg, turns[..m]), turns[m]);
      if NeverRefused(c, cfg, turns) {
        forall k | 0 <= k < m ensures Result(c, cfg, turns[..m], k) != Refused {
          ResultOfPrefix(c, cfg, turns, m, k);
        }
        assert Result(c, cfg, turns, m) != Refused;
      }
    }
  }

  /** Record counts tell the truth and stay within the batch size. */
  ghost predicate Counted<V>(c: Codec<V>, cfg: Config, s: Sender)
  {
    && WellFramed(s.buffer) && s.recordCount == |Decode(c, s.buffer)|
    && s.recordCount < (if cfg.batchSize == 0 then 1 else cfg.batchSize)
    && forall i :: 0 <= i < |s.wire| && s.wire[i].recordCount > 0 ==>
         s.wire[i].recordCount == |Decode(c, s.wire[i].payload)| <= (if cfg.batchSize == 0 then 1 else cfg.batchSize)
  }

  lemma {:induction false} FlushCounts<V>(c: Codec<V>, cfg: Config, s: Sender, room: bool)
    requires Counted(c, cfg, s)
    ensures Counted(c, cfg, Flush(cfg, s, room).0)
  {
  }

  lemma {:induction false} RecordCounts<V(!new)>(c: Codec<V>, cfg: Config, s: Sender, r: Record<V>, room: bool)
    requires Counted(c, cfg, s) && Inverse(c) && Fits(c, Rec(r)) && CollectRecord(c, cfg, s, r, room).1 == Done
    ensures Counted(c, cfg, CollectRecord(c, cfg, s, r, room).0)
  {
    DecodeFrame(c, Rec(r));
    DecodeAppend(c, s.buffer, Frame(c, Rec(r)));
    FramesAppend(s.buffer, Frame(c, Rec(r)));
  }

  /** Control batches declare no records. */
  lemma {:induction false} OfferCounts<V>(c: Codec<V>, cfg: Config, s: Sender, credits: U32, b: DataBatch, room: bool)
    requires Counted(c, cfg, s) && b.recordCount == 0
    ensures Counted(c, cfg, Offer(s.(credits := credits), b, room).0)
  {
  }

  lemma {:induction false} StepCounts<V(!new)>(c: Codec<V>, cfg: Config, s: System<V>, t: Turn<V>)
    requires Counted(c, cfg, s.sender) && Inverse(c) && (t.SendRecord? ==> Fits(c, Rec(t.record)))
    requires Apply(c, cfg, s, t).1 == Done
    ensures Counted(c, cfg, Apply(c, cfg, s, t).0.sender)
  {
    match t
    case SendRecord(r, room) => RecordCounts(c, cfg, s.sender, r, room);
    case SendWm(w, room, after) =>
      FlushCounts(c, cfg, s.sender, room);
      var f := Flush(cfg, s.sender, room).0;
      OfferCounts(c, cfg, f, f.credits - 1, DataBatch(cfg.channelId, c.ser(Wm(w)), 0, false, 0), after);
    case SendBar(b, room, after) =>
      FlushCounts(c, cfg, s.sender, room);
      var f := Flush(cfg, s.sender, room).0;
      OfferCounts(c, cfg, f, f.credits, DataBatch(cfg.channelId, [], 0, true, b.id), after);
    case _ =>
  }

  /** While every call succeeds, each batch declares the number of records it holds
      and no batch holds more than the batch size. */
  lemma {:induction false} BatchesAreCounted<V(!new)>(c: Codec<V>, cfg: Config, turns: seq<Turn<V>>)
    requires Inverse(c) && RecordsFit(c, turns) && AllDone(c, cfg, turns)
    ensures Counted(c, cfg, Run(c, cfg, turns).sender)
  {
    if turns != [] {
      var m := |turns| - 1;
      forall k | 0 <= k < m ensures Result(c, cfg, turns[..m], k) == Done {
        ResultOfPrefix(c, cfg, turns, m, k);
      }
      BatchesAreCounted(c, cfg, turns[..m]);
      assert Result(c, cfg, turns, m) == Done;
      StepCounts(c, cfg, Run(c, cfg, turns[..m]), turns[m]);
    }
  }
}
