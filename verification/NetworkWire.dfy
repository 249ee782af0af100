/** The batches as they stand on the wire: bytes, channel, and when one is sent. */
module NetworkWire {
  import opened Streams
  import opened Network
  import opened NetworkRuns

  /** A frame is the length in four bytes, least significant first, and the serialized element. */
  lemma {:induction false} FrameLayout<V>(c: Codec<V>, e: StreamElement<V>)
    requires Fits(c, e)
    ensures var f := Frame(c, e);
            && |f| == 4 + |c.ser(e)| && f[4..] == c.ser(e)
            && |c.ser(e)| == (f[0] as int) + 0x100 * (f[1] as int)
                             + 0x1_0000 * (f[2] as int) + 0x100_0000 * (f[3] as int)
  {
    var n := |c.ser(e)|;
    var f, b := Frame(c, e), ToLe(n);
    LengthRoundTrip(n);
    assert f[0] == b[0] && f[1] == b[1] && f[2] == b[2] && f[3] == b[3];
  }

  /** All batches carry the collector's channel; barriers carry nothing else but their id. */
  ghost predicate WellAddressed(channelId: string, wire: seq<DataBatch>)
  {
    forall i :: 0 <= i < |wire| ==>
      && wire[i].channelId == channelId
      && (wire[i].isBarrier ==> wire[i].payload == [] && wire[i].recordCount == 0)
      && (!wire[i].isBarrier ==> wire[i].checkpointId == 0)
  }

  lemma {:induction false} TurnAddresses<V>(c: Codec<V>, cfg: Config, s: System<V>, t: Turn<V>)
    requires WellAddressed(cfg.channelId, s.sender.wire)
    ensures WellAddressed(cfg.channelId, Apply(c, cfg, s, t).0.sender.wire)
  {
  }

  /** Over any run, whatever is refused, every batch on the wire belongs to the channel. */
  lemma {:induction false} AllWellAddressed<V>(c: Codec<V>, cfg: Config, turns: seq<Turn<V>>)
    ensures WellAddressed(cfg.channelId, Run(c, cfg, turns).sender.wire)
  {
    if turns != [] {
      var m := |turns| - 1;
      AllWellAddressed(c, cfg, turns[..m]);
      TurnAddresses(c, cfg, Run(c, cfg, turns[..m]), turns[m]);
    }
  }

  /** A record call sends a batch exactly when this record fills the buffer, a credit is
      left and there is room: then all buffered frames, this one last, for one credit. */
  lemma {:induction false} SendsWhenFull<V>(c: Codec<V>, cfg: Config, s: Sender, r: Record<V>, room: bool)
    ensures var s' := CollectRecord(c, cfg, s, r, room).0;
            if s.recordCount + 1 >= cfg.batchSize && s.credits > 0 && room then
              && s'.wire == s.wire
                           + [DataBatch(cfg.channelId, s.buffer + Frame(c, Rec(r)), s.recordCount + 1, false, 0)]
              && s'.buffer == [] && s'.recordCount == 0 && s'.credits == s.credits - 1
            else s'.wire == s.wire
    ensures s.recordCount + 1 < cfg.batchSize || s.credits == 0 ==>
              var s' := CollectRecord(c, cfg, s, r, room).0;
              && s'.buffer == s.buffer + Frame(c, Rec(r)) && s'.recordCount == s.recordCount + 1
              && s'.credits == s.credits
  {
    assert |s.buffer + Frame(c, Rec(r))| >= 4;
  }

  /** A watermark or barrier that goes out follows everything buffered, in a batch of its own. */
  lemma {:induction false} ControlsFollowData<V>(c: Codec<V>, cfg: Config, s: Sender, t: Timestamp,
                                                 b: CheckpointBarrier, room: bool, after: bool)
    ensures var data := if s.buffer == [] then [] else [DataBatch(cfg.channelId, s.buffer, s.recordCount, false, 0)];
            && (CollectWatermark(c, cfg, s, t, room, after).1 == Done ==>
                  CollectWatermark(c, cfg, s, t, room, after).0.wire
                  == s.wire + data + [DataBatch(cfg.channelId, c.ser(Wm(t)), 0, false, 0)])
            && (CollectBarrier(cfg, s, b, room, after).1 == Done ==>
                  CollectBarrier(cfg, s, b, room, after).0.wire
                  == s.wire + data + [DataBatch(cfg.channelId, [], 0, true, b.id)])
  {
    assert s.wire + [] == s.wire;
  }
}
