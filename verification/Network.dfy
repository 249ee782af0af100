/** The network boundary: a collector that frames, batches and sends under credit
    flow control, and the input that takes the batches apart again. */
module Network {
  import opened Streams

  const U32_MAX: nat := 0xFFFF_FFFF

  type U32 = n: nat | n <= U32_MAX

  datatype DataBatch = DataBatch(
    channelId: string,
    payload: Bytes,
    recordCount: nat,
    isBarrier: bool,
    checkpointId: nat)

  /** The serialization library, seen as a pair of functions. */
  datatype Codec<!V> = Codec(ser: StreamElement<V> -> Bytes, de: Bytes -> Option<StreamElement<V>>)

  ghost predicate Inverse<V(!new)>(c: Codec<V>) { forall e: StreamElement<V> :: c.de(c.ser(e)) == Some(e) }

  /** Nothing shorter than its serialized form deserializes to an element; several
      encodings of one element are allowed. */
  ghost predicate Shortest<V(!new)>(c: Codec<V>)
  {
    Inverse(c) && forall b: Bytes, e: StreamElement<V> :: c.de(b) == Some(e) ==> |c.ser(e)| <= |b|
  }

  // ----- framing -----

  function ToLe(n: U32): (b: Bytes)
    ensures |b| == 4
  {
    [n % 256, n / 256 % 256, n / 256 / 256 % 256, n / 256 / 256 / 256]
  }

  function FromLe(b: Bytes): U32
    requires |b| == 4
  {
    var b0: int, b1: int, b2: int, b3: int := b[0], b[1], b[2], b[3];
    b0 + 256 * (b1 + 256 * (b2 + 256 * b3))
  }

  lemma {:induction false} LengthRoundTrip(n: U32)
    ensures FromLe(ToLe(n)) == n
  {
    var n1 := n / 256;
    var n2 := n1 / 256;
    assert n2 == 256 * (n2 / 256) + n2 % 256;
    assert n1 == 256 * n2 + n1 % 256;
  }

  /** An element's frame; a length beyond 32 bits is truncated. */
  function Frame<V>(c: Codec<V>, e: StreamElement<V>): Bytes { ToLe(|c.ser(e)| % (U32_MAX + 1)) + c.ser(e) }

  predicate Fits<V>(c: Codec<V>, e: StreamElement<V>) { |c.ser(e)| <= U32_MAX }

  /** The bytes of the first frame and what follows it, or None when no whole frame is left. */
  function Split(payload: Bytes): (r: Option<(Bytes, Bytes)>)
    ensures r.Some? ==> |r.value.0| + 4 + |r.value.1| == |payload| && |r.value.0| <= U32_MAX
  {
    if |payload| < 4 then None
    else
      var len := FromLe(payload[..4]);
      if 4 + len > |payload| then None else Some((payload[4..4 + len], payload[4 + len..]))
  }

  /** What the reader makes of a payload: it stops at the first frame that does not
      fit and skips what does not deserialize. */
  function Decode<V>(c: Codec<V>, payload: Bytes): seq<StreamElement<V>>
    decreases |payload|
  {
    match Split(payload)
    case None => []
    case Some((body, rest)) => AsSeq(c.de(body)) + Decode(c, rest)
  }

  predicate WellFramed(payload: Bytes)
    decreases |payload|
  {
    payload == [] || (Split(payload).Some? && WellFramed(Split(payload).value.1))
  }

  lemma {:induction false} SplitAppend(a: Bytes, b: Bytes)
    requires Split(a).Some?
    ensures Split(a + b) == Some((Split(a).value.0, Split(a).value.1 + b))
  {
    var len := FromLe(a[..4]);
    assert (a + b)[..4] == a[..4];
    assert (a + b)[4..4 + len] == a[4..4 + len];
    assert (a + b)[4 + len..] == a[4 + len..] + b;
  }

  lemma {:induction false} DecodeAppend<V>(c: Codec<V>, a: Bytes, b: Bytes)
    requires WellFramed(a)
    ensures Decode(c, a + b) == Decode(c, a) + Decode(c, b)
    decreases |a|
  {
    if a == [] {
      assert a + b == b;
    } else {
      var (frame, rest) := Split(a).value;
      SplitAppend(a, b);
      DecodeAppend(c, rest, b);
      Regroup(AsSeq(c.de(frame)), Decode(c, rest), Decode(c, b));
    }
  }

  lemma {:induction false} FramesAppend(a: Bytes, b: Bytes)
    requires WellFramed(a) && WellFramed(b)
    ensures WellFramed(a + b)
    decreases |a|
  {
    if a == [] {
      assert a + b == b;
    } else {
      SplitAppend(a, b);
      FramesAppend(Split(a).value.1, b);
    }
  }

  lemma {:induction false} DecodeFrame<V(!new)>(c: Codec<V>, e: StreamElement<V>)
    requires Inverse(c) && Fits(c, e)
    ensures Decode(c, Frame(c, e)) == [e] && WellFramed(Frame(c, e))
  {
    var bytes := c.ser(e);
    var f := Frame(c, e);
    LengthRoundTrip(|bytes|);
    assert f[..4] == ToLe(|bytes|);
    assert f[4..4 + |bytes|] == bytes;
    assert f[4 + |bytes|..] == [];
    assert Split(f) == Some((bytes, []));
  }

  /** Everything decoded from a payload is at least a length prefix shorter than it,
      and short enough for one. */
  lemma {:induction false} DecodedAreShorter<V(!new)>(c: Codec<V>, payload: Bytes, e: StreamElement<V>)
    requires Shortest(c) && e in Decode(c, payload)
    ensures |c.ser(e)| + 4 <= |payload| && Fits(c, e)
    decreases |payload|
  {
    var (body, rest) := Split(payload).value;
    if e in Decode(c, rest) {
      DecodedAreShorter(c, rest, e);
    } else {
      assert c.de(body) == Some(e);
    }
  }

  /** A framed element comes back exactly when its length fits the prefix. */
  lemma {:induction false} FrameArrivesIff<V(!new)>(c: Codec<V>, e: StreamElement<V>)
    requires Shortest(c)
    ensures Decode(c, Frame(c, e)) == [e] <==> Fits(c, e)
  {
    if Fits(c, e) {
      DecodeFrame(c, e);
    }
    if Decode(c, Frame(c, e)) == [e] {
      DecodedAreShorter(c, Frame(c, e), e);
    }
  }

  // ----- the sender -----

  datatype Config = Config(channelId: string, batchSize: U32)

  /** `wire` is every batch the outgoing channel has accepted. */
  datatype Sender = Sender(buffer: Bytes, recordCount: nat, credits: U32, wire: seq<DataBatch>)

  /** The source reports `NoCredit` and `Refused` by the same error. */
  datatype Outcome = Done | NoCredit | Refused

  function Offer(s: Sender, batch: DataBatch, room: bool): (Sender, Outcome)
  {
    if room then (s.(wire := s.wire + [batch]), Done) else (s, Refused)
  }

  function Flush(cfg: Config, s: Sender, room: bool): (Sender, Outcome)
  {
    if s.buffer == [] then (s, Done)
    else if s.credits == 0 then (s, NoCredit)
    else Offer(Sender([], 0, s.credits - 1, s.wire), DataBatch(cfg.channelId, s.buffer, s.recordCount, false, 0), room)
  }

  function Buffered<V>(c: Codec<V>, s: Sender, r: Record<V>): Sender
  {
    s.(buffer := s.buffer + Frame(c, Rec(r)), recordCount := s.recordCount + 1)
  }

  function CollectRecord<V>(c: Codec<V>, cfg: Config, s: Sender, r: Record<V>, room: bool): (Sender, Outcome)
  {
    var s' := Buffered(c, s, r);
    if s'.recordCount >= cfg.batchSize then Flush(cfg, s', room) else (s', Done)
  }

  /** The watermark's bytes are the whole payload: no length prefix. */
  function CollectWatermark<V>(c: Codec<V>, cfg: Config, s: Sender, t: Timestamp, room: bool,
                               roomAfter: bool): (Sender, Outcome)
  {
    var (s', o) := Flush(cfg, s, room);
    if o != Done then (s', o)
    else if s'.credits == 0 then (s', NoCredit)
    else Offer(s'.(credits := s'.credits - 1), DataBatch(cfg.channelId, c.ser(Wm(t)), 0, false, 0), roomAfter)
  }

  function CollectBarrier(cfg: Config, s: Sender, b: CheckpointBarrier, room: bool, roomAfter: bool): (Sender, Outcome)
  {
    var (s', o) := Flush(cfg, s, room);
    if o != Done then (s', o) else Offer(s', DataBatch(cfg.channelId, [], 0, true, b.id), roomAfter)
  }

  function Granted(s: Sender, n: U32): Sender
  {
    s.(credits := if s.credits + n <= U32_MAX then s.credits + n else U32_MAX)
  }

  class NetworkCollector<V> {
    const codec: Codec<V>
    const config: Config
    var batchTx: seq<DataBatch>
    var buffer: Bytes
    var recordCount: nat
    var credits: U32

    constructor (codec: Codec<V>, config: Config)
      ensures this.codec == codec && this.config == config && View() == Sender([], 0, 0, [])
    {
      this.codec, this.config := codec, config;
      batchTx, buffer, recordCount, credits := [], [], 0, 0;
    }

    function View(): Sender
      reads this
    {
      Sender(buffer, recordCount, credits, batchTx)
    }

    method GrantCredits(n: U32)
      modifies this
      ensures View() == Granted(old(View()), n)
    {
      credits := if credits <= U32_MAX - n then credits + n else U32_MAX;
    }

    method TrySend(batch: DataBatch, room: bool) returns (outcome: Outcome)
      modifies this`batchTx
      ensures (View(), outcome) == Offer(old(View()), batch, room)
    {
      if room {
        batchTx := batchTx + [batch];
        return Done;
      }
      outcome := Refused;
    }

    method FlushBuffer(room: bool) returns (outcome: Outcome)
      modifies this
      ensures (View(), outcome) == Flush(config, old(View()), room)
    {
      if |buffer| == 0 {
        return Done;
      }
      if credits == 0 {
        return NoCredit;
      }
      var batch := DataBatch(config.channelId, buffer, recordCount, false, 0);
      buffer := [];
      recordCount := 0;
      credits := credits - 1;
      outcome := TrySend(batch, room);
    }

    method SerializeElement(e: StreamElement<V>)
      modifies this`buffer
      ensures buffer == old(buffer) + Frame(codec, e)
    {
      var bytes := codec.ser(e);
      buffer := buffer + ToLe(|bytes| % (U32_MAX + 1));
      buffer := buffer + bytes;
      assert buffer == old(buffer) + Frame(codec, e);
    }

    method Collect(r: Record<V>, room: bool) returns (outcome: Outcome)
      modifies this
      ensures (View(), outcome) == CollectRecord(codec, config, old(View()), r, room)
    {
      SerializeElement(Rec(r));
      recordCount := recordCount + 1;
      outcome := Done;
      if recordCount >= config.batchSize {
        outcome := FlushBuffer(room);
      }
    }

    method SendWatermark(t: Timestamp, room: bool, roomAfter: bool) returns (outcome: Outcome)
      modifies this
      ensures (View(), outcome) == CollectWatermark(codec, config, old(View()), t, room, roomAfter)
    {
      outcome := FlushBuffer(room);
      if outcome != Done {
        return;
      }
      if credits == 0 {
        return NoCredit;
      }
      credits := credits - 1;
      outcome := TrySend(DataBatch(config.channelId, codec.ser(Wm(t)), 0, false, 0), roomAfter);
    }

    method SendBarrier(b: CheckpointBarrier, room: bool, roomAfter: bool) returns (outcome: Outcome)
      modifies this
      ensures (View(), outcome) == CollectBarrier(config, old(View()), b, room, roomAfter)
    {
      outcome := FlushBuffer(room);
      if outcome == Done {
        outcome := TrySend(DataBatch(config.channelId, [], 0, true, b.id), roomAfter);
      }
    }
  }

  // ----- the receiver -----

  datatype Received<V> = Element(element: StreamElement<V>) | Closed | Waiting

  function Contents<V>(c: Codec<V>, b: DataBatch): seq<StreamElement<V>>
  {
    if b.isBarrier then [Bar(CheckpointBarrier(b.checkpointId, 0))] else Decode(c, b.payload)
  }

  function AllContents<V>(c: Codec<V>, batches: seq<DataBatch>): seq<StreamElement<V>>
  {
    if batches == [] then [] else Contents(c, batches[0]) + AllContents(c, batches[1..])
  }

  lemma {:induction false} AllContentsSnoc<V>(c: Codec<V>, batches: seq<DataBatch>, b: DataBatch)
    ensures AllContents(c, batches + [b]) == AllContents(c, batches) + Contents(c, b)
  {
    if batches == [] {
      assert AllContents(c, [b][1..]) == [];
    } else {
      assert (batches + [b])[1..] == batches[1..] + [b];
      AllContentsSnoc(c, batches[1..], b);
    }
  }

  /** The sender, and the reader that has taken the first `taken` batches. */
  datatype System<V> = System(
    sender: Sender,
    taken: nat,
    elementBuffer: seq<StreamElement<V>>,
    output: seq<StreamElement<V>>)
  {
    ghost predicate Valid() { taken <= |sender.wire| && WellFramed(sender.buffer) }

    ghost function InFlight(): seq<DataBatch>
      requires taken <= |sender.wire|
    {
      sender.wire[taken..]
    }
  }

  datatype Turn<V> =
    | Grant(n: U32)
    | SendRecord(record: Record<V>, room: bool)
    | SendWm(timestamp: Timestamp, room: bool, roomAfter: bool)
    | SendBar(barrier: CheckpointBarrier, room: bool, roomAfter: bool)
    | Take
    | Pop

  function Sent<V>(s: System<V>, call: (Sender, Outcome)): (System<V>, Outcome) { (s.(sender := call.0), call.1) }

  /** `Take` moves the next batch into an empty element buffer; `Pop` hands out one element. */
  function Apply<V>(c: Codec<V>, cfg: Config, s: System<V>, t: Turn<V>): (System<V>, Outcome)
  {
    match t
    case Grant(n) => (s.(sender := Granted(s.sender, n)), Done)
    case SendRecord(r, room) => Sent(s, CollectRecord(c, cfg, s.sender, r, room))
    case SendWm(w, room, after) => Sent(s, CollectWatermark(c, cfg, s.sender, w, room, after))
    case SendBar(b, room, after) => Sent(s, CollectBarrier(cfg, s.sender, b, room, after))
    case Take =>
      if s.elementBuffer == [] && s.taken < |s.sender.wire| then
        (s.(taken := s.taken + 1, elementBuffer := Contents(c, s.sender.wire[s.taken])), Done)
      else (s, Done)
    case Pop =>
      if s.elementBuffer == [] then (s, Done)
      else (s.(elementBuffer := s.elementBuffer[1..], output := s.output + [s.elementBuffer[0]]), Done)
  }

  function ApplyAll<V>(c: Codec<V>, cfg: Config, s: System<V>, turns: seq<Turn<V>>): System<V>
  {
    if turns == [] then s
    else Apply(c, cfg, ApplyAll(c, cfg, s, turns[..|turns| - 1]), turns[|turns| - 1]).0
  }

  lemma {:induction false} ApplyOneMore<V>(c: Codec<V>, cfg: Config, s: System<V>, turns: seq<Turn<V>>, t: Turn<V>)
    ensures ApplyAll(c, cfg, s, turns + [t]) == Apply(c, cfg, ApplyAll(c, cfg, s, turns), t).0
  {
    assert (turns + [t])[..|turns|] == turns;
  }

  ghost predicate OnlyReads<V>(turns: seq<Turn<V>>)
  {
    forall k :: 0 <= k < |turns| ==> turns[k].Take? || turns[k].Pop?
  }

  /** The elements the reader of a system has before it. */
  ghost function Ahead<V>(c: Codec<V>, s: System<V>): seq<StreamElement<V>>
    requires s.taken <= |s.sender.wire|
  {
    s.elementBuffer + AllContents(c, s.InFlight())
  }

  lemma {:induction false} TakeKeepsAhead<V>(c: Codec<V>, cfg: Config, s: System<V>)
    requires s.elementBuffer == [] && s.taken < |s.sender.wire|
    ensures var s' := Apply(c, cfg, s, Take).0;
            && s' == s.(taken := s.taken + 1, elementBuffer := Contents(c, s.InFlight()[0]))
            && s'.InFlight() == s.InFlight()[1..] && Ahead(c, s') == Ahead(c, s)
  {
    assert s.InFlight()[0] == s.sender.wire[s.taken];
    assert s.InFlight()[1..] == s.sender.wire[s.taken + 1..];
  }

  lemma {:induction false} PopTakesHead<V>(c: Codec<V>, cfg: Config, s: System<V>)
    requires s.elementBuffer != [] && s.taken <= |s.sender.wire|
    ensures var s' := Apply(c, cfg, s, Pop).0;
            && s' == s.(elementBuffer := s.elementBuffer[1..], output := s.output + [s.elementBuffer[0]])
            && Ahead(c, s) == [s.elementBuffer[0]] + Ahead(c, s')
  {
    Regroup([s.elementBuffer[0]], s.elementBuffer[1..], AllContents(c, s.InFlight()));
    assert [s.elementBuffer[0]] + s.elementBuffer[1..] == s.elementBuffer;
  }

  /** The reader. One `recv` makes read turns of the system: it hands out the first
      of the elements ahead, or nothing because there is none. */
  class NetworkInput<V> {
    const codec: Codec<V>
    var batchRx: seq<DataBatch>
    var senderGone: bool
    var elementBuffer: seq<StreamElement<V>>

    constructor (codec: Codec<V>)
      ensures this.codec == codec && batchRx == [] && !senderGone && elementBuffer == []
    {
      this.codec, batchRx, senderGone, elementBuffer := codec, [], false, [];
    }

    /** This reader is the one of the system. */
    ghost predicate Shows(s: System<V>)
      reads this
    {
      s.taken <= |s.sender.wire| && batchRx == s.sender.wire[s.taken..] && elementBuffer == s.elementBuffer
    }

    /** The turns end in the system whose reader this then is; `Waiting` and `Closed`
        come only when nothing is ahead. */
    method Recv(ghost cfg: Config, ghost s: System<V>)
      returns (r: Received<V>, ghost turns: seq<Turn<V>>, ghost s': System<V>)
      requires Shows(s)
      modifies this`batchRx, this`elementBuffer
      ensures OnlyReads(turns) && s' == ApplyAll(codec, cfg, s, turns) && Shows(s')
      ensures match r
              case Element(e) => s'.output == s.output + [e] && Ahead(codec, s) == [e] + Ahead(codec, s')
              case _ => s'.output == s.output && Ahead(codec, s) == Ahead(codec, s') == []
      ensures !r.Element? ==> batchRx == [] && (r.Closed? <==> senderGone)
    {
      turns, s' := [], s;
      while elementBuffer == []
        invariant OnlyReads(turns) && s' == ApplyAll(codec, cfg, s, turns) && Shows(s')
        invariant s'.output == s.output && Ahead(codec, s') == Ahead(codec, s)
        decreases |batchRx|
      {
        if batchRx == [] {
          return if senderGone then Closed else Waiting, turns, s';
        }
        var batch := batchRx[0];
        batchRx := batchRx[1..];
        TakeKeepsAhead(codec, cfg, s');
        ApplyOneMore(codec, cfg, s, turns, Take);
        turns, s' := turns + [Take], Apply(codec, cfg, s', Take).0;
        if batch.isBarrier {
          PopTakesHead(codec, cfg, s');
          ApplyOneMore(codec, cfg, s, turns, Pop);
          return Element(Bar(CheckpointBarrier(batch.checkpointId, 0))), turns + [Pop], Apply(codec, cfg, s', Pop).0;
        }
        elementBuffer := DecodePayload(codec, batch.payload);
      }
      PopTakesHead(codec, cfg, s');
      ApplyOneMore(codec, cfg, s, turns, Pop);
      turns, s' := turns + [Pop], Apply(codec, cfg, s', Pop).0;
      r := Element(elementBuffer[0]);
      elementBuffer := elementBuffer[1..];
    }
  }

  /** An element that did not deserialize is skipped. */
  function Push<T>(elements: seq<T>, decoded: Option<T>): seq<T>
  {
    if decoded.Some? then elements + [decoded.value] else elements
  }

  /** What is left to decode at an offset into the payload. */
  function DecodeAt<V>(c: Codec<V>, payload: Bytes, offset: nat): seq<StreamElement<V>>
    decreases |payload| - offset
  {
    if offset + 4 > |payload| then []
    else
      var end := offset + 4 + FromLe(payload[offset..offset + 4]);
      if end > |payload| then [] else AsSeq(c.de(payload[offset + 4..end])) + DecodeAt(c, payload, end)
  }

  /** Moving an offset is the same as cutting frames off the front. */
  lemma {:induction false} DecodeAtIsDecode<V>(c: Codec<V>, payload: Bytes, offset: nat)
    requires offset <= |payload|
    ensures DecodeAt(c, payload, offset) == Decode(c, payload[offset..])
    decreases |payload| - offset
  {
    if offset + 4 <= |payload| {
      var rest := payload[offset..];
      assert rest[..4] == payload[offset..offset + 4];
      var end := offset + 4 + FromLe(payload[offset..offset + 4]);
      if end <= |payload| {
        assert rest[4..end - offset] == payload[offset + 4..end];
        assert rest[end - offset..] == payload[end..];
        DecodeAtIsDecode(c, payload, end);
      }
    }
  }

  lemma {:induction false} PushAppend<T>(out: seq<T>, decoded: Option<T>, rest: seq<T>)
    ensures out + (AsSeq(decoded) + rest) == Push(out, decoded) + rest
  {
    if decoded.Some? {
      assert out + ([decoded.value] + rest) == (out + [decoded.value]) + rest;
    }
  }

  /** `elements` is what of `all` comes before `offset`. */
  ghost predicate ReadTo<V>(c: Codec<V>, payload: Bytes, offset: nat, elements: seq<StreamElement<V>>,
                            all: seq<StreamElement<V>>)
  {
    elements + DecodeAt(c, payload, offset) == all
  }

  lemma {:induction false} DecodeAtStart<V>(c: Codec<V>, payload: Bytes)
    ensures DecodeAt(c, payload, 0) == Decode(c, payload)
  {
    DecodeAtIsDecode(c, payload, 0);
    assert payload[0..] == payload;
  }

  /** One turn of the reader's loop moves one frame into `elements`. */
  lemma {:induction false} FrameMoves<V>(c: Codec<V>, payload: Bytes, offset: nat, body: nat, end: nat,
                                         elements: seq<StreamElement<V>>, decoded: Option<StreamElement<V>>,
                                         all: seq<StreamElement<V>>)
    requires body == offset + 4 && body <= end <= |payload| && end == body + FromLe(payload[offset..body])
    requires ReadTo(c, payload, offset, elements, all) && decoded == c.de(payload[body..end])
    ensures ReadTo(c, payload, end, Push(elements, decoded), all)
  {
    PushAppend(elements, decoded, DecodeAt(c, payload, end));
  }

  /** The loop stops where no whole frame is left. */
  lemma {:induction false} ReadingEnds<V>(c: Codec<V>, payload: Bytes, offset: nat,
                                          elements: seq<StreamElement<V>>, all: seq<StreamElement<V>>)
    requires offset + 4 <= |payload| ==> offset + 4 + FromLe(payload[offset..offset + 4]) > |payload|
    requires ReadTo(c, payload, offset, elements, all)
    ensures elements == all
  {
  }

  /** The body of the loop: past the prefix, one element decoded, past the frame. */
  method ReadFrame<V>(codec: Codec<V>, payload: Bytes, offset: nat, len: nat, elements: seq<StreamElement<V>>,
                      ghost all: seq<StreamElement<V>>) returns (elements': seq<StreamElement<V>>, offset': nat)
    requires offset + 4 + len <= |payload| && len == FromLe(payload[offset..offset + 4])
    requires ReadTo(codec, payload, offset, elements, all)
    ensures offset' == offset + 4 + len && ReadTo(codec, payload, offset', elements', all)
  {
    offset' := offset + 4;
    var decoded := codec.de(payload[offset'..offset' + len]);
    FrameMoves(codec, payload, offset, offset', offset' + len, elements, decoded, all);
    elements' := Push(elements, decoded);
    offset' := offset' + len;
  }

  /** The reader's loop over one payload. */
  method DecodePayload<V>(codec: Codec<V>, payload: Bytes) returns (elements: seq<StreamElement<V>>)
    ensures elements == Decode(codec, payload)
  {
    elements := [];
    var offset := 0;
    ghost var all := DecodeAt(codec, payload, 0);
    assert ReadTo(codec, payload, 0, [], all);
    while offset + 4 <= |payload|
      invariant offset <= |payload|
      invariant ReadTo(codec, payload, offset, elements, all)
    {
      var len := FromLe(payload[offset..offset + 4]);
      if offset + 4 + len > |payload| {
        break;
      }
      elements, offset := ReadFrame(codec, payload, offset, len, elements, all);
    }
    ReadingEnds(codec, payload, offset, elements, all);
    DecodeAtStart(codec, payload);
  }
}
