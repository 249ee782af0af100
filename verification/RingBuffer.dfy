/** Single-producer single-consumer ring buffer. Producer and consumer advance by
    atomic steps (a sequence load, a slot access, a sequence store), and a run is
    any interleaving of them. */
module RingBuffer {
  import opened Arithmetic
  import opened Streams

  // ----- capacity and masks -----

  function Pow2(k: nat): nat { if k == 0 then 1 else 2 * Pow2(k - 1) }

  /** Bitwise conjunction of two unsigned numbers. */
  function BitAnd(a: nat, b: nat): nat
  {
    if a == 0 || b == 0 then 0
    else 2 * BitAnd(a / 2, b / 2) + if a % 2 == 1 && b % 2 == 1 then 1 else 0
  }

  /** Masking with capacity - 1 is the remainder by a power-of-two capacity. */
  lemma {:induction false} MaskIsRemainder(a: nat, k: nat)
    ensures Pow2(k) > 0 && BitAnd(a, Pow2(k) - 1) == a % Pow2(k)
  {
    if k != 0 {
      var half := Pow2(k - 1);
      MaskIsRemainder(a / 2, k - 1);
      HalvedRemainder(a, half);
      assert (2 * half - 1) / 2 == half - 1 && (2 * half - 1) % 2 == 1;
    }
  }

  lemma {:induction false} HalvedRemainder(a: nat, h: nat)
    requires h > 0
    ensures a % (2 * h) == 2 * ((a / 2) % h) + a % 2
  {
    var b := a / 2;
    var q, r := b / h, b % h;
    assert b == h * q + r;
    Doubled(h, q);
    assert a == (2 * h) * q + (2 * r + a % 2);
    RemainderUnique(a, 2 * h, q, 2 * r + a % 2);
  }

  lemma {:induction false} Doubled(h: nat, q: nat)
    ensures 2 * (h * q) == (2 * h) * q
  {
  }

  /** `next_power_of_two().max(2)`. */
  method RoundedCapacity(capacity: nat) returns (rounded: nat, ghost k: nat)
    ensures rounded == Pow2(k) && k >= 1 && capacity <= rounded
    ensures rounded > 2 ==> rounded < 2 * capacity
  {
    rounded, k := 1, 0;
    while rounded < capacity
      invariant rounded == Pow2(k) && (rounded > 1 ==> rounded < 2 * capacity)
      decreases capacity - rounded
    {
      rounded, k := 2 * rounded, k + 1;
    }
    if rounded < 2 {
      rounded, k := 2, 1;
    }
  }

  // ----- state -----

  /** Where the producer is inside `try_send`. */
  datatype ProducerAt<+T> =
    | Ready
    | ReloadingRead(value: T, write: nat)
    | Filling(value: T, write: nat)
    | Publishing(value: T, write: nat)
    | Gone

  /** Which attempt of `recv` a `try_recv` belongs to. */
  datatype Phase = Direct | Fast | Spin(left: nat) | Woken | Last

  /** Where the consumer is inside `try_recv` or `recv`. */
  datatype ConsumerAt<+T> =
    | Resting
    | Loading(phase: Phase)
    | ReloadingWrite(phase: Phase, read: nat)
    | Taking(phase: Phase, read: nat)
    | Releasing(phase: Phase, read: nat, value: T)
    | CheckingClosed(woken: bool)
    | Parked

  const SPIN_LIMIT: nat := 32

  /** `slots[i]` is None while nothing lives in the slot; `sent` and `received`
      record what was published and handed out. */
  datatype State<+T> = State(
    slots: seq<Option<T>>,
    mask: nat,
    writeSeq: nat,
    readSeq: nat,
    closed: bool,
    cachedRead: nat,
    cachedWrite: nat,
    producer: ProducerAt<T>,
    consumer: ConsumerAt<T>,
    sent: seq<T>,
    received: seq<T>)

  function Start<T>(k: nat): State<T>
  {
    State(seq(Pow2(k), _ => None), if Pow2(k) > 0 then Pow2(k) - 1 else 0, 0, 0, false, 0, 0, Ready, Resting, [], [])
  }

  /** What happens to the queue, and what the caller learns, at a step. */
  datatype Action<+T> =
    | Nothing
    | Enqueue(value: T)
    | Refuse(value: T)
    | Close
    | Dequeue(value: T)
    | ReportEmpty
    | EndOfStream

  datatype Move<+T> = Send(value: T) | Produce | DropProducer | TryRecv | Recv | Consume | Abandon

  // ----- the producer's steps -----

  function BeginSend<T>(s: State<T>, value: T): State<T>
  {
    if s.writeSeq - s.cachedRead > s.mask then s.(producer := ReloadingRead(value, s.writeSeq))
    else s.(producer := Filling(value, s.writeSeq))
  }

  function ReloadRead<T>(s: State<T>): (State<T>, Action<T>)
    requires s.producer.ReloadingRead?
  {
    var value, write := s.producer.value, s.producer.write;
    if write - s.readSeq > s.mask then (s.(cachedRead := s.readSeq, producer := Ready), Refuse(value))
    else (s.(cachedRead := s.readSeq, producer := Filling(value, write)), Nothing)
  }

  function Fill<T>(s: State<T>): State<T>
    requires s.producer.Filling?
  {
    var idx := BitAnd(s.producer.write, s.mask);
    s.(slots := if idx < |s.slots| then s.slots[idx := Some(s.producer.value)] else s.slots,
       producer := Publishing(s.producer.value, s.producer.write))
  }

  function Publish<T>(s: State<T>): State<T>
    requires s.producer.Publishing?
  {
    s.(writeSeq := s.producer.write + 1, producer := Ready, sent := s.sent + [s.producer.value])
  }

  function ProducerStep<T>(s: State<T>): (State<T>, Action<T>)
  {
    match s.producer
    case ReloadingRead(_, _) => ReloadRead(s)
    case Filling(_, _) => (Fill(s), Nothing)
    case Publishing(value, _) => (Publish(s), Enqueue(value))
    case _ => (s, Nothing)
  }

  // ----- the consumer's steps -----

  function Load<T>(s: State<T>): State<T>
    requires s.consumer.Loading?
  {
    if s.readSeq >= s.cachedWrite then s.(consumer := ReloadingWrite(s.consumer.phase, s.readSeq))
    else s.(consumer := Taking(s.consumer.phase, s.readSeq))
  }

  /** Where an attempt that found nothing leads. */
  function AfterEmpty<T>(phase: Phase): ConsumerAt<T>
  {
    match phase
    case Direct => Resting
    case Fast => Loading(Spin(SPIN_LIMIT))
    case Spin(left) => if left > 1 then Loading(Spin(left - 1)) else CheckingClosed(false)
    case Woken => CheckingClosed(true)
    case Last => Resting
  }

  function ReloadWrite<T>(s: State<T>): (State<T>, Action<T>)
    requires s.consumer.ReloadingWrite?
  {
    var phase, read := s.consumer.phase, s.consumer.read;
    if read >= s.writeSeq then
      (s.(cachedWrite := s.writeSeq, consumer := AfterEmpty(phase)),
       if phase.Direct? then ReportEmpty else if phase.Last? then EndOfStream else Nothing)
    else (s.(cachedWrite := s.writeSeq, consumer := Taking(phase, read)), Nothing)
  }

  predicate SlotReadable<T>(s: State<T>)
  {
    s.consumer.Taking? && BitAnd(s.consumer.read, s.mask) < |s.slots| && s.slots[BitAnd(s.consumer.read, s.mask)].Some?
  }

  function Take<T>(s: State<T>): State<T>
    requires SlotReadable(s)
  {
    var idx := BitAnd(s.consumer.read, s.mask);
    s.(slots := s.slots[idx := None], consumer := Releasing(s.consumer.phase, s.consumer.read, s.slots[idx].value))
  }

  function Release<T>(s: State<T>): State<T>
    requires s.consumer.Releasing?
  {
    s.(readSeq := s.consumer.read + 1, consumer := Resting, received := s.received + [s.consumer.value])
  }

  /** `recv` looks at the closed flag: closed leads to one last attempt. */
  function CheckClosed<T>(s: State<T>): State<T>
    requires s.consumer.CheckingClosed?
  {
    s.(consumer := if s.closed then Loading(Last) else if s.consumer.woken then Loading(Spin(SPIN_LIMIT)) else Parked)
  }

  function ConsumerStep<T>(s: State<T>): (State<T>, Action<T>)
  {
    match s.consumer
    case Resting => (s, Nothing)
    case Loading(_) => (Load(s), Nothing)
    case ReloadingWrite(_, _) => ReloadWrite(s)
    case Taking(_, _) => if SlotReadable(s) then (Take(s), Nothing) else (s, Nothing)
    case Releasing(_, _, value) => (Release(s), Dequeue(value))
    case CheckingClosed(_) => (CheckClosed(s), Nothing)
    case Parked => (s.(consumer := Loading(Woken)), Nothing)
  }

  /** One step of the system; a move that does not apply changes nothing. */
  function Step<T>(s: State<T>, m: Move<T>): (State<T>, Action<T>)
  {
    match m
    case Send(value) => if s.producer.Ready? then (BeginSend(s, value), Nothing) else (s, Nothing)
    case Produce => ProducerStep(s)
    case DropProducer => if s.producer.Ready? then (s.(closed := true, producer := Gone), Close) else (s, Nothing)
    case TryRecv => if s.consumer.Resting? then (s.(consumer := Loading(Direct)), Nothing) else (s, Nothing)
    case Recv => if s.consumer.Resting? then (s.(consumer := Loading(Fast)), Nothing) else (s, Nothing)
    case Consume => ConsumerStep(s)
    case Abandon => if s.consumer.Parked? then (s.(consumer := Resting), Nothing) else (s, Nothing)
  }

  // ----- the invariant -----

  /** What must be in the slot of sequence number q, for q from readSeq up to one lap on. */
  ghost function Expected<T>(s: State<T>, q: nat): Option<T>
  {
    if q < s.writeSeq then
      (if q == s.readSeq && s.consumer.Releasing? then None
       else if q < |s.sent| then Some(s.sent[q]) else None)
    else if q == s.writeSeq && s.producer.Publishing? then Some(s.producer.value)
    else None
  }

  ghost predicate Sequenced<T>(s: State<T>)
  {
    && |s.slots| > 0 && s.mask == |s.slots| - 1
    && s.readSeq <= s.writeSeq <= s.readSeq + |s.slots|
    && s.cachedRead <= s.readSeq && s.cachedWrite <= s.writeSeq
    && |s.sent| == s.writeSeq && s.received == s.sent[..s.readSeq]
  }

  ghost predicate ProducerInv<T>(s: State<T>)
  {
    match s.producer
    case Ready => !s.closed
    case ReloadingRead(_, w) => w == s.writeSeq && !s.closed
    case Filling(_, w) => w == s.writeSeq && w < s.cachedRead + |s.slots| && !s.closed
    case Publishing(_, w) => w == s.writeSeq && w < s.cachedRead + |s.slots| && !s.closed
    case Gone => s.closed
  }

  ghost predicate LastSeesClosed<T>(s: State<T>, phase: Phase) { phase.Last? ==> s.closed }

  ghost predicate ConsumerInv<T>(s: State<T>)
  {
    match s.consumer
    case Loading(ph) => LastSeesClosed(s, ph)
    case ReloadingWrite(ph, r) => r == s.readSeq && LastSeesClosed(s, ph)
    case Taking(ph, r) => r == s.readSeq < s.cachedWrite
    case Releasing(ph, r, v) => r == s.readSeq < s.cachedWrite <= |s.sent| && v == s.sent[r]
    case _ => true
  }

  /** Every slot holds exactly what it should: the unread published values, the
      value being published, and nothing else. */
  ghost predicate SlotsRight<T>(s: State<T>)
    requires |s.slots| > 0
  {
    forall q: nat :: s.readSeq <= q < s.readSeq + |s.slots| ==> s.slots[q % |s.slots|] == Expected(s, q)
  }

  ghost predicate Inv<T>(s: State<T>)
  {
    && Sequenced(s) && (exists k: nat :: |s.slots| == Pow2(k))
    && ProducerInv(s) && ConsumerInv(s) && SlotsRight(s)
  }

  /** The published, unread values. */
  ghost function Queue<T>(s: State<T>): seq<T>
    requires Sequenced(s)
  {
    s.sent[s.readSeq..]
  }

  lemma {:induction false} IndexIsRemainder<T>(s: State<T>, q: nat)
    requires Inv(s)
    ensures BitAnd(q, s.mask) == q % |s.slots| < |s.slots|
  {
    var k: nat :| |s.slots| == Pow2(k);
    MaskIsRemainder(q, k);
  }

  /** Within one lap distinct sequence numbers use distinct slots. */
  lemma {:induction false} DistinctSlots(a: nat, b: nat, n: nat)
    requires n > 0 && a < b < a + n
    ensures a % n != b % n
  {
    if a % n == b % n {
      assert b - a == n * (b / n - a / n);
      if b / n <= a / n {
        MulMonotone(n, b / n, a / n);
      } else {
        MulMonotone(n, 1, b / n - a / n);
      }
    }
  }

  lemma {:induction false} OneLapOn(a: nat, n: nat)
    requires n > 0
    ensures (a + n) % n == a % n
  {
    RemainderUnique(a + n, n, a / n + 1, a % n);
  }

  // ----- every step keeps it -----

  lemma {:induction false} FillKeeps<T>(s: State<T>)
    requires Inv(s) && s.producer.Filling?
    ensures Inv(Fill(s))
    ensures s.slots[s.writeSeq % |s.slots|] == None
  {
    var s', n, w := Fill(s), |s.slots|, s.writeSeq;
    IndexIsRemainder(s, w);
    assert Expected(s, w) == None;
    forall q: nat | s'.readSeq <= q < s'.readSeq + n ensures s'.slots[q % n] == Expected(s', q) {
      if q < w {
        DistinctSlots(q, w, n);
        assert Expected(s', q) == Expected(s, q);
      } else if w < q {
        DistinctSlots(w, q, n);
        assert Expected(s', q) == Expected(s, q);
      }
    }
    assert |s'.slots| == |s.slots|;
  }

  lemma {:induction false} PublishKeeps<T>(s: State<T>)
    requires Inv(s) && s.producer.Publishing?
    ensures Inv(Publish(s))
    ensures Queue(Publish(s)) == Queue(s) + [s.producer.value]
    ensures |Queue(s)| < |s.slots|
  {
    var s', n := Publish(s), |s.slots|;
    forall q: nat | s'.readSeq <= q < s'.readSeq + n ensures s'.slots[q % n] == Expected(s', q) {
      assert Expected(s', q) == Expected(s, q);
    }
    assert s'.received == s'.sent[..s'.readSeq];
    assert s'.slots == s.slots;
  }

  lemma {:induction false} TakeKeeps<T>(s: State<T>)
    requires Inv(s) && s.consumer.Taking?
    ensures SlotReadable(s) && Inv(Take(s))
    ensures Queue(s) != [] && Take(s).consumer.value == Queue(s)[0]
  {
    var n, r := |s.slots|, s.readSeq;
    IndexIsRemainder(s, r);
    assert Expected(s, r) == Some(s.sent[r]);
    var s' := Take(s);
    forall q: nat | s'.readSeq <= q < s'.readSeq + n ensures s'.slots[q % n] == Expected(s', q) {
      if r < q {
        DistinctSlots(r, q, n);
        assert Expected(s', q) == Expected(s, q);
      }
    }
    assert |s'.slots| == |s.slots|;
  }

  lemma {:induction false} ReleaseKeeps<T>(s: State<T>)
    requires Inv(s) && s.consumer.Releasing?
    ensures Inv(Release(s))
    ensures Queue(s) != [] && Queue(s)[0] == s.consumer.value && Queue(Release(s)) == Queue(s)[1..]
  {
    var s', n, r := Release(s), |s.slots|, s.readSeq;
    assert s'.received == s'.sent[..s'.readSeq];
    OneLapOn(r, n);
    assert s.slots[r % n] == Expected(s, r) == None;
    forall q: nat | s'.readSeq <= q < s'.readSeq + n ensures s'.slots[q % n] == Expected(s', q) {
      if q < r + n {
        assert Expected(s', q) == Expected(s, q);
      } else {
        assert Expected(s', q) == None;
      }
    }
    assert s'.slots == s.slots;
  }

  lemma {:induction false} SlotsUntouched<T>(s: State<T>, s': State<T>)
    requires |s.slots| > 0 && SlotsRight(s)
    requires s'.slots == s.slots && s'.readSeq == s.readSeq && s'.writeSeq == s.writeSeq
    requires s'.sent == s.sent && s'.producer.Publishing? == s.producer.Publishing? == false
    requires s'.consumer.Releasing? == s.consumer.Releasing?
    ensures SlotsRight(s')
  {
    forall q: nat | s'.readSeq <= q < s'.readSeq + |s'.slots| ensures s'.slots[q % |s'.slots|] == Expected(s', q) {
      assert Expected(s', q) == Expected(s, q);
    }
  }

  lemma {:induction false} ConsumerSlotsUntouched<T>(s: State<T>, s': State<T>)
    requires |s.slots| > 0 && SlotsRight(s)
    requires s'.slots == s.slots && s'.readSeq == s.readSeq && s'.writeSeq == s.writeSeq
    requires s'.sent == s.sent && s'.producer == s.producer
    requires s'.consumer.Releasing? == s.consumer.Releasing? == false
    ensures SlotsRight(s')
  {
    forall q: nat | s'.readSeq <= q < s'.readSeq + |s'.slots| ensures s'.slots[q % |s'.slots|] == Expected(s', q) {
      assert Expected(s', q) == Expected(s, q);
    }
  }

  lemma {:induction false} ProducerKeeps<T>(s: State<T>, m: Move<T>)
    requires Inv(s) && (m.Send? || m.Produce? || m.DropProducer?)
    ensures Inv(Step(s, m).0)
  {
    var s' := Step(s, m).0;
    if s' == s {
    } else if m.Produce? && s.producer.Filling? {
      FillKeeps(s);
    } else if m.Produce? && s.producer.Publishing? {
      PublishKeeps(s);
    } else {
      SlotsUntouched(s, s');
    }
  }

  lemma {:induction false} CallKeeps<T>(s: State<T>, m: Move<T>)
    requires Inv(s) && (m.TryRecv? || m.Recv? || m.Abandon?)
    ensures Inv(Step(s, m).0)
  {
    if Step(s, m).0 != s {
      ConsumerSlotsUntouched(s, Step(s, m).0);
    }
  }

  lemma {:induction false} ConsumerKeeps<T>(s: State<T>, m: Move<T>)
    requires Inv(s) && m.Consume?
    ensures Inv(Step(s, m).0)
  {
    var s' := Step(s, m).0;
    if s' == s {
    } else if s.consumer.Taking? {
      TakeKeeps(s);
    } else if s.consumer.Releasing? {
      ReleaseKeeps(s);
    } else {
      ConsumerSlotsUntouched(s, s');
    }
  }

  lemma {:induction false} StepKeepsInv<T>(s: State<T>, m: Move<T>)
    requires Inv(s)
    ensures Inv(Step(s, m).0)
  {
    if m.Send? || m.Produce? || m.DropProducer? {
      ProducerKeeps(s, m);
    } else if m.Consume? {
      ConsumerKeeps(s, m);
    } else {
      CallKeeps(s, m);
    }
  }

  lemma {:induction false} StartInv<T>(k: nat)
    ensures Pow2(k) > 0 && Inv(Start<T>(k))
  {
    MaskIsRemainder(0, k);
    var s := Start<T>(k);
    forall q: nat | q < |s.slots| ensures s.slots[q % |s.slots|] == Expected(s, q) {
      RemainderUnique(q, |s.slots|, 0, q);
    }
    assert |s.slots| == Pow2(k);
  }

  // ----- the bounded queue it refines -----

  datatype Fifo<+T> = Fifo(items: seq<T>, closed: bool)

  /** What a bounded first-in first-out queue may do and say. */
  ghost predicate Allowed<T>(q: Fifo<T>, capacity: nat, a: Action<T>)
  {
    match a
    case Nothing => true
    case Enqueue(_) => |q.items| < capacity && !q.closed
    case Refuse(_) => |q.items| == capacity && !q.closed
    case Close => !q.closed
    case Dequeue(v) => q.items != [] && q.items[0] == v
    case ReportEmpty => q.items == []
    case EndOfStream => q.items == [] && q.closed
  }

  function Apply<T>(q: Fifo<T>, a: Action<T>): Fifo<T>
  {
    match a
    case Enqueue(v) => q.(items := q.items + [v])
    case Close => q.(closed := true)
    case Dequeue(_) => if q.items == [] then q else q.(items := q.items[1..])
    case _ => q
  }

  ghost function Abstract<T>(s: State<T>): Fifo<T>
    requires Sequenced(s)
  {
    Fifo(Queue(s), s.closed)
  }

  /** Each atomic step is one allowed action of the queue: in particular a value is
      refused only while the queue is full, emptiness is reported only while it is
      empty, and the end only when it is empty and closed. */
  lemma {:induction false} StepRefines<T>(s: State<T>, m: Move<T>)
    requires Inv(s)
    ensures Inv(Step(s, m).0)
    ensures Allowed(Abstract(s), |s.slots|, Step(s, m).1)
    ensures Abstract(Step(s, m).0) == Apply(Abstract(s), Step(s, m).1)
    ensures |Step(s, m).0.slots| == |s.slots|
  {
    StepKeepsInv(s, m);
    if m.Send? || m.Produce? || m.DropProducer? {
      ProducerRefines(s, m);
    } else {
      ConsumerRefines(s, m);
    }
  }

  lemma {:induction false} ProducerRefines<T>(s: State<T>, m: Move<T>)
    requires Inv(s) && Inv(Step(s, m).0) && (m.Send? || m.Produce? || m.DropProducer?)
    ensures Allowed(Abstract(s), |s.slots|, Step(s, m).1)
    ensures Abstract(Step(s, m).0) == Apply(Abstract(s), Step(s, m).1)
    ensures |Step(s, m).0.slots| == |s.slots|
  {
    if m.Produce? && s.producer.Publishing? {
      PublishKeeps(s);
    } else {
      assert Step(s, m).0.sent == s.sent && Step(s, m).0.readSeq == s.readSeq;
    }
  }

  lemma {:induction false} ConsumerRefines<T>(s: State<T>, m: Move<T>)
    requires Inv(s) && Inv(Step(s, m).0) && (m.TryRecv? || m.Recv? || m.Consume? || m.Abandon?)
    ensures Allowed(Abstract(s), |s.slots|, Step(s, m).1)
    ensures Abstract(Step(s, m).0) == Apply(Abstract(s), Step(s, m).1)
    ensures |Step(s, m).0.slots| == |s.slots|
  {
    if m.Consume? && s.consumer.Releasing? {
      ReleaseKeeps(s);
    } else {
      assert Step(s, m).0.sent == s.sent && Step(s, m).0.readSeq == s.readSeq;
    }
  }

  function RunState<T>(s: State<T>, moves: seq<Move<T>>): State<T>
  {
    if moves == [] then s else Step(RunState(s, moves[..|moves| - 1]), moves[|moves| - 1]).0
  }

  /** The actions of a run, one a step. */
  function Actions<T>(s: State<T>, moves: seq<Move<T>>): seq<Action<T>>
  {
    if moves == [] then []
    else Actions(s, moves[..|moves| - 1]) + [Step(RunState(s, moves[..|moves| - 1]), moves[|moves| - 1]).1]
  }

  function After<T>(q: Fifo<T>, actions: seq<Action<T>>): Fifo<T>
  {
    if actions == [] then q else Apply(After(q, actions[..|actions| - 1]), actions[|actions| - 1])
  }

  ghost predicate Behaves<T>(q: Fifo<T>, capacity: nat, actions: seq<Action<T>>)
  {
    forall i :: 0 <= i < |actions| ==> Allowed(After(q, actions[..i]), capacity, actions[i])
  }

  /** Refinement: whatever the interleaving, what callers observe is a behaviour of a bounded queue. */
  lemma {:induction false} RunRefines<T>(k: nat, moves: seq<Move<T>>)
    ensures var s, actions := RunState(Start<T>(k), moves), Actions(Start<T>(k), moves);
            && Inv(s) && |s.slots| == Pow2(k)
            && Behaves(Fifo([], false), Pow2(k), actions)
            && Abstract(s) == After(Fifo([], false), actions)
  {
    StartInv<T>(k);
    if moves != [] {
      var m := |moves| - 1;
      RunRefines(k, moves[..m]);
      var s, before := RunState(Start<T>(k), moves[..m]), Actions(Start<T>(k), moves[..m]);
      StepRefines(s, moves[m]);
      BehavesSnoc(Fifo([], false), Pow2(k), before, Step(s, moves[m]).1);
    }
  }

  lemma {:induction false} BehavesSnoc<T>(q: Fifo<T>, capacity: nat, actions: seq<Action<T>>, a: Action<T>)
    requires Behaves(q, capacity, actions) && Allowed(After(q, actions), capacity, a)
    ensures Behaves(q, capacity, actions + [a])
    ensures After(q, actions + [a]) == Apply(After(q, actions), a)
  {
    var all := actions + [a];
    assert all[..|actions|] == actions;
    forall i | 0 <= i < |all| ensures Allowed(After(q, all[..i]), capacity, all[i]) {
      if i < |actions| {
        assert all[..i] == actions[..i];
      }
    }
  }

  function AsEnqueued<T>(a: Action<T>): Option<T> { if a.Enqueue? then Some(a.value) else None }

  function AsDequeued<T>(a: Action<T>): Option<T> { if a.Dequeue? then Some(a.value) else None }

  lemma {:induction false} StepRecords<T>(s: State<T>, m: Move<T>)
    requires Inv(s)
    ensures var (s', a) := Step(s, m);
            && s'.sent == s.sent + (if a.Enqueue? then [a.value] else [])
            && s'.received == s.received + (if a.Dequeue? then [a.value] else [])
  {
  }

  /** `sent` and `received` are the values of the accepted sends and of the answered receives. */
  lemma {:induction false} Recorded<T>(k: nat, moves: seq<Move<T>>)
    ensures var s, actions := RunState(Start<T>(k), moves), Actions(Start<T>(k), moves);
            s.sent == FilterMap(actions, AsEnqueued) && s.received == FilterMap(actions, AsDequeued)
  {
    if moves != [] {
      var m := |moves| - 1;
      Recorded(k, moves[..m]);
      RunRefines(k, moves[..m]);
      var s, before := RunState(Start<T>(k), moves[..m]), Actions(Start<T>(k), moves[..m]);
      StepRecords(s, moves[m]);
      FilterMapSnoc(before, Step(s, moves[m]).1, AsEnqueued);
      FilterMapSnoc(before, Step(s, moves[m]).1, AsDequeued);
    }
  }

  /** The values received are a prefix of those sent, and at most a capacity's worth is outstanding. */
  lemma {:induction false} ReceivedIsPrefix<T>(k: nat, moves: seq<Move<T>>)
    ensures var actions := Actions(Start<T>(k), moves);
            var sent, received := FilterMap(actions, AsEnqueued), FilterMap(actions, AsDequeued);
            received <= sent && |sent| - |received| <= Pow2(k)
  {
    Recorded(k, moves);
    RunRefines(k, moves);
  }

  // ----- closing and dropping -----

  /** `recv` ends the stream only when the producer is gone and everything sent was
      received, and from then on nothing is ever sent or received. */
  lemma {:induction false} EndIsFinal<T>(s: State<T>, m: Move<T>, later: seq<Move<T>>)
    requires Inv(s) && Step(s, m).1 == EndOfStream
    ensures s.producer.Gone? && s.received == s.sent
    ensures var s' := RunState(Step(s, m).0, later); s'.sent == s'.received == s.sent
  {
    StepRefines(s, m);
    assert s.received == s.sent;
    Frozen(Step(s, m).0, later);
  }

  lemma {:induction false} Frozen<T>(s: State<T>, moves: seq<Move<T>>)
    requires Inv(s) && s.producer.Gone? && Queue(s) == []
    ensures var s' := RunState(s, moves); Inv(s') && s'.producer.Gone? && s'.sent == s'.received == s.sent
  {
    if moves == [] {
      assert s.received == s.sent;
    } else {
      var m := |moves| - 1;
      Frozen(s, moves[..m]);
      StepRefines(RunState(s, moves[..m]), moves[m]);
    }
  }

  /** Every slot belongs to one sequence number of the lap that starts at r. */
  lemma {:induction false} SlotInLap(r: nat, n: nat, i: nat) returns (q: nat)
    requires i < n
    ensures r <= q < r + n && q % n == i
  {
    if r % n <= i {
      q := r + i - r % n;
      RemainderUnique(q, n, r / n, i);
    } else {
      q := r + n + i - r % n;
      OneLapOn(r, n);
      assert (r / n + 1) * n == r / n * n + n;
      RemainderUnique(q, n, r / n + 1, i);
    }
  }

  // ----- the shared object -----

  /** The buffer, its sequences and both ends. Each method is one atomic step; the
      slots are written and emptied in place. */
  class SharedRing<T> {
    const buffer: array<Option<T>>
    const mask: nat
    var writeSeq: nat
    var readSeq: nat
    var closed: bool
    var cachedReadSeq: nat
    var cachedWriteSeq: nat
    var producer: ProducerAt<T>
    var consumer: ConsumerAt<T>
    ghost var sent: seq<T>
    ghost var received: seq<T>

    ghost function Model(): State<T>
      reads this, buffer
    {
      State(buffer[..], mask, writeSeq, readSeq, closed, cachedReadSeq, cachedWriteSeq,
            producer, consumer, sent, received)
    }

    constructor (capacity: nat)
      ensures Inv(Model()) && fresh(buffer)
      ensures Queue(Model()) == [] && !closed && producer.Ready? && consumer.Resting?
      ensures capacity <= buffer.Length && (buffer.Length > 2 ==> buffer.Length < 2 * capacity)
    {
      ghost var k;
      var rounded: nat;
      rounded, k := RoundedCapacity(capacity);
      StartInv<T>(k);
      buffer := new Option<T>[rounded](_ => None);
      mask := rounded - 1;
      writeSeq, readSeq, closed, cachedReadSeq, cachedWriteSeq := 0, 0, false, 0, 0;
      producer, consumer, sent, received := Ready, Resting, [], [];
      new;
      assert Model().slots == Start<T>(k).slots;
      assert Model() == Start(k);
    }

    method BeginSend(value: T)
      requires Inv(Model()) && producer.Ready?
      modifies this`producer
      ensures (Model(), Nothing) == Step(old(Model()), Send(value)) && Inv(Model())
    {
      StepKeepsInv(Model(), Send(value));
      var write := writeSeq;
      if write - cachedReadSeq > mask {
        producer := ReloadingRead(value, write);
      } else {
        producer := Filling(value, write);
      }
    }

    method ReloadReadSeq() returns (refused: Option<T>)
      requires Inv(Model()) && producer.ReloadingRead?
      modifies this`cachedReadSeq, this`producer
      ensures (Model(), if refused.Some? then Refuse(refused.value) else Nothing) == Step(old(Model()), Produce)
      ensures Inv(Model())
      ensures refused.Some? ==> |Queue(Model())| == buffer.Length
    {
      StepRefines(Model(), Produce);
      cachedReadSeq := readSeq;
      if producer.write - cachedReadSeq > mask {
        refused := Some(producer.value);
        producer := Ready;
      } else {
        refused := None;
        producer := Filling(producer.value, producer.write);
      }
    }

    method WriteSlot()
      requires Inv(Model()) && producer.Filling?
      modifies this`producer, buffer
      ensures (Model(), Nothing) == Step(old(Model()), Produce) && Inv(Model())
      ensures old(buffer[writeSeq % buffer.Length]) == None
    {
      FillKeeps(Model());
      IndexIsRemainder(Model(), writeSeq);
      var idx := BitAnd(producer.write, mask);
      buffer[idx] := Some(producer.value);
      assert buffer[..] == old(buffer[..])[idx := Some(producer.value)];
      producer := Publishing(producer.value, producer.write);
    }

    method PublishSlot()
      requires Inv(Model()) && producer.Publishing?
      modifies this`writeSeq, this`producer, this`sent
      ensures (Model(), Enqueue(old(producer.value))) == Step(old(Model()), Produce) && Inv(Model())
      ensures Queue(Model()) == old(Queue(Model())) + [old(producer.value)]
    {
      PublishKeeps(Model());
      sent := sent + [producer.value];
      writeSeq := producer.write + 1;
      producer := Ready;
    }

    method CloseProducer()
      requires Inv(Model()) && producer.Ready?
      modifies this`closed, this`producer
      ensures (Model(), Close) == Step(old(Model()), DropProducer) && Inv(Model())
    {
      StepKeepsInv(Model(), DropProducer);
      closed := true;
      producer := Gone;
    }

    method BeginReceive(blocking: bool)
      requires Inv(Model()) && consumer.Resting?
      modifies this`consumer
      ensures (Model(), Nothing) == Step(old(Model()), if blocking then Recv else TryRecv) && Inv(Model())
    {
      StepKeepsInv(Model(), if blocking then Recv else TryRecv);
      consumer := Loading(if blocking then Fast else Direct);
    }

    method LoadReadSeq()
      requires Inv(Model()) && consumer.Loading?
      modifies this`consumer
      ensures (Model(), Nothing) == Step(old(Model()), Consume) && Inv(Model())
    {
      StepKeepsInv(Model(), Consume);
      var read := readSeq;
      if read >= cachedWriteSeq {
        consumer := ReloadingWrite(consumer.phase, read);
      } else {
        consumer := Taking(consumer.phase, read);
      }
    }

    method ReloadWriteSeq() returns (empty: bool)
      requires Inv(Model()) && consumer.ReloadingWrite?
      modifies this`cachedWriteSeq, this`consumer
      ensures Model() == Step(old(Model()), Consume).0 && Inv(Model())
      ensures empty <==> Queue(Model()) == []
      ensures empty ==> consumer == AfterEmpty(old(consumer.phase))
      ensures empty && old(consumer.phase).Last? ==> closed && received == sent
    {
      StepKeepsInv(Model(), Consume);
      cachedWriteSeq := writeSeq;
      if consumer.read >= cachedWriteSeq {
        empty := true;
        consumer := AfterEmpty(consumer.phase);
      } else {
        empty := false;
        consumer := Taking(consumer.phase, consumer.read);
      }
      assert received == sent[..readSeq];
    }

    method ReadSlot()
      requires Inv(Model()) && consumer.Taking?
      modifies this`consumer, buffer
      ensures (Model(), Nothing) == Step(old(Model()), Consume) && Inv(Model())
      ensures consumer.Releasing? && old(Queue(Model())) != [] && consumer.value == old(Queue(Model()))[0]
    {
      TakeKeeps(Model());
      IndexIsRemainder(Model(), readSeq);
      var idx := BitAnd(consumer.read, mask);
      var value := buffer[idx].value;
      buffer[idx] := None;
      assert buffer[..] == old(buffer[..])[idx := None];
      consumer := Releasing(consumer.phase, consumer.read, value);
    }

    method ReleaseSlot() returns (value: T)
      requires Inv(Model()) && consumer.Releasing?
      modifies this`readSeq, this`consumer, this`received
      ensures (Model(), Dequeue(value)) == Step(old(Model()), Consume) && Inv(Model())
      ensures old(Queue(Model())) == [value] + Queue(Model())
    {
      ReleaseKeeps(Model());
      value := consumer.value;
      received := received + [value];
      readSeq := consumer.read + 1;
      consumer := Resting;
    }

    method LoadClosed()
      requires Inv(Model()) && consumer.CheckingClosed?
      modifies this`consumer
      ensures (Model(), Nothing) == Step(old(Model()), Consume) && Inv(Model())
    {
      StepKeepsInv(Model(), Consume);
      if closed {
        consumer := Loading(Last);
      } else if consumer.woken {
        consumer := Loading(Spin(SPIN_LIMIT));
      } else {
        consumer := Parked;
      }
    }

    method Wake()
      requires Inv(Model()) && consumer.Parked?
      modifies this`consumer
      ensures (Model(), Nothing) == Step(old(Model()), Consume) && Inv(Model())
    {
      StepKeepsInv(Model(), Consume);
      consumer := Loading(Woken);
    }

    /** A `recv` dropped at the only point where it waits; nothing is lost by it. */
    method AbandonReceive()
      requires Inv(Model()) && consumer.Parked?
      modifies this`consumer
      ensures (Model(), Nothing) == Step(old(Model()), Abandon) && Inv(Model())
      ensures consumer.Resting? && Queue(Model()) == old(Queue(Model())) && received == old(received)
    {
      StepKeepsInv(Model(), Abandon);
      consumer := Resting;
    }

    /** The last owner's drop: the published unread values, each once and in order, and nothing is left. */
    method Drop() returns (dropped: seq<T>)
      requires Inv(Model()) && producer.Gone? && (consumer.Resting? || consumer.Parked?)
      modifies buffer
      ensures received + dropped == sent
      ensures forall i :: 0 <= i < buffer.Length ==> buffer[i] == None
    {
      ghost var s, n := Model(), buffer.Length;
      dropped := [];
      var sq := readSeq;
      while sq < writeSeq
        invariant readSeq <= sq <= writeSeq
        invariant dropped == sent[readSeq..sq]
        invariant forall q: nat :: readSeq <= q < readSeq + n ==>
            buffer[q % n] == if q < sq then None else Expected(s, q)
      {
        IndexIsRemainder(s, sq);
        assert Expected(s, sq) == Some(sent[sq]);
        var idx := BitAnd(sq, mask);
        dropped := dropped + [buffer[idx].value];
        buffer[idx] := None;
        forall q: nat | readSeq <= q < readSeq + n && q != sq ensures q % n != sq % n {
          if q < sq {
            DistinctSlots(q, sq, n);
          } else {
            DistinctSlots(sq, q, n);
          }
        }
        sq := sq + 1;
      }
      assert sent == sent[..readSeq] + sent[readSeq..];
      forall i | 0 <= i < n ensures buffer[i] == None {
        var q := SlotInLap(readSeq, n, i);
      }
    }
  }
}
