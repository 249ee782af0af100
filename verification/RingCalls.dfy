/** Every call on the ring buffer is answered exactly once, and how long a receive
    goes on looking before it waits. */
module RingCalls {
  import opened Streams
  import opened RingBuffer

  // ----- sends -----

  /** The value a move brings in: a send takes effect when the producer is not busy. */
  function Offered<T>(s: State<T>, m: Move<T>): seq<T>
  {
    if m.Send? && s.producer.Ready? then [m.value] else []
  }

  function AllOffered<T>(s: State<T>, moves: seq<Move<T>>): seq<T>
  {
    if moves == [] then []
    else
      var m := |moves| - 1;
      AllOffered(s, moves[..m]) + Offered(RunState(s, moves[..m]), moves[m])
  }

  function AsAnswer<T>(a: Action<T>): Option<T>
  {
    match a
    case Enqueue(v) => Some(v)
    case Refuse(v) => Some(v)
    case _ => None
  }

  /** The value the producer is busy with. */
  function InHand<T>(p: ProducerAt<T>): seq<T>
  {
    match p
    case ReloadingRead(v, _) => [v]
    case Filling(v, _) => [v]
    case Publishing(v, _) => [v]
    case _ => []
  }

  lemma {:induction false} StepAnswers<T>(s: State<T>, m: Move<T>)
    ensures var (s', a) := Step(s, m);
            AsSeq(AsAnswer(a)) + InHand(s'.producer) == InHand(s.producer) + Offered(s, m)
  {
  }

  /** The values offered are, in order and each once, those enqueued or refused, and
      then the one still in the producer's hands. */
  lemma {:induction false} SendsAreAnswered<T>(k: nat, moves: seq<Move<T>>)
    ensures AllOffered(Start<T>(k), moves)
         == FilterMap(Actions(Start<T>(k), moves), AsAnswer) + InHand(RunState(Start<T>(k), moves).producer)
  {
    if moves != [] {
      var m := |moves| - 1;
      var s := RunState(Start<T>(k), moves[..m]);
      var answers := FilterMap(Actions(Start<T>(k), moves[..m]), AsAnswer);
      var (s', a) := Step(s, moves[m]);
      SendsAreAnswered(k, moves[..m]);
      StepAnswers(s, moves[m]);
      FilterMapSnoc(Actions(Start<T>(k), moves[..m]), a, AsAnswer);
      Regroup(answers, InHand(s.producer), Offered(s, moves[m]));
      Regroup(answers, AsSeq(AsAnswer(a)), InHand(s'.producer));
    }
  }

  // ----- receives -----

  /** How a call ends. */
  datatype Ending<+T> = Got(value: T) | Empty | Over | Abandoned

  /** The calls that begin: `try_recv` or a blocking `recv`, when the consumer is not busy. */
  function Called<T>(s: State<T>, m: Move<T>): seq<bool>
  {
    if s.consumer.Resting? && (m.TryRecv? || m.Recv?) then [m.Recv?] else []
  }

  function AllCalled<T>(s: State<T>, moves: seq<Move<T>>): seq<bool>
  {
    if moves == [] then []
    else
      var m := |moves| - 1;
      AllCalled(s, moves[..m]) + Called(RunState(s, moves[..m]), moves[m])
  }

  /** What a step answers to the call in progress. */
  function Ended<T>(s: State<T>, m: Move<T>): seq<Ending<T>>
  {
    match Step(s, m).1
    case Dequeue(v) => [Got(v)]
    case ReportEmpty => [Empty]
    case EndOfStream => [Over]
    case _ => if m.Abandon? && s.consumer.Parked? then [Abandoned] else []
  }

  function AllEnded<T>(s: State<T>, moves: seq<Move<T>>): seq<Ending<T>>
  {
    if moves == [] then []
    else
      var m := |moves| - 1;
      AllEnded(s, moves[..m]) + Ended(RunState(s, moves[..m]), moves[m])
  }

  /** What may answer which call: only `try_recv` reports emptiness, only `recv` ends or is abandoned. */
  predicate Answers<T>(blocking: bool, e: Ending<T>)
  {
    match e
    case Got(_) => true
    case Empty => !blocking
    case Over => blocking
    case Abandoned => blocking
  }

  /** The call the consumer is at work on, if it is at one. */
  function AtWork<T>(c: ConsumerAt<T>): seq<bool>
  {
    match c
    case Resting => []
    case Loading(ph) => [!ph.Direct?]
    case ReloadingWrite(ph, _) => [!ph.Direct?]
    case Taking(ph, _) => [!ph.Direct?]
    case Releasing(ph, _, _) => [!ph.Direct?]
    case CheckingClosed(_) => [true]
    case Parked => [true]
  }

  /** The calls are the answered ones in order and then the one at work. */
  ghost predicate Ledger<T>(calls: seq<bool>, ends: seq<Ending<T>>, c: ConsumerAt<T>)
  {
    && |calls| == |ends| + |AtWork(c)|
    && calls[|ends|..] == AtWork(c)
    && forall i :: 0 <= i < |ends| ==> Answers(calls[i], ends[i])
  }

  lemma {:induction false} StepBooks<T>(s: State<T>, m: Move<T>)
    ensures var s' := Step(s, m).0;
            var begun, over := Called(s, m), Ended(s, m);
            && |AtWork(s.consumer)| + |begun| == |over| + |AtWork(s'.consumer)|
            && |begun| <= 1 && |over| <= 1
            && (over != [] ==> begun == [] && AtWork(s.consumer) != [] && Answers(AtWork(s.consumer)[0], over[0]))
            && (over == [] ==> AtWork(s'.consumer) == AtWork(s.consumer) + begun)
  {
  }

  lemma {:induction false} LedgerGrows<T>(calls: seq<bool>, ends: seq<Ending<T>>, c: ConsumerAt<T>,
                                          begun: seq<bool>, over: seq<Ending<T>>, c': ConsumerAt<T>)
    requires Ledger(calls, ends, c) && |AtWork(c)| + |begun| == |over| + |AtWork(c')| && |over| <= 1
    requires over != [] ==> begun == [] && AtWork(c) != [] && Answers(AtWork(c)[0], over[0])
    requires over == [] ==> AtWork(c') == AtWork(c) + begun
    ensures Ledger(calls + begun, ends + over, c')
  {
    if over != [] {
      assert calls[|ends|] == AtWork(c)[0];
      assert calls + begun == calls;
    } else {
      assert ends + over == ends;
      assert (calls + begun)[|ends|..] == calls[|ends|..] + begun;
    }
  }

  /** Every call gets one answer, of its own kind, in the order of the calls; at most
      the last one is still unanswered, and it is exactly when the consumer is busy. */
  lemma {:induction false} ReceivesAreAnswered<T>(k: nat, moves: seq<Move<T>>)
    ensures Ledger(AllCalled(Start<T>(k), moves), AllEnded(Start<T>(k), moves),
                   RunState(Start<T>(k), moves).consumer)
  {
    if moves != [] {
      var m := |moves| - 1;
      var s := RunState(Start<T>(k), moves[..m]);
      ReceivesAreAnswered(k, moves[..m]);
      StepBooks(s, moves[m]);
      LedgerGrows(AllCalled(Start<T>(k), moves[..m]), AllEnded(Start<T>(k), moves[..m]), s.consumer,
                  Called(s, moves[m]), Ended(s, moves[m]), Step(s, moves[m]).0.consumer);
    }
  }

  // ----- a receive left to itself -----

  /** The consumer alone, for n steps. */
  function Solo<T>(s: State<T>, n: nat): State<T>
    decreases n
  {
    if n == 0 then s else Solo(ConsumerStep(s).0, n - 1)
  }

  lemma {:induction false} SoloTwo<T>(s: State<T>, n: nat)
    ensures Solo(s, n + 2) == Solo(ConsumerStep(ConsumerStep(s).0).0, n)
  {
    assert Solo(s, n + 2) == Solo(ConsumerStep(s).0, n + 1);
  }

  /** Nothing is queued, and this consumer knows it or will find out. */
  ghost predicate Idle<T>(s: State<T>) { s.readSeq == s.writeSeq && s.cachedWrite <= s.writeSeq }

  /** The consumer stands at c and has seen that nothing is queued. */
  function Standing<T>(s: State<T>, c: ConsumerAt<T>): State<T> { s.(cachedWrite := s.writeSeq, consumer := c) }

  lemma {:induction false} FailedAttempt<T>(s: State<T>, ph: Phase, n: nat)
    requires Idle(s) && s.consumer == Loading(ph)
    ensures Solo(s, n + 2) == Solo(Standing(s, AfterEmpty(ph)), n)
    ensures ConsumerStep(ConsumerStep(s).0).1
         == if ph.Direct? then ReportEmpty else if ph.Last? then EndOfStream else Nothing
  {
    SoloTwo(s, n);
  }

  /** Of `left` spinning attempts that all fail, the last leads to the look at the closed flag. */
  lemma {:induction false} SpinsDown<T>(s: State<T>, left: nat, n: nat)
    requires Idle(s) && s.consumer == Loading(Spin(left)) && left > 0
    ensures Solo(s, n + 2 * left) == Solo(Standing(s, CheckingClosed(false)), n)
    decreases left
  {
    FailedAttempt(s, Spin(left), n + 2 * (left - 1));
    if left > 1 {
      SpinsDown(Standing(s, Loading(Spin(left - 1))), left - 1, n);
    }
  }

  lemma {:induction false} RecvLooks<T>(s: State<T>, n: nat)
    requires Idle(s) && s.consumer.Resting?
    ensures Solo(Step(s, Recv).0, n + 66) == Solo(Standing(s, CheckingClosed(false)), n)
  {
    FailedAttempt(Step(s, Recv).0, Fast, n + 64);
    SpinsDown(Standing(s, Loading(Spin(32))), 32, n);
  }

  /** With nothing queued a `try_recv` fails at its first attempt. */
  lemma {:induction false} TryOnEmpty<T>(s: State<T>)
    requires Idle(s) && s.consumer.Resting?
    ensures Solo(Step(s, TryRecv).0, 2) == Standing(s, Resting)
  {
    FailedAttempt(Step(s, TryRecv).0, Direct, 0);
  }

  /** With nothing queued a `recv` makes 33 attempts and looks at the closed flag: open, it waits. */
  lemma {:induction false} RecvWaits<T>(s: State<T>)
    requires Idle(s) && s.consumer.Resting? && !s.closed
    ensures Solo(Step(s, Recv).0, 67) == Standing(s, Parked)
  {
    var looking := Standing(s, CheckingClosed(false));
    RecvLooks(s, 1);
    assert Solo(looking, 1) == ConsumerStep(looking).0;
  }

  lemma {:induction false} LastAttempt<T>(s: State<T>, woken: bool)
    requires Idle(s) && s.closed
    ensures Solo(Standing(s, CheckingClosed(woken)), 1) == Standing(s, Loading(Last))
    ensures Solo(Standing(s, CheckingClosed(woken)), 3) == Standing(s, Resting)
  {
    var looking := Standing(s, CheckingClosed(woken));
    assert Solo(looking, 1) == ConsumerStep(looking).0;
    assert Solo(looking, 3) == Solo(Standing(s, Loading(Last)), 2);
    FailedAttempt(Standing(s, Loading(Last)), Last, 0);
  }

  /** Closed, it makes one last attempt and ends. */
  lemma {:induction false} RecvEnds<T>(s: State<T>)
    requires Idle(s) && s.consumer.Resting? && s.closed
    ensures Solo(Step(s, Recv).0, 67) == Standing(s, Loading(Last))
    ensures Solo(Step(s, Recv).0, 69) == Standing(s, Resting)
  {
    RecvLooks(s, 1);
    RecvLooks(s, 3);
    LastAttempt(s, false);
  }

  lemma {:induction false} WokenLooks<T>(s: State<T>, n: nat)
    requires Idle(s) && s.consumer.Parked?
    ensures Solo(s, n + 3) == Solo(Standing(s, CheckingClosed(true)), n)
  {
    assert Solo(s, n + 3) == Solo(ConsumerStep(s).0, n + 2);
    FailedAttempt(ConsumerStep(s).0, Woken, n);
  }

  /** Woken without a value while open it tries once, looks, and spins 32 times before it waits again. */
  lemma {:induction false} WokenWaits<T>(s: State<T>)
    requires Idle(s) && s.consumer.Parked? && !s.closed
    ensures Solo(s, 4) == Standing(s, Loading(Spin(32)))
    ensures Solo(s, 69) == Standing(s, Parked)
  {
    var looking := Standing(s, CheckingClosed(true));
    WokenLooks(s, 1);
    assert Solo(looking, 1) == ConsumerStep(looking).0;
    WokenLooks(s, 66);
    assert Solo(looking, 66) == Solo(Standing(s, Loading(Spin(32))), 65);
    SpinsDown(Standing(s, Loading(Spin(32))), 32, 1);
    assert Solo(Standing(s, CheckingClosed(false)), 1) == Standing(s, Parked);
  }

  /** Woken by the close it tries once, looks, makes one last attempt and ends. */
  lemma {:induction false} WokenEnds<T>(s: State<T>)
    requires Idle(s) && s.consumer.Parked? && s.closed
    ensures Solo(s, 6) == Standing(s, Resting)
  {
    WokenLooks(s, 3);
    LastAttempt(s, true);
  }

  // ----- one call undisturbed -----

  /** The producer alone, for n steps. */
  function SoloSend<T>(s: State<T>, n: nat): State<T>
    decreases n
  {
    if n == 0 then s else SoloSend(ProducerStep(s).0, n - 1)
  }

  /** The value is in the next slot and published; nothing else but the cache has changed. */
  function WithSent<T>(s: State<T>, value: T, cachedRead: nat): State<T>
    requires s.slots != []
  {
    s.(slots := s.slots[s.writeSeq % |s.slots| := Some(value)], writeSeq := s.writeSeq + 1, sent := s.sent + [value],
       cachedRead := cachedRead)
  }

  lemma {:induction false} FillsAndPublishes<T>(s: State<T>, value: T)
    requires Inv(s) && s.producer.Filling? && s.producer == Filling(value, s.writeSeq)
    ensures SoloSend(s, 2) == WithSent(s, value, s.cachedRead).(producer := Ready)
  {
    IndexIsRemainder(s, s.writeSeq);
    var filled := ProducerStep(s).0;
    assert SoloSend(filled, 1) == ProducerStep(filled).0;
  }

  /** A send that the cached read sequence shows room for takes two steps and does not look
      at the reader; any other reloads once, and then fills and publishes exactly if the
      queue has room, otherwise it leaves everything but the cache as it was. */
  lemma {:induction false} SendAlone<T>(s: State<T>, value: T)
    requires Inv(s) && s.producer.Ready?
    ensures var begun := Step(s, Send(value)).0;
            if s.writeSeq < s.cachedRead + |s.slots| then
              SoloSend(begun, 2) == WithSent(s, value, s.cachedRead)
            else if |Queue(s)| < |s.slots| then
              SoloSend(begun, 3) == WithSent(s, value, s.readSeq)
            else
              SoloSend(begun, 1) == s.(cachedRead := s.readSeq) && ProducerStep(begun).1 == Refuse(value)
  {
    var begun := Step(s, Send(value)).0;
    StepKeepsInv(s, Send(value));
    if s.writeSeq < s.cachedRead + |s.slots| {
      FillsAndPublishes(begun, value);
    } else {
      var reloaded := ProducerStep(begun).0;
      StepKeepsInv(begun, Produce);
      if |Queue(s)| < |s.slots| {
        FillsAndPublishes(reloaded, value);
      }
    }
  }

  /** The oldest value is taken out; nothing else but the cache has changed. */
  function WithTaken<T>(s: State<T>, cachedWrite: nat): State<T>
    requires s.slots != [] && s.readSeq < |s.sent|
  {
    s.(slots := s.slots[s.readSeq % |s.slots| := None], readSeq := s.readSeq + 1,
       received := s.received + [s.sent[s.readSeq]], cachedWrite := cachedWrite)
  }

  lemma {:induction false} TakesAndReleases<T>(s: State<T>, phase: Phase)
    requires Inv(s) && s.consumer == Taking(phase, s.readSeq)
    ensures s.readSeq < |s.sent|
    ensures Solo(s, 2) == WithTaken(s, s.cachedWrite).(consumer := Resting)
  {
    IndexIsRemainder(s, s.readSeq);
    assert s.slots[s.readSeq % |s.slots|] == Expected(s, s.readSeq);
    var taken := ConsumerStep(s).0;
    assert Solo(s, 2) == Solo(taken, 1) == ConsumerStep(taken).0;
  }

  lemma {:induction false} AttemptFinds<T>(s: State<T>, phase: Phase)
    requires Inv(s) && s.consumer == Loading(phase) && s.readSeq < s.cachedWrite
    ensures s.readSeq < |s.sent|
    ensures Solo(s, 3) == WithTaken(s, s.cachedWrite).(consumer := Resting)
  {
    var loaded := ConsumerStep(s).0;
    StepKeepsInv(s, Consume);
    TakesAndReleases(loaded, phase);
    assert Solo(s, 3) == Solo(loaded, 2);
  }

  lemma {:induction false} AttemptReloads<T>(s: State<T>, phase: Phase)
    requires Inv(s) && s.consumer == Loading(phase) && s.cachedWrite <= s.readSeq < s.writeSeq
    ensures s.readSeq < |s.sent|
    ensures Solo(s, 4) == WithTaken(s, s.writeSeq).(consumer := Resting)
  {
    var loaded := ConsumerStep(s).0;
    var found := ConsumerStep(loaded).0;
    StepKeepsInv(s, Consume);
    StepKeepsInv(loaded, Consume);
    TakesAndReleases(found, phase);
    assert Solo(s, 4) == Solo(loaded, 3) == Solo(found, 2);
  }

  /** With something queued a receive of either kind takes it at the first attempt, and
      reloads only when its cache shows nothing. */
  lemma {:induction false} ReceiveAlone<T>(s: State<T>, blocking: bool)
    requires Inv(s) && s.consumer.Resting? && Queue(s) != []
    ensures var begun := Step(s, if blocking then Recv else TryRecv).0;
            if s.readSeq < s.cachedWrite then Solo(begun, 3) == WithTaken(s, s.cachedWrite)
            else Solo(begun, 4) == WithTaken(s, s.writeSeq)
  {
    var m: Move<T> := if blocking then Recv else TryRecv;
    var begun := Step(s, m).0;
    StepKeepsInv(s, m);
    if s.readSeq < s.cachedWrite {
      AttemptFinds(begun, begun.consumer.phase);
    } else {
      AttemptReloads(begun, begun.consumer.phase);
    }
  }
}
