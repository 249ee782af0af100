# flume-rs: the stateful core, modelled and proved

flume-rs is a stream engine in the style of Flink. This project models the state
machines at its core and proves what they promise, for every input, every
schedule and every reachable state. The text below uses the repository's own
terms; where a comment or a document of the repository says more than its code
does, the model follows the code.

How a component is modelled:

- A **step function** on an explicit state says what one turn of the component
  does; runs of it under an arbitrary schedule are what the theorems speak about.
- Where the source updates fields or loops, a **class or a method with loops**
  does the same updates in place and is proved to make exactly those steps.
- **Lemmas about runs** connect the steps with an independent reference: a batch
  join, a batch group-by, a bounded queue, a cut of the inputs, an n-input
  watermark tracker, the set of aligned windows, the acyclic graphs.

Scheduling (`select!`, polling order, hash-map iteration order, thread
interleaving), the file system's answers, the deadline and the channels' room are
parameters: the theorems hold whatever they answer. The serialization library is a
pair of functions of which two things are assumed, where a lemma says so: what was
serialized deserializes to itself (`Network.Inverse`), and nothing shorter than an
element's serialized form deserializes to it (`Network.Shortest`). Automatic
induction is switched off throughout, so each proof is the one written down.

| module | what it models |
|---|---|
| `Streams`, `Arithmetic` | records, watermarks, barriers, saturating 64-bit time; facts the others share |
| `Watermarks` | the n-input watermark tracker |
| `Merge`, `MergeCut`, `MergeWatermarks`, `MergeOrder` | the two-input merge: alignment, termination, cut, watermark promise, and which orders it can produce |
| `IntervalJoin`, `IntervalJoinBatch`, `IntervalJoinLate`, `IntervalJoinOrder`, `IntervalJoinKeys`, `MergedJoin` | the interval join, its batch meaning, late records, the order of its output, its keys, and the merge in front of it |
| `Aligner`, `AlignerCut`, `AlignerDeliveries` | the n-input barrier aligner, its cut, when the cut is right and what is held back |
| `RingBuffer`, `RingCalls` | the lock-free ring buffer, one method per atomic step, and how every call on it is answered |
| `Dag`, `SlotQueues`, `SlotTheorems`, `SpreadTheorems`, `SlotOrders`, `Physical`, `PhysicalWiring` | topological order, slot queues, scheduling, and which physical edges there are |
| `Windows`, `KeyedWindows`, `WindowOperators`, `WindowOutputs`, `WindowBatches`, `MergedWindows` | window assignment, windowed aggregation, window join, cogroup, what they put out over whole streams, the batch results written out from the input, and the merge in front of the two-input ones |
| `SnapshotStore`, `Coordinator`, `CoordinatorRuns` | checkpoint directories, the checkpoint protocol, and which checkpoints a run makes |
| `Network`, `NetworkRuns`, `NetworkWire` | framing, batching, credits; both ends over whole runs; the bytes and batches on the wire |

## Where the code falls short of what one would expect

For each there is a lemma with the exact condition for the expected property and a
lemma with an input that fails it.

- **Interval join.** Saturating timestamps admit pairs outside the bounds at time
  0 (left first) and at the maximum (right first). The streaming result is the
  batch join plus exactly those pairs, so it is the batch join if and only if no
  such pair meets (`JoinIsBatchIff`, `ClampedExample`). Behind the merge every
  schedule puts out the batch join if and only if no such pair can meet in the
  clamping order, which its barriers may rule out (`ScheduleIndependentIff`,
  `ScheduleExample`, `SettledExample`).
- **Interval join, late records.** What comes out of a late stream is exactly the
  admitted pairs whose first record was not evicted in between. Nothing is lost if
  and only if no record comes after the eviction of a partner it would have met
  (`OutputIsKeptPairs`, `LosesNothingIff`, `LateExample`).
- **Aligner, absorbed barriers.** A second barrier on an input that is already
  blocked is swallowed. Every input is cut where its barriers were if and only if
  at no moment of the run an input had delivered two barriers more than another
  (`CutIffInStep`, `AbsorbedExample`).
- **Aligner, held-back elements.** When all inputs are exhausted, what an input
  delivered after its first barrier beyond those that all inputs share is never
  returned. Everything comes out if and only if nothing stands behind that barrier
  on any input (`EverythingComesOutIff`, `HeldBackExample`).
- **Spread.** Slots are taken from the end of the queue, so the source's remark
  that sorting by availability makes the spread even holds for every demand if
  and only if availabilities differ by at most one (`SpreadIsEvenIff`), and for a
  given demand by its exact shares (`DemandIsEvenIff`, `UnevenExample`).
- **Scheduling, repeated offers.** Nothing keeps a TaskManager from offering a slot
  twice. No slot is handed out twice, however many are needed, if and only if no two
  offers overlap (`QueueIsExact`, `ScheduleIsExclusive`, `OfferedTwiceExample`).
- **Coordinator, acks.** Acks are counted by name, whoever sent them. A committed
  checkpoint holds every expected operator's state if and only if all acks it
  counted came from expected operators (`CompleteIff`, `StrangerExample`). With no
  expected operators nothing ever commits (`EmptyPipelineNeverCommits`).
- **Coordinator, retention.** Retaining zero checkpoints deletes each one on success
  (`RetainingNoneForgets`, `RetainingNoneExample`).
- **Coordinator, broken removals.** A removal that breaks off can leave a checkpoint
  that is marked complete and lacks states. Over a run with honest acks every
  committed checkpoint holds all states at every moment if and only if no cleanup
  leaves the marker of a checkpoint while taking one of its states
  (`AlwaysCompleteIff`, `RemnantExample`). With at least one checkpoint retained the
  latest one is whole whatever breaks; with none it may have no state at all
  (`LatestIsComplete`, `LatestRemnantExample`).
- **Network, watermarks.** A watermark goes out without the length prefix that the
  reader expects. With all calls successful the stream arrives intact if and only if
  no watermark was sent (`IntactIffNoWatermarks`, `WatermarkExample`).
- **Network, refused batches.** What arrives is what the calls carried if and only if
  the channel never refused the flush of a non-empty buffer; each such refusal loses
  exactly the buffer and one credit (`StreamIsCarriedIff`, `RefusalLosesTheBuffer`,
  `RefusalExample`).

## Model

| member | source | states |
|---|---|---|
| Streams.SatAdd | crates/flume-core/src/time.rs:31-37 | addition is exact or clamps at the 64-bit maximum, never wraps |
| Streams.SatSub | crates/flume-core/src/time.rs:39-45 | subtraction is exact or clamps at zero |
| Watermarks.WatermarkTracker.Update | crates/flume-runtime/src/watermark.rs:29-45 | the in-place update makes one tracker step and reports a watermark exactly when the current one advances |
| Watermarks.OutputsAscend | crates/flume-runtime/src/watermark.rs:37-44 | over any arrivals the forwarded watermarks strictly increase up to the current one |
| Watermarks.LastIsCurrent | crates/flume-runtime/src/watermark.rs:37-44 | the current watermark has been forwarded: it is the last one, or none was and it is 0 |
| Watermarks.OutputsReached | crates/flume-runtime/src/watermark.rs:31-44 | each forwarded watermark was reached by all inputs at one moment of the run |
| Watermarks.ReachedIsForwarded | crates/flume-runtime/src/watermark.rs:31-44 | what all inputs have reached at one moment has been forwarded, or something later |
| Watermarks.CurrentIsMinimum | crates/flume-runtime/src/watermark.rs:17-50 | when no input goes back, the current watermark is the minimum of the inputs' latest ones |
| Merge.MergeTask.HandleElement1 | crates/flume-runtime/src/merge.rs:199-234 | the field updates for an element of input 1 (buffering behind a held barrier, watermark forwarding, holding a barrier) are those of the step model |
| Merge.MergeTask.HandleElement2 | crates/flume-runtime/src/merge.rs:236-271 | the same for input 2 |
| Merge.MergeTask.ForwardWatermark | crates/flume-runtime/src/merge.rs:221-228 | a watermark goes out exactly when the minimum of both exceeds the last one forwarded |
| Merge.MergeTask.FlushBuffer1 | crates/flume-runtime/src/merge.rs:291-299 | the whole buffer goes out in order and is left empty |
| Merge.MergeTask.FlushBuffer2 | crates/flume-runtime/src/merge.rs:291-299 | the same for the other side's buffer |
| Merge.MergeTask.TryFlushBarriers | crates/flume-runtime/src/merge.rs:273-289 | two held barriers become one output barrier, then both buffers follow |
| Merge.MergeTask.AwaitInput2 | crates/flume-runtime/src/merge.rs:52-86 | while input 1 is held, input 2 is read, and its end releases the held barrier and records |
| Merge.MergeTask.AwaitInput1 | crates/flume-runtime/src/merge.rs:90-122 | the mirror image |
| Merge.MergeTask.Turn | crates/flume-runtime/src/merge.rs:45-194 | one turn of the loop is one step of the model under the scheduler's pick |
| Merge.TwoInputMerge | crates/flume-runtime/src/merge.rs:22-197 | the loop terminates for every schedule and its output is that of a finished run |
| Merge.StepKeepsInv | crates/flume-runtime/src/merge.rs:45-194 | on every step a side's buffer is empty and no two barriers are held at once |
| MergeCut.StepConserves | crates/flume-runtime/src/merge.rs:45-194 | every turn keeps what each side will finally see: nothing is lost, repeated or reordered |
| MergeCut.MeasureFalls | crates/flume-runtime/src/merge.rs:45-194 | each turn of an unfinished run lowers a fixed measure |
| MergeCut.Terminates | crates/flume-runtime/src/merge.rs:45-194 | every schedule finishes within twice the two input lengths plus two turns |
| MergeCut.MergedViews | crates/flume-runtime/src/merge.rs:22-197 | the finished output seen from either side is that input without watermarks, paired barriers under input 1's identity, then the other side's surplus barriers; no barrier or record is left behind |
| MergeCut.ConsistentCut | crates/flume-runtime/src/merge.rs:45-194 | before output barrier k stand exactly the records before barrier k on each input, in order |
| MergeCut.MergedRecords | crates/flume-runtime/src/merge.rs:22-197 | each side's records come out complete and in order |
| MergeCut.MergedBarriers | crates/flume-runtime/src/merge.rs:273-289 | the output barriers are input 1's and then input 2's surplus, as many as the longer side has |
| MergeWatermarks.RefinesTracker | crates/flume-runtime/src/merge.rs:221-228 | on every run the merge's watermark variables and outputs are those of a two-input tracker fed the watermarks in reading order |
| MergeWatermarks.ArrivedInOrder | crates/flume-runtime/src/merge.rs:126-157 | that reading order keeps each input's own order and loses none |
| MergeWatermarks.WatermarksAscend | crates/flume-runtime/src/merge.rs:258-265 | forwarded watermarks strictly increase even when an input's go back |
| MergeWatermarks.MergeKeepsPromise | crates/flume-runtime/src/merge.rs:45-194 | if both inputs keep the watermark promise the merged stream keeps it, for every schedule |
| MergeOrder.OrderIff | crates/flume-runtime/src/merge.rs:45-194 | some schedule brings a record of input 1 out before one of input 2 if and only if it stands behind no more barriers, and the other way round: both orders are possible within a section and only there |
| MergeOrder.HeldLefts | crates/flume-runtime/src/merge.rs:52-86 | while input 1 is held back or closed, exactly its records before the next output barrier are out |
| IntervalJoin.PushKeepsSorted | crates/flume-core/src/operator/interval_join.rs:72-114 | inserting keeps a side's buckets in time order and adds its own time and no other |
| IntervalJoin.FlattenPush | crates/flume-core/src/operator/interval_join.rs:72-114 | a pushed record adds exactly its own contribution to what a later probe finds |
| IntervalJoin.EvictIsFilter | crates/flume-core/src/operator/interval_join.rs:129-160 | eviction keeps precisely the buckets at or above the cutoff |
| IntervalJoin.EvictBefore | crates/flume-core/src/operator/interval_join.rs:133-151 | the collect-then-remove loop is that eviction |
| IntervalJoin.IntervalJoinOperator.ProcessRecord | crates/flume-core/src/operator/interval_join.rs:63-117 | a record is stored under its own key, the empty one when it has none, and emits, in order, the matches the range test admits under that key |
| IntervalJoin.IntervalJoinOperator.ScanRight | crates/flume-core/src/operator/interval_join.rs:81-91 | the scan loop for a left record finds the admitted right records |
| IntervalJoin.IntervalJoinOperator.ScanLeft | crates/flume-core/src/operator/interval_join.rs:101-112 | the scan loop for a right record finds the admitted left records |
| IntervalJoin.IntervalJoinOperator.ProcessWatermark | crates/flume-core/src/operator/interval_join.rs:119-163 | a watermark evicts every key's buffers and is forwarded |
| IntervalJoin.IntervalJoinOperator.EvictExpired | crates/flume-core/src/operator/interval_join.rs:129-160 | the loop over keys evicts both sides of each and drops emptied keys |
| IntervalJoinBatch.RangeTests | crates/flume-core/src/operator/interval_join.rs:81-112 | both range tests are the documented bounds, plus one named family of pairs at each end of the time range |
| IntervalJoinBatch.AllPairsIsBatch | crates/flume-core/src/operator/interval_join.rs:72-114 | in any arrival order, eviction aside, the admitted pairs are the batch join and the clamped pairs |
| IntervalJoinBatch.StoredLefts | crates/flume-core/src/operator/interval_join.rs:101-160 | for an on-time right record eviction has removed no left that matches; for a late one it can only lose matches |
| IntervalJoinBatch.StoredRights | crates/flume-core/src/operator/interval_join.rs:81-160 | the mirror image |
| IntervalJoinBatch.StreamingIsBatch | crates/flume-core/src/operator/interval_join.rs:63-163 | an on-time stream emits the batch join and the clamped pairs, each pair once; a late stream emits a sub-multiset, which `IntervalJoinLate` makes exact |
| IntervalJoinBatch.JoinIsBatchIff | crates/flume-core/src/operator/interval_join.rs:81-112 | for an on-time stream the result is the batch join if and only if no pair is clamped |
| IntervalJoinBatch.ClampedExample | crates/flume-core/src/time.rs:31-45 | a left and a right at time 0 outside the bounds join when the left arrives first and not when the right does |
| IntervalJoinBatch.EmitsLater | crates/flume-core/src/operator/interval_join.rs:88-88 | what a record emits is never earlier than the record |
| IntervalJoinBatch.OutputKeepsPromise | crates/flume-core/src/operator/interval_join.rs:63-163 | the join keeps the watermark promise of its input |
| IntervalJoinBatch.EvictionIsComplete | crates/flume-core/src/operator/interval_join.rs:129-160 | after a watermark nothing that can no longer match is left under any key, and no key is empty |
| IntervalJoinLate.EvictedAnswers | crates/flume-core/src/operator/interval_join.rs:129-160 | evicting a side's buckets takes exactly the answers below the cutoff from every probe |
| IntervalJoinLate.OutputIsKeptPairs | crates/flume-core/src/operator/interval_join.rs:63-163 | the output of any stream is exactly the admitted pairs whose first record no watermark evicted before the second came |
| IntervalJoinLate.LosesNothingIff | crates/flume-core/src/operator/interval_join.rs:119-163 | a stream emits the batch join and the clamped pairs if and only if no record comes after the eviction of a partner it would have met |
| IntervalJoinLate.LateExample | crates/flume-core/src/operator/interval_join.rs:119-163 | a watermark between two records within the bounds costs their pair |
| IntervalJoinKeys.JoinIsPerKey | crates/flume-core/src/operator/interval_join.rs:63-171 | over any stream the output records of a key are the output for that key's records alone, and so is what is stored under it |
| IntervalJoinKeys.OutputOrigin | crates/flume-core/src/operator/interval_join.rs:81-112 | each output record is made of one left and one right record of its own key: the join function's value at the later of the two times |
| IntervalJoinKeys.WatermarksForwarded | crates/flume-core/src/operator/interval_join.rs:119-163 | the operator forwards exactly the watermarks it gets |
| IntervalJoinOrder.ByTimeIsStable | crates/flume-core/src/operator/interval_join.rs:72-114 | the reference order is by time and leaves records of one time in order of arrival |
| IntervalJoinOrder.OutputInOrder | crates/flume-core/src/operator/interval_join.rs:63-171 | the output of any stream as a sequence: each record is answered by the records of the other side that no watermark has evicted, in that order, and watermarks and barriers go through |
| MergedJoin.JoinOfMerge | crates/flume-api/src/connected.rs:149-170 | merge then join of two on-time inputs is the batch join plus the schedule's clamped pairs, and keeps the promise |
| MergedJoin.ScheduleIndependentIff | crates/flume-api/src/connected.rs:149-170 | every schedule emits the batch join if and only if no two records that saturation would pair have their barrier positions leave the pairing order open |
| MergedJoin.ScheduleExample | crates/flume-api/src/connected.rs:149-170 | two records at time 0 outside the bounds that some schedule joins |
| MergedJoin.SettledExample | crates/flume-api/src/connected.rs:149-170 | a barrier between the two that keeps every schedule from joining them |
| MergedJoin.ScheduleIndependent | crates/flume-api/src/connected.rs:149-170 | where no two records can be clamped, any two interleavings emit the same multiset, the batch join of the inputs |
| MergedJoin.BarriersForwarded | crates/flume-core/src/operator/interval_join.rs:165-171 | the operator forwards exactly the barriers it gets |
| MergedJoin.CutOfOutput | crates/flume-core/src/operator/interval_join.rs:63-171 | the output before barrier k is the output for the input before barrier k |
| MergedJoin.JoinedAtBarrier | crates/flume-api/src/connected.rs:149-170 | what has been joined when barrier k leaves is the batch join of what precedes barrier k on both inputs, whatever the schedule |
| Aligner.BarrierAligner.constructor | crates/flume-runtime/src/checkpoint/aligner.rs:42-51 | a new aligner is the start state: nothing received, nothing held, nothing to drain |
| Aligner.BarrierAligner.Next | crates/flume-runtime/src/checkpoint/aligner.rs:61-75 | under any polling schedule a call makes steps of the model and returns what the last one emits: `BarrierAligned` exactly for an aligned barrier, otherwise an element that is none; it ends only when all inputs are exhausted, and does not wait while something held is due or the inputs go on showing what they have |
| Aligner.BarrierAligner.NextSingle | crates/flume-runtime/src/checkpoint/aligner.rs:78-84 | the single-input fast path does the same: a barrier comes back as `BarrierAligned`, anything else as an element, and it waits only while the channel shows nothing |
| Aligner.BarrierAligner.NextMulti | crates/flume-runtime/src/checkpoint/aligner.rs:87-119 | the alignment loop does the same, and has an answer once every input has been visible long enough |
| Aligner.BarrierAligner.DrainHeld | crates/flume-runtime/src/checkpoint/aligner.rs:62-68 | the oldest held element of the first input that holds one is returned, and nothing only when none is left |
| Aligner.BarrierAligner.Align | crates/flume-runtime/src/checkpoint/aligner.rs:89-117 | a received element is held back, absorbed into the alignment, or returned, as the model says; the barrier that completes an alignment is returned as `BarrierAligned`, no other is returned |
| Aligner.BarrierAligner.RecvAny | crates/flume-runtime/src/checkpoint/aligner.rs:123-177 | the three polling passes pick the input the model picks |
| Aligner.ChooseIsSound | crates/flume-runtime/src/checkpoint/aligner.rs:123-177 | a chosen input has a message, the end means all are exhausted, and a visible unblocked input is never passed over for a blocked one |
| Aligner.ChooseAnswers | crates/flume-runtime/src/checkpoint/aligner.rs:123-177 | a round of polling goes unanswered if and only if no pass shows a message and some channel is not seen closed |
| Aligner.StepKeepsInv | crates/flume-runtime/src/checkpoint/aligner.rs:61-119 | every step keeps the blocked set, the held elements and the drain cursor consistent |
| AlignerCut.NothingLostOrReordered | crates/flume-runtime/src/checkpoint/aligner.rs:61-119 | with no assumption on barriers: returned, then held back, then unread elements are the input's, in order |
| AlignerCut.CutIffNoneAbsorbed | crates/flume-runtime/src/checkpoint/aligner.rs:94-98 | the outputs cut input i where its barriers did if and only if none of them arrived while it was blocked |
| AlignerCut.AbsorbedExample | crates/flume-runtime/src/checkpoint/aligner.rs:94-98 | two barriers in a row on one input spoil its cut |
| AlignerDeliveries.InStepIffNoneAbsorbed | crates/flume-runtime/src/checkpoint/aligner.rs:94-98 | a barrier is swallowed if and only if at some moment an input had delivered two barriers more than another |
| AlignerDeliveries.CutIffInStep | crates/flume-runtime/src/checkpoint/aligner.rs:61-119 | every input is cut where its barriers were if and only if deliveries stayed within one barrier of each other |
| AlignerDeliveries.AlignedCut | crates/flume-runtime/src/checkpoint/aligner.rs:87-119 | with deliveries in step, before aligned barrier k exactly input i's elements before its own barrier k have been returned |
| AlignerDeliveries.AlignedInOrder | crates/flume-runtime/src/checkpoint/aligner.rs:104-114 | with deliveries in step, inputs that carry the same barriers have them aligned in order, once each |
| AlignerDeliveries.AlignedAreOpenings | crates/flume-runtime/src/checkpoint/aligner.rs:94-109 | the barrier an alignment hands on is the one that opened it, whatever came on the other inputs |
| AlignerDeliveries.AlignsFewest | crates/flume-runtime/src/checkpoint/aligner.rs:87-119 | a finished run has aligned as many barriers as the input with the fewest carries |
| AlignerDeliveries.HeldBackIff | crates/flume-runtime/src/checkpoint/aligner.rs:170-172 | what a finished run still holds back of an input is exactly the elements behind its first barrier beyond the fewest, and what it returned exactly those before it |
| AlignerDeliveries.EverythingComesOutIff | crates/flume-runtime/src/checkpoint/aligner.rs:61-119 | a finished run holds back nothing if and only if no input has anything behind that barrier |
| AlignerDeliveries.EverythingComesOut | crates/flume-runtime/src/checkpoint/aligner.rs:61-119 | in particular with equally many barriers on every input all of it is returned |
| AlignerDeliveries.HeldBackExample | crates/flume-runtime/src/checkpoint/aligner.rs:170-172 | one input closes without a barrier; the record behind the other's barrier is never returned |
| AlignerDeliveries.FastPathAgrees | crates/flume-runtime/src/checkpoint/aligner.rs:61-84 | over whole runs with one input the fast path and the general alignment return the same outputs |
| RingBuffer.RoundedCapacity | crates/flume-runtime/src/ring_buffer.rs:66-67 | the capacity is the least power of two from 2 that has room |
| RingBuffer.MaskIsRemainder | crates/flume-runtime/src/ring_buffer.rs:76-76 | masking with capacity - 1 is the remainder by the capacity |
| RingBuffer.SharedRing.BeginSend | crates/flume-runtime/src/ring_buffer.rs:97-101 | the producer's first step: own sequence against the cached one |
| RingBuffer.SharedRing.ReloadReadSeq | crates/flume-runtime/src/ring_buffer.rs:102-107 | a value is refused only while the queue holds a capacity's worth; otherwise `RingCalls.SendsAreAnswered` keeps it in the producer's hands |
| RingBuffer.SharedRing.WriteSlot | crates/flume-runtime/src/ring_buffer.rs:109-113 | the slot written is empty: no unread value is overwritten |
| RingBuffer.SharedRing.PublishSlot | crates/flume-runtime/src/ring_buffer.rs:115-116 | publishing appends exactly the written value to the queue |
| RingBuffer.SharedRing.CloseProducer | crates/flume-runtime/src/ring_buffer.rs:127-132 | dropping the producer closes the queue and changes nothing else |
| RingBuffer.SharedRing.BeginReceive | crates/flume-runtime/src/ring_buffer.rs:136-164 | entering `try_recv` or `recv` changes nothing shared |
| RingBuffer.SharedRing.LoadReadSeq | crates/flume-runtime/src/ring_buffer.rs:137-139 | the consumer's own sequence against its cache |
| RingBuffer.SharedRing.ReloadWriteSeq | crates/flume-runtime/src/ring_buffer.rs:139-144 | emptiness is reported if and only if the queue is empty at that step, and the end only when closed with all received |
| RingBuffer.SharedRing.ReadSlot | crates/flume-runtime/src/ring_buffer.rs:146-148 | the slot read holds the oldest published value |
| RingBuffer.SharedRing.ReleaseSlot | crates/flume-runtime/src/ring_buffer.rs:150-153 | releasing removes exactly the head of the queue |
| RingBuffer.SharedRing.LoadClosed | crates/flume-runtime/src/ring_buffer.rs:175-193 | a closed flag leads to one last attempt |
| RingBuffer.SharedRing.Wake | crates/flume-runtime/src/ring_buffer.rs:181-188 | a wake-up leads to another attempt |
| RingBuffer.SharedRing.AbandonReceive | crates/flume-runtime/src/ring_buffer.rs:182-182 | a `recv` dropped where it waits leaves queue and history as they were, and the consumer can start again |
| RingBuffer.SharedRing.Drop | crates/flume-runtime/src/ring_buffer.rs:30-43 | what was received and what is dropped together are what was sent, in order, and no slot stays full |
| RingBuffer.StepKeepsInv | crates/flume-runtime/src/ring_buffer.rs:97-154 | every atomic step keeps: caches are lower bounds, at most a capacity is outstanding, slots hold exactly the unread values |
| RingBuffer.StepRefines | crates/flume-runtime/src/ring_buffer.rs:97-194 | every atomic step is one allowed action of a bounded first-in first-out queue |
| RingBuffer.RunRefines | crates/flume-runtime/src/ring_buffer.rs:66-194 | what callers observe under any interleaving is a behaviour of that queue |
| RingBuffer.Recorded | crates/flume-runtime/src/ring_buffer.rs:97-154 | the history is that of accepted sends and answered receives |
| RingBuffer.ReceivedIsPrefix | crates/flume-runtime/src/ring_buffer.rs:97-154 | received is a prefix of sent, at most a capacity behind |
| RingBuffer.EndIsFinal | crates/flume-runtime/src/ring_buffer.rs:158-194 | `recv` ends only when the producer is gone and all was received, for good |
| RingCalls.SendsAreAnswered | crates/flume-runtime/src/ring_buffer.rs:97-118 | over any run the values offered are, in order and each once, those enqueued or refused and then the one in the producer's hands |
| RingCalls.ReceivesAreAnswered | crates/flume-runtime/src/ring_buffer.rs:136-194 | over any run each `try_recv` and `recv` ends in exactly one value, report of emptiness, end or abandonment of its own kind, in order; a call is open exactly when the consumer is busy |
| RingCalls.SendAlone | crates/flume-runtime/src/ring_buffer.rs:97-118 | a send undisturbed: with room by the cache it fills and publishes without looking at the reader, else it reloads once and does so exactly if the queue has room; nothing else changes |
| RingCalls.ReceiveAlone | crates/flume-runtime/src/ring_buffer.rs:136-154 | a receive of either kind undisturbed, with something queued: the oldest value at the first attempt, reloading only when the cache shows nothing |
| RingCalls.TryOnEmpty | crates/flume-runtime/src/ring_buffer.rs:136-154 | with nothing queued a `try_recv` fails at its first attempt |
| RingCalls.RecvWaits | crates/flume-runtime/src/ring_buffer.rs:158-182 | with nothing queued and the producer there a `recv` makes its 33 attempts, looks at the closed flag and waits |
| RingCalls.RecvEnds | crates/flume-runtime/src/ring_buffer.rs:158-178 | with the producer gone it makes one last attempt after the look and ends |
| RingCalls.WokenWaits | crates/flume-runtime/src/ring_buffer.rs:181-194 | woken without a value it tries, looks, spins and waits again |
| RingCalls.WokenEnds | crates/flume-runtime/src/ring_buffer.rs:181-194 | woken by the close it tries, looks, makes one last attempt and ends |
| Dag.LogicalGraph.AddNode | crates/flume-runtime/src/dag.rs:61-75 | ids are positions and existing nodes keep theirs |
| Dag.LogicalGraph.AddEdge | crates/flume-runtime/src/dag.rs:78-84 | the edge is appended; a graph stays well formed when both ends exist |
| Dag.LogicalGraph.TopologicalOrder | crates/flume-runtime/src/dag.rs:89-118 | an order is returned if and only if no walk returns to its start, and it is a permutation of the nodes with every edge forward; in-degrees never underflow |
| Dag.LogicalGraph.CountEdges | crates/flume-runtime/src/dag.rs:90-97 | the tables hold each node's in-degree and targets, parallel edges and self-loops counted |
| Dag.LogicalGraph.Discharge | crates/flume-runtime/src/dag.rs:107-115 | discharging a node's edges re-establishes the loop's invariant with that node placed |
| Dag.OrderedIsAcyclic | crates/flume-runtime/src/dag.rs:106-117 | a graph with a topological order has no cycle |
| Dag.StuckIsCyclic | crates/flume-runtime/src/dag.rs:106-117 | a non-empty set of nodes that all wait for one another contains a cycle |
| SlotQueues.BuildSlotQueue | crates/flume-runtime/src/physical.rs:133-175 | both strategies' loops build the specified queue |
| SlotQueues.Interleave | crates/flume-runtime/src/physical.rs:143-164 | the round-robin loop yields the offers' slots round by round and stops |
| SlotTheorems.QueueHoldsAll | crates/flume-runtime/src/physical.rs:133-175 | under either strategy and whatever the ids the queue holds as many slots as are free |
| SlotTheorems.QueueIsExact | crates/flume-runtime/src/physical.rs:133-175 | under either strategy the queue holds the free slots of the offers and nothing else, each once if and only if no slot is offered twice |
| SlotTheorems.OfferedTwiceExample | crates/flume-runtime/src/physical.rs:133-175 | a TaskManager that offers its one slot twice has it handed out twice |
| SlotTheorems.PackIsOptimal | crates/flume-runtime/src/physical.rs:166-173 | no placement of as many subtasks on free slots touches fewer TaskManagers than Pack's |
| SlotTheorems.PackLeavesOnePartial | crates/flume-runtime/src/physical.rs:166-173 | Pack leaves at most one TaskManager with its free slots partly used |
| SpreadTheorems.SpreadIsEvenIff | crates/flume-runtime/src/physical.rs:139-165 | Spread's counts differ by at most one for every demand if and only if the availabilities do |
| SpreadTheorems.SomeRoundIsReached | crates/flume-runtime/src/physical.rs:139-165 | every demand there is room for ends in some round and position |
| SpreadTheorems.SpreadShares | crates/flume-runtime/src/physical.rs:139-165 | the exact number of slots each TaskManager gives for the demand that ends in a given round and position |
| SpreadTheorems.DemandIsEvenIff | crates/flume-runtime/src/physical.rs:139-165 | a given demand is spread evenly if and only if those shares differ by at most one |
| SpreadTheorems.UnevenExample | crates/flume-runtime/src/physical.rs:115-117 | of offers with three slots and with one, two subtasks both go to the first |
| SlotOrders.SortIsStable | crates/flume-runtime/src/physical.rs:138-168 | offers of equal availability stay in the order in which they were made |
| SlotOrders.OwnSlotsAscend | crates/flume-runtime/src/physical.rs:143-173 | under either strategy the queue holds the free slots of a TaskManager from the lowest index up, so they are handed out from the highest down |
| Physical.Schedule | crates/flume-runtime/src/physical.rs:89-130 | scheduling fails with a cycle exactly on cyclic graphs, else succeeds exactly when demand fits, and the result is a placement in topological order |
| Physical.Place | crates/flume-runtime/src/physical.rs:107-128 | with room for all, queue, assignment and edges together make a placement, distinct ids or not |
| Physical.Assign | crates/flume-runtime/src/physical.rs:107-124 | the loop never runs out of slots and hands them out from the end of the queue |
| Physical.GenerateEdges | crates/flume-runtime/src/physical.rs:178-234 | the edge loops build the physical edges that `PhysicalWiring` describes by index |
| PhysicalWiring.EdgesAreWirings | crates/flume-runtime/src/physical.rs:178-234 | a physical edge is there exactly as often as logical edges ask for it: upstream index i with index i modulo the downstream parallelism on a forward edge, every two indexes on any other, under the edge's strategy, and nothing else |
| PhysicalWiring.OutEdges | crates/flume-runtime/src/physical.rs:195-232 | an upstream subtask has one edge of a forward edge and one to each downstream subtask of any other, in order |
| PhysicalWiring.ForwardIsBalanced | crates/flume-runtime/src/physical.rs:195-203 | on a forward edge downstream fan-ins differ by at most one, and are all one when the parallelisms agree |
| Physical.TotalDemand | crates/flume-runtime/src/physical.rs:98-105 | the summed parallelism is the number of subtasks placed in topological order |
| Physical.ScheduleIsExclusive | crates/flume-runtime/src/physical.rs:111-124 | no subtask is placed twice; no two share a slot when no slot is offered twice, and a schedule that needs every slot shares one if and only if one is offered twice |
| Physical.ScheduleIsTotal | crates/flume-runtime/src/physical.rs:111-124 | a subtask is placed if and only if it is one of the graph's |
| Physical.ScheduleUsesFreeSlots | crates/flume-runtime/src/physical.rs:111-124 | every slot used lies in used..total of an offered TaskManager |
| Physical.ScheduleUsesPlacement | crates/flume-runtime/src/physical.rs:111-124 | the slots used are the placement that the Pack and Spread theorems are about |
| Windows.AssignSliding | crates/flume-core/src/window.rs:75-106 | the backward walk and reversal return exactly the aligned windows that contain the timestamp, ascending |
| Windows.SlidingIsExact | crates/flume-core/src/window.rs:76-105 | the same of the specification, for any slide, larger than the size included |
| Windows.TumblingIsSliding | crates/flume-core/src/window.rs:48-57 | a tumbling window is a sliding window whose slide is its size |
| WindowOperators.SlidingIsWellFormed | crates/flume-core/src/window.rs:75-106 | the assigners give distinct windows containing the timestamp, and a record belongs to exactly the aligned ones |
| KeyedWindows.StateIsGroups | crates/flume-core/src/operator/window.rs:84-151 | after an on-time stream an entry is present exactly while its group is non-empty and unreached, and holds the fold of exactly its records in arrival order |
| KeyedWindows.NoneAfterReached | crates/flume-core/src/record.rs:47-48 | on an on-time stream no record joins a window already reached |
| KeyedWindows.FiredIsBatch | crates/flume-core/src/operator/window.rs:107-151 | each key and window fires once if it has records and is reached, never otherwise, with the batch fold |
| KeyedWindows.FiresWhenReached | crates/flume-core/src/window.rs:140-146 | it fires at the first watermark that reaches its end |
| KeyedWindows.StateIsRecent | crates/flume-core/src/operator/window.rs:84-151 | on any stream, late records included, an entry is present exactly when its group got records since a watermark last reached its end, and holds the fold of those |
| KeyedWindows.PurgeIsComplete | crates/flume-core/src/operator/window.rs:142-147 | after any stream and a further watermark exactly the entries ending later that still have records remain |
| WindowOperators.CollectDue | crates/flume-core/src/operator/window.rs:112-127 | evaluating the trigger over the map collects each due entry once |
| WindowOperators.PurgeAll | crates/flume-core/src/operator/window.rs:142-147 | the purge loop removes exactly those entries and keeps the pool within its cap |
| WindowOperators.TakeBuffer | crates/flume-core/src/operator/window.rs:59-67 | the last pooled buffer is taken and cleared: stale bytes never reach a key |
| WindowOperators.FileRecord | crates/flume-core/src/operator/window.rs:92-102 | the record is folded into each of its windows, creating missing entries |
| WindowOperators.WindowOperator.ProcessRecord | crates/flume-core/src/operator/window.rs:84-105 | the accumulators make the model's step under the record's own key, whatever is in the key pool; `WindowBatches.AggregationIsBatch` says what that does to the value |
| WindowOperators.WindowOperator.ProcessWatermark | crates/flume-core/src/operator/window.rs:107-151 | each due entry is emitted once with its result, purged, and the watermark follows |
| WindowOperators.WindowJoinOperator.ProcessRecord | crates/flume-core/src/operator/join.rs:84-123 | the record is filed on its side in each of its windows |
| WindowOperators.WindowJoinOperator.ProcessWatermark | crates/flume-core/src/operator/join.rs:125-168 | each due entry emits its cross product and is purged, then the watermark follows |
| WindowOperators.WindowJoinOperator.EmitCross | crates/flume-core/src/operator/join.rs:146-158 | the nested loops emit the cross product in order |
| WindowOperators.FoldIsSides | crates/flume-core/src/operator/join.rs:84-123 | the accumulated sides are the group's lefts and rights in arrival order |
| WindowOperators.CrossAt | crates/flume-core/src/operator/join.rs:146-158 | the cross product holds each pair once, at its position, and nothing else |
| WindowOperators.WindowCogroupOperator.ProcessRecord | crates/flume-core/src/operator/join.rs:241-272 | the value is filed on its side in each of its windows |
| WindowOperators.WindowCogroupOperator.ProcessWatermark | crates/flume-core/src/operator/join.rs:274-314 | each due entry emits what the user function makes of its sides and is purged |
| WindowOperators.JoinMatchesCogroup | crates/flume-core/src/operator/join.rs:84-314 | on any stream join and cogroup keep matching states, so the same windows are due in both |
| WindowOutputs.EntriesAreFired | crates/flume-core/src/operator/window.rs:129-140 | over a stream, in whatever orders it fires, an operator goes through exactly the entries that `KeyedWindows.FiredIsBatch` counts, each as often |
| WindowOutputs.EmittedIsSum | crates/flume-core/src/operator/window.rs:107-151 | whatever the hash map's order, a watermark puts out the sum over the due windows |
| WindowOutputs.OutputIsBatch | crates/flume-core/src/operator/window.rs:84-151 | over an on-time stream the records put out are the batch results of exactly the windows with records that were reached, each once |
| WindowOutputs.OrdersDoNotMatter | crates/flume-core/src/operator/window.rs:112-140 | on any stream the iteration orders do not change the multiset put out |
| WindowOutputs.ControlsForwarded | crates/flume-core/src/operator/window.rs:107-159 | watermarks and barriers go through unchanged and in order, on any stream |
| WindowOutputs.FiresBeforeWatermark | crates/flume-core/src/operator/window.rs:129-150 | what a watermark fires comes out before it |
| WindowBatches.CompleteIsFinished | crates/flume-core/src/operator/window.rs:84-151 | the windows reported on are those with a record of the key that some watermark reached |
| WindowBatches.AggregationIsBatch | crates/flume-core/src/operator/window.rs:84-151 | aggregation puts out, per such key and window, one record and nothing else: the user's result of the user's `add` over the values in arrival order, at the window's last instant, under the key |
| WindowBatches.JoinIsBatch | crates/flume-core/src/operator/join.rs:84-168 | the join puts out, per such key and window, every left with every right, each with the later time and the key, so a pair once per window it shares |
| WindowBatches.CogroupIsBatch | crates/flume-core/src/operator/join.rs:241-314 | cogroup puts out, per such key and window, the user's values for the key and both sides in arrival order, at the window's last instant |
| WindowOutputs.JoinIsCrossCogroup | crates/flume-core/src/operator/join.rs:84-314 | over any stream and whatever the orders, the join's values are those of a cogroup with the cross-product function |
| MergedWindows.ReachedIff | crates/flume-runtime/src/merge.rs:221-228 | when each input's last watermark is its highest, the merged stream reaches, under every schedule, exactly what both inputs reach |
| MergedWindows.OutputOfMerge | crates/flume-api/src/connected.rs:149-170 | behind the merge the operator puts out, under every schedule, the results of exactly the windows that both inputs reach and either has records of, made from each input's own records in order |
| MergedWindows.JoinScheduleIndependent | crates/flume-api/src/join.rs:79-93 | window join: any two schedules and any iteration orders put out the same multiset |
| MergedWindows.CogroupScheduleIndependent | crates/flume-api/src/join.rs:97-111 | the same for a cogroup with any function of the two sides |
| SnapshotStore.Store.SaveState | crates/flume-runtime/src/checkpoint/store.rs:28-43 | a state lands in its checkpoint's file and nowhere else, also when the write breaks off; a successful save is what `load_state` returns, and no other load changes |
| SnapshotStore.Store.Commit | crates/flume-runtime/src/checkpoint/store.rs:46-52 | the marker commits the checkpoint, fails where no directory was made, and changes nothing that is loaded |
| SnapshotStore.SavedIsLoaded | crates/flume-runtime/src/checkpoint/store.rs:28-64 | a state saved is the state loaded, and a write that breaks off leaves what it wrote; saves elsewhere, commits and the cleanup of others change nothing that is loaded |
| SnapshotStore.Store.LatestCheckpoint | crates/flume-runtime/src/checkpoint/store.rs:67-87 | the largest committed id, in whatever order the directory is listed |
| SnapshotStore.Store.ListCommitted | crates/flume-runtime/src/checkpoint/store.rs:91-109 | every committed id once, uncommitted ones not |
| SnapshotStore.Store.Cleanup | crates/flume-runtime/src/checkpoint/store.rs:90-118 | exactly the committed checkpoints with enough newer ones go, but for what a failing removal leaves of them; what is loaded of the others stays |
| SnapshotStore.CleanupKeepsNewest | crates/flume-runtime/src/checkpoint/store.rs:110-116 | the kept ones are `keep` in number, or all when fewer, and uncommitted directories stay |
| SnapshotStore.RemovedAreOlder | crates/flume-runtime/src/checkpoint/store.rs:110-116 | every removed checkpoint is older than every kept one |
| SnapshotStore.FailedRemovalsStayRedundant | crates/flume-runtime/src/checkpoint/store.rs:110-116 | whatever fails, the newest `keep` stay as they are and nothing else comes to count among them |
| SnapshotStore.RemnantExample | crates/flume-runtime/src/checkpoint/store.rs:114-114 | a removal that breaks off leaves a checkpoint marked complete without its states |
| Coordinator.CheckpointCoordinator.TriggerAndCollect | crates/flume-runtime/src/checkpoint/coordinator.rs:102-159 | the ack loop over a set of names and the store is the model's attempt |
| Coordinator.CheckpointCoordinator.Run | crates/flume-runtime/src/checkpoint/coordinator.rs:59-99 | the loop over ticks, cancellation and outcomes is the model's run |
| Coordinator.TryStores | crates/flume-runtime/src/checkpoint/coordinator.rs:102-159 | an attempt touches no other checkpoint and commits if and only if it succeeds |
| Coordinator.CommitHoldsLastStates | crates/flume-runtime/src/checkpoint/coordinator.rs:127-143 | a committed checkpoint holds for each operator the state of its last ack for that id; stale acks leave no trace |
| Coordinator.CompleteIff | crates/flume-runtime/src/checkpoint/coordinator.rs:121-139 | every expected operator's state is there if and only if all counted acks came from expected operators |
| Coordinator.StrangerExample | crates/flume-runtime/src/checkpoint/coordinator.rs:121-139 | a stranger's ack commits a checkpoint without the expected state |
| Coordinator.EmptyPipelineNeverCommits | crates/flume-runtime/src/checkpoint/coordinator.rs:121-159 | without expected operators the commit fails for want of a directory |
| Coordinator.CommittedIsComplete | crates/flume-runtime/src/checkpoint/coordinator.rs:59-159 | over any run with acks from expected operators only, every retained checkpoint holds a state for each and for nobody else, whatever removals fail |
| Coordinator.CleanedIsCompleteIff | crates/flume-runtime/src/checkpoint/store.rs:110-116 | a cleanup leaves every committed checkpoint with all states if and only if no removal takes a state and leaves the marker |
| Coordinator.AlwaysCompleteIff | crates/flume-runtime/src/checkpoint/coordinator.rs:59-159 | over any run with acks from expected operators only, every committed checkpoint, retained or not, holds exactly the expected states at every moment if and only if every turn's cleanup is like that |
| Coordinator.LatestIsComplete | crates/flume-runtime/src/checkpoint/coordinator.rs:59-159 | retaining at least one, whatever removals break off, every expected operator's state can be loaded from the latest checkpoint |
| Coordinator.LatestRemnantExample | crates/flume-runtime/src/checkpoint/coordinator.rs:86-86 | retaining none, a removal that breaks off leaves a latest checkpoint without any state |
| Coordinator.EveryCommittedIsComplete | crates/flume-runtime/src/checkpoint/coordinator.rs:59-159 | where every removal that breaks off leaves all files or takes the marker, so does every committed checkpoint |
| Coordinator.CommittedOrigin | crates/flume-runtime/src/checkpoint/coordinator.rs:59-159 | over any run what is loaded of a retained checkpoint is the last ack seen by the one turn that ran under its id |
| Coordinator.CommittedIsStable | crates/flume-runtime/src/checkpoint/coordinator.rs:59-159 | no later turn, timeout or stale ack alters a committed checkpoint while it is retained |
| Coordinator.LatestNeverDecreases | crates/flume-runtime/src/checkpoint/coordinator.rs:59-99 | retaining at least one, the latest committed id never decreases at any point of a run |
| Coordinator.RetainingNoneForgets | crates/flume-runtime/src/checkpoint/coordinator.rs:86-86 | retaining none, success removes every committed checkpoint |
| Coordinator.RetainingNoneExample | crates/flume-runtime/src/checkpoint/coordinator.rs:86-86 | one operator, one ack, and nothing is left to restore from |
| CoordinatorRuns.AttemptOutcome | crates/flume-runtime/src/checkpoint/coordinator.rs:102-159 | an attempt succeeds if and only if the barriers go out, every expected ack arrives and is saved before anything goes wrong, acks of other checkpoints ignored, and the marker can be written; it reports a shutdown if and only if the senders are gone or the channel of acks closes first |
| CoordinatorRuns.RunsOnIff | crates/flume-runtime/src/checkpoint/coordinator.rs:59-99 | the coordinator goes on until a cancellation or a shutdown and for nothing else, and ids count the turns |
| CoordinatorRuns.CommitsIff | crates/flume-runtime/src/checkpoint/coordinator.rs:59-159 | retaining at least one, a turn leaves its checkpoint committed, as the latest, if and only if it was reached and its attempt succeeds |
| CoordinatorRuns.CommittedAre | crates/flume-runtime/src/checkpoint/coordinator.rs:59-99 | over any run in which removals work, the committed checkpoints are exactly the newest retained ones of all those the ticks made, and the one of the cancellation |
| Network.LengthRoundTrip | crates/flume-network/src/network_collector.rs:97-98 | the little-endian length prefix is read back as written |
| Network.FrameArrivesIff | crates/flume-network/src/network_collector.rs:93-101 | a framed element is decoded as itself if and only if its length fits 32 bits, for serializers whose own form is the shortest |
| Network.DecodeAppend | crates/flume-network/src/network_input.rs:50-75 | decoding a batch is decoding its frames one after the other |
| Network.DecodePayload | crates/flume-network/src/network_input.rs:50-75 | the offset loop decodes the payload, stopping at a frame that does not fit and skipping what does not deserialize |
| Network.NetworkInput.Recv | crates/flume-network/src/network_input.rs:32-77 | a call makes read turns of the system, takes exactly the head of the elements ahead, and reports none only when there is none |
| Network.NetworkCollector.GrantCredits | crates/flume-network/src/network_collector.rs:51-53 | credits add up, saturating at 32 bits |
| Network.NetworkCollector.FlushBuffer | crates/flume-network/src/network_collector.rs:61-91 | an empty buffer is a no-op, no credit keeps the buffer, otherwise buffer and one credit are spent on one batch |
| Network.NetworkCollector.SerializeElement | crates/flume-network/src/network_collector.rs:93-101 | the element's frame is appended to the buffer |
| Network.NetworkCollector.Collect | crates/flume-network/src/network_collector.rs:105-114 | the record is buffered and a full buffer flushed |
| Network.NetworkCollector.SendWatermark | crates/flume-network/src/network_collector.rs:116-140 | data is flushed first, then the unframed watermark takes a credit of its own |
| Network.NetworkCollector.SendBarrier | crates/flume-network/src/network_collector.rs:142-158 | data is flushed first, then the barrier goes out without credit |
| NetworkRuns.StreamIsSurvived | crates/flume-network/src/network_collector.rs:61-158 | over any interleaving of calls, grants, reads and refusals: delivered, read ahead, on the wire and buffered are together what the calls carried, in order, less what refused flushes cut off |
| NetworkRuns.StreamIsCarriedIff | crates/flume-network/src/network_collector.rs:61-158 | that is all the calls carried if and only if the channel never refused the flush of a non-empty buffer |
| NetworkRuns.RoundTrip | crates/flume-network/src/network_collector.rs:105-158 | with all calls successful and no watermark, that is exactly what was sent, barrier timestamps normalised to 0 |
| NetworkRuns.IntactIffNoWatermarks | crates/flume-network/src/network_collector.rs:116-140 | with all calls successful the stream arrives intact if and only if no watermark was sent, for serializers whose own form is the shortest |
| NetworkRuns.WatermarkExample | crates/flume-network/src/network_collector.rs:116-140 | one watermark with credit and room is reported as sent and never arrives |
| NetworkRuns.RefusalLosesTheBuffer | crates/flume-network/src/network_collector.rs:70-90 | a refused flush, whichever call made it, loses exactly the buffered records and one credit |
| NetworkRuns.RefusalExample | crates/flume-network/src/network_collector.rs:88-90 | one credit, one record, a full channel: the record and the credit are gone |
| NetworkRuns.CreditsAreConserved | crates/flume-network/src/network_collector.rs:51-91 | data batches never outrun granted credits; without refusal or saturation batches sent and credits left are the credits granted |
| NetworkRuns.BatchesAreCounted | crates/flume-network/src/network_collector.rs:105-114 | while calls succeed each batch declares the records it holds and none exceeds the batch size |
| NetworkWire.FrameLayout | crates/flume-network/src/network_collector.rs:93-101 | a frame is the length in four bytes, least significant first, and the serialized element |
| NetworkWire.AllWellAddressed | crates/flume-network/src/network_collector.rs:61-158 | over any run every batch on the wire carries the collector's channel, a barrier no data and a data batch no checkpoint |
| NetworkWire.SendsWhenFull | crates/flume-network/src/network_collector.rs:105-114 | a record sends a batch if and only if it fills the buffer, a credit is left and there is room: all buffered frames, its own last, for one credit |
| NetworkWire.ControlsFollowData | crates/flume-network/src/network_collector.rs:116-158 | a watermark or barrier that goes out follows everything buffered, in a batch of its own |

## Left out

- Merge and operators: the early return with `ChannelClosed` when the receiver of the output is gone.
- Merge: inputs are finite sequences that end by closing; a merge that never ends is covered by its prefixes only.
- Interval join: bounds must satisfy lower <= upper, as the map's range query panics otherwise; durations beyond 64-bit milliseconds are truncated before they reach the operator.
- Windows.AssignSliding: requires the end of the latest window, the source's one unchecked addition, to fit 64 bits, and a non-zero slide, as the source divides by it.
- Windows.SlidingIsExact: the same two bounds.
- Windows.TumblingIsSliding: the same two bounds, with the size as slide.
- WindowOperators.SlidingIsWellFormed: for a timestamp whose latest window end does not fit, where the source overflows, the modelled assigner gives no window.
- Window operators: user-supplied triggers, the trigger's per-element callback (the default one never fires there), and aggregates or join functions with side effects; they are pure functions here.
- Window operators: the strict watermark promise of their outputs, which does not hold: results carry the window's last instant, which may equal or lie below a watermark already forwarded.
- Aligner: fairness of polling and the yield between passes.
- Ring buffer: whether a parked consumer is woken (the notification compares with a stale cache), wrap-around of the 64-bit sequence numbers, and memory orderings weaker than acquire and release; each load, store and slot access is one atomic step.
- Dag.LogicalGraph.TopologicalOrder: requires the ends of edges to be existing nodes, as the source indexes its tables with them.
- Physical.Schedule: requires offers with used <= total, as the source subtracts, and downstream subtasks for every forward edge out of a non-empty operator, as the source divides by their number.
- Coordinator: ids are unbounded and start at 1 over an empty store; a store that already holds checkpoints is not modelled.
- MergedWindows.JoinScheduleIndependent: requires each input's last watermark to be its highest; one that goes back for good may or may not be outrun by the other input's, depending on the schedule.
- MergedWindows.CogroupScheduleIndependent: the same.
- Checkpoint store: directory entries that are not checkpoints and errors of the directory listing are not modelled.
- Network: the gRPC connection between the two ends is an ordered channel that may refuse a batch; serialization errors of the sender and the 32-bit overflow of the record count after four billion failed flushes are not modelled.
- Network.FrameArrivesIff: assumes that nothing shorter than an element's serialized form deserializes to it, which the serialization library does not document.
- NetworkRuns.IntactIffNoWatermarks: the same assumption; all other network results need only that what was serialized deserializes to itself.
- NetworkRuns.RoundTrip: excludes watermarks, which do not survive; `NetworkRuns.IntactIffNoWatermarks` says so exactly.
- Exchange router, credit progress end to end, task managers, resource manager, job status, timers, partitioners, map, filter and flat-map operators: easy or outside the protocols above.
- Kafka, TCP, file and HTTP connectors, metrics, configuration, command line and deployment: input and output only.
