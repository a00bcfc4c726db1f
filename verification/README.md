# Verified model of the SuperTensor ring

The server batches inference requests through a lock-free ring of batch buffers.
Producers reserve slots by moving `head`, copy their rows into the shared buffers and
publish them. Executors claim whole batches by moving `executor_head`, close a batch that
is not full by pushing `head` to its end, wait until every reserved slot is published, run
the model, hand out the results and reset the batch. Afterwards they move `tail` over the
batches that are finished. Each batch id is used for lap after lap.

This project models that protocol, the sequential code around it (word arithmetic, copying,
splitting, warmup, the tail loop), the placement of threads on CPUs and the checks a request
passes before it reaches the ring, and proves what the code relies on.

`dafny verify dfyconfig.toml` checks everything.

## Reading order

| files | contents |
|---|---|
| `InferTypes`, `Multiples`, `Ranges`, `Lists` | shared types and small facts |
| `RingGeometry` | which tracker and which lap an absolute index belongs to |
| `RingModel`, `RingSteps` | the shared state, the program counters and the atomic steps |
| `RingEffects` | what each step changes and what it leaves alone |
| `RingInvariant`, `RingFrames`, `RingProducerProofs`, `RingExecutorProofs`, `RingRuns` | the inductive invariant and its proof, step by step |
| `RingTheorems` | what holds in every state of every run, and what can panic and who must wait, exactly |
| `RingSessions` | runs with their actions: what sessions returned is what requests are answered |
| `RingProgress` | how many of its own steps a thread takes to insert, to fill an output and to collect |
| `RingMarks` | exactly when a lap's marks are set, and that every run is counted |
| `RingWakeups` | no executor waits for a notify that was sent to its lap |
| `RingTimely` | what holds in addition when no notify is late |
| `RingLateNotify` | two runs with a late notify: one panics, one runs an empty batch |
| `RingAdmission`, `RingOverruns` | when the capacity check is enough, exactly, from every warmed-up start |
| `RingLostTail`, `RingLostRuns` | how a batch gets lost to the tail loop for good, exactly, and two runs that lose one |
| `Words64`, `RingIndex`, `RingWords` | 64-bit counters, masks and steps refine the unbounded ones |
| `SuperTensor` | the ring's sequential routines as a class over machine words |
| `TensorBytes` | slicing and copying raw tensors, in place |
| `Topology`, `SmtGroups` | CPU groups and the pairs planned from them |
| `ModelInfer`, `ShapeOverrides` | request validation, input order, shape overrides |

## The protocol

`RingSteps` has one step for each load, store, CAS, cell that is set, row that is copied and
output that is read. Any producer or executor may take the next step, and a run is any
interleaving of them. A failed `assert!`, `panic!` or OnceCell `expect` of the program sets
`panicked`. Where the program would panic on an index or a slice (the three "ring index is
masked into [0, capacity)" expects and the bounds of the copy), the step is not enabled instead;
`ProducerStopsExactly` and `ExecutorStopsExactly` prove that this never happens, because a thread
without a next step is finished or waits for an output, a permit, a slot or a session.

| steps | source |
|---|---|
| `LoadHead`, `LoadTail`, `Reserve` | src/tensor/supertensor.rs:437-454 |
| `Copy`, then `AfterPiece` for the next batch | src/tensor/supertensor.rs:460-494, 514-524 |
| `MarkDirty`, `SetDeadline`, `SetQueueStart` | src/tensor/supertensor.rs:525-544 |
| `Capture`, `Publish`, `Notify` | src/tensor/supertensor.rs:169-184, 551-555 |
| `Collect` | src/tensor/supertensor.rs:137-156, 186-210 |
| `LoadExecutorHead`, `LoadTailForClaim`, `Claim` | src/tensor/supertensor.rs:564-583 |
| `BorrowNotifier`, `AwaitNotify` | src/tensor/supertensor.rs:589-610 |
| `SealLoad`, `SealCas`, `Spin` | src/tensor/supertensor.rs:782-835 |
| `SetExecStart`, `LoadItems`, `ReadRows`, `SetExecEnd`, `SetOutput` | src/tensor/supertensor.rs:651-656, 700-724 |
| `ResetState`, `ResetWritten`, `ResetDirty` | src/tensor/supertensor.rs:726-730 |
| `TailLoad`, `TailHead`, `TailDirty`, `TailDirtyCas`, `TailCas` | src/tensor/supertensor.rs:731-764 |

A lap is one use of one batch id, named by the absolute index of its slot 0. Some fields of
the state are history: owners of slots, published slots, stages of laps, ledgers of claims,
runs and resets. No guard reads them.

### What the code takes for granted

Atomics are sequentially consistent, a weak CAS may fail at any time, and no CAS straddles a
full cycle of 2^64. A request has at least one row, all its inputs have the same first
dimension, each raw buffer has exactly that many rows, and every element type can be copied.
The model is a function of one batch row, or the session fails. The ring has at least two
batches, and warmups are over before requests arrive. A panic on a session thread aborts the
process (src/model_runtime/session_thread.rs:26-30), so it ends the run.

Runs are restricted in one more way, by `GrantFits`: a reservation fits between `head` and
one ring past `tail`. The code tests only whether the ring is full before the reservation, and
a grant that does not fit breaks the invariant (`GrantExactly`). `RingOverruns.CheckSufficesExactly` proves for
which request sizes that test is enough.

Publishing a piece and notifying its executor are two steps, and the second reaches whatever
BatchState the tracker holds by then. Runs may contain such late notifies. They wake an
executor too early; `SealPanicsExactly` proves that the only thing that can panic in any run
is then the assertion in its seal, and that it does so exactly when `head` is still before
the lap. A panic changes nothing else, and every other theorem holds through it. If every
notify comes in time (`NotifyInTime`, in `RingTimely`), nothing panics and no batch is empty.

### Findings

- The capacity check is enough only for requests of one size that divides the batch size
  (`CheckSufficesExactly`); any other set of sizes can overrun the ring, however many warmups
  came before.
- A late notify can panic an executor (`LateNotifyPanics`), or, when `head` is exactly at the
  lap, let it seal and run a batch without any request (`LateNotifyRunsEmptyBatch`).
- When the tail loop takes a batch's mark and then fails to move `tail`, no executor can ever
  pass that batch again, and the ring fills up for good (`LostForever`). It happens in exactly
  two ways (`LostExactly`): a spurious failure of the weak CAS on `tail`, or an executor with a
  stale `tail` that takes the mark of a later lap. A run for each is given
  (`SpuriousFailureLoses`, `StaleTailLoses`).
- A ring with a single batch rejects every request after warmup (`WarmRingIsFullExactly`).
- A response slice holds a request's own rows only for outputs with one element per row
  (`OutputSliceIsRowsExactly`).
- Request validation accepts repeated and missing inputs (`RepeatedInputPasses`,
  `MissingInputPasses`); the order is then wrong (`OrderIsRightExactly`).
- A comment beside the overrides says that an override has the model's rank
  (src/model_runtime/manager.rs:199). The code does not check it; with another rank, requests are
  checked against other dimensions than the ring's (`RowDimsAgreeExactly`), and rows of another
  size pass (`OtherRankMisleads`).
- The comment on `plan_pairs` says that a chunk gives two pairs. The code gives as many as the
  smaller of the two groups has vCPUs, and the model follows the code.

## Model

| member | source | states |
|---|---|---|
| RingGeometry.LapBelongsToTracker | src/tensor/supertensor.rs:236-256 | Every index of the laps b·B, b·B + ring, b·B + 2·ring, ... falls on batch id b, and its slot 0 is the base of its lap |
| RingRuns.InitInv | src/tensor/supertensor.rs:390-430 | A ring entering service, new or warmed up, satisfies the whole invariant |
| RingRuns.StepKeeps | src/tensor/supertensor.rs:432-764 | Every atomic step of any producer or executor keeps the invariant, failed weak CASes, stale reads and late notifies included; a panic changes only the panic flag |
| RingRuns.RunKeeps | src/tensor/supertensor.rs:432-764 | The invariant holds in every state of every run, however the threads interleave |
| RingTheorems.SealPanicsExactly | src/tensor/supertensor.rs:788-794 | From every state that a run reaches, a step panics if and only if it is a seal that finds head before its lap; no once-cell expect and no "written_slots is higher" panic can fire, and with the next two rows no index expect either |
| RingTheorems.ProducerStopsExactly | src/tensor/supertensor.rs:512-551 | In every state of every run a request has a next step, whose ring indices and slices are in bounds, if and only if it is neither answered nor rejected and does not wait for an unfilled output |
| RingTheorems.ExecutorStopsExactly | src/tensor/supertensor.rs:585-835 | In every state of every run an executor has a next step, whose ring indices are in bounds, if and only if it does not wait for its permit, for slots of its lap to be published, or for its session |
| RingTheorems.PanicEndsRun | src/tensor/supertensor.rs:788-794 | A run panics only in its last step, in a seal that finds head before its lap, and nothing else changes |
| RingTimely.NeverPanics | src/tensor/supertensor.rs:525-835 | If no notify is late, no assertion, panic or once-cell expect fires in any run; the index expects are covered by the two rows above |
| RingWakeups.NoLostWakeup | src/tensor/supertensor.rs:551-610 | In every run, once the producer of the first or last slot of a claimed lap is past its notify, the executor of that lap finds its permit, however late it began to wait |
| RingTheorems.RingBounds | src/tensor/supertensor.rs:441-454 | tail and executor_head stay aligned; tail ≤ head ≤ tail + ring and tail ≤ executor_head ≤ tail + ring, seals included |
| RingTheorems.EndToEnd | src/tensor/supertensor.rs:137-210 | An answer given in any later state holds, per output, the model's element of each row the request had in any earlier state, on arrival for one, in request order, over all batches it was split over; otherwise it is the error of its first failing batch |
| RingSessions.RunIsTrace | src/tensor/supertensor.rs:432-764 | Every run is a sequence of actions: the statements about actions below cover all runs |
| RingSessions.OutputsAreSessionResults | src/tensor/supertensor.rs:709-721 | In every state of every run, whatever an output cell holds is what the session of the cell's own lap returned earlier in the run |
| RingSessions.OneReturnPerLap | src/tensor/supertensor.rs:700-724 | The session of a lap returns at most once |
| RingSessions.ResultsAreStored | src/tensor/supertensor.rs:709-721 | What a lap's session returned is what the lap's cell holds whenever it holds anything |
| RingSessions.AnswersAreSessionResults | src/tensor/supertensor.rs:137-210 | A successful answer needs a successful session for every batch of the request; an error is the one returned by the session of its first failing batch |
| RingSessions.NoFailureNoError | src/tensor/supertensor.rs:137-210 | In a run in which no session fails, no request is answered with an error |
| RingSessions.RequestsAreServed | src/tensor/supertensor.rs:432-504 | A request keeps the rows of the action in which it arrived, and an answer in any later state is the answer to those rows |
| RingSessions.EveryRequestArrived | src/tensor/supertensor.rs:432-504 | Every request of a run arrived in one action of the run |
| RingSessions.SessionMayReturn | src/tensor/supertensor.rs:700-709 | A session may return any error, or exactly the model's outputs for the batch's rows |
| RingProgress.InsertsWithin | src/tensor/supertensor.rs:460-494 | In any run a request in the middle of its insertion has all rows published after a stated number of its own steps, whatever other threads do |
| RingProgress.FillsWithin | src/tensor/supertensor.rs:651-724 | In any run an executor that has sealed its lap fills the lap's output after at most batch size + 6 of its own steps |
| RingProgress.AnswersWithin | src/tensor/supertensor.rs:137-156 | In any run a request whose results are all there is answered after at most one step for each result not yet collected and one more; successfully if and only if all the results are |
| RingProgress.AnswersAlone | src/tensor/supertensor.rs:137-156 | From every such state of a run these steps can be taken, and they end in an answer |
| RingMarks.MarksExactly | src/tensor/supertensor.rs:525-544 | In every state of every run a lap's deadline and queue_start are set exactly from when its slot 0's producer has set them until the BatchState is replaced, and dirty is 1 exactly from when that producer has written it until the batch is reset |
| RingMarks.RunsAreCounted | src/tensor/supertensor.rs:656 | Every lap that has been run has its batch_items recorded, and they are its reserved slots |
| RingTheorems.RunningExcludesWriters | src/tensor/supertensor.rs:700-709 | While a session runs on a batch's buffers no producer is writing to them |
| RingTheorems.WritersAreDisjoint | src/tensor/supertensor.rs:514-524 | Two producers that are writing never share a slot of a buffer |
| RingTheorems.NoRewriteBeforeTail | src/tensor/supertensor.rs:441-454 | A producer writes only into its tracker's current lap, and tail has passed the lap that used the slots before |
| RingTheorems.ReservationMatchesLap | src/tensor/supertensor.rs:168-184 | The output cell that a reservation captured is the one an executor is about to fill if and only if that executor holds the reservation's own lap |
| RingTheorems.SameLapSameCell | src/tensor/supertensor.rs:168-184 | Two reservations hold the same cell if and only if they are of the same lap |
| RingTheorems.ResetAfterPublish | src/tensor/supertensor.rs:726-730 | A BatchState is replaced only when every slot reserved in its lap is published |
| RingTheorems.SealConservation | src/tensor/supertensor.rs:817-834 | While an executor spins, written_slots counts the published slots of the lap, the expected count is the number of slots producers reserved in it, the first never exceeds the second, and when they meet all reserved slots are published |
| RingTheorems.SealClosesReserved | src/tensor/supertensor.rs:796-813 | A seal closes its lap over exactly the slots reserved up to head, none when head is at the lap's first slot |
| RingTheorems.BatchItems | src/tensor/supertensor.rs:656 | The batch_items read for a lap equals the number of slots producers reserved in it, for ever |
| RingTimely.BatchItemsNotZero | src/tensor/supertensor.rs:656 | If no notify is late, batch_items is never zero |
| RingTheorems.PassedLapsAreDone | src/tensor/supertensor.rs:731-764 | Every lap behind tail was claimed, run and reset exactly once, in whatever order executors finished |
| RingTheorems.OncePerLap | src/tensor/supertensor.rs:651-661 | No lap is claimed, run or reset twice; it is run only if claimed and reset only if run |
| RingTheorems.OneExecutorPerLap | src/tensor/supertensor.rs:564-583 | Two executors never hold the same lap or the same batch |
| RingTheorems.TailMovesByOneResetBatch | src/tensor/supertensor.rs:745-760 | A step leaves tail alone or moves it over one batch, whose lap has been reset |
| RingAdmission.UniformRequestsFit | src/tensor/supertensor.rs:441-454 | If all requests have n rows and n divides the batch size, every run of the unguarded check is a safe run and n divides head throughout |
| RingOverruns.RoomChanges | src/tensor/supertensor.rs:731-764 | If a size does not divide the batch size but divides what is left of the ring when it enters service, some run of such requests reaches a state in which it does not divide what is left, since tail or a seal has moved |
| RingOverruns.SomeRunOverruns | src/tensor/supertensor.rs:441-454 | From every start that warmups leave: if some request size does not divide the batch size, some run of such requests ends with head more than one ring past tail |
| RingOverruns.TwoSizesOverrun | src/tensor/supertensor.rs:441-454 | From every such start two different request sizes overrun the ring in some run even if both divide the batch size |
| RingOverruns.CheckSufficesExactly | src/tensor/supertensor.rs:442-443 | From every such start, for requests whose sizes come from a given set, the check keeps head within one ring of tail in all runs if and only if there is at most one size and it divides the batch size |
| RingLateNotify.LateNotifyPanics | src/tensor/supertensor.rs:788-794 | There is a run, with all requests fitting, in which a delayed notify ends in the seal's assertion |
| RingLateNotify.LateNotifyRunsEmptyBatch | src/tensor/supertensor.rs:796-813 | There is a run in which a delayed notify makes an executor seal and run a batch without any request, with batch_items 0 |
| RingLostTail.LostForever | src/tensor/supertensor.rs:745-763 | Once a finished batch has lost its mark and nobody is about to pass it, tail never passes it and head never gets further than one ring beyond it |
| RingLostTail.RunHasOnePasser | src/tensor/supertensor.rs:747-757 | At most one executor at a time is about to move tail from where it is |
| RingLostTail.FailedTailCasLoses | src/tensor/supertensor.rs:751-757 | A weak CAS on tail that fails although tail is as expected loses the batch behind tail |
| RingLostTail.StaleDirtyCasLoses | src/tensor/supertensor.rs:745-757 | An executor with a stale tail that takes the mark of the tracker's later lap loses that lap |
| RingLostTail.LosesExactly | src/tensor/supertensor.rs:745-757 | A step of any thread loses a batch if and only if it is one of those two CASes |
| RingLostTail.LostExactly | src/tensor/supertensor.rs:731-764 | In a run a batch is lost if and only if one of those two CASes was a step of the run |
| RingLostRuns.SpuriousFailureLoses | src/tensor/supertensor.rs:751-757 | There is a run that loses a batch by one spurious failure of the weak CAS on tail |
| RingLostRuns.StaleTailLoses | src/tensor/supertensor.rs:745-757 | There is a run without spurious failures that loses a batch's second lap to an executor with a stale tail |
| Words64.MaskIsRemainder | src/tensor/supertensor.rs:302-321 | Masking with 2^k − 1 is the remainder by 2^k |
| Words64.IsPowerOfTwoExactly | src/tensor/supertensor.rs:213-215 | The bit test accepts exactly the powers of two |
| Words64.SameWord | src/tensor/supertensor.rs:286-289 | Counters less than a full cycle apart are equal if and only if their words are |
| RingIndex.MachineExactly | src/tensor/supertensor.rs:342-347 | A ring below half the word range is accepted if and only if capacity and batch size are powers of two |
| RingIndex.IndexRefines | src/tensor/supertensor.rs:236-256 | The masked 64-bit batch id, slot id, lower and higher bound are the division and remainder forms on the unbounded counter |
| RingIndex.FullCheckAgrees | src/tensor/supertensor.rs:443 | The wrapped capacity test rejects exactly the indices outside one ring from tail; a stale index behind tail reads as full |
| RingIndex.SealRefines | src/tensor/supertensor.rs:788-801 | In every run the seal's two HALF_RANGE tests answer whether head has reached the lap and whether it is still inside it, and the distance is exact |
| RingIndex.TailTestRefines | src/tensor/supertensor.rs:736-743 | In every run the tail loop's wrapped test answers whether the batch at a held tail ends behind head, exactly as long as head is at most half a cycle past that batch |
| RingWords.ExecutorsRefine | src/tensor/supertensor.rs:559-764 | In every run in which no held index is a full cycle old, each executor step on 64-bit words is the wrapped image of the protocol's step: same branch, counters, next step and panic; steps off the counters never panic |
| RingWords.ProducersRefine | src/tensor/supertensor.rs:432-557 | The same for producers: loads, capacity test, reservation and split, and with the slot read from the word, the buffer slot each row is written to, the slots of each reservation, the marks and the notifies |
| SuperTensor.SuperTensorBuffer.constructor | src/tensor/supertensor.rs:335-430 | A new ring has all counters at zero, no marks, no written slots, and no cell of any BatchState set |
| SuperTensor.SuperTensorBuffer.MoveTail | src/tensor/supertensor.rs:731-764 | Undisturbed, the loop ends with tail at the first batch that is not in state 2 or does not end behind head; exactly the batches passed lose their mark |
| SuperTensor.SuperTensorBuffer.ResetBatch | src/tensor/supertensor.rs:726-730 | The tracker gets a BatchState with no deadline, no queue, start or end time and no output set, no written slots and state 2; no other tracker changes |
| SuperTensor.SuperTensorBuffer.Warmup | src/tensor/supertensor.rs:666-685 | A warmup moves head and executor_head over one batch and leaves only tail's batch in state 2, one batch behind |
| SuperTensor.SuperTensorBuffer.WarmupAll | src/model_runtime/manager.rs:386-408 | After three warmups for each session head is at 3 · sessions batches and the ring is warm |
| SuperTensor.SuperTensorBuffer.SealCurrentBatch | src/tensor/supertensor.rs:782-835 | Undisturbed, a seal fails exactly when head is before the batch, otherwise pushes head to the batch end, and finishes exactly when the written slots are those reserved before |
| SuperTensor.SuperTensorBuffer.SplitRequest | src/tensor/supertensor.rs:460-494 | The writes cover the request's rows in order, each inside one batch at its slot, all but the last to the batch end; there is one for each batch touched |
| SuperTensor.SuperTensorBuffer.Infer | src/tensor/supertensor.rs:432-504 | A request is rejected exactly when the ring is full; otherwise head moves over its rows, split as above |
| SuperTensor.WarmStop | src/tensor/supertensor.rs:683-684 | The tail loop of a warmup stops at that warmup's own batch |
| SuperTensor.WarmRingIsInitial | src/model_runtime/manager.rs:386-408 | A ring with the marks and generations that warmups leave is an initial state of the protocol if and only if no slot is written and no cell of any BatchState is set |
| SuperTensor.SuperTensorBuffer.EntersService | src/model_runtime/manager.rs:386-408 | A warm ring object of at least two batches is an initial state of the protocol, so its invariant holds from then on |
| SuperTensor.WarmRingIsFullExactly | src/tensor/supertensor.rs:443-445 | After warmup the capacity check rejects everything if and only if the ring has a single batch |
| SuperTensor.WritesCount | src/tensor/supertensor.rs:460-494 | A split takes as many writes as the batches it touches: the offset in the first batch plus the rows, divided by the batch size, rounded up |
| SuperTensor.RowInOneWrite | src/tensor/supertensor.rs:460-494 | Every row of a request is in exactly one write |
| SuperTensor.WriteIsPiece | src/tensor/supertensor.rs:460-494 | Each write of the 64-bit loop is the piece that the protocol's step takes there |
| TensorBytes.ElementTypes | src/tensor/batched_tensor.rs:307-382 | The sizes of all element types; the copy takes the ten numeric types, the output reader takes Bool too |
| TensorBytes.SliceExactly | src/tensor/batched_tensor.rs:10-24 | For any buffer, with n bytes to an index of dimension 0, rounded down: bytes [start·n, end·n) if start < end and they are there, otherwise a panic |
| TensorBytes.SliceIsRows | src/tensor/batched_tensor.rs:10-24 | Slicing a raw buffer of whole rows along its first dimension cuts exactly between rows |
| TensorBytes.BatchableTensor.constructor | src/tensor/batched_tensor.rs:285-305 | The batch tensor has room for exactly the batch's rows |
| TensorBytes.BatchableTensor.CopyAtFromBytes | src/tensor/batched_tensor.rs:307-382 | The bytes land at the slot's offset and no other byte changes; unsupported types and ranges that do not fit change nothing |
| TensorBytes.RowsReplaced | src/tensor/batched_tensor.rs:39-50 | Overwriting the bytes of whole rows replaces those rows and leaves every other row |
| TensorBytes.InsertOne | src/tensor/supertensor.rs:517-522 | The outcome for any raw buffer is that of slicing and copying it, and without a copy no byte changes; for a buffer of fitting rows exactly the types that can be copied are, rows [start, end) end up in the slots from the write's slot on, and every other slot keeps its bytes |
| TensorBytes.InsertTensors | src/tensor/supertensor.rs:514-524 | The same for every input up to the first that cannot be copied, is missing or does not fit; the inputs after it are untouched, and with fitting inputs only the type can stop it |
| TensorBytes.CopiedRows | src/tensor/supertensor.rs:514-524 | Over all inputs together: slot by slot, the batch holds the request's rows where they were written and its old rows elsewhere |
| TensorBytes.OutputSliceExactly | src/tensor/batched_tensor.rs:141-157 | Elements [start, end) are given exactly if they are in the output, and are those bytes |
| TensorBytes.OutputSliceIsRowsExactly | src/tensor/batched_tensor.rs:141-157 | A reservation's slice of an output is its own batch rows if and only if the output has one element per row |
| Topology.FilterUsable | src/topology.rs:123-127 | Exactly the groups all of whose vCPUs are allowed |
| Topology.UsableAreAllowed | src/topology.rs:123-127 | The usable groups are the given ones at ascending positions, and a position is among them if and only if all vCPUs of its group are allowed |
| Topology.NodeGroups | src/topology.rs:128-131 | A node's groups are the given ones at ascending positions, and a position is among them if and only if its group is of that node |
| Topology.GroupByNode | src/topology.rs:128-131 | Each NUMA node's groups, in order |
| Topology.AddChunk | src/topology.rs:147-157 | The pairs of one chunk, cut off at the number wanted |
| Topology.AddNode | src/topology.rs:134-158 | The pairs of a node's adjacent groups, cut off at the number wanted |
| Topology.PlanPairs | src/topology.rs:118-167 | Succeeds exactly when the full plan has enough pairs, with its first `wanted` ones (so smaller plans are prefixes of larger ones); otherwise reports how many there were |
| Topology.FullPlanSize | src/topology.rs:132-159 | The full plan has, over NUMA nodes and adjacent usable groups, the sum of the smaller group sizes |
| Topology.FullPlanExactly | src/topology.rs:132-159 | A pair is in the full plan if and only if it joins the vCPUs of equal rank of two adjacent usable groups of its node, counted two by two from the first |
| Topology.UnrestrictedPlanSize | src/topology.rs:118-167 | If all vCPUs are allowed, the plan's size is the sum over the given groups themselves |
| Topology.PlanIsSound | src/topology.rs:133-159 | With disjoint, duplicate-free groups no vCPU occurs twice in a plan over both roles, all are allowed, and the ends of a pair are in different groups of its node |
| SmtGroups.CollectLists | src/topology.rs:52-68 | Each smallest sibling is mapped to the list of the first present CPU that has it; CPUs without a list are skipped |
| SmtGroups.ReadSmtGroups | src/topology.rs:49-77 | One sorted group for each smallest sibling, ascending, with that sibling's NUMA node or 0, covering every listed CPU |
| SmtGroups.ConsistentGroups | src/topology.rs:52-68 | Sibling lists that agree or are disjoint give disjoint, duplicate-free groups that cover every CPU listing itself |
| SmtGroups.PlacementIsSound | src/topology.rs:133-159 | From consistent sibling lists to a plan: distinct, allowed vCPUs and sound pairs |
| ModelInfer.CheckInput | src/grpc/mod.rs:130-178 | An input is accepted exactly when it is known, has the rank, a positive first dimension and the model's other dimensions; otherwise its first problem is reported |
| ModelInfer.Validate | src/grpc/mod.rs:129-179 | All inputs fit, or the first one that does not is reported |
| ModelInfer.InputSet | src/model_runtime/manager.rs:260-301 | Each model input's name is mapped to its position |
| ModelInfer.SortIsStable | src/grpc/mod.rs:183-190 | The sort lists every position once, by model order and then by request order |
| ModelInfer.OrderInputs | src/grpc/mod.rs:181-202 | Each reordered input has the name, the shape and the raw buffer that its request position has; it panics exactly when there are fewer buffers than inputs |
| ModelInfer.BuffersFollowNames | src/grpc/mod.rs:181-202 | With as many inputs as the model has and no name repeated, position k has the model's k-th name and the shape and raw buffer that the request sent beside that name |
| ModelInfer.OrderIsRightExactly | src/grpc/mod.rs:181-202 | Position k holds the model's input k for all k if and only if there are as many inputs as the model has and no name is repeated |
| ModelInfer.RepeatedInputPasses | src/grpc/mod.rs:129-179 | A request that repeats one input and omits another passes validation, and no order makes it right |
| ModelInfer.MissingInputPasses | src/grpc/mod.rs:129-179 | A request that omits an input passes validation |
| ShapeOverrides.EffectiveShape | src/tensor/supertensor.rs:365-378 | An override replaces the dimensions after the first that both shapes have |
| ShapeOverrides.RowDimsAgreeExactly | src/model_runtime/manager.rs:196-207 | The ring's row dimensions are those requests are checked against if and only if the override has the model's rank |
| ShapeOverrides.OtherRankMisleads | src/model_runtime/manager.rs:196-207 | With an override of another rank a request passes the shape check whose rows have 2 elements where the ring's have 6 |
| ShapeOverrides.RequestRowFits | src/grpc/mod.rs:141-178 | With the model's rank, a request that passes the shape check has exactly the ring's elements per row |

## Left out

- The concurrent protocol is a state machine over values, not a class: its threads interleave at every atomic step. The class in `SuperTensor` covers each routine when nothing else runs.
- The `executors_in_use` gauge and `metrics_snapshot`.
- The second wait of an executor, for the deadline or for the last slot's notify, is a wait without effect here: the seal may follow the first wake at any time. Deadlines, the 100 ms warnings and fairness are not modelled.
- Liveness: fairness. `RingProgress` counts a thread's own steps, which assumes nothing about the others; that a thread gets to take steps, that a weak CAS succeeds in the end and that a seal is reached are not claimed.
- The notifiers of a full ring and of a finished batch (src/tensor/supertensor.rs:570, 722, 759): an executor that finds the ring full and a request without an output read again at any later time instead.
- Weak memory ordering and the fences around the unsafe cells: steps are sequentially consistent.
- A copy that fails for an unsupported element type leaves its reserved slots unpublished; the protocol assumes types that can be copied, and `InsertTensors` says what the failing copy itself does.
- RingTheorems.EndToEnd: for outputs with one element per row only, because the code slices results by element; `OutputSliceIsRowsExactly` says that this is exactly when a slice is a request's own rows.
- The response's shapes, which add up whole batch shapes (src/tensor/supertensor.rs:142-150), and execution traces.
- Requests without rows, inputs of different first dimensions and raw buffers of another length in the protocol: the code does not check them before reserving. `TensorBytes.InsertTensors` says how the copy of such a request ends.
- Warmups after requests have been accepted: the manager runs them before the model is published.
- RingIndex.TailTestRefines: for a head less than a full cycle past the held tail's batch; beyond that no 64-bit comparison can tell.
- RingWords.ExecutorsRefine: the fields of the trackers are read and written at the batch id in the program counter, which is the one read from the word, and are not repeated on words.
- RingWords.ProducersRefine: the same for trackers; the step that collects results holds no index and is left out.
- SuperTensor.SuperTensorBuffer.MoveTail: no CAS fails; `RingSteps` and `RingLostTail` treat the failures.
- SuperTensor.SuperTensorBuffer.Infer: the CAS on head succeeds at once, and the copies of each write are those of `TensorBytes.InsertTensors`.
- ONNX Runtime sessions, allocators and GPU binding: the model is a function on rows, or an error.
- Parsing CPU lists and reading `/sys`: present CPUs, sibling lists and NUMA nodes are inputs, so read errors do not occur.
- Library sorts: the stable sort by key and the sort of a group are given as functions with proved contracts.
- The text of error messages, the mapping of errors to status codes, the other RPC handlers, metrics, model repository loading and core pinning.
- `BatchedTensor`, `BatchedOutputs` and the copies between dynamic tensors, which the serving path does not use.
