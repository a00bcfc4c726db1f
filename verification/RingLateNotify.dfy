/**
 A piece is published and its executor notified in two separate steps. A producer that is
 delayed between them can find the BatchState of the tracker's next lap, and leave its
 permit there. Two runs show what follows: the executor of that lap wakes before anything is
 reserved in it, and panics, or seals and runs an empty batch.
*/
module RingLateNotify {
  import opened InferTypes
  import opened Ranges
  import opened RingGeometry
  import opened RingModel
  import opened RingSteps
  import opened RingRuns

  /** Two batches of two slots, two executors, no outputs. */
  function Small(): (c: Config) {
    Config(Geometry(2, 2, 4), 0, 0, (row: Row) => [])
  }

  function Fresh0(): (tr: Tracker) {
    Tracker(0, 0, 0, false, false, false, false, 0, UNCLAIMED, 0, 0)
  }

  function Fresh1(): (tr: Tracker) {
    Tracker(0, 0, 0, false, false, false, false, 2, UNCLAIMED, 0, 0)
  }

  function SmallStart(): (s: State) {
    State(0, 0, 0, [Fresh0(), Fresh1()], [[[], []], [[], []]], map[], {}, [],
          [LoadExecutorHead, LoadExecutorHead], false, map[], {}, map[], multiset{}, multiset{}, multiset{})
  }

  /** The parts of the state that these runs depend on. */
  ghost predicate Shown(s: State, head: nat, executorHead: nat, tail: nat, tr0: Tracker, tr1: Tracker) {
    && !s.panicked
    && s.head == head && s.executorHead == executorHead && s.tail == tail
    && |s.trackers| == 2 && s.trackers[0] == tr0 && s.trackers[1] == tr1
    && |s.buffers| == 2 && |s.buffers[0]| == 2 && |s.buffers[1]| == 2
  }

  /** Two requests: one row, and n rows. */
  ghost predicate Producers(s: State, n: nat, first: ProducerPc, start: nat, second: ProducerPc) {
    && |s.producers| == 2
    && s.producers[0].rows == [[]] && s.producers[0].first == 0 && s.producers[0].pc == first
    && |s.producers[1].rows| == n && s.producers[1].first == start && s.producers[1].pc == second
  }

  ghost predicate Executors(s: State, first: ExecutorPc, second: ExecutorPc, permits: set<Cell>) {
    && |s.executors| == 2 && s.executors[0] == first && s.executors[1] == second
    && s.permits == permits
  }

  ghost predicate Idle(s: State) {
    Executors(s, LoadExecutorHead, LoadExecutorHead, {}) && s.outputs == map[]
  }

  lemma ProducerMoves(s: State, p: nat) returns (s': State)
    requires Reached(Small(), s) && !s.panicked && ProducerEnabled(Small(), s, p)
    requires s.producers[p].pc.Reserve? ==> s.head + |s.producers[p].rows| <= s.tail + 4
    ensures s' == ProducerStep(Small(), s, p, false) && Reached(Small(), s')
  {
    hide Reached, ProducerEnabled, ProducerStep;
    ReachedNext(Small(), s, Produce(p, false));
    s' := ProducerStep(Small(), s, p, false);
  }

  lemma ExecutorMoves(s: State, e: nat) returns (s': State)
    requires Reached(Small(), s) && !s.panicked && ExecutorEnabled(Small(), s, e, Ok([]))
    ensures s' == ExecutorStep(Small(), s, e, false, Ok([])) && Reached(Small(), s')
  {
    hide Reached, ExecutorEnabled, ExecutorStep;
    ReachedNext(Small(), s, Execute(e, false, Ok([])));
    s' := ExecutorStep(Small(), s, e, false, Ok([]));
  }

  /** The first request's only row goes to slot 0; the second's first row to slot 1. */
  function SlotZero(): (piece: Piece) {
    Piece(0, 0, 0, 1)
  }

  /** The second request's other rows go to the second batch. */
  function OtherSlots(n: nat): (piece: Piece)
    requires n >= 2
  {
    Piece(1, 2, 1, n - 1)
  }

  lemma SmallIndex(g: Geometry, b: nat, a: nat)
    requires g == Small().geometry && 2 * b <= a < 2 * b + 2 && b < 2
    ensures g.Valid() && BatchId(g, a) == b && LowerBound(g, a) == 2 * b
  {
    LapBelongsToTracker(g, b, 0, a - 2 * b);
  }

  lemma PieceOf(g: Geometry, b: nat, first: nat, pos: nat, n: nat)
    requires g == Small().geometry && 2 * b <= first + pos < 2 * b + 2 && b < 2 && pos < n
    ensures g.Valid()
    ensures PieceAt(g, first, pos, n)
         == Piece(pos, 2 * b, b, if n - pos <= 2 * b + 2 - first - pos then n - pos else 2 * b + 2 - first - pos)
  {
    SmallIndex(g, b, first + pos);
    PieceWithin(g, b, 2 * b, first, pos, n);
  }

  lemma PieceWithin(g: Geometry, b: nat, base: nat, first: nat, pos: nat, n: nat)
    requires g.Valid() && pos < n && BatchId(g, first + pos) == b && LowerBound(g, first + pos) == base
    ensures var room := base + g.batchSize - first - pos;
            PieceAt(g, first, pos, n) == Piece(pos, base, b, if n - pos <= room then n - pos else room)
  {
    LowerBoundFacts(g, first + pos);
    hide BatchId, LowerBound;
  }

  lemma Begin(n: nat) returns (s: State)
    requires 2 <= n <= 3
    ensures Reached(Small(), s) && Idle(s) && Shown(s, 0, 0, 0, Fresh0(), Fresh1())
    ensures Producers(s, n, LoadHead, 0, LoadHead)
  {
    var c, s0 := Small(), SmallStart();
    assert Init(c, s0) by {
      assert LapOf(c.geometry, 0, 0) == 0 && LapOf(c.geometry, 1, 0) == 2;
    }
    ReachedFirst(c, s0);
    hide Reached, Init;
    ReachedNext(c, s0, Arrive([[]]));
    var s1 := Apply(c, s0, Arrive([[]]));
    var rows: seq<Row> := seq(n, i => []);
    ReachedNext(c, s1, Arrive(rows));
    s := Apply(c, s1, Arrive(rows));
  }

  /** The first request takes slot 0. */
  lemma FirstReserves(s: State, n: nat) returns (s': State)
    requires 2 <= n <= 3 && Reached(Small(), s)
    requires Idle(s) && Shown(s, 0, 0, 0, Fresh0(), Fresh1())
    requires Producers(s, n, LoadHead, 0, LoadHead)
    ensures Reached(Small(), s')
    ensures Idle(s') && Shown(s', 1, 0, 0, Fresh0(), Fresh1())
    ensures Producers(s', n, Copy(SlotZero(), 0), 0, LoadHead)
  {
    hide Reached, PieceAt, WithSlots;
    PieceOf(Small().geometry, 0, 0, 0, 1);
    var s1 := ProducerMoves(s, 0);
    var s2 := ProducerMoves(s1, 0);
    s' := ProducerMoves(s2, 0);
  }

  lemma FirstCopies(s: State, n: nat) returns (s': State)
    requires 2 <= n <= 3 && Reached(Small(), s)
    requires Idle(s) && Shown(s, 1, 0, 0, Fresh0(), Fresh1())
    requires Producers(s, n, Copy(SlotZero(), 0), 0, LoadHead)
    ensures Reached(Small(), s')
    ensures Idle(s') && Shown(s', 1, 0, 0, Fresh0(), Fresh1())
    ensures Producers(s', n, MarkDirty(SlotZero()), 0, LoadHead)
  {
    hide Reached, PieceAt, WithSlots;
    var s1 := ProducerMoves(s, 0);
    s' := ProducerMoves(s1, 0);
  }

  /** Tracker 0 with so many published slots of its first lap. */
  function Marked0(written: nat): (tr: Tracker) {
    Fresh0().(dirty := 1, deadline := true, queueStart := true, writtenSlots := written)
  }

  lemma FirstMarks(s: State, n: nat) returns (s': State)
    requires 2 <= n <= 3 && Reached(Small(), s)
    requires Idle(s) && Shown(s, 1, 0, 0, Fresh0(), Fresh1())
    requires Producers(s, n, MarkDirty(SlotZero()), 0, LoadHead)
    ensures Reached(Small(), s')
    ensures Idle(s') && Shown(s', 1, 0, 0, Marked0(0), Fresh1())
    ensures Producers(s', n, Capture(SlotZero()), 0, LoadHead)
  {
    hide Reached, PieceAt, WithSlots;
    var s1 := ProducerMoves(s, 0);
    var s2 := ProducerMoves(s1, 0);
    s' := ProducerMoves(s2, 0);
  }

  /** It publishes its row and is then delayed. */
  lemma FirstPublishes(s: State, n: nat) returns (s': State)
    requires 2 <= n <= 3 && Reached(Small(), s)
    requires Idle(s) && Shown(s, 1, 0, 0, Marked0(0), Fresh1())
    requires Producers(s, n, Capture(SlotZero()), 0, LoadHead)
    ensures Reached(Small(), s')
    ensures Idle(s') && Shown(s', 1, 0, 0, Marked0(1), Fresh1())
    ensures Producers(s', n, Notify(SlotZero()), 0, LoadHead)
  {
    hide Reached, PieceAt, WithSlots, Range, AfterPiece;
    var s1 := ProducerMoves(s, 0);
    s' := ProducerMoves(s1, 0);
  }

  /** The second request takes slot 1 and the slots after it. */
  lemma SecondReserves(s: State, n: nat) returns (s': State)
    requires 2 <= n <= 3 && Reached(Small(), s)
    requires Idle(s) && Shown(s, 1, 0, 0, Marked0(1), Fresh1())
    requires Producers(s, n, Notify(SlotZero()), 0, LoadHead)
    ensures Reached(Small(), s')
    ensures Idle(s') && Shown(s', 1 + n, 0, 0, Marked0(1), Fresh1())
    ensures Producers(s', n, Notify(SlotZero()), 1, Copy(SlotZero(), 0))
  {
    hide Reached, PieceAt, WithSlots;
    PieceOf(Small().geometry, 0, 1, 0, n);
    var s1 := ProducerMoves(s, 1);
    var s2 := ProducerMoves(s1, 1);
    s' := ProducerMoves(s2, 1);
  }

  lemma SecondCopies(s: State, n: nat) returns (s': State)
    requires 2 <= n <= 3 && Reached(Small(), s)
    requires Idle(s) && Shown(s, 1 + n, 0, 0, Marked0(1), Fresh1())
    requires Producers(s, n, Notify(SlotZero()), 1, Copy(SlotZero(), 0))
    ensures Reached(Small(), s')
    ensures Idle(s') && Shown(s', 1 + n, 0, 0, Marked0(1), Fresh1())
    ensures Producers(s', n, Notify(SlotZero()), 1, Capture(SlotZero()))
  {
    hide Reached, PieceAt, WithSlots;
    var s1 := ProducerMoves(s, 1);
    s' := ProducerMoves(s1, 1);
  }

  lemma SecondPublishes(s: State, n: nat) returns (s': State)
    requires 2 <= n <= 3 && Reached(Small(), s)
    requires Idle(s) && Shown(s, 1 + n, 0, 0, Marked0(1), Fresh1())
    requires Producers(s, n, Notify(SlotZero()), 1, Capture(SlotZero()))
    ensures Reached(Small(), s')
    ensures Idle(s') && Shown(s', 1 + n, 0, 0, Marked0(2), Fresh1())
    ensures Producers(s', n, Notify(SlotZero()), 1, Notify(SlotZero()))
  {
    hide Reached, PieceAt, WithSlots, Range, AfterPiece;
    var s1 := ProducerMoves(s, 1);
    s' := ProducerMoves(s1, 1);
  }

  /** It completes the first batch and notifies its executor. */
  lemma SecondNotifies(s: State, n: nat) returns (s': State)
    requires 2 <= n <= 3 && Reached(Small(), s)
    requires Idle(s) && Shown(s, 1 + n, 0, 0, Marked0(2), Fresh1())
    requires Producers(s, n, Notify(SlotZero()), 1, Notify(SlotZero()))
    ensures Reached(Small(), s')
    ensures s'.outputs == map[] && Executors(s', LoadExecutorHead, LoadExecutorHead, {Cell(0, 0)})
    ensures Shown(s', 1 + n, 0, 0, Marked0(2), Fresh1())
    ensures Producers(s', n, Notify(SlotZero()), 1, Copy(OtherSlots(n), 0))
  {
    hide Reached, PieceAt, WithSlots;
    PieceOf(Small().geometry, 1, 1, 1, n);
    s' := ProducerMoves(s, 1);
  }

  function Staged0(stage: nat): (tr: Tracker) {
    Marked0(2).(stage := stage, top := if stage < SEALED then 0 else 2, execStart := stage >= STARTED)
  }

  lemma FirstBatchClaimed(s: State, n: nat) returns (s': State)
    requires 2 <= n <= 3 && Reached(Small(), s)
    requires s.outputs == map[] && Executors(s, LoadExecutorHead, LoadExecutorHead, {Cell(0, 0)})
    requires Shown(s, 1 + n, 0, 0, Marked0(2), Fresh1())
    requires Producers(s, n, Notify(SlotZero()), 1, Copy(OtherSlots(n), 0))
    ensures Reached(Small(), s')
    ensures s'.outputs == map[] && Executors(s', BorrowNotifier(0, 0), LoadExecutorHead, {Cell(0, 0)})
    ensures Shown(s', 1 + n, 2, 0, Staged0(CLAIMED), Fresh1())
    ensures Producers(s', n, Notify(SlotZero()), 1, Copy(OtherSlots(n), 0))
  {
    hide Reached;
    var s1 := ExecutorMoves(s, 0);
    var s2 := ExecutorMoves(s1, 0);
    s' := ExecutorMoves(s2, 0);
  }

  lemma FirstBatchSealed(s: State, n: nat) returns (s': State)
    requires 2 <= n <= 3 && Reached(Small(), s)
    requires s.outputs == map[] && Executors(s, BorrowNotifier(0, 0), LoadExecutorHead, {Cell(0, 0)})
    requires Shown(s, 1 + n, 2, 0, Staged0(CLAIMED), Fresh1())
    requires Producers(s, n, Notify(SlotZero()), 1, Copy(OtherSlots(n), 0))
    ensures Reached(Small(), s')
    ensures s'.outputs == map[] && Executors(s', Spin(0, 0, 0), LoadExecutorHead, {})
    ensures Shown(s', 1 + n, 2, 0, Staged0(SEALED), Fresh1())
    ensures Producers(s', n, Notify(SlotZero()), 1, Copy(OtherSlots(n), 0))
  {
    hide Reached;
    var s1 := ExecutorMoves(s, 0);
    var s2 := ExecutorMoves(s1, 0);
    s' := ExecutorMoves(s2, 0);
  }

  lemma FirstBatchStarted(s: State, n: nat) returns (s': State)
    requires 2 <= n <= 3 && Reached(Small(), s)
    requires s.outputs == map[] && Executors(s, Spin(0, 0, 0), LoadExecutorHead, {})
    requires Shown(s, 1 + n, 2, 0, Staged0(SEALED), Fresh1())
    requires Producers(s, n, Notify(SlotZero()), 1, Copy(OtherSlots(n), 0))
    ensures Reached(Small(), s')
    ensures s'.outputs == map[] && Executors(s', ReadRows(0, 0, []), LoadExecutorHead, {})
    ensures Shown(s', 1 + n, 2, 0, Staged0(STARTED), Fresh1())
    ensures Producers(s', n, Notify(SlotZero()), 1, Copy(OtherSlots(n), 0))
  {
    hide Reached;
    var s1 := ExecutorMoves(s, 0);
    var s2 := ExecutorMoves(s1, 0);
    s' := ExecutorMoves(s2, 0);
  }

  lemma FirstBatchRun(s: State, n: nat) returns (s': State)
    requires 2 <= n <= 3 && Reached(Small(), s)
    requires s.outputs == map[] && Executors(s, ReadRows(0, 0, []), LoadExecutorHead, {})
    requires Shown(s, 1 + n, 2, 0, Staged0(STARTED), Fresh1())
    requires Producers(s, n, Notify(SlotZero()), 1, Copy(OtherSlots(n), 0))
    ensures Reached(Small(), s')
    ensures s'.outputs == map[] && Executors(s', SetExecEnd(0, 0, Ok([])), LoadExecutorHead, {})
    ensures Shown(s', 1 + n, 2, 0, Staged0(STARTED), Fresh1())
    ensures Producers(s', n, Notify(SlotZero()), 1, Copy(OtherSlots(n), 0))
  {
    hide Reached;
    var s1 := ExecutorMoves(s, 0);
    var s2 := ExecutorMoves(s1, 0);
    s' := ExecutorMoves(s2, 0);
  }

  /** Tracker 0 in the BatchState of its next lap. */
  function Renewed0(dirty: nat, written: nat, stage: nat): (tr: Tracker) {
    Tracker(dirty, written, 1, false, false, false, false, 0, stage, 2, 0)
  }

  lemma FirstBatchAnswered(s: State, n: nat) returns (s': State)
    requires 2 <= n <= 3 && Reached(Small(), s)
    requires s.outputs == map[] && Executors(s, SetExecEnd(0, 0, Ok([])), LoadExecutorHead, {})
    requires Shown(s, 1 + n, 2, 0, Staged0(STARTED), Fresh1())
    requires Producers(s, n, Notify(SlotZero()), 1, Copy(OtherSlots(n), 0))
    ensures Reached(Small(), s')
    ensures Executors(s', ResetWritten(0, 0), LoadExecutorHead, {})
    ensures Shown(s', 1 + n, 2, 0, Renewed0(1, 2, STATE_RESET), Fresh1())
    ensures Producers(s', n, Notify(SlotZero()), 1, Copy(OtherSlots(n), 0))
  {
    hide Reached;
    var s1 := ExecutorMoves(s, 0);
    var s2 := ExecutorMoves(s1, 0);
    s' := ExecutorMoves(s2, 0);
  }

  lemma FirstBatchReset(s: State, n: nat) returns (s': State)
    requires 2 <= n <= 3 && Reached(Small(), s)
    requires Executors(s, ResetWritten(0, 0), LoadExecutorHead, {})
    requires Shown(s, 1 + n, 2, 0, Renewed0(1, 2, STATE_RESET), Fresh1())
    requires Producers(s, n, Notify(SlotZero()), 1, Copy(OtherSlots(n), 0))
    ensures Reached(Small(), s')
    ensures Executors(s', TailLoad, LoadExecutorHead, {})
    ensures Shown(s', 1 + n, 2, 0, Renewed0(2, 0, DONE), Fresh1())
    ensures Producers(s', n, Notify(SlotZero()), 1, Copy(OtherSlots(n), 0))
  {
    hide Reached;
    var s1 := ExecutorMoves(s, 0);
    s' := ExecutorMoves(s1, 0);
  }

  /** The delayed notify reaches the BatchState of the next lap. */
  lemma FirstNotifies(s: State, n: nat) returns (s': State)
    requires 2 <= n <= 3 && Reached(Small(), s)
    requires Executors(s, TailLoad, LoadExecutorHead, {})
    requires Shown(s, 1 + n, 2, 0, Renewed0(2, 0, DONE), Fresh1())
    requires Producers(s, n, Notify(SlotZero()), 1, Copy(OtherSlots(n), 0))
    ensures Reached(Small(), s')
    ensures Executors(s', TailLoad, LoadExecutorHead, {Cell(0, 1)})
    ensures Shown(s', 1 + n, 2, 0, Renewed0(2, 0, DONE), Fresh1())
    ensures Producers(s', n, Collect(0, []), 1, Copy(OtherSlots(n), 0))
  {
    hide Reached, PieceAt, WithSlots;
    s' := ProducerMoves(s, 0);
  }

  /** A slot of the second batch is reserved, so tail moves over the first. */
  lemma TailChecked(s: State, n: nat) returns (s': State)
    requires 2 <= n <= 3 && Reached(Small(), s)
    requires Executors(s, TailLoad, LoadExecutorHead, {Cell(0, 1)})
    requires Shown(s, 1 + n, 2, 0, Renewed0(2, 0, DONE), Fresh1())
    requires Producers(s, n, Collect(0, []), 1, Copy(OtherSlots(n), 0))
    ensures Reached(Small(), s')
    ensures Executors(s', TailDirtyCas(0), LoadExecutorHead, {Cell(0, 1)})
    ensures Shown(s', 1 + n, 2, 0, Renewed0(2, 0, DONE), Fresh1())
    ensures Producers(s', n, Collect(0, []), 1, Copy(OtherSlots(n), 0))
  {
    hide Reached;
    var s1 := ExecutorMoves(s, 0);
    var s2 := ExecutorMoves(s1, 0);
    s' := ExecutorMoves(s2, 0);
  }

  /** Tracker 0 in its next lap, in which nothing is reserved. */
  function Next0(stage: nat, claimant: nat): (tr: Tracker) {
    Tracker(0, 0, 1, false, false, false, false, 4, stage, if stage < SEALED then 2 else 4, claimant)
  }

  lemma TailMoved(s: State, n: nat) returns (s': State)
    requires 2 <= n <= 3 && Reached(Small(), s)
    requires Executors(s, TailDirtyCas(0), LoadExecutorHead, {Cell(0, 1)})
    requires Shown(s, 1 + n, 2, 0, Renewed0(2, 0, DONE), Fresh1())
    requires Producers(s, n, Collect(0, []), 1, Copy(OtherSlots(n), 0))
    ensures Reached(Small(), s')
    ensures Executors(s', TailLoad, LoadExecutorHead, {Cell(0, 1)})
    ensures Shown(s', 1 + n, 2, 2, Next0(UNCLAIMED, 0), Fresh1())
    ensures Producers(s', n, Collect(0, []), 1, Copy(OtherSlots(n), 0))
  {
    hide Reached;
    var s1 := ExecutorMoves(s, 0);
    s' := ExecutorMoves(s1, 0);
  }

  lemma TailStays(s: State, n: nat) returns (s': State)
    requires 2 <= n <= 3 && Reached(Small(), s)
    requires Executors(s, TailLoad, LoadExecutorHead, {Cell(0, 1)})
    requires Shown(s, 1 + n, 2, 2, Next0(UNCLAIMED, 0), Fresh1())
    requires Producers(s, n, Collect(0, []), 1, Copy(OtherSlots(n), 0))
    ensures Reached(Small(), s')
    ensures Executors(s', LoadExecutorHead, LoadExecutorHead, {Cell(0, 1)})
    ensures Shown(s', 1 + n, 2, 2, Next0(UNCLAIMED, 0), Fresh1())
    ensures Producers(s', n, Collect(0, []), 1, Copy(OtherSlots(n), 0))
  {
    hide Reached;
    var s1 := ExecutorMoves(s, 0);
    s' := ExecutorMoves(s1, 0);
  }

  /** The second batch is claimed, and then the first tracker's next lap. */
  lemma SecondBatchClaimed(s: State, n: nat) returns (s': State)
    requires 2 <= n <= 3 && Reached(Small(), s)
    requires Executors(s, LoadExecutorHead, LoadExecutorHead, {Cell(0, 1)})
    requires Shown(s, 1 + n, 2, 2, Next0(UNCLAIMED, 0), Fresh1())
    requires Producers(s, n, Collect(0, []), 1, Copy(OtherSlots(n), 0))
    ensures Reached(Small(), s')
    ensures Executors(s', BorrowNotifier(2, 1), LoadExecutorHead, {Cell(0, 1)})
    ensures Shown(s', 1 + n, 4, 2, Next0(UNCLAIMED, 0), Fresh1().(stage := CLAIMED))
    ensures Producers(s', n, Collect(0, []), 1, Copy(OtherSlots(n), 0))
  {
    hide Reached;
    var s1 := ExecutorMoves(s, 0);
    var s2 := ExecutorMoves(s1, 0);
    s' := ExecutorMoves(s2, 0);
  }

  lemma EmptyLapClaimed(s: State, n: nat) returns (s': State)
    requires 2 <= n <= 3 && Reached(Small(), s)
    requires Executors(s, BorrowNotifier(2, 1), LoadExecutorHead, {Cell(0, 1)})
    requires Shown(s, 1 + n, 4, 2, Next0(UNCLAIMED, 0), Fresh1().(stage := CLAIMED))
    requires Producers(s, n, Collect(0, []), 1, Copy(OtherSlots(n), 0))
    ensures Reached(Small(), s')
    ensures Executors(s', BorrowNotifier(2, 1), BorrowNotifier(4, 0), {Cell(0, 1)})
    ensures Shown(s', 1 + n, 6, 2, Next0(CLAIMED, 1), Fresh1().(stage := CLAIMED))
    ensures Producers(s', n, Collect(0, []), 1, Copy(OtherSlots(n), 0))
  {
    hide Reached;
    var s1 := ExecutorMoves(s, 1);
    var s2 := ExecutorMoves(s1, 1);
    s' := ExecutorMoves(s2, 1);
  }

  /** The stale permit wakes its executor. */
  lemma EmptyLapWoken(s: State, n: nat) returns (s': State)
    requires 2 <= n <= 3 && Reached(Small(), s)
    requires Executors(s, BorrowNotifier(2, 1), BorrowNotifier(4, 0), {Cell(0, 1)})
    requires Shown(s, 1 + n, 6, 2, Next0(CLAIMED, 1), Fresh1().(stage := CLAIMED))
    requires Producers(s, n, Collect(0, []), 1, Copy(OtherSlots(n), 0))
    ensures Reached(Small(), s')
    ensures Executors(s', BorrowNotifier(2, 1), SealLoad(4, 0), {})
    ensures Shown(s', 1 + n, 6, 2, Next0(CLAIMED, 1), Fresh1().(stage := CLAIMED))
    ensures Producers(s', n, Collect(0, []), 1, Copy(OtherSlots(n), 0))
  {
    hide Reached;
    var s1 := ExecutorMoves(s, 1);
    s' := ExecutorMoves(s1, 1);
  }

  /** All of this, from the start of the ring to the executor that was woken too early. */
  lemma WokenTooEarly(n: nat) returns (s: State)
    requires 2 <= n <= 3
    ensures Reached(Small(), s) && Executors(s, BorrowNotifier(2, 1), SealLoad(4, 0), {})
    ensures Shown(s, 1 + n, 6, 2, Next0(CLAIMED, 1), Fresh1().(stage := CLAIMED))
  {
    hide Reached, Shown, Producers, Executors, Idle;
    s := Begin(n);
    s := FirstReserves(s, n);
    s := FirstCopies(s, n);
    s := FirstMarks(s, n);
    s := FirstPublishes(s, n);
    s := SecondReserves(s, n);
    s := SecondCopies(s, n);
    s := SecondPublishes(s, n);
    s := SecondNotifies(s, n);
    s := FirstBatchClaimed(s, n);
    s := FirstBatchSealed(s, n);
    s := FirstBatchStarted(s, n);
    s := FirstBatchRun(s, n);
    s := FirstBatchAnswered(s, n);
    s := FirstBatchReset(s, n);
    s := FirstNotifies(s, n);
    s := TailChecked(s, n);
    s := TailMoved(s, n);
    s := TailStays(s, n);
    s := SecondBatchClaimed(s, n);
    s := EmptyLapClaimed(s, n);
    s := EmptyLapWoken(s, n);
  }

  /** A second request of two rows: head has not reached the lap, and its seal panics. */
  lemma LateNotifyPanics()
    ensures exists run: seq<State> :: Run(Small(), run) && run[|run| - 1].panicked
  {
    hide Reached;
    var s := WokenTooEarly(2);
    s := ExecutorMoves(s, 1);
    PanicReached(s);
  }

  lemma PanicReached(s: State)
    requires Reached(Small(), s) && s.panicked
    ensures exists run: seq<State> :: Run(Small(), run) && run[|run| - 1].panicked
  {
    hide Run;
  }

  /** A second request of three rows: head is exactly at the lap, and an empty batch is sealed. */
  lemma EmptyLapSealed(s: State) returns (s': State)
    requires Reached(Small(), s) && Executors(s, BorrowNotifier(2, 1), SealLoad(4, 0), {})
    requires Shown(s, 4, 6, 2, Next0(CLAIMED, 1), Fresh1().(stage := CLAIMED))
    ensures Reached(Small(), s') && Executors(s', BorrowNotifier(2, 1), Spin(4, 0, 2), {})
    ensures Shown(s', 6, 6, 2, Next0(SEALED, 1), Fresh1().(stage := CLAIMED))
  {
    hide Reached;
    var s1 := ExecutorMoves(s, 1);
    s' := ExecutorMoves(s1, 1);
  }

  lemma EmptyLapCounted(s: State) returns (s': State)
    requires Reached(Small(), s) && Executors(s, BorrowNotifier(2, 1), Spin(4, 0, 2), {})
    requires Shown(s, 6, 6, 2, Next0(SEALED, 1), Fresh1().(stage := CLAIMED))
    ensures Reached(Small(), s') && !s'.panicked && 4 in s'.items && s'.items[4] == 0
  {
    hide Reached;
    var s1 := ExecutorMoves(s, 1);
    var s2 := ExecutorMoves(s1, 1);
    s' := ExecutorMoves(s2, 1);
  }

  /** The same delay can also pass unnoticed: a batch without any request is run, and counted as 0 items. */
  lemma LateNotifyRunsEmptyBatch()
    ensures exists run: seq<State> :: Run(Small(), run) && !run[|run| - 1].panicked
              && 4 in run[|run| - 1].items && run[|run| - 1].items[4] == 0
  {
    hide Reached, Shown, Executors;
    var s := WokenTooEarly(3);
    s := EmptyLapSealed(s);
    s := EmptyLapCounted(s);
    EmptyReached(s);
  }

  lemma EmptyReached(s: State)
    requires Reached(Small(), s) && !s.panicked && 4 in s.items && s.items[4] == 0
    ensures exists run: seq<State> :: Run(Small(), run) && !run[|run| - 1].panicked
              && 4 in run[|run| - 1].items && run[|run| - 1].items[4] == 0
  {
    hide Run;
  }
}
