/**
 Two runs that lose a batch to the tail loop: one by a spurious failure of the weak CAS on
 tail, one by an executor that took the mark of a later lap while holding a stale tail.
*/
module RingLostRuns {
  import opened InferTypes
  import opened Ranges
  import opened RingGeometry
  import opened RingModel
  import opened RingSteps
  import opened RingInvariant
  import opened RingExecutorProofs
  import opened RingRuns
  import opened RingLostTail

  /** Two batches of one slot, two executors, no outputs. */
  function Tiny(): (c: Config) {
    Config(Geometry(2, 1, 2), 0, 0, (row: Row) => [])
  }

  function NewTracker(b: nat): (tr: Tracker) {
    Tracker(0, 0, 0, false, false, false, false, b, UNCLAIMED, 0, 0)
  }

  function TinyStart(): (s: State) {
    State(0, 0, 0, [NewTracker(0), NewTracker(1)], [[[]], [[]]], map[], {}, [],
          [LoadExecutorHead, LoadExecutorHead], false, map[], {}, map[], multiset{}, multiset{}, multiset{})
  }

  /** Counters and trackers; b is the tracker of interest. */
  ghost predicate Shown(s: State, head: nat, executorHead: nat, tail: nat, b: nat, mine: Tracker, other: Tracker) {
    && !s.panicked
    && s.head == head && s.executorHead == executorHead && s.tail == tail
    && |s.trackers| == 2 && b < 2 && s.trackers[b] == mine && s.trackers[1 - b] == other
    && |s.buffers| == 2 && |s.buffers[0]| == 1 && |s.buffers[1]| == 1
  }

  ghost predicate Threads(s: State, e: nat, mine: ExecutorPc, other: ExecutorPc) {
    |s.executors| == 2 && e < 2 && s.executors[e] == mine && s.executors[1 - e] == other
  }

  /** The latest request has one row, is granted index h once it is granted, and is at pc. */
  ghost predicate Latest(s: State, first: nat, pc: ProducerPc) {
    && |s.producers| > 0
    && s.producers[|s.producers| - 1].rows == [[]]
    && s.producers[|s.producers| - 1].first == first
    && s.producers[|s.producers| - 1].pc == pc
  }

  lemma LatestMoves(s: State) returns (s': State)
    requires Reached(Tiny(), s) && !s.panicked && |s.producers| > 0
    requires ProducerEnabled(Tiny(), s, |s.producers| - 1)
    requires var me := s.producers[|s.producers| - 1]; me.pc.Reserve? ==> s.head + |me.rows| <= s.tail + 2
    ensures s' == ProducerStep(Tiny(), s, |s.producers| - 1, false) && Reached(Tiny(), s')
  {
    hide Reached, ProducerEnabled, ProducerStep;
    ReachedNext(Tiny(), s, Produce(|s.producers| - 1, false));
    s' := ProducerStep(Tiny(), s, |s.producers| - 1, false);
  }

  lemma ExecutorMoves(s: State, e: nat, weakFail: bool) returns (s': State)
    requires Reached(Tiny(), s) && !s.panicked && ExecutorEnabled(Tiny(), s, e, Ok([]))
    ensures s' == ExecutorStep(Tiny(), s, e, weakFail, Ok([])) && Reached(Tiny(), s')
  {
    hide Reached, ExecutorEnabled, ExecutorStep;
    ReachedNext(Tiny(), s, Execute(e, weakFail, Ok([])));
    s' := ExecutorStep(Tiny(), s, e, weakFail, Ok([]));
  }

  lemma TinyIndex(h: nat, b: nat)
    requires b < 2 && (h == b || h == b + 2)
    ensures Tiny().geometry.Valid() && BatchId(Tiny().geometry, h) == b
    ensures PieceAt(Tiny().geometry, h, 0, 1) == Piece(0, h, b, 1)
  {
    var g := Tiny().geometry;
    TinyBatch(g, h, b);
    TinyPiece(g, h, b);
  }

  lemma TinyBatch(g: Geometry, h: nat, b: nat)
    requires g == Tiny().geometry && b < 2 && (h == b || h == b + 2)
    ensures g.Valid() && BatchId(g, h) == b && LowerBound(g, h) == h
  {
    assert LapOf(g, b, 0) == b;
    LapBelongsToTracker(g, b, if h == b then 0 else 1, 0);
  }

  lemma TinyPiece(g: Geometry, h: nat, b: nat)
    requires g.Valid() && g.batchSize == 1 && BatchId(g, h) == b && LowerBound(g, h) == h
    ensures PieceAt(g, h, 0, 1) == Piece(0, h, b, 1)
  {
    hide BatchId, LowerBound;
  }

  // ----- one request of one row, from arrival to notify -----

  lemma Arrives(s: State, h: nat, eh: nat, t: nat, b: nat, tr: Tracker, other: Tracker) returns (s': State)
    requires Reached(Tiny(), s) && b < 2 && (h == b || h == b + 2) && Shown(s, h, eh, t, b, tr, other)
    ensures Reached(Tiny(), s') && s'.executors == s.executors && Shown(s', h, eh, t, b, tr, other)
    ensures Latest(s', 0, LoadHead)
  {
    hide Reached;
    ReachedNext(Tiny(), s, Arrive([[]]));
    s' := Apply(Tiny(), s, Arrive([[]]));
  }

  lemma Reserves(s: State, h: nat, eh: nat, t: nat, b: nat, tr: Tracker, other: Tracker) returns (s': State)
    requires Reached(Tiny(), s) && b < 2 && (h == b || h == b + 2) && Shown(s, h, eh, t, b, tr, other)
    requires Latest(s, 0, LoadHead) && t <= h < t + 2
    ensures Reached(Tiny(), s') && s'.executors == s.executors && Shown(s', h + 1, eh, t, b, tr, other)
    ensures Latest(s', h, Copy(Piece(0, h, b, 1), 0))
  {
    hide Reached, PieceAt, WithSlots, BatchId, LowerBound;
    TinyIndex(h, b);
    var s1 := LatestMoves(s);
    var s2 := LatestMoves(s1);
    s' := LatestMoves(s2);
  }

  lemma Copies(s: State, h: nat, eh: nat, t: nat, b: nat, tr: Tracker, other: Tracker) returns (s': State)
    requires Reached(Tiny(), s) && b < 2 && (h == b || h == b + 2) && Shown(s, h + 1, eh, t, b, tr, other)
    requires Latest(s, h, Copy(Piece(0, h, b, 1), 0))
    ensures Reached(Tiny(), s') && s'.executors == s.executors && Shown(s', h + 1, eh, t, b, tr, other)
    ensures Latest(s', h, MarkDirty(Piece(0, h, b, 1)))
  {
    hide Reached, PieceAt, WithSlots, BatchId, LowerBound;
    var s1 := LatestMoves(s);
    s' := LatestMoves(s1);
  }

  /** A tracker after the producer of slot 0 has marked it, and published so many slots. */
  function Marked(tr: Tracker, written: nat): (tr': Tracker) {
    tr.(dirty := 1, deadline := true, queueStart := true, writtenSlots := written)
  }

  lemma Marks(s: State, h: nat, eh: nat, t: nat, b: nat, tr: Tracker, other: Tracker) returns (s': State)
    requires Reached(Tiny(), s) && b < 2 && (h == b || h == b + 2) && Shown(s, h + 1, eh, t, b, tr, other)
    requires Latest(s, h, MarkDirty(Piece(0, h, b, 1)))
    requires !tr.deadline && !tr.queueStart && tr.writtenSlots == 0
    ensures Reached(Tiny(), s') && s'.executors == s.executors && Shown(s', h + 1, eh, t, b, Marked(tr, 0), other)
    ensures Latest(s', h, Capture(Piece(0, h, b, 1)))
  {
    hide Reached, PieceAt, WithSlots, BatchId, LowerBound;
    var s1 := LatestMoves(s);
    var s2 := LatestMoves(s1);
    s' := LatestMoves(s2);
  }

  lemma Publishes(s: State, h: nat, eh: nat, t: nat, b: nat, tr: Tracker, other: Tracker) returns (s': State)
    requires Reached(Tiny(), s) && b < 2 && (h == b || h == b + 2) && Shown(s, h + 1, eh, t, b, Marked(tr, 0), other)
    requires Latest(s, h, Capture(Piece(0, h, b, 1)))
    ensures Reached(Tiny(), s') && s'.executors == s.executors && Shown(s', h + 1, eh, t, b, Marked(tr, 1), other)
    ensures Latest(s', h, Notify(Piece(0, h, b, 1)))
  {
    hide Reached, PieceAt, WithSlots, BatchId, LowerBound, Range, AfterPiece;
    var s1 := LatestMoves(s);
    s' := LatestMoves(s1);
  }

  lemma Notifies(s: State, h: nat, eh: nat, t: nat, b: nat, tr: Tracker, other: Tracker) returns (s': State)
    requires Reached(Tiny(), s) && b < 2 && (h == b || h == b + 2) && Shown(s, h + 1, eh, t, b, Marked(tr, 1), other)
    requires Latest(s, h, Notify(Piece(0, h, b, 1)))
    ensures Reached(Tiny(), s') && s'.executors == s.executors && Shown(s', h + 1, eh, t, b, Marked(tr, 1), other)
    ensures Cell(b, tr.gen) in s'.permits
  {
    hide Reached, PieceAt, WithSlots, BatchId, LowerBound, Range, AfterPiece;
    s' := LatestMoves(s);
  }

  /** A request of one row takes index h, is written to tracker b and notifies its executor. */
  lemma RequestWrites(s: State, h: nat, eh: nat, t: nat, b: nat, tr: Tracker, other: Tracker) returns (s': State)
    requires Reached(Tiny(), s) && b < 2 && (h == b || h == b + 2) && Shown(s, h, eh, t, b, tr, other) && t <= h < t + 2
    requires !tr.deadline && !tr.queueStart && tr.writtenSlots == 0
    ensures Reached(Tiny(), s') && s'.executors == s.executors && Shown(s', h + 1, eh, t, b, Marked(tr, 1), other)
    ensures Cell(b, tr.gen) in s'.permits
  {
    hide Reached, Shown, Latest;
    s' := Arrives(s, h, eh, t, b, tr, other);
    s' := Reserves(s', h, eh, t, b, tr, other);
    s' := Copies(s', h, eh, t, b, tr, other);
    s' := Marks(s', h, eh, t, b, tr, other);
    s' := Publishes(s', h, eh, t, b, tr, other);
    s' := Notifies(s', h, eh, t, b, tr, other);
  }

  // ----- one batch, from claim to reset -----

  lemma Claims(s: State, u: nat, t: nat, b: nat, tr: Tracker, other: Tracker, e: nat, y: ExecutorPc) returns (s': State)
    requires Reached(Tiny(), s) && b < 2 && (u == b || u == b + 2) && e < 2 && Shown(s, u + 1, u, t, b, tr, other)
    requires Threads(s, e, LoadExecutorHead, y)
    requires Cell(b, tr.gen) in s.permits && t <= u < t + 2
    ensures Reached(Tiny(), s') && Shown(s', u + 1, u + 1, t, b, tr.(stage := CLAIMED, claimant := e), other)
    ensures Threads(s', e, BorrowNotifier(u, b), y)
    ensures Cell(b, tr.gen) in s'.permits
  {
    hide Reached, BatchId, LowerBound, PieceAt, RunOk;
    TinyIndex(u, b);
    var s1 := ExecutorMoves(s, e, false);
    var s2 := ExecutorMoves(s1, e, false);
    s' := ExecutorMoves(s2, e, false);
  }

  lemma Seals(s: State, u: nat, t: nat, b: nat, tr: Tracker, other: Tracker, e: nat, y: ExecutorPc) returns (s': State)
    requires Reached(Tiny(), s) && b < 2 && (u == b || u == b + 2) && e < 2
    requires Shown(s, u + 1, u + 1, t, b, tr.(stage := CLAIMED, claimant := e), other)
    requires Threads(s, e, BorrowNotifier(u, b), y)
    requires Cell(b, tr.gen) in s.permits
    ensures Reached(Tiny(), s')
    ensures Shown(s', u + 1, u + 1, t, b, tr.(stage := SEALED, top := u + 1, claimant := e), other)
    ensures Threads(s', e, Spin(u, b, 0), y)
  {
    hide Reached, BatchId, LowerBound, PieceAt, RunOk;
    var s1 := ExecutorMoves(s, e, false);
    var s2 := ExecutorMoves(s1, e, false);
    s' := ExecutorMoves(s2, e, false);
  }

  /** A tracker that its executor e is running. */
  function Running(tr: Tracker, u: nat, e: nat): (tr': Tracker) {
    tr.(stage := STARTED, top := u + 1, claimant := e, execStart := true)
  }

  lemma Starts(s: State, u: nat, t: nat, b: nat, tr: Tracker, other: Tracker, e: nat, y: ExecutorPc) returns (s': State)
    requires Reached(Tiny(), s) && b < 2 && (u == b || u == b + 2) && e < 2
    requires Shown(s, u + 1, u + 1, t, b, tr.(stage := SEALED, top := u + 1, claimant := e), other)
    requires Threads(s, e, Spin(u, b, 0), y)
    requires !tr.execStart && tr.writtenSlots == 1
    ensures Reached(Tiny(), s') && Shown(s', u + 1, u + 1, t, b, Running(tr, u, e), other)
    ensures Threads(s', e, ReadRows(u, b, []), y)
  {
    hide Reached, BatchId, LowerBound, PieceAt, RunOk;
    var s1 := ExecutorMoves(s, e, false);
    var s2 := ExecutorMoves(s1, e, false);
    s' := ExecutorMoves(s2, e, false);
  }

  lemma Runs(s: State, u: nat, t: nat, b: nat, tr: Tracker, other: Tracker, e: nat, y: ExecutorPc) returns (s': State)
    requires Reached(Tiny(), s) && b < 2 && (u == b || u == b + 2) && e < 2
    requires Shown(s, u + 1, u + 1, t, b, Running(tr, u, e), other)
    requires Threads(s, e, ReadRows(u, b, []), y)
    ensures Reached(Tiny(), s') && Shown(s', u + 1, u + 1, t, b, Running(tr, u, e), other)
    ensures Threads(s', e, SetExecEnd(u, b, Ok([])), y)
  {
    hide Reached, BatchId, LowerBound, PieceAt;
    var s1 := ExecutorMoves(s, e, false);
    s' := ExecutorMoves(s1, e, false);
  }

  lemma NotFilledYet(s: State, b: nat)
    requires Reached(Tiny(), s) && !s.panicked && b < |s.trackers|
    ensures s.trackers[b].stage != FILLED ==> Cell(b, s.trackers[b].gen) !in s.outputs
  {
    hide Inv, Init, SafeNext, LapOf, Calm;
    var run :| Run(Tiny(), run) && run[|run| - 1] == s;
    RunKeeps(Tiny(), run, |run| - 1);
    TrackerOf(Tiny(), Calm(s), b);
  }

  lemma Ends(s: State, u: nat, t: nat, b: nat, tr: Tracker, other: Tracker, e: nat, y: ExecutorPc) returns (s': State)
    requires Reached(Tiny(), s) && b < 2 && (u == b || u == b + 2) && e < 2
    requires Shown(s, u + 1, u + 1, t, b, Running(tr, u, e), other)
    requires Threads(s, e, SetExecEnd(u, b, Ok([])), y) && !tr.execEnd
    ensures Reached(Tiny(), s')
    ensures Shown(s', u + 1, u + 1, t, b, Running(tr, u, e).(execEnd := true, stage := FILLED), other)
    ensures Threads(s', e, ResetState(u, b), y)
  {
    hide Reached, BatchId, LowerBound, PieceAt;
    var s1 := ExecutorMoves(s, e, false);
    NotFilledYet(s1, b);
    s' := ExecutorMoves(s1, e, false);
  }

  /** A tracker whose lap u executor e has run and reset. */
  function Finished(tr: Tracker, u: nat, e: nat): (tr': Tracker) {
    Tracker(2, 0, tr.gen + 1, false, false, false, false, tr.lap, DONE, u + 1, e)
  }

  lemma Resets(s: State, u: nat, t: nat, b: nat, tr: Tracker, other: Tracker, e: nat, y: ExecutorPc) returns (s': State)
    requires Reached(Tiny(), s) && b < 2 && (u == b || u == b + 2) && e < 2
    requires Shown(s, u + 1, u + 1, t, b, Running(tr, u, e).(execEnd := true, stage := FILLED), other)
    requires Threads(s, e, ResetState(u, b), y)
    ensures Reached(Tiny(), s') && Shown(s', u + 1, u + 1, t, b, Finished(tr, u, e), other)
    ensures Threads(s', e, TailLoad, y)
  {
    hide Reached, BatchId, LowerBound, PieceAt, RunOk;
    var s1 := ExecutorMoves(s, e, false);
    var s2 := ExecutorMoves(s1, e, false);
    s' := ExecutorMoves(s2, e, false);
  }

  /** Executor e claims, seals, runs and resets the batch at u. */
  lemma BatchRuns(s: State, u: nat, t: nat, b: nat, tr: Tracker, other: Tracker, e: nat, y: ExecutorPc)
    returns (s': State)
    requires Reached(Tiny(), s) && b < 2 && (u == b || u == b + 2) && e < 2 && Shown(s, u + 1, u, t, b, tr, other)
    requires Threads(s, e, LoadExecutorHead, y) && Cell(b, tr.gen) in s.permits && t <= u < t + 2
    requires !tr.execStart && !tr.execEnd && tr.writtenSlots == 1
    ensures Reached(Tiny(), s') && Shown(s', u + 1, u + 1, t, b, Finished(tr, u, e), other)
    ensures Threads(s', e, TailLoad, y)
  {
    hide Reached, Shown, Threads;
    s' := Claims(s, u, t, b, tr, other, e, y);
    s' := Seals(s', u, t, b, tr, other, e, y);
    s' := Starts(s', u, t, b, tr, other, e, y);
    s' := Runs(s', u, t, b, tr, other, e, y);
    s' := Ends(s', u, t, b, tr, other, e, y);
    s' := Resets(s', u, t, b, tr, other, e, y);
  }

  // ----- both batches are finished, and both executors are at the tail loop -----

  lemma Begin() returns (s: State)
    ensures Reached(Tiny(), s) && Shown(s, 0, 0, 0, 0, NewTracker(0), NewTracker(1))
    ensures Threads(s, 0, LoadExecutorHead, LoadExecutorHead)
  {
    s := TinyStart();
    assert Init(Tiny(), s) by {
      assert LapOf(Tiny().geometry, 0, 0) == 0 && LapOf(Tiny().geometry, 1, 0) == 1;
    }
    ReachedFirst(Tiny(), s);
  }

  /** The two trackers after their first laps. */
  function Done0(): (tr: Tracker) {
    Finished(Marked(NewTracker(0), 1), 0, 0)
  }

  function Done1(): (tr: Tracker) {
    Finished(Marked(NewTracker(1), 1), 1, 1)
  }

  lemma SwapTrackers(s: State, h: nat, eh: nat, t: nat, mine: Tracker, other: Tracker)
    requires Shown(s, h, eh, t, 0, mine, other)
    ensures Shown(s, h, eh, t, 1, other, mine)
  {
  }

  lemma SwapTrackersBack(s: State, h: nat, eh: nat, t: nat, mine: Tracker, other: Tracker)
    requires Shown(s, h, eh, t, 1, mine, other)
    ensures Shown(s, h, eh, t, 0, other, mine)
  {
  }

  lemma SwapThreads(s: State, e: nat, mine: ExecutorPc, other: ExecutorPc)
    requires Threads(s, e, mine, other)
    ensures Threads(s, 1 - e, other, mine)
  {
  }

  lemma SameThreads(s: State, s': State, e: nat, mine: ExecutorPc, other: ExecutorPc)
    requires Threads(s, e, mine, other) && s'.executors == s.executors
    ensures Threads(s', e, mine, other)
  {
  }

  /** Executor 0 runs batch 0 and executor 1 runs batch 1; tail has not moved. */
  lemma BothFinish() returns (s: State)
    ensures Reached(Tiny(), s) && Shown(s, 2, 2, 0, 0, Done0(), Done1())
    ensures Threads(s, 0, TailLoad, TailLoad)
  {
    hide Reached, Shown, Threads;
    var s0 := Begin();
    var s1 := RequestWrites(s0, 0, 0, 0, 0, NewTracker(0), NewTracker(1));
    SameThreads(s0, s1, 0, LoadExecutorHead, LoadExecutorHead);
    var s2 := BatchRuns(s1, 0, 0, 0, Marked(NewTracker(0), 1), NewTracker(1), 0, LoadExecutorHead);
    SwapTrackers(s2, 1, 1, 0, Done0(), NewTracker(1));
    SwapThreads(s2, 0, TailLoad, LoadExecutorHead);
    var s3 := RequestWrites(s2, 1, 1, 0, 1, NewTracker(1), Done0());
    SameThreads(s2, s3, 1, LoadExecutorHead, TailLoad);
    s := BatchRuns(s3, 1, 0, 1, Marked(NewTracker(1), 1), Done0(), 1, TailLoad);
    SwapTrackersBack(s, 2, 2, 0, Done1(), Done0());
    SwapThreads(s, 1, TailLoad, TailLoad);
  }

  /** Executor e reads tail 0 and finds batch 0 marked. */
  lemma FindsMark(s: State, e: nat, y: ExecutorPc) returns (s': State)
    requires Reached(Tiny(), s) && Shown(s, 2, 2, 0, 0, Done0(), Done1()) && Threads(s, e, TailLoad, y)
    ensures Reached(Tiny(), s') && Shown(s', 2, 2, 0, 0, Done0(), Done1()) && Threads(s', e, TailDirtyCas(0), y)
  {
    hide Reached, BatchId, LowerBound, PieceAt, RunOk;
    TinyIndex(0, 0);
    var s1 := ExecutorMoves(s, e, false);
    var s2 := ExecutorMoves(s1, e, false);
    s' := ExecutorMoves(s2, e, false);
  }

  /** It takes the mark. */
  lemma TakesMark(s: State, e: nat, y: ExecutorPc) returns (s': State)
    requires Reached(Tiny(), s) && Shown(s, 2, 2, 0, 0, Done0(), Done1()) && Threads(s, e, TailDirtyCas(0), y)
    ensures Reached(Tiny(), s') && Shown(s', 2, 2, 0, 0, Done0().(dirty := 0), Done1()) && Threads(s', e, TailCas(0), y)
  {
    hide Reached, BatchId, LowerBound, PieceAt, RunOk;
    TinyIndex(0, 0);
    s' := ExecutorMoves(s, e, false);
  }

  // ----- the weak CAS on tail fails -----

  lemma TailCasFails(s: State) returns (s': State)
    requires Reached(Tiny(), s) && Shown(s, 2, 2, 0, 0, Done0().(dirty := 0), Done1())
    requires Threads(s, 0, TailCas(0), TailLoad)
    ensures Reached(Tiny(), s') && Lost(s', 0)
  {
    hide Reached, BatchId, LowerBound, PieceAt, RunOk;
    TinyIndex(0, 0);
    s' := ExecutorMoves(s, 0, true);
  }

  lemma LostReached(s: State)
    requires Reached(Tiny(), s) && Lost(s, 0)
    ensures exists run: seq<State> :: Run(Tiny(), run) && Lost(run[|run| - 1], 0)
  {
    hide Run, Lost;
  }

  /** Some run loses batch 0 because the weak CAS on tail fails once, with tail as expected. */
  lemma SpuriousFailureLoses()
    ensures exists run: seq<State> :: Run(Tiny(), run) && Lost(run[|run| - 1], 0)
  {
    hide Reached, Shown, Threads, Lost;
    var s := BothFinish();
    s := FindsMark(s, 0, TailLoad);
    s := TakesMark(s, 0, TailLoad);
    s := TailCasFails(s);
    LostReached(s);
  }

  // ----- a stale tail meets the mark of a later lap -----

  /** Batch 0 once tail has moved over it. */
  function Again0(): (tr: Tracker) {
    Done0().(dirty := 0, lap := 2, stage := UNCLAIMED)
  }

  lemma TailMoves(s: State) returns (s': State)
    requires Reached(Tiny(), s) && Shown(s, 2, 2, 0, 0, Done0().(dirty := 0), Done1())
    requires Threads(s, 0, TailCas(0), TailDirtyCas(0))
    ensures Reached(Tiny(), s') && Shown(s', 2, 2, 1, 0, Again0(), Done1())
    ensures Threads(s', 0, LoadExecutorHead, TailDirtyCas(0))
  {
    hide Reached, BatchId, LowerBound, PieceAt, RunOk;
    TinyIndex(0, 0);
    var s1 := ExecutorMoves(s, 0, false);
    var s2 := ExecutorMoves(s1, 0, false);
    s' := ExecutorMoves(s2, 0, false);
  }

  lemma StaleMarkTaken(s: State, tr: Tracker) returns (s': State)
    requires Reached(Tiny(), s) && Shown(s, 3, 3, 1, 0, tr, Done1()) && Threads(s, 1, TailDirtyCas(0), TailLoad)
    requires tr.dirty == 2 && tr.stage == DONE && tr.lap == 2
    ensures Reached(Tiny(), s') && Lost(s', 0) && s'.trackers[0].lap == 2
  {
    hide Reached, BatchId, LowerBound, PieceAt, RunOk;
    TinyIndex(0, 0);
    s' := ExecutorMoves(s, 1, false);
  }

  lemma LaterLapReached(s: State)
    requires Reached(Tiny(), s) && Lost(s, 0) && s.trackers[0].lap == 2
    ensures exists run: seq<State> ::
              Run(Tiny(), run) && Lost(run[|run| - 1], 0) && run[|run| - 1].trackers[0].lap == 2
  {
    hide Run;
  }

  /**
   Some run loses the second lap of batch 0 without any spurious failure: executor 1 finds
   the first lap marked and pauses, executor 0 moves tail over it and runs the batch once
   more, and executor 1 then takes the new mark.
  */
  lemma StaleTailLoses()
    ensures exists run: seq<State> ::
              Run(Tiny(), run) && Lost(run[|run| - 1], 0) && run[|run| - 1].trackers[0].lap == 2
  {
    hide Reached, Shown, Threads, Lost;
    var s0 := BothFinish();
    SwapThreads(s0, 0, TailLoad, TailLoad);
    var s1 := FindsMark(s0, 1, TailLoad);
    SwapThreads(s1, 1, TailDirtyCas(0), TailLoad);
    var s2 := FindsMark(s1, 0, TailDirtyCas(0));
    var s3 := TakesMark(s2, 0, TailDirtyCas(0));
    var s4 := TailMoves(s3);
    var s5 := RequestWrites(s4, 2, 2, 1, 0, Again0(), Done1());
    SameThreads(s4, s5, 0, LoadExecutorHead, TailDirtyCas(0));
    var s6 := BatchRuns(s5, 2, 1, 0, Marked(Again0(), 1), Done1(), 0, TailDirtyCas(0));
    SwapThreads(s6, 0, TailLoad, TailDirtyCas(0));
    var s7 := StaleMarkTaken(s6, Finished(Marked(Again0(), 1), 2, 0));
    LaterLapReached(s7);
  }
}
