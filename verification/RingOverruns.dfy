/** How requests overrun the ring when their sizes do not suit it, from every warmed-up start. */
module RingOverruns {
  import opened InferTypes
  import opened Multiples
  import opened Ranges
  import opened RingGeometry
  import opened RingModel
  import opened RingSteps
  import opened RingEffects
  import opened RingInvariant
  import opened RingProducerProofs
  import opened RingExecutorProofs
  import opened RingRuns
  import opened RingTheorems
  import opened RingAdmission
  import opened RingProgress

  // ----- a ring that enters service at a given start -----

  /** Where the warmups left tail: one batch behind head. */
  function FirstTail(g: Geometry, start: nat): (tail: nat) {
    if start < g.batchSize then 0 else start - g.batchSize
  }

  /** The first generation of tracker b that serves a lap at or past the start. */
  function FirstGen(g: Geometry, b: nat, start: nat): (gen: nat)
    requires g.Valid()
  {
    RingIsPositive(g);
    start / g.ring + (if b * g.batchSize < start % g.ring then 1 else 0)
  }

  lemma FirstLap(g: Geometry, b: nat, start: nat)
    requires g.Valid() && b < g.capacity
    ensures start <= LapOf(g, b, FirstGen(g, b, start)) < start + g.ring
  {
    RingIsPositive(g);
    BatchOffsetBound(g, b, 0);
    LapOfExact(g, b, FirstGen(g, b, start));
    DivMod(start, g.ring);
    Distribute(start / g.ring + 1, 1, g.ring);
  }

  ghost function FirstTracker(g: Geometry, b: nat, start: nat): (tr: Tracker)
    requires g.Valid() && b < g.capacity
  {
    FirstLap(g, b, start);
    var gen := FirstGen(g, b, start);
    var u := LapOf(g, b, gen);
    if start > 0 && u == FirstTail(g, start) + g.ring
    then Tracker(2, 0, gen, false, false, false, false, FirstTail(g, start), DONE, FirstTail(g, start), 0)
    else Tracker(0, 0, gen, false, false, false, false, u, UNCLAIMED, 0, 0)
  }

  /** A ring with one executor. */
  ghost function Started(g: Geometry, start: nat): (s: State)
    requires g.Valid()
  {
    State(start, start, FirstTail(g, start),
          seq(g.capacity, b requires 0 <= b < g.capacity => FirstTracker(g, b, start)),
          seq(g.capacity, b => seq(g.batchSize, i => [])),
          map[], {}, [], [LoadExecutorHead], false, map[], {}, map[], multiset{}, multiset{}, multiset{})
  }

  function NoOutputs(g: Geometry, start: nat): (c: Config) {
    Config(g, start, 0, (row: Row) => [])
  }

  lemma FirstTailFacts(g: Geometry, start: nat)
    requires g.Valid() && Multiple(g.batchSize, start)
    ensures Multiple(g.batchSize, FirstTail(g, start)) && FirstTail(g, start) <= start
    ensures start > 0 ==> FirstTail(g, start) + g.batchSize == start
    ensures Multiple(g.batchSize, FirstTail(g, start) + g.ring)
  {
    RingIsPositive(g);
    Sum(g.batchSize, FirstTail(g, start), g.ring);
  }

  lemma StartedTracker(g: Geometry, start: nat, b: nat)
    requires g.Valid() && b < g.capacity && Multiple(g.batchSize, start)
    ensures InitTracker(NoOutputs(g, start), b, FirstTracker(g, b, start), FirstTail(g, start))
  {
    hide LapOf, FirstGen;
    FirstLap(g, b, start);
    FirstTailFacts(g, start);
    LapOfIsAligned(g, b, FirstGen(g, b, start));
    var u := LapOf(g, b, FirstGen(g, b, start));
    if u > FirstTail(g, start) + g.ring {
      Gap(g.batchSize, FirstTail(g, start) + g.ring, u);
    }
  }

  lemma StartedIsInitial(g: Geometry, start: nat)
    requires g.Valid() && g.capacity >= 2 && Multiple(g.batchSize, start)
    ensures Init(NoOutputs(g, start), Started(g, start))
  {
    hide InitTracker, FirstTracker, Multiple;
    var s := Started(g, start);
    FirstTailFacts(g, start);
    forall b | 0 <= b < |s.trackers| ensures InitTracker(NoOutputs(g, start), b, s.trackers[b], s.tail) {
      StartedTracker(g, start, b);
    }
  }

  // ----- a run that changes what is left of the ring -----

  ghost predicate SizedReached(c: Config, s: State, sizes: set<nat>) {
    exists run :: SizedRun(c, run, sizes) && run[|run| - 1] == s
  }

  /** A reached state in which the invariant still holds. */
  ghost predicate Safe(c: Config, s: State, sizes: set<nat>) {
    Inv(c, s) && SizedReached(c, s, sizes)
  }

  lemma Takes(c: Config, s: State, sizes: set<nat>, a: Action) returns (s': State)
    requires Safe(c, s, sizes) && Enabled(c, s, a) && GrantFits(c, s, a) && !SealsTooEarly(s, a)
    requires a.Arrive? ==> |a.rows| in sizes
    ensures s' == Apply(c, s, a) && Safe(c, s', sizes) && !s'.panicked
  {
    hide Inv, Enabled, GrantFits, Apply, SealsTooEarly, Init;
    s' := Apply(c, s, a);
    ActionKeeps(c, s, a);
    NotPanicked(c, s');
    var run :| SizedRun(c, run, sizes) && run[|run| - 1] == s;
    RunExtends(c, run, s', sizes);
    assert (run + [s'])[|run + [s']| - 1] == s';
  }

  /** The batch that the warmups left behind tail, if there were any, keeps its mark. */
  ghost predicate OldMark(c: Config, s: State)
    requires c.geometry.Valid()
  {
    s.tail < c.start ==>
      var b := BatchId(c.geometry, s.tail); b < |s.trackers| && s.trackers[b].dirty == 2
  }

  /** One request of n rows, and an executor that has not moved yet. */
  ghost predicate Serving(c: Config, s: State, sizes: set<nat>, n: nat, head: nat)
    requires c.geometry.Valid()
  {
    && Safe(c, s, sizes) && OldMark(c, s)
    && s.head == head && s.tail == FirstTail(c.geometry, c.start) && s.executorHead == c.start
    && |s.producers| == 1 && |s.producers[0].rows| == n
    && s.executors == [LoadExecutorHead]
  }

  /** The tracker of the first lap is not the one behind tail. */
  lemma TwoTrackers(c: Config, s: State)
    requires Inv(c, s) && c.geometry.Valid() && s.tail == FirstTail(c.geometry, c.start)
    ensures BatchId(c.geometry, c.start) < |s.trackers| == c.geometry.capacity
    ensures s.trackers[BatchId(c.geometry, c.start)].lap == c.start
    ensures s.tail < c.start ==> BatchId(c.geometry, s.tail) != BatchId(c.geometry, c.start)
  {
    hide Inv, BatchId, Multiple;
    ConfigOf(c, s);
    SizesOf(c, s);
    FirstTailFacts(c.geometry, c.start);
    TwoBatches(c.geometry);
    TrackerAt(c, s, s.tail);
    TrackerAt(c, s, c.start);
  }

  // the request

  lemma LoadsHeadNext(c: Config, s: State, p: nat)
    requires ProducerEnabled(c, s, p) && s.producers[p].pc.LoadHead?
    ensures var s' := ProducerStep(c, s, p, false); p < |s'.producers| && s'.producers[p].pc == LoadTail(s.head)
  {
    hide BelowRing;
  }

  lemma LoadsTailNext(c: Config, s: State, p: nat)
    requires ProducerEnabled(c, s, p) && s.producers[p].pc.LoadTail?
    requires BelowRing(c.geometry, s.producers[p].pc.h, s.tail)
    ensures var s' := ProducerStep(c, s, p, false);
            p < |s'.producers| && s'.producers[p].pc == Reserve(s.producers[p].pc.h, s.tail)
  {
    hide BelowRing;
  }

  lemma ReservesNext(c: Config, s: State, p: nat)
    requires ProducerEnabled(c, s, p) && s.producers[p].pc.Reserve? && s.producers[p].pc.h == s.head
    ensures var s' := ProducerStep(c, s, p, false); var n := |s.producers[p].rows|;
            && p < |s'.producers| && s'.head == s.head + n && s'.producers[p].first == s.head
            && s'.producers[p].pc == Copy(PieceAt(c.geometry, s.head, 0, n), 0)
  {
    hide PieceAt, WithSlots;
  }

  /** A step of the only request's producer. */
  lemma Serves(c: Config, s: State, sizes: set<nat>, n: nat, head: nat) returns (s': State)
    requires c.geometry.Valid() && Serving(c, s, sizes, n, head) && ProducerEnabled(c, s, 0)
    requires var pc := s.producers[0].pc; pc.Reserve? ==> pc.h != head || head + n <= s.tail + c.geometry.ring
    requires Writing(s.producers[0].pc) ==> s.producers[0].pc.piece.batch == BatchId(c.geometry, c.start)
    ensures s' == ProducerStep(c, s, 0, false) && !s'.panicked
    ensures Serving(c, s', sizes, n, s'.head) && (s'.head == head || s.producers[0].pc.Reserve?)
  {
    hide Inv, ProducerStep, ProducerEnabled, BatchId, SizedReached;
    NotPanicked(c, s);
    s' := Takes(c, s, sizes, Produce(0, false));
    TwoTrackers(c, s);
    ProducerEffects(c, s, 0, false, 0, BatchId(c.geometry, s.tail));
  }

  lemma RunBegins(c: Config, s: State)
    requires Init(c, s)
    ensures c.Valid() && FirstTail(c.geometry, c.start) <= c.start < FirstTail(c.geometry, c.start) + c.geometry.ring
  {
    hide Multiple;
    FirstTailFacts(c.geometry, c.start);
    TwoBatches(c.geometry);
  }

  lemma FirstArrives(c: Config, s: State, sizes: set<nat>, n: nat) returns (s': State)
    requires c.geometry.Valid() && Init(c, s) && s.executors == [LoadExecutorHead] && n >= 1 && n in sizes
    ensures Serving(c, s', sizes, n, c.start) && s'.producers[0].pc == LoadHead
  {
    hide Inv, SizedReached, BatchId, InitTracker;
    InitInv(c, s);
    ReachedAtStart(c, s, sizes);
    MarkedAtStart(c, s);
    NotPanicked(c, s);
    s' := Takes(c, s, sizes, Arrive(seq(n, i => [])));
  }

  lemma ReachedAtStart(c: Config, s: State, sizes: set<nat>)
    requires Init(c, s)
    ensures SizedReached(c, s, sizes)
  {
    hide Init;
    FirstStep(c, [s], sizes);
    assert [s][|[s]| - 1] == s;
  }

  lemma MarkedAtStart(c: Config, s: State)
    requires c.geometry.Valid() && Init(c, s)
    ensures OldMark(c, s)
  {
    hide Inv, BatchId, LapOf, Multiple;
    InitInv(c, s);
    FirstTailFacts(c.geometry, c.start);
    CountersOf(c, s);
    RingIsPositive(c.geometry);
    TrackerAt(c, s, s.tail);
    TrackerOf(c, s, BatchId(c.geometry, s.tail));
    assert InitTracker(c, BatchId(c.geometry, s.tail), s.trackers[BatchId(c.geometry, s.tail)], s.tail);
  }

  /** The request is admitted; its first piece begins at the first slot of the first lap. */
  lemma FirstReserves(c: Config, s: State, sizes: set<nat>, n: nat) returns (s': State)
    requires c.geometry.Valid() && Init(c, s) && s.executors == [LoadExecutorHead] && n >= 1 && n in sizes
    requires c.start + n <= FirstTail(c.geometry, c.start) + c.geometry.ring
    ensures Serving(c, s', sizes, n, c.start + n)
    ensures s'.producers[0].first == c.start
    ensures s'.producers[0].pc == Copy(PieceAt(c.geometry, c.start, 0, n), 0)
  {
    hide Inv, Init, ProducerStep, BatchId, SizedReached, PieceAt, OldMark;
    RunBegins(c, s);
    s' := FirstArrives(c, s, sizes, n);
    ProducerStops(c, s', 0);
    LoadsHeadNext(c, s', 0);
    s' := Serves(c, s', sizes, n, c.start);
    ProducerStops(c, s', 0);
    LoadsTailNext(c, s', 0);
    s' := Serves(c, s', sizes, n, c.start);
    ProducerStops(c, s', 0);
    ReservesNext(c, s', 0);
    s' := Serves(c, s', sizes, n, c.start);
  }

  // the first piece

  /** A first piece, at slot 0 of its batch: it ends with a notify. */
  ghost predicate FirstPiece(c: Config, s: State, n: nat) {
    && c.geometry.Valid() && n >= 1
    && |s.producers| == 1 && |s.producers[0].rows| == n && s.producers[0].first == c.start
    && HasPiece(s.producers[0].pc) && s.producers[0].pc.piece == PieceAt(c.geometry, c.start, 0, n)
  }

  lemma FirstPieceFacts(c: Config, n: nat)
    requires c.Valid() && n >= 1
    ensures PieceAt(c.geometry, c.start, 0, n)
         == Piece(0, c.start, BatchId(c.geometry, c.start),
                  if n < c.geometry.batchSize then n else c.geometry.batchSize)
  {
    hide BatchId, LowerBound;
    LowerBoundIs(c.geometry, c.start, c.start);
  }

  lemma {:induction false} FirstPieceWritten(c: Config, s: State, sizes: set<nat>, n: nat) returns (s': State)
    requires FirstPiece(c, s, n) && Serving(c, s, sizes, n, c.start + n)
    ensures FirstPiece(c, s', n) && Serving(c, s', sizes, n, c.start + n) && s'.producers[0].pc.Notify?
    decreases PieceRank(s.producers[0].pc)
  {
    hide Inv, ProducerStep, ProducerEnabled, BatchId, SizedReached, PieceAt, OldMark;
    if s.producers[0].pc.Notify? {
      s' := s;
    } else {
      ConfigOf(c, s);
      FirstPieceFacts(c, n);
      ProducerStops(c, s, 0);
      s' := Serves(c, s, sizes, n, c.start + n);
      ProducerEffects(c, s, 0, false, 0, 0);
      InsertAdvances(c, s, 0, false);
      s' := FirstPieceWritten(c, s', sizes, n);
    }
  }

  /** The first lap's permit is stored, and if the first piece fills the lap, all its slots are counted. */
  ghost predicate Woken(c: Config, s: State, n: nat)
    requires c.geometry.Valid()
  {
    var b := BatchId(c.geometry, c.start);
    && b < |s.trackers|
    && Cell(b, s.trackers[b].gen) in s.permits
    && (n >= c.geometry.batchSize ==> s.trackers[b].writtenSlots == c.geometry.batchSize)
  }

  /** Once the first piece is published, written_slots counts it. */
  lemma FirstPieceCounted(c: Config, s: State, n: nat)
    requires Inv(c, s) && FirstPiece(c, s, n) && s.producers[0].pc.Notify? && n >= c.geometry.batchSize
    requires s.tail == FirstTail(c.geometry, c.start) && s.executorHead == c.start
    ensures var b := BatchId(c.geometry, c.start);
            b < |s.trackers| && s.trackers[b].writtenSlots == c.geometry.batchSize
  {
    hide Inv, BatchId, Multiple, LapOf;
    ConfigOf(c, s);
    FirstPieceFacts(c, n);
    TwoTrackers(c, s);
    TrackerOf(c, s, BatchId(c.geometry, c.start));
    OwnParts(c, s, 0);
    BoundsOf(c, s);
    var lap := Range(c.start, c.start + c.geometry.batchSize);
    forall a | a in lap ensures a in s.published {
      assert ProgressOk(a, s.owner[a], s.producers, s.published);
    }
    assert PublishedIn(c.geometry, s.published, c.start) == lap;
  }

  lemma FirstNotifies(c: Config, s: State, sizes: set<nat>, n: nat) returns (s': State)
    requires FirstPiece(c, s, n) && Serving(c, s, sizes, n, c.start + n) && s.producers[0].pc.Notify?
    ensures Serving(c, s', sizes, n, c.start + n) && Woken(c, s', n)
  {
    hide Inv, ProducerStep, ProducerEnabled, BatchId, SizedReached, PieceAt, OldMark;
    ConfigOf(c, s);
    FirstPieceFacts(c, n);
    TwoTrackers(c, s);
    if n >= c.geometry.batchSize {
      FirstPieceCounted(c, s, n);
    }
    ProducerStops(c, s, 0);
    s' := Serves(c, s, sizes, n, c.start + n);
    ProducerEffects(c, s, 0, false, 0, BatchId(c.geometry, c.start));
  }

  /** One request of n rows has its first piece written, and its executor can be woken. */
  lemma RequestIsServed(c: Config, s: State, sizes: set<nat>, n: nat) returns (s': State)
    requires c.geometry.Valid() && Init(c, s) && s.executors == [LoadExecutorHead] && n >= 1 && n in sizes
    requires c.start + n <= FirstTail(c.geometry, c.start) + c.geometry.ring
    ensures Serving(c, s', sizes, n, c.start + n) && Woken(c, s', n)
  {
    hide Inv, Init, BatchId, SizedReached, PieceAt, OldMark, Woken;
    RunBegins(c, s);
    FirstPieceFacts(c, n);
    s' := FirstReserves(c, s, sizes, n);
    s' := FirstPieceWritten(c, s', sizes, n);
    s' := FirstNotifies(c, s', sizes, n);
  }

  // the executor

  /** The only executor, on its way with the first lap. */
  ghost predicate Turning(c: Config, s: State, sizes: set<nat>, head: nat, tail: nat)
    requires c.geometry.Valid()
  {
    && Safe(c, s, sizes) && s.head == head && s.tail == tail == FirstTail(c.geometry, c.start)
    && |s.executors| == 1
    && var pc := s.executors[0];
       && (!pc.TailCas? ==> OldMark(c, s))
       && Claims(c, s, pc) && Fills(c, s, pc) && Passing(c, s, pc)
  }

  /** Before it is woken it has, or will find, the permit. */
  ghost predicate Claims(c: Config, s: State, pc: ExecutorPc)
    requires c.geometry.Valid()
  {
    && (pc.LoadExecutorHead? || pc.LoadTailForClaim? || pc.Claim? ==> s.executorHead == c.start)
    && (pc.LoadTailForClaim? || pc.Claim? ==> pc.e == c.start)
    && (pc.LoadExecutorHead? || pc.LoadTailForClaim? || pc.Claim? || pc.BorrowNotifier? || pc.AwaitNotify? ==>
          var b := BatchId(c.geometry, c.start); b < |s.trackers| && Cell(b, s.trackers[b].gen) in s.permits)
  }

  /** While it holds the lap; if head is past it, the lap is full and will be sealed as it is. */
  ghost predicate Fills(c: Config, s: State, pc: ExecutorPc)
    requires c.geometry.Valid()
  {
    && (Holding(pc) ==> pc.lap == c.start && pc.batch == BatchId(c.geometry, c.start))
    && (s.head >= c.start + c.geometry.batchSize ==>
          && !pc.SealCas?
          && (pc.Spin? ==> pc.remaining == 0)
          && (ToFill(pc) ==>
                var b := BatchId(c.geometry, c.start);
                b < |s.trackers| && s.trackers[b].writtenSlots == c.geometry.batchSize))
  }

  predicate ToFill(pc: ExecutorPc) {
    || pc.LoadExecutorHead? || pc.LoadTailForClaim? || pc.Claim? || pc.BorrowNotifier? || pc.AwaitNotify?
    || pc.SealLoad? || pc.Spin?
  }

  /** In the tail loop it finds the mark of the batch behind tail. */
  ghost predicate Passing(c: Config, s: State, pc: ExecutorPc)
    requires c.geometry.Valid()
  {
    && (pc.TailHead? || pc.TailDirty? || pc.TailDirtyCas? || pc.TailCas? ==> pc.t == s.tail)
    && (pc.TailLoad? || pc.TailHead? || pc.TailDirty? || pc.TailDirtyCas? ==>
          var b := BatchId(c.geometry, s.tail); b < |s.trackers| && s.trackers[b].dirty == 2)
  }

  predicate Waking(pc: ExecutorPc) {
    pc.LoadExecutorHead? || pc.LoadTailForClaim? || pc.Claim? || pc.BorrowNotifier? || pc.AwaitNotify? || pc.SealLoad?
  }

  function TurnRank(g: Geometry, pc: ExecutorPc): (r: int) {
    match pc
    case LoadExecutorHead => 23 + g.batchSize
    case LoadTailForClaim(_) => 22 + g.batchSize
    case Claim(_) => 21 + g.batchSize
    case BorrowNotifier(_, _) => 20 + g.batchSize
    case AwaitNotify(_, _, _) => 19 + g.batchSize
    case SealLoad(_, _) => 18 + g.batchSize
    case SealCas(_, _, _, _) => 17 + g.batchSize
    case Spin(_, _, _) => 16 + g.batchSize
    case SetExecStart(_, _) => 15 + g.batchSize
    case LoadItems(_, _) => 14 + g.batchSize
    case ReadRows(_, _, seen) => 13 + g.batchSize - |seen|
    case SetExecEnd(_, _, _) => 12
    case SetOutput(_, _, _) => 11
    case ResetState(_, _) => 10
    case ResetWritten(_, _) => 9
    case ResetDirty(_, _) => 8
    case TailLoad => 7
    case TailHead(_) => 6
    case TailDirty(_) => 5
    case TailDirtyCas(_) => 4
    case TailCas(_) => 3
  }

  /** What a step of the executor leaves alone on this way. */
  lemma TurnFrame(c: Config, s: State, sizes: set<nat>, head: nat, tail: nat, result: BatchResult) returns (s': State)
    requires c.geometry.Valid() && Turning(c, s, sizes, head, tail) && ExecutorEnabled(c, s, 0, result)
    requires var pc := s.executors[0];
             !pc.TailCas? && !pc.SealCas? && (pc.SealLoad? ==> c.start <= head)
    ensures s' == ExecutorStep(c, s, 0, false, result) && !s'.panicked && Safe(c, s', sizes)
    ensures s'.head == head && s'.tail == tail && |s'.executors| == 1
    ensures var pc := s.executors[0];
            && (s'.executorHead == s.executorHead || pc.Claim?)
            && s'.permits == (if pc.AwaitNotify? then s.permits - {pc.notifier} else s.permits)
            && (!pc.TailDirtyCas? ==> OldMark(c, s'))
    ensures BatchId(c.geometry, c.start) < |s.trackers| == |s'.trackers|
    ensures var pc := s.executors[0];
            var tr := s.trackers[BatchId(c.geometry, c.start)]; var tr' := s'.trackers[BatchId(c.geometry, c.start)];
            && (tr'.gen == tr.gen || pc.ResetState?)
            && (tr'.writtenSlots == tr.writtenSlots || pc.ResetWritten?)
            && (tail == c.start && !pc.TailDirtyCas? ==> tr'.dirty == tr.dirty || tr'.dirty == 2)
            && (tail == c.start && pc.ResetDirty? ==> tr'.dirty == 2)
  {
    hide Inv, ExecutorStep, ExecutorEnabled, BatchId, SizedReached, PcEffect, Claims, Passing, RunOk;
    NotPanicked(c, s);
    s' := Takes(c, s, sizes, Execute(0, false, result));
    TwoTrackers(c, s);
    ExecutorEffects(c, s, 0, false, result, BatchId(c.geometry, c.start), 0);
    if tail < c.start {
      ExecutorEffects(c, s, 0, false, result, BatchId(c.geometry, tail), 0);
    }
  }

  // where the steps that use the counters take the executor here

  lemma LoadsExecutorHead(c: Config, s: State, e: nat, result: BatchResult)
    requires ExecutorEnabled(c, s, e, result) && e < |s.executors| && s.executors[e].LoadExecutorHead?
    ensures var s' := ExecutorStep(c, s, e, false, result);
            e < |s'.executors| && s'.executors[e] == LoadTailForClaim(s.executorHead)
  {
    hide RunOk, BelowRing, BatchId;
  }

  lemma LoadsTailForClaim(c: Config, s: State, e: nat, result: BatchResult)
    requires ExecutorEnabled(c, s, e, result) && e < |s.executors| && s.executors[e].LoadTailForClaim?
    requires BelowRing(c.geometry, s.executors[e].e, s.tail)
    ensures var s' := ExecutorStep(c, s, e, false, result);
            e < |s'.executors| && s'.executors[e] == Claim(s.executors[e].e)
  {
    hide RunOk, BelowRing, BatchId;
  }

  lemma ClaimsLap(c: Config, s: State, e: nat, result: BatchResult)
    requires ExecutorEnabled(c, s, e, result) && e < |s.executors| && s.executors[e].Claim?
    requires s.executors[e].e == s.executorHead
    ensures c.geometry.Valid()
    ensures var s' := ExecutorStep(c, s, e, false, result);
            e < |s'.executors| && s'.executors[e] == BorrowNotifier(s.executorHead, BatchId(c.geometry, s.executorHead))
  {
    hide RunOk, BelowRing, BatchId;
    BatchIdFacts(c.geometry, s.executorHead);
  }

  lemma SealsFullLap(c: Config, s: State, e: nat, result: BatchResult)
    requires ExecutorEnabled(c, s, e, result) && e < |s.executors| && s.executors[e].SealLoad?
    requires s.head >= s.executors[e].lap + c.geometry.batchSize
    ensures var s' := ExecutorStep(c, s, e, false, result);
            e < |s'.executors| && s'.executors[e] == Spin(s.executors[e].lap, s.executors[e].batch, 0)
  {
    hide RunOk, BelowRing, BatchId;
  }

  lemma LoadsTail(c: Config, s: State, e: nat, result: BatchResult)
    requires ExecutorEnabled(c, s, e, result) && e < |s.executors| && s.executors[e].TailLoad?
    ensures var s' := ExecutorStep(c, s, e, false, result);
            e < |s'.executors| && s'.executors[e] == TailHead(s.tail)
  {
    hide RunOk, BelowRing, BatchId;
  }

  lemma FindsHeadAhead(c: Config, s: State, e: nat, result: BatchResult)
    requires ExecutorEnabled(c, s, e, result) && e < |s.executors| && s.executors[e].TailHead?
    requires s.executors[e].t + c.geometry.batchSize < s.head
    ensures var s' := ExecutorStep(c, s, e, false, result);
            e < |s'.executors| && s'.executors[e] == TailDirty(s.executors[e].t)
  {
    hide RunOk, BelowRing, BatchId;
  }

  lemma FindsMark(c: Config, s: State, e: nat, result: BatchResult)
    requires c.geometry.Valid() && ExecutorEnabled(c, s, e, result) && e < |s.executors| && s.executors[e].TailDirty?
    requires var b := BatchId(c.geometry, s.executors[e].t); b < |s.trackers| && s.trackers[b].dirty == 2
    ensures var s' := ExecutorStep(c, s, e, false, result);
            e < |s'.executors| && s'.executors[e] == TailDirtyCas(s.executors[e].t)
  {
    hide RunOk, BelowRing, BatchId;
    BatchIdFacts(c.geometry, s.executors[e].t);
  }

  lemma TakesMark(c: Config, s: State, e: nat, result: BatchResult)
    requires c.geometry.Valid() && ExecutorEnabled(c, s, e, result) && e < |s.executors| && s.executors[e].TailDirtyCas?
    requires var b := BatchId(c.geometry, s.executors[e].t); b < |s.trackers| && s.trackers[b].dirty == 2
    ensures var s' := ExecutorStep(c, s, e, false, result);
            e < |s'.executors| && s'.executors[e] == TailCas(s.executors[e].t)
  {
    hide RunOk, BelowRing, BatchId;
    BatchIdFacts(c.geometry, s.executors[e].t);
  }

  /** A failed session is one of the answers a batch may get. */
  function SomeResult(): (result: BatchResult) {
    Err(SessionRun(""))
  }

  /** The executor has gone on. */
  ghost predicate Turned(c: Config, s: State, s': State, sizes: set<nat>, head: nat, tail: nat)
    requires c.geometry.Valid()
  {
    && Turning(c, s', sizes, head, tail)
    && |s.executors| == 1 && 0 < TurnRank(c.geometry, s'.executors[0]) < TurnRank(c.geometry, s.executors[0])
  }

  lemma CanTurn(c: Config, s: State, sizes: set<nat>, head: nat, tail: nat)
    requires c.geometry.Valid() && Turning(c, s, sizes, head, tail)
    requires head >= c.start + c.geometry.batchSize || !s.executors[0].Spin?
    ensures ExecutorEnabled(c, s, 0, SomeResult())
  {
    hide Inv, ExecutorEnabled, BatchId, SizedReached, OldMark, Passing, RunOk;
    HolderParts(c, s, 0);
    ExecutorStops(c, s, 0, SomeResult());
    AnyError(c, s);
  }

  lemma AnyError(c: Config, s: State)
    ensures forall rows {:trigger RunOk(c, rows, SomeResult())} :: RunOk(c, rows, SomeResult())
  {
  }

  lemma ClaimTurns(c: Config, s: State, sizes: set<nat>, head: nat, tail: nat) returns (s': State)
    requires c.geometry.Valid() && Turning(c, s, sizes, head, tail)
    requires var pc := s.executors[0]; pc.LoadExecutorHead? || pc.LoadTailForClaim? || pc.Claim?
    ensures Turned(c, s, s', sizes, head, tail) && Waking(s'.executors[0])
  {
    hide Inv, ExecutorStep, ExecutorEnabled, BatchId, SizedReached, OldMark, Multiple;
    CanTurn(c, s, sizes, head, tail);
    s' := TurnFrame(c, s, sizes, head, tail, SomeResult());
    ConfigOf(c, s);
    FirstTailFacts(c.geometry, c.start);
    TwoBatches(c.geometry);
    if s.executors[0].LoadExecutorHead? {
      LoadsExecutorHead(c, s, 0, SomeResult());
    } else if s.executors[0].LoadTailForClaim? {
      LoadsTailForClaim(c, s, 0, SomeResult());
    } else {
      ClaimsLap(c, s, 0, SomeResult());
    }
  }

  lemma WaitTurns(c: Config, s: State, sizes: set<nat>, head: nat, tail: nat) returns (s': State)
    requires c.geometry.Valid() && Turning(c, s, sizes, head, tail)
    requires s.executors[0].BorrowNotifier? || s.executors[0].AwaitNotify?
    ensures Turned(c, s, s', sizes, head, tail) && Waking(s'.executors[0])
  {
    hide Inv, ExecutorStep, ExecutorEnabled, BatchId, Safe, OldMark;
    CanTurn(c, s, sizes, head, tail);
    s' := TurnFrame(c, s, sizes, head, tail, SomeResult());
    ExecutorGoesOn(c, s, 0, false, SomeResult());
  }

  lemma SealTurns(c: Config, s: State, sizes: set<nat>, head: nat, tail: nat) returns (s': State)
    requires c.geometry.Valid() && Turning(c, s, sizes, head, tail) && head >= c.start + c.geometry.batchSize
    requires s.executors[0].SealLoad?
    ensures Turned(c, s, s', sizes, head, tail)
  {
    hide Inv, ExecutorStep, ExecutorEnabled, BatchId, Safe, OldMark;
    CanTurn(c, s, sizes, head, tail);
    s' := TurnFrame(c, s, sizes, head, tail, SomeResult());
    SealsFullLap(c, s, 0, SomeResult());
  }

  lemma BatchTurns(c: Config, s: State, sizes: set<nat>, head: nat, tail: nat) returns (s': State)
    requires c.geometry.Valid() && Turning(c, s, sizes, head, tail) && head >= c.start + c.geometry.batchSize
    requires !OnCounters(s.executors[0]) && !s.executors[0].BorrowNotifier? && !s.executors[0].AwaitNotify?
    ensures Turned(c, s, s', sizes, head, tail)
  {
    hide Inv, ExecutorStep, ExecutorEnabled, BatchId, Safe;
    CanTurn(c, s, sizes, head, tail);
    s' := TurnFrame(c, s, sizes, head, tail, SomeResult());
    ReaderFacts(c, s, sizes);
    ExecutorGoesOn(c, s, 0, false, SomeResult());
  }

  /** A session has read at most the rows of its batch. */
  lemma ReaderFacts(c: Config, s: State, sizes: set<nat>)
    requires Safe(c, s, sizes) && |s.executors| == 1
    ensures var pc := s.executors[0];
            pc.ReadRows? ==>
              && pc.batch < |s.buffers| && |s.buffers[pc.batch]| == c.geometry.batchSize
              && |pc.seen| <= c.geometry.batchSize
  {
    hide Inv;
    HolderParts(c, s, 0);
    BufferSizes(c, s);
  }

  lemma BufferSizes(c: Config, s: State)
    requires Inv(c, s)
    ensures forall b | 0 <= b < |s.buffers| :: |s.buffers[b]| == c.geometry.batchSize
  {
  }

  lemma TailTurns(c: Config, s: State, sizes: set<nat>, head: nat, tail: nat) returns (s': State)
    requires c.geometry.Valid() && Turning(c, s, sizes, head, tail) && head > tail + c.geometry.batchSize
    requires var pc := s.executors[0]; pc.TailLoad? || pc.TailHead? || pc.TailDirty? || pc.TailDirtyCas?
    ensures Turned(c, s, s', sizes, head, tail)
  {
    hide Inv, ExecutorStep, ExecutorEnabled, BatchId, Safe;
    CanTurn(c, s, sizes, head, tail);
    s' := TurnFrame(c, s, sizes, head, tail, SomeResult());
    if s.executors[0].TailLoad? {
      LoadsTail(c, s, 0, SomeResult());
    } else if s.executors[0].TailHead? {
      FindsHeadAhead(c, s, 0, SomeResult());
    } else if s.executors[0].TailDirty? {
      FindsMark(c, s, 0, SomeResult());
    } else {
      TakesMark(c, s, 0, SomeResult());
    }
  }

  /** The executor goes on until it has its lap to seal, and if the lap is full, until it is to move tail. */
  lemma {:induction false} Turns(c: Config, s: State, sizes: set<nat>, head: nat, tail: nat) returns (s': State)
    requires c.geometry.Valid() && Turning(c, s, sizes, head, tail)
    requires if head < c.start + c.geometry.batchSize then Waking(s.executors[0])
             else head > tail + c.geometry.batchSize
    ensures Turning(c, s', sizes, head, tail)
    ensures if head < c.start + c.geometry.batchSize then s'.executors[0].SealLoad? else s'.executors[0].TailCas?
    decreases TurnRank(c.geometry, s.executors[0])
  {
    hide Inv, ExecutorStep, ExecutorEnabled, BatchId, SizedReached, OldMark, Claims, Passing, Safe;
    var pc := s.executors[0];
    if pc.LoadExecutorHead? || pc.LoadTailForClaim? || pc.Claim? {
      s' := ClaimTurns(c, s, sizes, head, tail);
      s' := Turns(c, s', sizes, head, tail);
    } else if pc.BorrowNotifier? || pc.AwaitNotify? {
      s' := WaitTurns(c, s, sizes, head, tail);
      s' := Turns(c, s', sizes, head, tail);
    } else if pc.TailCas? || (pc.SealLoad? && head < c.start + c.geometry.batchSize) {
      s' := s;
    } else if pc.SealLoad? {
      s' := SealTurns(c, s, sizes, head, tail);
      s' := Turns(c, s', sizes, head, tail);
    } else if pc.TailLoad? || pc.TailHead? || pc.TailDirty? || pc.TailDirtyCas? {
      s' := TailTurns(c, s, sizes, head, tail);
      s' := Turns(c, s', sizes, head, tail);
    } else {
      s' := BatchTurns(c, s, sizes, head, tail);
      s' := Turns(c, s', sizes, head, tail);
    }
  }

  // what is left of the ring afterwards

  lemma SealLoadsHead(c: Config, s: State, e: nat, result: BatchResult)
    requires ExecutorEnabled(c, s, e, result) && e < |s.executors| && s.executors[e].SealLoad?
    requires var lap := s.executors[e].lap; lap <= s.head < lap + c.geometry.batchSize
    ensures var s' := ExecutorStep(c, s, e, false, result); var pc := s.executors[e];
            && s'.head == s.head && s'.tail == s.tail && |s'.executors| == |s.executors|
            && s'.executors[e] == SealCas(pc.lap, pc.batch, s.head, pc.lap + c.geometry.batchSize - s.head)
  {
    hide RunOk, BatchId;
  }

  lemma SealMovesHead(c: Config, s: State, e: nat, result: BatchResult)
    requires ExecutorEnabled(c, s, e, result) && e < |s.executors| && s.executors[e].SealCas?
    requires s.executors[e].h == s.head
    ensures var s' := ExecutorStep(c, s, e, false, result);
            s'.head == s.head + s.executors[e].remaining && s'.tail == s.tail
  {
    hide RunOk, BatchId;
  }

  lemma MovesTail(c: Config, s: State, e: nat, result: BatchResult)
    requires ExecutorEnabled(c, s, e, result) && e < |s.executors| && s.executors[e].TailCas?
    requires s.executors[e].t == s.tail
    ensures var s' := ExecutorStep(c, s, e, false, result);
            s'.tail == s.tail + c.geometry.batchSize && s'.head == s.head
  {
    hide RunOk, BatchId;
    BatchIdFacts(c.geometry, s.tail);
  }

  /** A seal pushes head to the end of a lap that is not full. */
  lemma SealPushesHead(c: Config, s: State, sizes: set<nat>, head: nat, tail: nat) returns (s': State)
    requires c.geometry.Valid() && Turning(c, s, sizes, head, tail)
    requires s.executors[0].SealLoad? && c.start <= head < c.start + c.geometry.batchSize
    ensures SizedReached(c, s', sizes) && Between(s', c.start + c.geometry.batchSize, tail)
  {
    hide Inv, ExecutorStep, ExecutorEnabled, BatchId, SizedReached, Claims, Passing, OldMark;
    NotPanicked(c, s);
    CanTurn(c, s, sizes, head, tail);
    SealLoadsHead(c, s, 0, SomeResult());
    s' := Takes(c, s, sizes, Execute(0, false, SomeResult()));
    ExecutorStops(c, s', 0, SomeResult());
    SealMovesHead(c, s', 0, SomeResult());
    s' := Takes(c, s', sizes, Execute(0, false, SomeResult()));
  }

  /** An executor that has finished the first lap moves tail over one batch. */
  lemma TailMoves(c: Config, s: State, sizes: set<nat>, head: nat, tail: nat) returns (s': State)
    requires c.geometry.Valid() && Turning(c, s, sizes, head, tail) && s.executors[0].TailCas?
    ensures SizedReached(c, s', sizes) && Between(s', head, tail + c.geometry.batchSize)
  {
    hide Inv, ExecutorStep, ExecutorEnabled, BatchId, SizedReached, Claims, Fills, OldMark;
    NotPanicked(c, s);
    CanTurn(c, s, sizes, head, tail);
    MovesTail(c, s, 0, SomeResult());
    s' := Takes(c, s, sizes, Execute(0, false, SomeResult()));
  }

  /** From every start: after one request and a seal or a move of tail, another multiple of its size is left. */
  lemma RoomChanges(c: Config, s: State, sizes: set<nat>, n: nat) returns (s': State, head: nat, tail: nat)
    requires c.geometry.Valid() && Init(c, s) && s.executors == [LoadExecutorHead] && n >= 1 && n in sizes
    requires !Multiple(n, c.geometry.batchSize)
    requires Multiple(n, FirstTail(c.geometry, c.start) + c.geometry.ring - c.start)
    ensures SizedReached(c, s', sizes) && Between(s', head, tail)
    ensures tail <= head < tail + c.geometry.ring && !Multiple(n, tail + c.geometry.ring - head)
  {
    hide Inv, Init, BatchId, SizedReached, OldMark, Between, Multiple;
    RunBegins(c, s);
    tail := FirstTail(c.geometry, c.start);
    var room := tail + c.geometry.ring - c.start;
    var size := c.geometry.batchSize;
    NoRoom(n);
    Gap(n, 0, room);
    RoomOf(c);
    s' := RequestIsServed(c, s, sizes, n);
    s' := Turns(c, s', sizes, c.start + n, tail);
    if n < size {
      s' := SealPushesHead(c, s', sizes, c.start + n, tail);
      head := c.start + size;
      NotBoth(n, size, room);
    } else {
      s' := TailMoves(c, s', sizes, c.start + n, tail);
      tail := tail + size;
      head := c.start + n;
      Difference(n, n, room);
      if Multiple(n, room - n + size) {
        Difference(n, room - n, room - n + size);
      }
    }
  }

  lemma NoRoom(n: nat)
    requires n >= 1
    ensures Multiple(n, 0) && Multiple(n, n)
  {
  }

  /** At a start at least one batch is left, and the batch behind tail ends at or before the start. */
  lemma RoomOf(c: Config)
    requires c.Valid()
    ensures var tail := FirstTail(c.geometry, c.start);
            && tail + c.geometry.ring - c.start >= c.geometry.batchSize
            && tail + c.geometry.batchSize <= c.start + c.geometry.batchSize
            && (c.start > 0 ==> tail + c.geometry.batchSize == c.start)
  {
    FirstTailFacts(c.geometry, c.start);
    TwoBatches(c.geometry);
    RingIsPositive(c.geometry);
    Gap(c.geometry.batchSize, c.geometry.batchSize, c.geometry.ring);
  }

  // ----- the runs -----

  /** If some size does not divide the batch size, requests of that size overrun the ring. */
  lemma SomeRunOverruns(g: Geometry, start: nat, sizes: set<nat>, n: nat) returns (c: Config, run: seq<State>)
    requires g.Valid() && g.capacity >= 2 && Multiple(g.batchSize, start)
    requires n >= 1 && n in sizes && !Multiple(n, g.batchSize)
    ensures c.geometry == g && c.start == start && SizedRun(c, run, sizes) && !Fits(g, run[|run| - 1])
  {
    hide SizedNext, Init, Started, Inv, Multiple;
    c := NoOutputs(g, start);
    StartedIsInitial(g, start);
    StartedQuiet(g, start);
    RunBegins(c, Started(g, start));
    run := [Started(g, start)];
    FirstStep(c, run, sizes);
    var head, tail := start, FirstTail(g, start);
    if Multiple(n, tail + g.ring - head) {
      var s;
      s, head, tail := RoomChanges(c, Started(g, start), sizes, n);
      run :| SizedRun(c, run, sizes) && run[|run| - 1] == s;
    }
    run := FillsAndOverruns(c, run, sizes, n, head, tail);
  }

  lemma StartedQuiet(g: Geometry, start: nat)
    requires g.Valid()
    ensures Between(Started(g, start), start, FirstTail(g, start))
    ensures Started(g, start).executors == [LoadExecutorHead]
  {
  }

  /** Two sizes that divide the batch size: one small request, and the large ones no longer fill the ring. */
  lemma TwoSizesOverrun(g: Geometry, start: nat, sizes: set<nat>, small: nat, large: nat)
    returns (c: Config, run: seq<State>)
    requires g.Valid() && g.capacity >= 2 && Multiple(g.batchSize, start)
    requires 1 <= small < large && small in sizes && large in sizes && Multiple(large, g.batchSize)
    ensures c.geometry == g && c.start == start && SizedRun(c, run, sizes) && !Fits(g, run[|run| - 1])
  {
    hide SizedNext, Init, Started, Multiple;
    c := NoOutputs(g, start);
    StartedIsInitial(g, start);
    StartedQuiet(g, start);
    RunBegins(c, Started(g, start));
    FirstTailFacts(g, start);
    var tail := FirstTail(g, start);
    var room := tail + g.ring - start;
    Difference(g.batchSize, start, tail + g.ring);
    Transitive(large, g.batchSize, room);
    NoRoom(large);
    Gap(large, 0, room);
    SmallIsNoMultiple(large, small);
    NotBoth(large, small, room);
    run := [Started(g, start)];
    FirstStep(c, run, sizes);
    run := OneMoreGrant(c, run, sizes, small, start, tail);
    run := FillsAndOverruns(c, run, sizes, large, start + small, tail);
  }

  lemma SmallIsNoMultiple(large: nat, small: nat)
    requires 1 <= small < large
    ensures !Multiple(large, small)
  {
  }

  /**
   For requests whose sizes come from a given set, and from every start that warmups leave,
   the capacity check as it stands keeps head within one ring of tail in every run exactly
   when there is at most one size and it divides the batch size.
  */
  lemma CheckSufficesExactly(g: Geometry, start: nat, sizes: set<nat>)
    requires g.Valid() && g.capacity >= 2 && Multiple(g.batchSize, start) && 0 !in sizes
    ensures (forall n | n in sizes :: sizes == {n} && Multiple(n, g.batchSize))
       <==> forall c: Config, run: seq<State> {:trigger SizedRun(c, run, sizes)} ::
              c.geometry == g && c.start == start && SizedRun(c, run, sizes) ==> Fits(g, run[|run| - 1])
  {
    hide Init, SizedNext, Multiple;
    if forall n | n in sizes :: sizes == {n} && Multiple(n, g.batchSize) {
      forall c: Config, run: seq<State> | c.geometry == g && c.start == start && SizedRun(c, run, sizes)
        ensures Fits(g, run[|run| - 1])
      {
        OneSizeFits(c, run, sizes);
      }
    } else if n :| n in sizes && !Multiple(n, g.batchSize) {
      var c, run := SomeRunOverruns(g, start, sizes, n);
    } else {
      var n :| n in sizes && sizes != {n};
      var m := OtherSize(sizes, n);
      var c, run := TwoSizesOverrun(g, start, sizes, if m < n then m else n, if m < n then n else m);
    }
  }

  lemma OtherSize(sizes: set<nat>, n: nat) returns (m: nat)
    requires n in sizes && sizes != {n}
    ensures m in sizes && m != n
  {
    var rest := sizes - {n};
    assert sizes == rest + {n};
    m :| m in rest;
  }
}
