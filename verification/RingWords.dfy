/**
 The protocol's steps on 64-bit words: every counter, and every index that a thread holds,
 is the wrapped image of the unbounded one, and is only read through masks and wrapped
 comparisons. Each step of the word-level threads is the image of the protocol's step.
*/
module RingWords {
  import opened InferTypes
  import opened Multiples
  import opened Ranges
  import opened Words64
  import opened RingGeometry
  import opened RingModel
  import opened RingSteps
  import opened RingEffects
  import opened RingInvariant
  import opened RingProducerProofs
  import opened RingExecutorProofs
  import opened RingRuns
  import opened RingIndex

  /** The counters after a step, where the thread goes next, and whether it has panicked. */
  datatype Moved<Pc> = Moved(head: Word, executorHead: Word, tail: Word, pc: Pc, panicked: bool)

  /** What a step may read besides the counters. */
  datatype Memory = Memory(trackers: seq<Tracker>, buffers: seq<seq<Row>>, outputs: map<Cell, BatchResult>)

  function MemoryOf(s: State): (m: Memory) {
    Memory(s.trackers, s.buffers, s.outputs)
  }

  // ----- executors -----

  /** An executor's program counter, as words. */
  function WrapExecutor(pc: ExecutorPc): (w: ExecutorPc) {
    match pc
    case LoadExecutorHead => LoadExecutorHead
    case LoadTailForClaim(e) => LoadTailForClaim(Wrap(e))
    case Claim(e) => Claim(Wrap(e))
    case BorrowNotifier(lap, b) => BorrowNotifier(Wrap(lap), b)
    case AwaitNotify(lap, b, notifier) => AwaitNotify(Wrap(lap), b, notifier)
    case SealLoad(lap, b) => SealLoad(Wrap(lap), b)
    case SealCas(lap, b, h, remaining) => SealCas(Wrap(lap), b, Wrap(h), remaining)
    case Spin(lap, b, remaining) => Spin(Wrap(lap), b, remaining)
    case SetExecStart(lap, b) => SetExecStart(Wrap(lap), b)
    case LoadItems(lap, b) => LoadItems(Wrap(lap), b)
    case ReadRows(lap, b, seen) => ReadRows(Wrap(lap), b, seen)
    case SetExecEnd(lap, b, result) => SetExecEnd(Wrap(lap), b, result)
    case SetOutput(lap, b, result) => SetOutput(Wrap(lap), b, result)
    case ResetState(lap, b) => ResetState(Wrap(lap), b)
    case ResetWritten(lap, b) => ResetWritten(Wrap(lap), b)
    case ResetDirty(lap, b) => ResetDirty(Wrap(lap), b)
    case TailLoad => TailLoad
    case TailHead(t) => TailHead(Wrap(t))
    case TailDirty(t) => TailDirty(Wrap(t))
    case TailDirtyCas(t) => TailDirtyCas(Wrap(t))
    case TailCas(t) => TailCas(Wrap(t))
  }

  /** The dirty mark of the batch that a word falls in. */
  function MarkOf(i: RingBufferIndex, m: Memory): (mark: nat)
    requires i.masks.batchSize > 0
  {
    if i.BatchId() < |m.trackers| then m.trackers[i.BatchId()].dirty else 0
  }

  /** A counter step of an executor, on words only. */
  function ExecutorWords(g: Geometry, head: Word, executorHead: Word, tail: Word, pc: ExecutorPc, m: Memory,
                         weakFail: bool)
    : (r: Moved<ExecutorPc>)
    requires g.Valid() && g.ring < WORD && OnCounters(pc)
    requires !pc.LoadExecutorHead? && !pc.TailLoad? ==> IsWord(pc)
  {
    SizeIsWord(g);
    var masks := MasksOf(g);
    var stay := Moved(head, executorHead, tail, LoadExecutorHead, false);
    match pc
    case LoadExecutorHead => stay.(pc := LoadTailForClaim(executorHead))
    case LoadTailForClaim(e) => if ReadsFull(g, e, tail) then stay else stay.(pc := Claim(e))
    case Claim(e) =>
      if executorHead == e && !weakFail then
        stay.(executorHead := WrappingAdd(e, masks.batchSize),
              pc := BorrowNotifier(e, RingBufferIndex(e, masks).BatchId()))
      else stay
    case SealLoad(lap, b) =>
      var index := RingBufferIndex(lap, masks);
      if !SealAllowed(index, head) then stay.(pc := pc, panicked := true)
      else if StillOpen(g, index, head) then
        stay.(pc := SealCas(lap, b, head, WrappingSub(index.BatchHigherBound(), head)))
      else stay.(pc := Spin(lap, b, 0))
    case SealCas(lap, b, h, remaining) =>
      if head == h && !weakFail then stay.(head := Wrap(h + remaining), pc := Spin(lap, b, remaining))
      else stay.(pc := SealLoad(lap, b))
    case TailLoad => stay.(pc := TailHead(tail))
    case TailHead(t) => if NothingToPass(RingBufferIndex(t, masks), head) then stay else stay.(pc := TailDirty(t))
    case TailDirty(t) => if MarkOf(RingBufferIndex(t, masks), m) == 2 then stay.(pc := TailDirtyCas(t)) else stay
    case TailDirtyCas(t) =>
      if MarkOf(RingBufferIndex(t, masks), m) == 2 && !weakFail then stay.(pc := TailCas(t)) else stay
    case TailCas(t) =>
      if tail == t && !weakFail then stay.(tail := RingBufferIndex(t, masks).BatchHigherBound(), pc := TailLoad)
      else stay
  }

  lemma SizeIsWord(g: Geometry)
    requires g.Valid() && g.ring < WORD
    ensures 0 < g.batchSize <= g.ring
  {
    RingIsPositive(g);
  }

  /** The indices held in a program counter are words. */
  predicate IsWord(pc: ExecutorPc) {
    && (pc.LoadTailForClaim? || pc.Claim? ==> pc.e < WORD)
    && (pc.SealLoad? || pc.SealCas? ==> pc.lap < WORD)
    && (pc.SealCas? ==> pc.h < WORD)
    && (pc.TailHead? || pc.TailDirty? || pc.TailDirtyCas? || pc.TailCas? ==> pc.t < WORD)
  }

  /** No value that the executor holds is a full cycle away from what it is compared with. */
  ghost predicate NoStraddle(g: Geometry, s: State, pc: ExecutorPc) {
    && (pc.LoadTailForClaim? ==> s.tail <= pc.e + (WORD - g.ring) && pc.e < s.tail + WORD)
    && (pc.Claim? ==> pc.e < s.executorHead + WORD && s.executorHead < pc.e + WORD)
    && (pc.SealCas? ==> s.head < pc.h + WORD)
    && (pc.TailHead? ==> s.head <= pc.t + g.batchSize + (WORD - HALF))
    && (pc.TailCas? ==> s.tail < pc.t + WORD)
  }

  /** The image of what executor e's step makes of the counters and of its program counter. */
  ghost function ExecutorImage(s: State, e: nat): (r: Moved<ExecutorPc>)
    requires e < |s.executors|
  {
    Moved(Wrap(s.head), Wrap(s.executorHead), Wrap(s.tail), WrapExecutor(s.executors[e]), s.panicked)
  }

  ghost function ExecutorOnWords(c: Config, s: State, e: nat, weakFail: bool): (r: Moved<ExecutorPc>)
    requires c.geometry.Valid() && c.geometry.ring < WORD && e < |s.executors| && OnCounters(s.executors[e])
  {
    ExecutorWords(c.geometry, Wrap(s.head), Wrap(s.executorHead), Wrap(s.tail), WrapExecutor(s.executors[e]),
                  MemoryOf(s), weakFail)
  }

  lemma SameWords(x: nat, y: nat)
    requires x < y + WORD && y < x + WORD
    ensures Wrap(x) == Wrap(y) <==> x == y
  {
    if x <= y {
      SameWord(x, y);
    } else {
      SameWord(y, x);
    }
  }

  lemma WrapSum(x: nat, y: nat)
    ensures Wrap(Wrap(x) + y) == Wrap(x + y)
  {
    WrapAddsUp(x, y);
  }

  /** Executor head: loading it, checking it against tail, and claiming the batch it points at. */
  lemma ClaimOnWords(c: Config, s: State, e: nat, weakFail: bool, result: BatchResult)
    requires Inv(c, s) && Machine(c.geometry) && ExecutorEnabled(c, s, e, result) && e < |s.executors|
    requires NoStraddle(c.geometry, s, s.executors[e])
    requires var pc := s.executors[e]; pc.LoadExecutorHead? || pc.LoadTailForClaim? || pc.Claim?
    ensures c.geometry.Valid() && c.geometry.ring < WORD
    ensures e < |ExecutorStep(c, s, e, weakFail, result).executors|
    ensures ExecutorOnWords(c, s, e, weakFail) == ExecutorImage(ExecutorStep(c, s, e, weakFail, result), e)
  {
    hide Inv, Machine, BatchId, MasksOf, Wrap, RunOk, BelowRing, And;
    HalfAbove(c.geometry);
    NotPanicked(c, s);
    CountersOf(c, s);
    var pc := s.executors[e];
    if pc.LoadTailForClaim? {
      FullCheckAgrees(c.geometry, pc.e, s.tail);
    } else if pc.Claim? {
      SameWords(pc.e, s.executorHead);
      SeenParts(c.geometry, s.executorHead);
      BatchIdFacts(c.geometry, s.executorHead);
      AlignedBounds(c.geometry, s.executorHead);
      WrapSum(s.executorHead, c.geometry.batchSize);
    }
  }

  lemma SealLoadOnWords(c: Config, s: State, e: nat, weakFail: bool, result: BatchResult)
    requires Inv(c, s) && Machine(c.geometry) && ExecutorEnabled(c, s, e, result) && e < |s.executors|
    requires s.executors[e].SealLoad?
    ensures c.geometry.Valid() && c.geometry.ring < WORD
    ensures e < |ExecutorStep(c, s, e, weakFail, result).executors|
    ensures ExecutorOnWords(c, s, e, weakFail) == ExecutorImage(ExecutorStep(c, s, e, weakFail, result), e)
  {
    hide Inv, Machine, BatchId, MasksOf, Wrap, RunOk, And, SealAllowed, StillOpen, WrappingSub, WrappingAdd;
    HalfAbove(c.geometry);
    NotPanicked(c, s);
    SealDistances(c, s, e);
    SeenParts(c.geometry, s.executors[e].lap);
    SealTests(c.geometry, s.executors[e].lap, s.head);
  }

  lemma SealCasOnWords(c: Config, s: State, e: nat, weakFail: bool, result: BatchResult)
    requires Inv(c, s) && Machine(c.geometry) && ExecutorEnabled(c, s, e, result) && e < |s.executors|
    requires s.executors[e].SealCas? && NoStraddle(c.geometry, s, s.executors[e])
    ensures c.geometry.Valid() && c.geometry.ring < WORD
    ensures e < |ExecutorStep(c, s, e, weakFail, result).executors|
    ensures ExecutorOnWords(c, s, e, weakFail) == ExecutorImage(ExecutorStep(c, s, e, weakFail, result), e)
  {
    hide Inv, Machine, BatchId, MasksOf, Wrap, RunOk, And;
    HalfAbove(c.geometry);
    NotPanicked(c, s);
    HolderParts(c, s, e);
    var pc := s.executors[e];
    SameWords(pc.h, s.head);
    WrapSum(pc.h, pc.remaining);
  }

  /** A tail that an executor holds: aligned, and not ahead of tail or head. */
  lemma HeldTail(c: Config, s: State, e: nat)
    requires Inv(c, s) && e < |s.executors|
    ensures var pc := s.executors[e];
            && (pc.TailHead? ==> Multiple(c.geometry.batchSize, pc.t) && pc.t <= s.tail <= s.head)
            && (pc.TailCas? ==> pc.t <= s.tail)
  {
    hide Inv;
    HolderParts(c, s, e);
    CountersOf(c, s);
  }

  lemma TailHeadOnWords(c: Config, s: State, e: nat, weakFail: bool, result: BatchResult)
    requires Inv(c, s) && Machine(c.geometry) && ExecutorEnabled(c, s, e, result) && e < |s.executors|
    requires NoStraddle(c.geometry, s, s.executors[e])
    requires var pc := s.executors[e]; pc.TailLoad? || pc.TailHead?
    ensures c.geometry.Valid() && c.geometry.ring < WORD
    ensures e < |ExecutorStep(c, s, e, weakFail, result).executors|
    ensures ExecutorOnWords(c, s, e, weakFail) == ExecutorImage(ExecutorStep(c, s, e, weakFail, result), e)
  {
    hide Inv, Machine, BatchId, MasksOf, Wrap, RunOk, And, NothingToPass;
    HalfAbove(c.geometry);
    NotPanicked(c, s);
    HeldTail(c, s, e);
    if s.executors[e].TailHead? {
      SeenParts(c.geometry, s.executors[e].t);
      TailTest(c.geometry, s.executors[e].t, s.head);
    }
  }

  lemma MarkRefines(g: Geometry, t: nat, m: Memory)
    requires Machine(g) && |m.trackers| == g.capacity
    ensures g.Valid() && g.ring < WORD && g.batchSize > 0
    ensures BatchId(g, t) < |m.trackers| && MarkOf(Seen(g, t), m) == m.trackers[BatchId(g, t)].dirty
  {
    hide Machine, BatchId, MasksOf, Wrap, And;
    HalfAbove(g);
    SeenParts(g, t);
    IndexRefines(g, t);
    BatchIdFacts(g, t);
  }

  lemma DirtyOnWords(c: Config, s: State, e: nat, weakFail: bool, result: BatchResult)
    requires Inv(c, s) && Machine(c.geometry) && ExecutorEnabled(c, s, e, result) && e < |s.executors|
    requires s.executors[e].TailDirty?
    ensures c.geometry.Valid() && c.geometry.ring < WORD
    ensures e < |ExecutorStep(c, s, e, weakFail, result).executors|
    ensures ExecutorOnWords(c, s, e, weakFail) == ExecutorImage(ExecutorStep(c, s, e, weakFail, result), e)
  {
    hide Inv, Machine, BatchId, MasksOf, Wrap, RunOk, And, MarkOf;
    HalfAbove(c.geometry);
    NotPanicked(c, s);
    SeenParts(c.geometry, s.executors[e].t);
    MarkRefines(c.geometry, s.executors[e].t, MemoryOf(s));
  }

  lemma DirtyCasOnWords(c: Config, s: State, e: nat, weakFail: bool, result: BatchResult)
    requires Inv(c, s) && Machine(c.geometry) && ExecutorEnabled(c, s, e, result) && e < |s.executors|
    requires s.executors[e].TailDirtyCas?
    ensures c.geometry.Valid() && c.geometry.ring < WORD
    ensures e < |ExecutorStep(c, s, e, weakFail, result).executors|
    ensures ExecutorOnWords(c, s, e, weakFail) == ExecutorImage(ExecutorStep(c, s, e, weakFail, result), e)
  {
    hide Inv, Machine, BatchId, MasksOf, Wrap, RunOk, And, MarkOf, SetTracker, SetExecutor;
    HalfAbove(c.geometry);
    NotPanicked(c, s);
    SeenParts(c.geometry, s.executors[e].t);
    MarkRefines(c.geometry, s.executors[e].t, MemoryOf(s));
    var t := s.executors[e].t;
    BatchIdFacts(c.geometry, t);
    SetExecutorIs(s, e, LoadExecutorHead);
    SetBothIs(s, e, TailCas(t), BatchId(c.geometry, t), s.trackers[BatchId(c.geometry, t)].(dirty := 0));
  }

  lemma TailCasOnWords(c: Config, s: State, e: nat, weakFail: bool, result: BatchResult)
    requires Inv(c, s) && Machine(c.geometry) && ExecutorEnabled(c, s, e, result) && e < |s.executors|
    requires s.executors[e].TailCas? && NoStraddle(c.geometry, s, s.executors[e])
    ensures c.geometry.Valid() && c.geometry.ring < WORD
    ensures e < |ExecutorStep(c, s, e, weakFail, result).executors|
    ensures ExecutorOnWords(c, s, e, weakFail) == ExecutorImage(ExecutorStep(c, s, e, weakFail, result), e)
  {
    hide Inv, Machine, BatchId, MasksOf, Wrap, RunOk, And, WrappingAdd, WrappingSub;
    HalfAbove(c.geometry);
    NotPanicked(c, s);
    HeldTail(c, s, e);
    CountersOf(c, s);
    var t := s.executors[e].t;
    SameWords(t, s.tail);
    SeenParts(c.geometry, s.tail);
    BatchIdFacts(c.geometry, s.tail);
    AlignedBounds(c.geometry, s.tail);
  }

  /** Such a step does not panic, changes no counter and moves on the same way on words. */
  ghost predicate OffCounters(c: Config, s: State, e: nat, weakFail: bool, result: BatchResult)
    requires ExecutorEnabled(c, s, e, result) && e < |s.executors| && !OnCounters(s.executors[e])
  {
    var s' := ExecutorStep(c, s, e, weakFail, result);
    && !s'.panicked
    && s'.head == s.head && s'.executorHead == s.executorHead && s'.tail == s.tail
    && e < |s'.executors|
    && WrapExecutor(s'.executors[e]) == Onward(WrapExecutor(s.executors[e]), s.trackers, s.buffers, result)
  }

  lemma CounterStepOnWords(c: Config, s: State, e: nat, weakFail: bool, result: BatchResult)
    requires Inv(c, s) && Machine(c.geometry) && ExecutorEnabled(c, s, e, result) && e < |s.executors|
    requires OnCounters(s.executors[e]) && NoStraddle(c.geometry, s, s.executors[e])
    ensures c.geometry.Valid() && c.geometry.ring < WORD
    ensures e < |ExecutorStep(c, s, e, weakFail, result).executors|
    ensures ExecutorOnWords(c, s, e, weakFail) == ExecutorImage(ExecutorStep(c, s, e, weakFail, result), e)
  {
    hide Inv, Machine, ExecutorStep, ExecutorEnabled, NoStraddle, ExecutorOnWords, ExecutorImage;
    HalfAbove(c.geometry);
    var pc := s.executors[e];
    if pc.SealLoad? {
      SealLoadOnWords(c, s, e, weakFail, result);
    } else if pc.SealCas? {
      SealCasOnWords(c, s, e, weakFail, result);
    } else if pc.TailLoad? || pc.TailHead? {
      TailHeadOnWords(c, s, e, weakFail, result);
    } else if pc.TailDirty? {
      DirtyOnWords(c, s, e, weakFail, result);
    } else if pc.TailDirtyCas? {
      DirtyCasOnWords(c, s, e, weakFail, result);
    } else if pc.TailCas? {
      TailCasOnWords(c, s, e, weakFail, result);
    } else {
      ClaimOnWords(c, s, e, weakFail, result);
    }
  }

  lemma OnwardOnWords(pc: ExecutorPc, trackers: seq<Tracker>, buffers: seq<seq<Row>>, result: BatchResult)
    requires !OnCounters(pc)
    ensures !OnCounters(WrapExecutor(pc))
    ensures WrapExecutor(Onward(pc, trackers, buffers, result)) == Onward(WrapExecutor(pc), trackers, buffers, result)
  {
    hide Wrap;
  }

  lemma OtherStepOffCounters(c: Config, s: State, e: nat, weakFail: bool, result: BatchResult)
    requires Inv(c, s) && ExecutorEnabled(c, s, e, result) && e < |s.executors| && !OnCounters(s.executors[e])
    ensures OffCounters(c, s, e, weakFail, result)
  {
    hide Inv, ExecutorStep, ExecutorEnabled, TrackerEffect, PcEffect, WrapExecutor, Onward;
    OnlySealsPanic(c, s, e, weakFail, result);
    ExecutorEffects(c, s, e, weakFail, result, 0, 0);
    ExecutorGoesOn(c, s, e, weakFail, result);
    OnwardOnWords(s.executors[e], s.trackers, s.buffers, result);
  }

  /**
   In every run in which no held index is a full cycle old, an executor on words takes the
   image of the protocol's step: same branch, same counters, same next program counter,
   and a panic exactly when the protocol panics.
  */
  lemma ExecutorsRefine(c: Config, run: seq<State>, i: nat, e: nat, weakFail: bool, result: BatchResult)
    requires Machine(c.geometry) && Run(c, run) && i < |run| && e < |run[i].executors|
    requires Enabled(c, run[i], Execute(e, weakFail, result)) && NoStraddle(c.geometry, run[i], run[i].executors[e])
    ensures c.geometry.Valid() && c.geometry.ring < WORD
    ensures OnCounters(run[i].executors[e]) ==>
              var s' := Apply(c, run[i], Execute(e, weakFail, result));
              e < |s'.executors| && ExecutorOnWords(c, run[i], e, weakFail) == ExecutorImage(s', e)
    ensures !OnCounters(run[i].executors[e]) ==> OffCounters(c, run[i], e, weakFail, result)
  {
    hide Inv, Run, Machine, ExecutorStep, ExecutorEnabled, NoStraddle, ExecutorOnWords, ExecutorImage,
         OffCounters, OnCounters;
    RunKeeps(c, run, i);
    HalfAbove(c.geometry);
    if OnCounters(run[i].executors[e]) {
      CounterStepOnWords(c, run[i], e, weakFail, result);
    } else {
      OtherStepOffCounters(c, run[i], e, weakFail, result);
    }
  }

  // ----- producers -----

  /** A piece whose base is a word. */
  function WrapPiece(piece: Piece): (w: Piece) {
    Piece(piece.pos, Wrap(piece.base), piece.batch, piece.len)
  }

  function WrapProducer(pc: ProducerPc): (w: ProducerPc) {
    match pc
    case LoadHead => LoadHead
    case LoadTail(h) => LoadTail(Wrap(h))
    case Reserve(h, t) => Reserve(Wrap(h), Wrap(t))
    case Copy(piece, done) => Copy(WrapPiece(piece), done)
    case MarkDirty(piece) => MarkDirty(WrapPiece(piece))
    case SetDeadline(piece) => SetDeadline(WrapPiece(piece))
    case SetQueueStart(piece) => SetQueueStart(WrapPiece(piece))
    case Capture(piece) => Capture(WrapPiece(piece))
    case Publish(piece, cell) => Publish(WrapPiece(piece), cell)
    case Notify(piece) => Notify(WrapPiece(piece))
    case Collect(next, data) => Collect(next, data)
    case Answered(answer) => Answered(answer)
    case Rejected => Rejected
  }

  /** The piece that begins at a word: its batch, and its length up to the end of the batch. */
  function PieceOnWords(g: Geometry, index: Word, pos: nat, n: nat): (piece: Piece)
    requires g.Valid() && g.ring < WORD && pos < n
  {
    SizeIsWord(g);
    var i := RingBufferIndex(index, MasksOf(g));
    var room := WrappingSub(i.BatchHigherBound(), index);
    Piece(pos, i.BatchLowerBound(), i.BatchId(), if n - pos <= room then n - pos else room)
  }

  lemma PieceRefines(g: Geometry, first: nat, pos: nat, n: nat)
    requires Machine(g) && pos < n
    ensures g.Valid() && g.ring < WORD
    ensures PieceOnWords(g, Wrap(first + pos), pos, n) == WrapPiece(PieceAt(g, first, pos, n))
  {
    hide Machine, MasksOf, BatchId, LowerBound, Wrap, WrappingSub;
    HalfAbove(g);
    var x := first + pos;
    SeenParts(g, x);
    IndexRefines(g, x);
    RoomRefines(g, x);
  }

  /** The slot that a piece begins at, read from its word. */
  lemma PieceSlotRefines(g: Geometry, me: Producer, piece: Piece)
    requires Machine(g) && piece.base == LowerBound(g, me.first + piece.pos)
    ensures g.Valid() && g.ring < WORD
    ensures Seen(g, me.first + piece.pos).BatchSlotId() == SlotOf(me, piece)
  {
    hide Machine, MasksOf, BatchId, LowerBound, Wrap;
    HalfAbove(g);
    IndexRefines(g, me.first + piece.pos);
  }

  /** The producer steps that load, test or CAS a counter, on words only. */
  function ProducerWords(g: Geometry, head: Word, tail: Word, n: nat, pc: ProducerPc,
                         weakFail: bool): (r: Moved<ProducerPc>)
    requires g.Valid() && g.ring < WORD && n >= 1
    requires pc.LoadHead? || (pc.LoadTail? && pc.h < WORD) || (pc.Reserve? && pc.h < WORD)
  {
    var stay := Moved(head, 0, tail, LoadHead, false);
    match pc
    case LoadHead => stay.(pc := LoadTail(head))
    case LoadTail(h) => stay.(pc := if ReadsFull(g, h, tail) then Rejected else Reserve(h, tail))
    case Reserve(h, _) =>
      if head == h && !weakFail then stay.(head := Wrap(h + n), pc := Copy(PieceOnWords(g, h, 0, n), 0)) else stay
  }

  ghost predicate ProducerNoStraddle(g: Geometry, s: State, pc: ProducerPc) {
    && (pc.LoadTail? ==> s.tail <= pc.h + (WORD - g.ring) && pc.h < s.tail + WORD)
    && (pc.Reserve? ==> pc.h < s.head + WORD && s.head < pc.h + WORD)
  }

  ghost function ProducerImage(s: State, p: nat): (r: Moved<ProducerPc>)
    requires p < |s.producers|
  {
    Moved(Wrap(s.head), 0, Wrap(s.tail), WrapProducer(s.producers[p].pc), s.panicked)
  }

  lemma LoadOnWords(c: Config, s: State, p: nat, weakFail: bool)
    requires Inv(c, s) && Machine(c.geometry) && ProducerEnabled(c, s, p) && p < |s.producers|
    requires ProducerNoStraddle(c.geometry, s, s.producers[p].pc)
    requires s.producers[p].pc.LoadHead? || s.producers[p].pc.LoadTail?
    ensures c.geometry.Valid() && c.geometry.ring < WORD && |s.producers[p].rows| >= 1
    ensures p < |ProducerStep(c, s, p, weakFail).producers|
    ensures ProducerWords(c.geometry, Wrap(s.head), Wrap(s.tail), |s.producers[p].rows|,
                          WrapProducer(s.producers[p].pc), weakFail)
         == ProducerImage(ProducerStep(c, s, p, weakFail), p)
  {
    hide Inv, Machine, BatchId, MasksOf, Wrap, BelowRing, ReadsFull, PieceAt;
    HalfAbove(c.geometry);
    NotPanicked(c, s);
    OwnParts(c, s, p);
    var pc := s.producers[p].pc;
    if pc.LoadTail? {
      FullCheckAgrees(c.geometry, pc.h, s.tail);
    }
  }

  lemma ReserveOnWords(c: Config, s: State, p: nat, weakFail: bool)
    requires Inv(c, s) && Machine(c.geometry) && ProducerEnabled(c, s, p) && p < |s.producers|
    requires ProducerNoStraddle(c.geometry, s, s.producers[p].pc) && s.producers[p].pc.Reserve?
    ensures c.geometry.Valid() && c.geometry.ring < WORD && |s.producers[p].rows| >= 1
    ensures p < |ProducerStep(c, s, p, weakFail).producers|
    ensures ProducerWords(c.geometry, Wrap(s.head), Wrap(s.tail), |s.producers[p].rows|,
                          WrapProducer(s.producers[p].pc), weakFail)
         == ProducerImage(ProducerStep(c, s, p, weakFail), p)
  {
    hide Inv, Machine, BatchId, MasksOf, Wrap, PieceAt, PieceOnWords, WithSlots, WrapPiece;
    HalfAbove(c.geometry);
    NotPanicked(c, s);
    OwnParts(c, s, p);
    SameWords(s.producers[p].pc.h, s.head);
    WrapSum(s.head, |s.producers[p].rows|);
    PieceRefines(c.geometry, s.head, 0, |s.producers[p].rows|);
  }

  // ----- producers, between reserving and collecting -----

  predicate Inserting(pc: ProducerPc) {
    Writing(pc) || pc.Notify?
  }

  /** The rest of a request whose row 0 is at word `first`. */
  function NextOnWords(g: Geometry, first: Word, n: nat, piece: Piece): (pc: ProducerPc)
    requires g.Valid() && g.ring < WORD
  {
    var pos := piece.pos + piece.len;
    if pos < n then Copy(PieceOnWords(g, Wrap(first + pos), pos, n), 0) else Collect(0, [])
  }

  /** The slot that a piece begins at, read from the piece's word. */
  function SlotAtWord(g: Geometry, first: Word, piece: Piece): (slot: Word)
    requires g.Valid() && g.ring < WORD
  {
    RingBufferIndex(Wrap(first + piece.pos), MasksOf(g)).BatchSlotId()
  }

  /** The one write to the buffers: a row, at the batch and slot read from the piece's word. */
  function BuffersOnWords(g: Geometry, first: Word, rows: seq<Row>, pc: ProducerPc, buffers: seq<seq<Row>>)
    : (buffers': seq<seq<Row>>)
    requires g.Valid() && g.ring < WORD && Inserting(pc)
  {
    if !pc.Copy? then buffers else
    var b, row := pc.piece.batch, pc.piece.pos + pc.done;
    var slot := SlotAtWord(g, first, pc.piece) + pc.done;
    if pc.done < pc.piece.len && b < |buffers| && slot < |buffers[b]| && row < |rows|
    then buffers[b := buffers[b][slot := rows[row]]]
    else buffers
  }

  /** Where a producer goes next inside insert_tensors_at. */
  function InsertOnWords(g: Geometry, first: Word, n: nat, pc: ProducerPc, m: Memory): (pc': ProducerPc)
    requires g.Valid() && g.ring < WORD && Inserting(pc)
  {
    var slot := SlotAtWord(g, first, pc.piece);
    match pc
    case Copy(piece, done) =>
      if done < piece.len then Copy(piece, done + 1) else if slot == 0 then MarkDirty(piece) else Capture(piece)
    case MarkDirty(piece) => SetDeadline(piece)
    case SetDeadline(piece) => SetQueueStart(piece)
    case SetQueueStart(piece) => Capture(piece)
    case Capture(piece) =>
      if piece.batch < |m.trackers| then Publish(piece, Cell(piece.batch, m.trackers[piece.batch].gen)) else pc
    case Publish(piece, _) =>
      if slot == 0 || slot + piece.len == g.batchSize then Notify(piece) else NextOnWords(g, first, n, piece)
    case Notify(piece) => NextOnWords(g, first, n, piece)
  }

  ghost predicate InsertRefined(c: Config, s: State, p: nat, weakFail: bool)
    requires c.geometry.Valid() && c.geometry.ring < WORD
    requires ProducerEnabled(c, s, p) && p < |s.producers| && Inserting(s.producers[p].pc)
  {
    var me := s.producers[p];
    var s' := ProducerStep(c, s, p, weakFail);
    && !s'.panicked
    && s'.head == s.head && s'.executorHead == s.executorHead && s'.tail == s.tail
    && p < |s'.producers|
    && WrapProducer(s'.producers[p].pc)
       == InsertOnWords(c.geometry, Wrap(me.first), |me.rows|, WrapProducer(me.pc), MemoryOf(s))
    && s'.buffers == BuffersOnWords(c.geometry, Wrap(me.first), me.rows, WrapProducer(me.pc), s.buffers)
    && (me.pc.Publish? ==>
          && |s'.producers[p].response| == |me.response| + 1
          && var r := s'.producers[p].response[|me.response|];
             var slot := SlotAtWord(c.geometry, Wrap(me.first), me.pc.piece);
             r.cell == me.pc.cell && r.first == slot && r.end == slot + me.pc.piece.len)
  }

  lemma NextRefines(c: Config, me: Producer, piece: Piece)
    requires Machine(c.geometry)
    ensures c.geometry.Valid() && c.geometry.ring < WORD
    ensures WrapProducer(AfterPiece(c, me, piece))
         == NextOnWords(c.geometry, Wrap(me.first), |me.rows|, WrapPiece(piece))
  {
    hide Machine, Wrap, PieceOnWords, PieceAt;
    HalfAbove(c.geometry);
    var pos := piece.pos + piece.len;
    WrapSum(me.first, pos);
    if pos < |me.rows| {
      PieceRefines(c.geometry, me.first, pos, |me.rows|);
    }
  }

  /** The slot that a request's current piece begins at. */
  lemma SlotOnWords(c: Config, s: State, p: nat)
    requires Inv(c, s) && Machine(c.geometry) && p < |s.producers| && Inserting(s.producers[p].pc)
    ensures c.geometry.Valid() && c.geometry.ring < WORD
    ensures var me := s.producers[p];
            && SlotAtWord(c.geometry, Wrap(me.first), me.pc.piece) == SlotOf(me, me.pc.piece)
            && SlotAtWord(c.geometry, Wrap(me.first), WrapProducer(me.pc).piece) == SlotOf(me, me.pc.piece)
  {
    hide Inv, Machine, MasksOf, Wrap, And, LowerBound;
    HalfAbove(c.geometry);
    OwnParts(c, s, p);
    var me := s.producers[p];
    var piece := me.pc.piece;
    WrapSum(me.first, piece.pos);
    SeenParts(c.geometry, me.first + piece.pos);
    LowerBoundIs(c.geometry, piece.base, me.first + piece.pos);
    PieceSlotRefines(c.geometry, me, piece);
  }

  lemma CopyRefined(c: Config, s: State, p: nat, weakFail: bool)
    requires Inv(c, s) && Machine(c.geometry) && ProducerEnabled(c, s, p) && p < |s.producers|
    requires s.producers[p].pc.Copy? && s.producers[p].pc.done < s.producers[p].pc.piece.len
    requires !ProducerStep(c, s, p, weakFail).panicked
    ensures c.geometry.Valid() && c.geometry.ring < WORD && InsertRefined(c, s, p, weakFail)
  {
    hide Inv, Machine, MasksOf, Wrap, And;
    HalfAbove(c.geometry);
    SlotOnWords(c, s, p);
  }

  lemma CopiedRefined(c: Config, s: State, p: nat, weakFail: bool)
    requires Inv(c, s) && Machine(c.geometry) && ProducerEnabled(c, s, p) && p < |s.producers|
    requires s.producers[p].pc.Copy? && s.producers[p].pc.done >= s.producers[p].pc.piece.len
    requires !ProducerStep(c, s, p, weakFail).panicked
    ensures c.geometry.Valid() && c.geometry.ring < WORD && InsertRefined(c, s, p, weakFail)
  {
    hide Inv, Machine, MasksOf, Wrap, And, CopyRow;
    HalfAbove(c.geometry);
    SlotOnWords(c, s, p);
  }

  lemma MarkRefined(c: Config, s: State, p: nat, weakFail: bool)
    requires Inv(c, s) && Machine(c.geometry) && ProducerEnabled(c, s, p) && p < |s.producers|
    requires s.producers[p].pc.MarkDirty?
    requires !ProducerStep(c, s, p, weakFail).panicked
    ensures c.geometry.Valid() && c.geometry.ring < WORD && InsertRefined(c, s, p, weakFail)
  {
    hide Inv, Machine, MasksOf, Wrap, And, SetTracker, SetProducer;
    HalfAbove(c.geometry);
    var piece := s.producers[p].pc.piece;
    SetMineIs(s, p, SetDeadline(piece), piece.batch, s.trackers[piece.batch].(dirty := 1));
  }

  lemma DeadlineRefined(c: Config, s: State, p: nat, weakFail: bool)
    requires Inv(c, s) && Machine(c.geometry) && ProducerEnabled(c, s, p) && p < |s.producers|
    requires s.producers[p].pc.SetDeadline?
    requires !ProducerStep(c, s, p, weakFail).panicked
    ensures c.geometry.Valid() && c.geometry.ring < WORD && InsertRefined(c, s, p, weakFail)
  {
    hide Inv, Machine, MasksOf, Wrap, And, SetTracker, SetProducer;
    HalfAbove(c.geometry);
    var piece := s.producers[p].pc.piece;
    SetMineIs(s, p, SetQueueStart(piece), piece.batch, s.trackers[piece.batch].(deadline := true));
  }

  lemma QueueStartRefined(c: Config, s: State, p: nat, weakFail: bool)
    requires Inv(c, s) && Machine(c.geometry) && ProducerEnabled(c, s, p) && p < |s.producers|
    requires s.producers[p].pc.SetQueueStart?
    requires !ProducerStep(c, s, p, weakFail).panicked
    ensures c.geometry.Valid() && c.geometry.ring < WORD && InsertRefined(c, s, p, weakFail)
  {
    hide Inv, Machine, MasksOf, Wrap, And, SetTracker, SetProducer;
    HalfAbove(c.geometry);
    var piece := s.producers[p].pc.piece;
    SetMineIs(s, p, Capture(piece), piece.batch, s.trackers[piece.batch].(queueStart := true));
  }

  lemma CaptureRefined(c: Config, s: State, p: nat, weakFail: bool)
    requires Inv(c, s) && Machine(c.geometry) && ProducerEnabled(c, s, p) && p < |s.producers|
    requires s.producers[p].pc.Capture?
    requires !ProducerStep(c, s, p, weakFail).panicked
    ensures c.geometry.Valid() && c.geometry.ring < WORD && InsertRefined(c, s, p, weakFail)
  {
    hide Inv, Machine, MasksOf, Wrap, And;
    HalfAbove(c.geometry);
  }

  lemma PublishRefined(c: Config, s: State, p: nat, weakFail: bool)
    requires Inv(c, s) && Machine(c.geometry) && ProducerEnabled(c, s, p) && p < |s.producers|
    requires s.producers[p].pc.Publish? || s.producers[p].pc.Notify?
    requires !ProducerStep(c, s, p, weakFail).panicked
    ensures c.geometry.Valid() && c.geometry.ring < WORD && InsertRefined(c, s, p, weakFail)
  {
    hide Inv, Machine, MasksOf, Wrap, And, AfterPiece, NextOnWords, Range;
    HalfAbove(c.geometry);
    SlotOnWords(c, s, p);
    NextRefines(c, s.producers[p], s.producers[p].pc.piece);
  }

  // ----- runs -----

  /**
   In such runs a producer on words takes the image of the protocol's step: it loads, tests
   and moves head alike, splits its request at the same rows, writes to the same slots of
   the same batches, and marks and notifies at the same pieces.
  */
  lemma ProducersRefine(c: Config, run: seq<State>, i: nat, p: nat, weakFail: bool)
    requires Machine(c.geometry) && Run(c, run) && i < |run| && p < |run[i].producers|
    requires Enabled(c, run[i], Produce(p, weakFail)) && ProducerNoStraddle(c.geometry, run[i], run[i].producers[p].pc)
    ensures c.geometry.Valid() && c.geometry.ring < WORD && |run[i].producers[p].rows| >= 1
    ensures var me := run[i].producers[p]; var s' := Apply(c, run[i], Produce(p, weakFail));
            me.pc.LoadHead? || me.pc.LoadTail? || me.pc.Reserve? ==>
              && p < |s'.producers|
              && ProducerImage(s', p) ==
                 ProducerWords(c.geometry, Wrap(run[i].head), Wrap(run[i].tail), |me.rows|,
                               WrapProducer(me.pc), weakFail)
    ensures Inserting(run[i].producers[p].pc) ==> InsertRefined(c, run[i], p, weakFail)
  {
    hide Inv, Run, Machine, ProducerStep, ProducerEnabled, ProducerNoStraddle, ProducerWords,
         ProducerImage, InsertRefined;
    RunKeeps(c, run, i);
    HalfAbove(c.geometry);
    HasRows(c, run[i], p);
    var pc := run[i].producers[p].pc;
    if pc.Reserve? {
      ReserveOnWords(c, run[i], p, weakFail);
    } else if pc.LoadHead? || pc.LoadTail? {
      LoadOnWords(c, run[i], p, weakFail);
    } else if Inserting(pc) {
      InsertsRefine(c, run[i], p, weakFail);
    }
  }

  lemma InsertsRefine(c: Config, s: State, p: nat, weakFail: bool)
    requires Inv(c, s) && Machine(c.geometry) && ProducerEnabled(c, s, p) && p < |s.producers|
    requires Inserting(s.producers[p].pc)
    ensures c.geometry.Valid() && c.geometry.ring < WORD && InsertRefined(c, s, p, weakFail)
  {
    hide Inv, Machine, ProducerStep, ProducerEnabled, InsertRefined;
    NotPanicked(c, s);
    PanicsExactly(c, s, Produce(p, weakFail));
    var pc := s.producers[p].pc;
    if pc.Copy? {
      if pc.done < pc.piece.len {
        CopyRefined(c, s, p, weakFail);
      } else {
        CopiedRefined(c, s, p, weakFail);
      }
    } else if pc.MarkDirty? {
      MarkRefined(c, s, p, weakFail);
    } else if pc.SetDeadline? {
      DeadlineRefined(c, s, p, weakFail);
    } else if pc.SetQueueStart? {
      QueueStartRefined(c, s, p, weakFail);
    } else if pc.Capture? {
      CaptureRefined(c, s, p, weakFail);
    } else {
      PublishRefined(c, s, p, weakFail);
    }
  }

  lemma HasRows(c: Config, s: State, p: nat)
    requires Inv(c, s) && p < |s.producers|
    ensures |s.producers[p].rows| >= 1
  {
    hide Inv;
    OwnParts(c, s, p);
  }
}
