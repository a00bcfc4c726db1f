/** What each step of a thread changes and what it leaves alone, one lemma for each program counter. */
module RingEffects {
  import opened InferTypes
  import opened Ranges
  import opened RingGeometry
  import opened RingModel
  import opened RingSteps

  // ----- producers -----

  /** A tracker keeps its lap, its stage and its BatchState. */
  ghost predicate SameLap(tr: Tracker, tr': Tracker) {
    && tr'.lap == tr.lap && tr'.stage == tr.stage && tr'.top == tr.top
    && tr'.gen == tr.gen && tr'.claimant == tr.claimant
  }

  /** A step of producer p, as the counters, the other threads and any producer q see it. */
  ghost predicate ProducerMoved(s: State, s': State, p: nat, q: nat) {
    && p < |s.producers| == |s'.producers|
    && var pc := s.producers[p].pc;
       && (q < |s.producers| ==>
             && s'.producers[q].rows == s.producers[q].rows
             && (q != p ==> s'.producers[q] == s.producers[q]))
       && s'.tail == s.tail && s'.executorHead == s.executorHead
       && s'.executors == s.executors && s'.items == s.items && s'.runs == s.runs
       && s'.outputs == s.outputs
       && (s'.head == s.head || (pc.Reserve? && s'.head == s.head + |s.producers[p].rows|))
       && (pc.Notify? ==>
             && pc.piece.batch < |s.trackers|
             && s'.permits == s.permits + {Cell(pc.piece.batch, s.trackers[pc.piece.batch].gen)})
       && (!pc.Notify? ==> s'.permits == s.permits)
  }

  /** A step of producer p, as any tracker b sees it. */
  ghost predicate ProducerMarked(s: State, s': State, p: nat, b: nat) {
    && p < |s.producers|
    && |s'.trackers| == |s.trackers|
    && (b < |s.trackers| ==>
          && SameLap(s.trackers[b], s'.trackers[b])
          && (s'.trackers[b] == s.trackers[b]
              || (Writing(s.producers[p].pc) && s.producers[p].pc.piece.batch == b))
          && Marked(s.producers[p].pc, b, s.trackers[b], s'.trackers[b]))
  }

  /** Which marks a step of a producer sets. */
  ghost predicate Marked(pc: ProducerPc, b: nat, tr: Tracker, tr': Tracker) {
    && (if pc.MarkDirty? && pc.piece.batch == b then tr'.dirty == 1 else tr'.dirty == tr.dirty)
    && (if pc.SetDeadline? && pc.piece.batch == b then tr'.deadline else tr'.deadline == tr.deadline)
    && (if pc.SetQueueStart? && pc.piece.batch == b then tr'.queueStart else tr'.queueStart == tr.queueStart)
  }

  predicate HasPiece(pc: ProducerPc) {
    Writing(pc) || pc.Notify?
  }

  /** What the step makes of slots, and where in its request it leaves producer p. */
  ghost predicate ProducerWrote(c: Config, s: State, s': State, p: nat)
    requires c.geometry.Valid()
  {
    && p < |s.producers| == |s'.producers|
    && var me := s.producers[p]; var me' := s'.producers[p];
       && (me.pc.Publish? ==>
             var lo := me.first + me.pc.piece.pos;
             var slot := SlotOf(me, me.pc.piece);
             && s'.published == s.published + Range(lo, lo + me.pc.piece.len)
             && (me'.pc.Notify? <==> slot == 0 || slot + me.pc.piece.len == c.geometry.batchSize)
             && (me'.pc.Notify? ==> me'.first == me.first && me'.pc.piece == me.pc.piece))
       && (!me.pc.Publish? ==> s'.published == s.published && !me'.pc.Notify?)
       && (s'.owner == s.owner || (me.pc.Reserve? && s'.owner == WithSlots(s.owner, p, me.rows, s.head)))
       && (HasPiece(me'.pc) ==>
             || (HasPiece(me.pc) && me'.first == me.first && me'.pc.piece == me.pc.piece)
             || NewPiece(c, me'))
  }

  /** A piece that has just been cut off the rest of a request. */
  ghost predicate NewPiece(c: Config, me: Producer)
    requires c.geometry.Valid()
  {
    && HasPiece(me.pc)
    && exists pos: nat :: pos < |me.rows| && me.pc.piece == PieceAt(c.geometry, me.first, pos, |me.rows|)
  }

  ghost predicate ProducerEffect(s: State, s': State, p: nat, q: nat, b: nat) {
    ProducerMoved(s, s', p, q) && ProducerMarked(s, s', p, b)
  }

  lemma SetMineIs(s: State, p: nat, pc: ProducerPc, b: nat, tr: Tracker)
    requires p < |s.producers| && b < |s.trackers|
    ensures SetTracker(SetProducer(s, p, pc), b, tr)
         == s.(producers := s.producers[p := s.producers[p].(pc := pc)], trackers := s.trackers[b := tr])
  {
  }

  lemma CopyRowSets(s: State, p: nat)
    requires p < |s.producers| && s.producers[p].pc.Copy?
    requires var me := s.producers[p]; var piece := me.pc.piece;
             && me.pc.done < piece.len && piece.pos + piece.len <= |me.rows|
             && piece.batch < |s.buffers| && me.first + piece.pos >= piece.base
             && me.first + piece.pos + piece.len - piece.base <= |s.buffers[piece.batch]|
    ensures var me := s.producers[p]; var piece := me.pc.piece;
            CopyRow(s, p) == s.(producers := s.producers[p := me.(pc := Copy(piece, me.pc.done + 1))],
                                buffers := CopyRow(s, p).buffers)
  {
  }

  lemma CollectNextIs(s: State, p: nat)
    requires p < |s.producers| && s.producers[p].pc.Collect?
    requires s.producers[p].pc.next < |s.producers[p].response|
    requires s.producers[p].response[s.producers[p].pc.next].cell in s.outputs
    ensures || CollectNext(s, p) == Panic(s)
            || exists pc: ProducerPc {:trigger SetProducer(s, p, pc)} ::
                 (pc.Answered? || (pc.Collect? && pc.next == s.producers[p].pc.next + 1))
                 && CollectNext(s, p) == SetProducer(s, p, pc)
  {
    hide Extend, SliceFits, SetProducer, Panic;
  }

  lemma LoadHeadEffect(c: Config, s: State, p: nat, weakFail: bool, q: nat, b: nat)
    requires ProducerEnabled(c, s, p) && s.producers[p].pc.LoadHead?
    ensures c.geometry.Valid() && ProducerWrote(c, s, ProducerStep(c, s, p, weakFail), p)
    ensures ProducerEffect(s, ProducerStep(c, s, p, weakFail), p, q, b)
  {
    hide BelowRing;
  }

  lemma LoadTailEffect(c: Config, s: State, p: nat, weakFail: bool, q: nat, b: nat)
    requires ProducerEnabled(c, s, p) && s.producers[p].pc.LoadTail?
    ensures c.geometry.Valid() && ProducerWrote(c, s, ProducerStep(c, s, p, weakFail), p)
    ensures ProducerEffect(s, ProducerStep(c, s, p, weakFail), p, q, b)
  {
    hide BelowRing;
  }

  lemma ReserveWrite(c: Config, s: State, p: nat, weakFail: bool)
    requires ProducerEnabled(c, s, p) && s.producers[p].pc.Reserve?
    ensures c.geometry.Valid() && ProducerWrote(c, s, ProducerStep(c, s, p, weakFail), p)
  {
    hide PieceAt, WithSlots;
  }

  lemma ReserveEffect(c: Config, s: State, p: nat, weakFail: bool, q: nat, b: nat)
    requires ProducerEnabled(c, s, p) && s.producers[p].pc.Reserve?
    ensures ProducerEffect(s, ProducerStep(c, s, p, weakFail), p, q, b)
  {
    hide PieceAt, WithSlots;
  }

  lemma CopyEffect(c: Config, s: State, p: nat, weakFail: bool, q: nat, b: nat)
    requires ProducerEnabled(c, s, p) && s.producers[p].pc.Copy?
    ensures c.geometry.Valid() && ProducerWrote(c, s, ProducerStep(c, s, p, weakFail), p)
    ensures ProducerEffect(s, ProducerStep(c, s, p, weakFail), p, q, b)
  {
    hide Range, CopyRow;
    if s.producers[p].pc.done < s.producers[p].pc.piece.len {
      CopyRowSets(s, p);
    }
  }

  lemma MarkDirtyEffect(c: Config, s: State, p: nat, weakFail: bool, q: nat, b: nat)
    requires ProducerEnabled(c, s, p) && s.producers[p].pc.MarkDirty?
    ensures c.geometry.Valid() && ProducerWrote(c, s, ProducerStep(c, s, p, weakFail), p)
    ensures ProducerEffect(s, ProducerStep(c, s, p, weakFail), p, q, b)
  {
    hide Range, SetTracker, SetProducer;
    var piece := s.producers[p].pc.piece;
    SetMineIs(s, p, SetDeadline(piece), piece.batch, s.trackers[piece.batch].(dirty := 1));
  }

  lemma SetDeadlineEffect(c: Config, s: State, p: nat, weakFail: bool, q: nat, b: nat)
    requires ProducerEnabled(c, s, p) && s.producers[p].pc.SetDeadline?
    ensures c.geometry.Valid() && ProducerWrote(c, s, ProducerStep(c, s, p, weakFail), p)
    ensures ProducerEffect(s, ProducerStep(c, s, p, weakFail), p, q, b)
  {
    hide Range, SetTracker, SetProducer;
    var piece := s.producers[p].pc.piece;
    SetMineIs(s, p, SetQueueStart(piece), piece.batch, s.trackers[piece.batch].(deadline := true));
  }

  lemma SetQueueStartEffect(c: Config, s: State, p: nat, weakFail: bool, q: nat, b: nat)
    requires ProducerEnabled(c, s, p) && s.producers[p].pc.SetQueueStart?
    ensures c.geometry.Valid() && ProducerWrote(c, s, ProducerStep(c, s, p, weakFail), p)
    ensures ProducerEffect(s, ProducerStep(c, s, p, weakFail), p, q, b)
  {
    hide Range, SetTracker, SetProducer;
    var piece := s.producers[p].pc.piece;
    SetMineIs(s, p, Capture(piece), piece.batch, s.trackers[piece.batch].(queueStart := true));
  }

  lemma CaptureEffect(c: Config, s: State, p: nat, weakFail: bool, q: nat, b: nat)
    requires ProducerEnabled(c, s, p) && s.producers[p].pc.Capture?
    ensures c.geometry.Valid() && ProducerWrote(c, s, ProducerStep(c, s, p, weakFail), p)
    ensures ProducerEffect(s, ProducerStep(c, s, p, weakFail), p, q, b)
  {
    hide Range;
  }

  lemma PublishEffect(c: Config, s: State, p: nat, weakFail: bool, q: nat, b: nat)
    requires ProducerEnabled(c, s, p) && s.producers[p].pc.Publish?
    ensures c.geometry.Valid() && ProducerWrote(c, s, ProducerStep(c, s, p, weakFail), p)
    ensures ProducerEffect(s, ProducerStep(c, s, p, weakFail), p, q, b)
  {
    hide PieceAt, ReservationOf, Range;
  }

  lemma NotifyEffect(c: Config, s: State, p: nat, weakFail: bool, q: nat, b: nat)
    requires ProducerEnabled(c, s, p) && s.producers[p].pc.Notify?
    ensures c.geometry.Valid() && ProducerWrote(c, s, ProducerStep(c, s, p, weakFail), p)
    ensures ProducerEffect(s, ProducerStep(c, s, p, weakFail), p, q, b)
  {
    hide PieceAt;
  }

  lemma CollectEffect(c: Config, s: State, p: nat, weakFail: bool, q: nat, b: nat)
    requires ProducerEnabled(c, s, p) && s.producers[p].pc.Collect?
    ensures c.geometry.Valid() && ProducerWrote(c, s, ProducerStep(c, s, p, weakFail), p)
    ensures ProducerEffect(s, ProducerStep(c, s, p, weakFail), p, q, b)
  {
    hide Extend, SliceFits, CollectNext;
    if s.producers[p].pc.next < |s.producers[p].response| {
      CollectNextIs(s, p);
    }
  }

  lemma ProducerStepEffects(c: Config, s: State, p: nat, weakFail: bool, q: nat, b: nat)
    requires ProducerEnabled(c, s, p)
    ensures c.geometry.Valid() && ProducerWrote(c, s, ProducerStep(c, s, p, weakFail), p)
    ensures ProducerEffect(s, ProducerStep(c, s, p, weakFail), p, q, b)
  {
    hide ProducerStep, ProducerWrote, ProducerEffect;
    match s.producers[p].pc {
      case LoadHead => LoadHeadEffect(c, s, p, weakFail, q, b);
      case LoadTail(_) => LoadTailEffect(c, s, p, weakFail, q, b);
      case Reserve(_, _) =>
        ReserveWrite(c, s, p, weakFail);
        ReserveEffect(c, s, p, weakFail, q, b);
      case Copy(_, _) => CopyEffect(c, s, p, weakFail, q, b);
      case MarkDirty(_) => MarkDirtyEffect(c, s, p, weakFail, q, b);
      case SetDeadline(_) => SetDeadlineEffect(c, s, p, weakFail, q, b);
      case SetQueueStart(_) => SetQueueStartEffect(c, s, p, weakFail, q, b);
      case Capture(_) => CaptureEffect(c, s, p, weakFail, q, b);
      case Publish(_, _) => PublishEffect(c, s, p, weakFail, q, b);
      case Notify(_) => NotifyEffect(c, s, p, weakFail, q, b);
      case Collect(_, _) => CollectEffect(c, s, p, weakFail, q, b);
    }
  }

  lemma ProducerEffects(c: Config, s: State, p: nat, weakFail: bool, q: nat, b: nat)
    requires ProducerEnabled(c, s, p)
    ensures ProducerEffect(s, ProducerStep(c, s, p, weakFail), p, q, b)
  {
    hide *;
    ProducerStepEffects(c, s, p, weakFail, q, b);
  }

  lemma ProducerWrites(c: Config, s: State, p: nat, weakFail: bool)
    requires ProducerEnabled(c, s, p)
    ensures c.geometry.Valid() && ProducerWrote(c, s, ProducerStep(c, s, p, weakFail), p)
  {
    hide *;
    ProducerStepEffects(c, s, p, weakFail, 0, 0);
  }

  // ----- executors -----

  /** The executor's next step may write to tracker b. */
  ghost predicate Reaches(c: Config, s: State, pc: ExecutorPc, b: nat)
    requires c.geometry.Valid() && b < |s.trackers|
  {
    || (Holding(pc) && pc.batch == b)
    || (pc.Claim? && pc.e == s.executorHead && BatchId(c.geometry, s.executorHead) == b)
    || (pc.TailDirtyCas? && BatchId(c.geometry, pc.t) == b && s.trackers[b].dirty == 2)
    || (pc.TailCas? && pc.t == s.tail && BatchId(c.geometry, s.tail) == b)
  }

  /** What the step makes of tracker b. */
  ghost predicate TrackerEffect(c: Config, s: State, pc: ExecutorPc, b: nat, tr: Tracker, tr': Tracker)
    requires c.geometry.Valid() && b < |s.trackers|
  {
    && (tr' == tr || Reaches(c, s, pc, b))
    && (if pc.ResetState? && pc.batch == b then tr'.gen == tr.gen + 1 else tr'.gen == tr.gen)
    && (tr'.lap == tr.lap
        || (pc.TailCas? && pc.t == s.tail && tr'.lap == pc.t + c.geometry.ring && tr'.stage == UNCLAIMED))
    && (tr'.stage == UNCLAIMED ==> tr.stage == UNCLAIMED || (pc.TailCas? && tr'.lap == pc.t + c.geometry.ring))
    && (tr'.stage == tr.stage || pc.Claim? || (pc.TailCas? && tr'.lap == pc.t + c.geometry.ring)
        || (Holding(pc) && StageOf(pc) < tr'.stage <= DONE))
    && (tr'.stage == DONE ==> tr.stage == DONE || tr'.dirty == 2)
    && (pc.ResetState? && pc.batch == b ==> tr'.stage == STATE_RESET)
    && (pc.ResetDirty? && pc.batch == b ==> tr'.stage == DONE)
    && (tr'.dirty == tr.dirty || (pc.ResetDirty? && tr'.dirty == 2) || (pc.TailDirtyCas? && tr'.dirty == 0))
    && (pc.ResetDirty? && pc.batch == b ==> tr'.dirty == 2)
    && (tr'.deadline == tr.deadline || pc.ResetState?)
    && (tr'.queueStart == tr.queueStart || pc.ResetState?)
    && (tr'.writtenSlots == tr.writtenSlots || pc.ResetWritten?)
    && (tr'.stage >= SEALED ==> tr'.lap == tr.lap)
    && (tr'.stage >= SEALED ==>
          || (tr'.top == tr.top && (tr.stage >= SEALED || (Holding(pc) && pc.batch == b && StageOf(pc) >= SEALED)))
          || (pc.SealLoad? && pc.batch == b && tr'.top == pc.lap + c.geometry.batchSize)
          || (pc.SealCas? && pc.batch == b && tr'.top == pc.h))
  }

  /** Where the step takes the executor, as far as seals and moves of tail are concerned. */
  ghost predicate PcEffect(c: Config, s: State, pc: ExecutorPc, pc': ExecutorPc)
    requires c.geometry.Valid()
  {
    && (pc'.BorrowNotifier? ==>
          pc.Claim? && pc.e == s.executorHead == pc'.lap && pc'.batch == BatchId(c.geometry, s.executorHead))
    && (pc'.AwaitNotify? ==> pc.BorrowNotifier? && pc'.batch == pc.batch)
    && (pc'.SealLoad? ==> (pc.AwaitNotify? || pc.SealCas? || pc.SealLoad?) && pc'.lap == pc.lap)
    && (pc'.SealCas? ==> pc.SealLoad? && pc'.lap == pc.lap && pc'.h == s.head)
    && (pc'.ReadRows? ==> pc.LoadItems? || pc.ReadRows?)
    && (pc'.SetExecEnd? || pc'.SetOutput? ==> pc.ReadRows? || pc.SetExecEnd? || pc.SetOutput?)
    && (pc'.TailCas? ==>
          && pc.TailDirtyCas? && pc'.t == pc.t
          && forall b | 0 <= b < |s.trackers| && BatchId(c.geometry, pc.t) == b :: s.trackers[b].dirty == 2)
  }

  /** A step of executor e, as the counters, the producers and any executor d see it. */
  ghost predicate ExecutorMoved(c: Config, s: State, s': State, e: nat, d: nat)
    requires c.geometry.Valid()
  {
    && e < |s.executors| == |s'.executors|
    && var pc := s.executors[e];
       && s'.producers == s.producers && s'.owner == s.owner && s'.published == s.published
       && (s'.executorHead == s.executorHead || pc.Claim?)
       && (d < |s.executors| && d != e ==> s'.executors[d] == s.executors[d])
       && (s'.tail == s.tail || (pc.TailCas? && pc.t == s.tail && s'.tail == s.tail + c.geometry.batchSize))
       && (s'.head == s.head || (pc.SealCas? && pc.h == s.head && s'.head == pc.h + pc.remaining))
       && s'.permits == (if pc.AwaitNotify? then s.permits - {pc.notifier} else s.permits)
       && (pc.LoadItems? ==>
             pc.batch < |s.trackers| && s'.items == s.items[pc.lap := s.trackers[pc.batch].writtenSlots])
       && (!pc.LoadItems? ==> s'.items == s.items)
       && (s'.runs == s.runs || (pc.SetExecEnd? && s'.runs == s.runs + multiset{pc.lap}))
       && (s'.outputs == s.outputs
           || (pc.SetOutput? && pc.batch < |s.trackers|
               && s'.outputs == s.outputs[Cell(pc.batch, s.trackers[pc.batch].gen) := pc.result]))
       && PcEffect(c, s, pc, s'.executors[e])
  }

  /** A step of executor e, as any tracker b sees it. */
  ghost predicate ExecutorMarked(c: Config, s: State, s': State, e: nat, b: nat)
    requires c.geometry.Valid()
  {
    && e < |s.executors|
    && |s'.trackers| == |s.trackers|
    && (b < |s.trackers| ==> TrackerEffect(c, s, s.executors[e], b, s.trackers[b], s'.trackers[b]))
  }

  ghost predicate ExecutorEffect(c: Config, s: State, s': State, e: nat, b: nat, d: nat)
    requires c.geometry.Valid()
  {
    ExecutorMoved(c, s, s', e, d) && ExecutorMarked(c, s, s', e, b)
  }

  /** The executor steps that load, test or CAS a counter. */
  predicate OnCounters(pc: ExecutorPc) {
    || pc.LoadExecutorHead? || pc.LoadTailForClaim? || pc.Claim? || pc.SealLoad? || pc.SealCas?
    || pc.TailLoad? || pc.TailHead? || pc.TailDirty? || pc.TailDirtyCas? || pc.TailCas?
  }

  /** Where an executor goes next in a step that does not touch the counters. */
  function Onward(pc: ExecutorPc, trackers: seq<Tracker>, buffers: seq<seq<Row>>, result: BatchResult)
    : (pc': ExecutorPc)
    requires !OnCounters(pc)
  {
    match pc
    case BorrowNotifier(lap, b) => if b < |trackers| then AwaitNotify(lap, b, Cell(b, trackers[b].gen)) else pc
    case AwaitNotify(lap, b, _) => SealLoad(lap, b)
    case Spin(lap, b, _) => SetExecStart(lap, b)
    case SetExecStart(lap, b) => LoadItems(lap, b)
    case LoadItems(lap, b) => ReadRows(lap, b, [])
    case ReadRows(lap, b, seen) =>
      if b < |buffers| && |seen| < |buffers[b]| then ReadRows(lap, b, seen + [buffers[b][|seen|]])
      else SetExecEnd(lap, b, result)
    case SetExecEnd(lap, b, answer) => SetOutput(lap, b, answer)
    case SetOutput(lap, b, _) => ResetState(lap, b)
    case ResetState(lap, b) => ResetWritten(lap, b)
    case ResetWritten(lap, b) => ResetDirty(lap, b)
    case ResetDirty(_, _) => TailLoad
  }

  /** The executor takes that step, unless it panics. */
  ghost predicate GoesOn(s: State, s': State, e: nat, result: BatchResult)
    requires e < |s.executors| && !OnCounters(s.executors[e])
  {
    !s'.panicked ==> e < |s'.executors| && s'.executors[e] == Onward(s.executors[e], s.trackers, s.buffers, result)
  }

  lemma LoadExecutorHeadEffect(c: Config, s: State, e: nat, weakFail: bool, result: BatchResult, b: nat, d: nat)
    requires ExecutorEnabled(c, s, e, result) && s.executors[e].LoadExecutorHead?
    ensures ExecutorEffect(c, s, ExecutorStep(c, s, e, weakFail, result), e, b, d)
  {
    hide BatchId, BelowRing, RunOk;
  }

  lemma LoadTailForClaimEffect(c: Config, s: State, e: nat, weakFail: bool, result: BatchResult, b: nat, d: nat)
    requires ExecutorEnabled(c, s, e, result) && s.executors[e].LoadTailForClaim?
    ensures ExecutorEffect(c, s, ExecutorStep(c, s, e, weakFail, result), e, b, d)
  {
    hide BatchId, BelowRing, RunOk;
  }

  lemma ClaimEffect(c: Config, s: State, e: nat, weakFail: bool, result: BatchResult, b: nat, d: nat)
    requires ExecutorEnabled(c, s, e, result) && s.executors[e].Claim?
    ensures ExecutorEffect(c, s, ExecutorStep(c, s, e, weakFail, result), e, b, d)
  {
    hide BatchId, BelowRing, RunOk, ClaimLap, SetExecutor;
    BatchIdFacts(c.geometry, s.executorHead);
    ClaimLapIs(c, s, e, BatchId(c.geometry, s.executorHead));
    SetExecutorIs(s, e, LoadExecutorHead);
  }

  lemma BorrowNotifierEffect(c: Config, s: State, e: nat, weakFail: bool, result: BatchResult, b: nat, d: nat)
    requires ExecutorEnabled(c, s, e, result) && s.executors[e].BorrowNotifier?
    ensures ExecutorEffect(c, s, ExecutorStep(c, s, e, weakFail, result), e, b, d)
    ensures GoesOn(s, ExecutorStep(c, s, e, weakFail, result), e, result)
  {
    hide BatchId, BelowRing, RunOk;
  }

  lemma AwaitNotifyEffect(c: Config, s: State, e: nat, weakFail: bool, result: BatchResult, b: nat, d: nat)
    requires ExecutorEnabled(c, s, e, result) && s.executors[e].AwaitNotify?
    ensures ExecutorEffect(c, s, ExecutorStep(c, s, e, weakFail, result), e, b, d)
    ensures GoesOn(s, ExecutorStep(c, s, e, weakFail, result), e, result)
  {
    hide BatchId, BelowRing, RunOk;
  }

  lemma SealLoadEffect(c: Config, s: State, e: nat, weakFail: bool, result: BatchResult, b: nat, d: nat)
    requires ExecutorEnabled(c, s, e, result) && s.executors[e].SealLoad?
    ensures ExecutorEffect(c, s, ExecutorStep(c, s, e, weakFail, result), e, b, d)
  {
    hide BatchId, BelowRing, RunOk, SealTo;
    var pc := s.executors[e];
    SealToSets(s, e, pc.lap, pc.batch, pc.lap + c.geometry.batchSize, 0);
  }

  lemma SealCasMoves(c: Config, s: State, e: nat, weakFail: bool, result: BatchResult, d: nat)
    requires ExecutorEnabled(c, s, e, result) && s.executors[e].SealCas?
    ensures ExecutorMoved(c, s, ExecutorStep(c, s, e, weakFail, result), e, d)
  {
    hide BatchId, BelowRing, RunOk, SealTo;
    var pc := s.executors[e];
    SealToSets(s, e, pc.lap, pc.batch, pc.h, pc.remaining);
  }

  lemma SealCasMarks(c: Config, s: State, e: nat, weakFail: bool, result: BatchResult, b: nat)
    requires ExecutorEnabled(c, s, e, result) && s.executors[e].SealCas?
    ensures ExecutorMarked(c, s, ExecutorStep(c, s, e, weakFail, result), e, b)
  {
    hide BatchId, BelowRing, RunOk, SealTo;
    var pc := s.executors[e];
    SealToSets(s, e, pc.lap, pc.batch, pc.h, pc.remaining);
  }

  lemma SpinEffect(c: Config, s: State, e: nat, weakFail: bool, result: BatchResult, b: nat, d: nat)
    requires ExecutorEnabled(c, s, e, result) && s.executors[e].Spin?
    ensures ExecutorEffect(c, s, ExecutorStep(c, s, e, weakFail, result), e, b, d)
    ensures GoesOn(s, ExecutorStep(c, s, e, weakFail, result), e, result)
  {
    hide BatchId, BelowRing, RunOk;
  }

  lemma SetExecStartEffect(c: Config, s: State, e: nat, weakFail: bool, result: BatchResult, b: nat, d: nat)
    requires ExecutorEnabled(c, s, e, result) && s.executors[e].SetExecStart?
    ensures ExecutorEffect(c, s, ExecutorStep(c, s, e, weakFail, result), e, b, d)
    ensures GoesOn(s, ExecutorStep(c, s, e, weakFail, result), e, result)
  {
    hide BatchId, BelowRing, RunOk, SetTracker, SetExecutor;
    var pc := s.executors[e];
    SetBothIs(s, e, LoadItems(pc.lap, pc.batch), pc.batch, s.trackers[pc.batch].(execStart := true, stage := STARTED));
  }

  lemma LoadItemsEffect(c: Config, s: State, e: nat, weakFail: bool, result: BatchResult, b: nat, d: nat)
    requires ExecutorEnabled(c, s, e, result) && s.executors[e].LoadItems?
    ensures ExecutorEffect(c, s, ExecutorStep(c, s, e, weakFail, result), e, b, d)
    ensures GoesOn(s, ExecutorStep(c, s, e, weakFail, result), e, result)
  {
    hide BatchId, BelowRing, RunOk;
  }

  lemma ReadRowsEffect(c: Config, s: State, e: nat, weakFail: bool, result: BatchResult, b: nat, d: nat)
    requires ExecutorEnabled(c, s, e, result) && s.executors[e].ReadRows?
    ensures ExecutorEffect(c, s, ExecutorStep(c, s, e, weakFail, result), e, b, d)
    ensures GoesOn(s, ExecutorStep(c, s, e, weakFail, result), e, result)
  {
    hide BatchId, BelowRing, RunOk;
  }

  lemma SetExecEndMoves(c: Config, s: State, e: nat, weakFail: bool, result: BatchResult, d: nat)
    requires ExecutorEnabled(c, s, e, result) && s.executors[e].SetExecEnd?
    ensures ExecutorMoved(c, s, ExecutorStep(c, s, e, weakFail, result), e, d)
    ensures GoesOn(s, ExecutorStep(c, s, e, weakFail, result), e, result)
  {
    hide BatchId, BelowRing, RunOk, SetTracker, SetExecutor;
    var pc := s.executors[e];
    SetBothIs(s, e, SetOutput(pc.lap, pc.batch, pc.result), pc.batch,
              s.trackers[pc.batch].(execEnd := true, stage := ENDED));
  }

  lemma SetExecEndMarks(c: Config, s: State, e: nat, weakFail: bool, result: BatchResult, b: nat)
    requires ExecutorEnabled(c, s, e, result) && s.executors[e].SetExecEnd?
    ensures ExecutorMarked(c, s, ExecutorStep(c, s, e, weakFail, result), e, b)
  {
    hide BatchId, BelowRing, RunOk, SetTracker, SetExecutor;
    var pc := s.executors[e];
    SetBothIs(s, e, SetOutput(pc.lap, pc.batch, pc.result), pc.batch,
              s.trackers[pc.batch].(execEnd := true, stage := ENDED));
  }

  lemma SetOutputEffect(c: Config, s: State, e: nat, weakFail: bool, result: BatchResult, b: nat, d: nat)
    requires ExecutorEnabled(c, s, e, result) && s.executors[e].SetOutput?
    ensures ExecutorEffect(c, s, ExecutorStep(c, s, e, weakFail, result), e, b, d)
    ensures GoesOn(s, ExecutorStep(c, s, e, weakFail, result), e, result)
  {
    hide BatchId, BelowRing, RunOk, SetTracker, SetExecutor;
    var pc := s.executors[e];
    SetBothIs(s, e, ResetState(pc.lap, pc.batch), pc.batch, s.trackers[pc.batch].(stage := FILLED));
  }

  lemma ResetStateEffect(c: Config, s: State, e: nat, weakFail: bool, result: BatchResult, b: nat, d: nat)
    requires ExecutorEnabled(c, s, e, result) && s.executors[e].ResetState?
    ensures ExecutorEffect(c, s, ExecutorStep(c, s, e, weakFail, result), e, b, d)
    ensures GoesOn(s, ExecutorStep(c, s, e, weakFail, result), e, result)
  {
    hide BatchId, BelowRing, RunOk;
  }

  lemma ResetWrittenEffect(c: Config, s: State, e: nat, weakFail: bool, result: BatchResult, b: nat, d: nat)
    requires ExecutorEnabled(c, s, e, result) && s.executors[e].ResetWritten?
    ensures ExecutorEffect(c, s, ExecutorStep(c, s, e, weakFail, result), e, b, d)
    ensures GoesOn(s, ExecutorStep(c, s, e, weakFail, result), e, result)
  {
    hide BatchId, BelowRing, RunOk;
  }

  lemma ResetDirtyEffect(c: Config, s: State, e: nat, weakFail: bool, result: BatchResult, b: nat, d: nat)
    requires ExecutorEnabled(c, s, e, result) && s.executors[e].ResetDirty?
    ensures ExecutorEffect(c, s, ExecutorStep(c, s, e, weakFail, result), e, b, d)
    ensures GoesOn(s, ExecutorStep(c, s, e, weakFail, result), e, result)
  {
    hide BatchId, BelowRing, RunOk;
  }

  lemma TailLoadEffect(c: Config, s: State, e: nat, weakFail: bool, result: BatchResult, b: nat, d: nat)
    requires ExecutorEnabled(c, s, e, result) && s.executors[e].TailLoad?
    ensures ExecutorEffect(c, s, ExecutorStep(c, s, e, weakFail, result), e, b, d)
  {
    hide BatchId, BelowRing, RunOk;
  }

  lemma TailHeadEffect(c: Config, s: State, e: nat, weakFail: bool, result: BatchResult, b: nat, d: nat)
    requires ExecutorEnabled(c, s, e, result) && s.executors[e].TailHead?
    ensures ExecutorEffect(c, s, ExecutorStep(c, s, e, weakFail, result), e, b, d)
  {
    hide BatchId, BelowRing, RunOk;
  }

  lemma TailDirtyEffect(c: Config, s: State, e: nat, weakFail: bool, result: BatchResult, b: nat, d: nat)
    requires ExecutorEnabled(c, s, e, result) && s.executors[e].TailDirty?
    ensures ExecutorEffect(c, s, ExecutorStep(c, s, e, weakFail, result), e, b, d)
  {
    hide BatchId, BelowRing, RunOk;
    BatchIdFacts(c.geometry, s.executors[e].t);
  }

  lemma TailDirtyCasEffect(c: Config, s: State, e: nat, weakFail: bool, result: BatchResult, b: nat, d: nat)
    requires ExecutorEnabled(c, s, e, result) && s.executors[e].TailDirtyCas?
    ensures ExecutorEffect(c, s, ExecutorStep(c, s, e, weakFail, result), e, b, d)
  {
    hide BatchId, BelowRing, RunOk, SetTracker, SetExecutor;
    BatchIdFacts(c.geometry, s.executors[e].t);
    var t := s.executors[e].t;
    SetExecutorIs(s, e, LoadExecutorHead);
    SetBothIs(s, e, TailCas(t), BatchId(c.geometry, t), s.trackers[BatchId(c.geometry, t)].(dirty := 0));
  }

  lemma TailCasEffect(c: Config, s: State, e: nat, weakFail: bool, result: BatchResult, b: nat, d: nat)
    requires ExecutorEnabled(c, s, e, result) && s.executors[e].TailCas?
    ensures ExecutorEffect(c, s, ExecutorStep(c, s, e, weakFail, result), e, b, d)
  {
    hide BatchId, BelowRing, RunOk, AdvanceTail, SetExecutor;
    BatchIdFacts(c.geometry, s.executors[e].t);
    var t := s.executors[e].t;
    AdvanceTailIs(c, s, e, t, BatchId(c.geometry, t));
    SetExecutorIs(s, e, LoadExecutorHead);
  }

  lemma SetExecutorIs(s: State, e: nat, pc: ExecutorPc)
    requires e < |s.executors|
    ensures SetExecutor(s, e, pc) == s.(executors := s.executors[e := pc])
  {
  }

  lemma SetBothIs(s: State, e: nat, pc: ExecutorPc, b: nat, tr: Tracker)
    requires e < |s.executors| && b < |s.trackers|
    ensures SetTracker(SetExecutor(s, e, pc), b, tr)
         == s.(executors := s.executors[e := pc], trackers := s.trackers[b := tr])
  {
  }

  lemma ClaimLapIs(c: Config, s: State, e: nat, b: nat)
    requires c.geometry.Valid() && e < |s.executors|
    requires b == BatchId(c.geometry, s.executorHead) < |s.trackers|
    ensures ClaimLap(c, s, e)
         == s.(executorHead := s.executorHead + c.geometry.batchSize,
               executors := s.executors[e := BorrowNotifier(s.executorHead, b)],
               trackers := s.trackers[b := s.trackers[b].(stage := CLAIMED, claimant := e)],
               claims := s.claims + multiset{s.executorHead})
  {
    hide BatchId;
  }

  lemma AdvanceTailIs(c: Config, s: State, e: nat, t: nat, b: nat)
    requires c.geometry.Valid() && e < |s.executors| && b == BatchId(c.geometry, t) < |s.trackers|
    ensures AdvanceTail(c, s, e, t)
         == s.(tail := t + c.geometry.batchSize,
               executors := s.executors[e := TailLoad],
               trackers := s.trackers[b := s.trackers[b].(lap := t + c.geometry.ring, stage := UNCLAIMED)])
  {
    hide BatchId;
  }

  lemma SealToSets(s: State, e: nat, lap: nat, b: nat, top: nat, remaining: nat)
    requires e < |s.executors| && b < |s.trackers|
    ensures SealTo(s, e, lap, b, top, remaining)
         == s.(executors := s.executors[e := Spin(lap, b, remaining)],
               trackers := s.trackers[b := s.trackers[b].(stage := SEALED, top := top)])
  {
  }

  lemma ExecutorEffects(c: Config, s: State, e: nat, weakFail: bool, result: BatchResult, b: nat, d: nat)
    requires ExecutorEnabled(c, s, e, result)
    ensures c.geometry.Valid() && e < |s.executors|
    ensures ExecutorEffect(c, s, ExecutorStep(c, s, e, weakFail, result), e, b, d)
  {
    hide ExecutorStep, ExecutorMoved, ExecutorMarked, RunOk;
    match s.executors[e] {
      case LoadExecutorHead => LoadExecutorHeadEffect(c, s, e, weakFail, result, b, d);
      case LoadTailForClaim(_) => LoadTailForClaimEffect(c, s, e, weakFail, result, b, d);
      case Claim(_) => ClaimEffect(c, s, e, weakFail, result, b, d);
      case BorrowNotifier(_, _) => BorrowNotifierEffect(c, s, e, weakFail, result, b, d);
      case AwaitNotify(_, _, _) => AwaitNotifyEffect(c, s, e, weakFail, result, b, d);
      case SealLoad(_, _) => SealLoadEffect(c, s, e, weakFail, result, b, d);
      case SealCas(_, _, _, _) =>
        SealCasMoves(c, s, e, weakFail, result, d);
        SealCasMarks(c, s, e, weakFail, result, b);
      case Spin(_, _, _) => SpinEffect(c, s, e, weakFail, result, b, d);
      case SetExecStart(_, _) => SetExecStartEffect(c, s, e, weakFail, result, b, d);
      case LoadItems(_, _) => LoadItemsEffect(c, s, e, weakFail, result, b, d);
      case ReadRows(_, _, _) => ReadRowsEffect(c, s, e, weakFail, result, b, d);
      case SetExecEnd(_, _, _) =>
        SetExecEndMoves(c, s, e, weakFail, result, d);
        SetExecEndMarks(c, s, e, weakFail, result, b);
      case SetOutput(_, _, _) => SetOutputEffect(c, s, e, weakFail, result, b, d);
      case ResetState(_, _) => ResetStateEffect(c, s, e, weakFail, result, b, d);
      case ResetWritten(_, _) => ResetWrittenEffect(c, s, e, weakFail, result, b, d);
      case ResetDirty(_, _) => ResetDirtyEffect(c, s, e, weakFail, result, b, d);
      case TailLoad => TailLoadEffect(c, s, e, weakFail, result, b, d);
      case TailHead(_) => TailHeadEffect(c, s, e, weakFail, result, b, d);
      case TailDirty(_) => TailDirtyEffect(c, s, e, weakFail, result, b, d);
      case TailDirtyCas(_) => TailDirtyCasEffect(c, s, e, weakFail, result, b, d);
      case TailCas(_) => TailCasEffect(c, s, e, weakFail, result, b, d);
    }
  }

  lemma ExecutorGoesOn(c: Config, s: State, e: nat, weakFail: bool, result: BatchResult)
    requires ExecutorEnabled(c, s, e, result) && e < |s.executors| && !OnCounters(s.executors[e])
    ensures GoesOn(s, ExecutorStep(c, s, e, weakFail, result), e, result)
  {
    hide ExecutorStep, ExecutorEffect, GoesOn, RunOk;
    match s.executors[e] {
      case BorrowNotifier(_, _) => BorrowNotifierEffect(c, s, e, weakFail, result, 0, 0);
      case AwaitNotify(_, _, _) => AwaitNotifyEffect(c, s, e, weakFail, result, 0, 0);
      case Spin(_, _, _) => SpinEffect(c, s, e, weakFail, result, 0, 0);
      case SetExecStart(_, _) => SetExecStartEffect(c, s, e, weakFail, result, 0, 0);
      case LoadItems(_, _) => LoadItemsEffect(c, s, e, weakFail, result, 0, 0);
      case ReadRows(_, _, _) => ReadRowsEffect(c, s, e, weakFail, result, 0, 0);
      case SetExecEnd(_, _, _) => SetExecEndMoves(c, s, e, weakFail, result, 0);
      case SetOutput(_, _, _) => SetOutputEffect(c, s, e, weakFail, result, 0, 0);
      case ResetState(_, _) => ResetStateEffect(c, s, e, weakFail, result, 0, 0);
      case ResetWritten(_, _) => ResetWrittenEffect(c, s, e, weakFail, result, 0, 0);
      case ResetDirty(_, _) => ResetDirtyEffect(c, s, e, weakFail, result, 0, 0);
    }
  }
}
