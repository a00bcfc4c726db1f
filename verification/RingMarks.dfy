/** Exactly when the marks of a lap are set, and that no batch is run without being counted. */
module RingMarks {
  import opened InferTypes
  import opened Multiples
  import opened Ranges
  import opened RingGeometry
  import opened RingModel
  import opened RingSteps
  import opened RingEffects
  import opened RingInvariant
  import opened RingProducerProofs
  import opened RingExecutorProofs
  import opened RingRuns
  import opened RingTheorems
  import opened RingSessions
  import opened RingProgress

  ghost predicate PassedDirty(p: Producer, i: nat) {
    || i < Written(p)
    || ((p.pc.SetDeadline? || p.pc.SetQueueStart? || p.pc.Capture? || p.pc.Publish?) && p.pc.piece.pos == i)
  }

  ghost predicate OwnerPassedDirty(owner: map<nat, Slot>, producers: seq<Producer>, a: nat) {
    && a in owner
    && owner[a].producer < |producers|
    && PassedDirty(producers[owner[a].producer], owner[a].index)
  }

  /** What the producer of slot 0 has set stays set until the executor resets it. */
  ghost predicate MarksSet(tr: Tracker, owner: map<nat, Slot>, producers: seq<Producer>) {
    && (tr.stage < STATE_RESET && OwnerPassedDeadline(owner, producers, tr.lap) ==> tr.deadline)
    && (tr.stage < STATE_RESET && OwnerPassedQueueStart(owner, producers, tr.lap) ==> tr.queueStart)
    && (tr.dirty == 1 <==> tr.stage < DONE && OwnerPassedDirty(owner, producers, tr.lap))
  }

  ghost predicate AllMarked(s: State) {
    forall b: nat {:trigger s.trackers[b]} | b < |s.trackers| :: MarksSet(s.trackers[b], s.owner, s.producers)
  }

  // ----- how a producer passes the marks -----

  /** A step passes a mark of an aligned slot only by setting it. */
  ghost predicate PassesBySetting(me: Producer, me': Producer, i: nat) {
    && (PassedDirty(me', i) ==> PassedDirty(me, i) || (me.pc.MarkDirty? && me.pc.piece.pos == i))
    && (PassedDeadline(me', i) ==> PassedDeadline(me, i) || (me.pc.SetDeadline? && me.pc.piece.pos == i))
    && (PassedQueueStart(me', i) ==> PassedQueueStart(me, i) || (me.pc.SetQueueStart? && me.pc.piece.pos == i))
    && (PassedDirty(me, i) ==> PassedDirty(me', i))
    && (me.pc.MarkDirty? && me.pc.piece.pos == i ==> PassedDirty(me', i))
  }

  /** An aligned row of a piece is its first, and at slot 0. */
  lemma AlignedRow(c: Config, me: Producer, i: nat)
    requires c.geometry.Valid() && HasPiece(me.pc) && PieceShape(c, me, me.pc.piece)
    requires Multiple(c.geometry.batchSize, me.first + i)
    requires me.pc.piece.pos <= i < me.pc.piece.pos + me.pc.piece.len
    ensures i == me.pc.piece.pos && SlotOf(me, me.pc.piece) == 0 && me.first + i == me.pc.piece.base
  {
    LowerBoundIs(c.geometry, me.pc.piece.base, me.first + i);
    LowerBoundIs(c.geometry, me.first + i, me.first + i);
  }

  lemma NextPieceStarts(c: Config, me: Producer, piece: Piece)
    requires c.geometry.Valid() && piece.pos + piece.len <= |me.rows|
    ensures var pc := AfterPiece(c, me, piece); Written(me.(pc := pc)) == piece.pos + piece.len
    ensures var pc := AfterPiece(c, me, piece); pc.Copy? || pc.Collect?
  {
  }

  lemma CopyPasses(c: Config, s: State, p: nat, weakFail: bool, i: nat)
    requires Inv(c, s) && p < |s.producers| && ProducerEnabled(c, s, p) && !ProducerStep(c, s, p, weakFail).panicked
    requires c.geometry.Valid() && Multiple(c.geometry.batchSize, s.producers[p].first + i)
    requires s.producers[p].pc.Copy?
    ensures p < |ProducerStep(c, s, p, weakFail).producers|
    ensures PassesBySetting(s.producers[p], ProducerStep(c, s, p, weakFail).producers[p], i)
  {
    hide Inv, Multiple, OwnsItsRows, CollectOk, PieceHere, Copied, ResponseOk, CopyRow;
    OwnParts(c, s, p);
    var me := s.producers[p];
    if me.pc.piece.pos <= i < me.pc.piece.pos + me.pc.piece.len {
      AlignedRow(c, me, i);
    }
    if me.pc.done < me.pc.piece.len {
      CopyRowSets(s, p);
    }
  }

  lemma MarkDirtyPasses(c: Config, s: State, p: nat, weakFail: bool, i: nat)
    requires Inv(c, s) && p < |s.producers| && ProducerEnabled(c, s, p) && !ProducerStep(c, s, p, weakFail).panicked
    requires c.geometry.Valid() && Multiple(c.geometry.batchSize, s.producers[p].first + i)
    requires s.producers[p].pc.MarkDirty?
    ensures p < |ProducerStep(c, s, p, weakFail).producers|
    ensures PassesBySetting(s.producers[p], ProducerStep(c, s, p, weakFail).producers[p], i)
  {
    hide Inv, Multiple, SetTracker, SetProducer;
    var piece := s.producers[p].pc.piece;
    SetMineIs(s, p, SetDeadline(piece), piece.batch, s.trackers[piece.batch].(dirty := 1));
  }

  lemma SetDeadlinePasses(c: Config, s: State, p: nat, weakFail: bool, i: nat)
    requires Inv(c, s) && p < |s.producers| && ProducerEnabled(c, s, p) && !ProducerStep(c, s, p, weakFail).panicked
    requires c.geometry.Valid() && Multiple(c.geometry.batchSize, s.producers[p].first + i)
    requires s.producers[p].pc.SetDeadline?
    ensures p < |ProducerStep(c, s, p, weakFail).producers|
    ensures PassesBySetting(s.producers[p], ProducerStep(c, s, p, weakFail).producers[p], i)
  {
    hide Inv, Multiple, SetTracker, SetProducer;
    var piece := s.producers[p].pc.piece;
    SetMineIs(s, p, SetQueueStart(piece), piece.batch, s.trackers[piece.batch].(deadline := true));
  }

  lemma SetQueueStartPasses(c: Config, s: State, p: nat, weakFail: bool, i: nat)
    requires Inv(c, s) && p < |s.producers| && ProducerEnabled(c, s, p) && !ProducerStep(c, s, p, weakFail).panicked
    requires c.geometry.Valid() && Multiple(c.geometry.batchSize, s.producers[p].first + i)
    requires s.producers[p].pc.SetQueueStart?
    ensures p < |ProducerStep(c, s, p, weakFail).producers|
    ensures PassesBySetting(s.producers[p], ProducerStep(c, s, p, weakFail).producers[p], i)
  {
    hide Inv, Multiple, SetTracker, SetProducer;
    var piece := s.producers[p].pc.piece;
    SetMineIs(s, p, Capture(piece), piece.batch, s.trackers[piece.batch].(queueStart := true));
  }

  lemma CapturePasses(c: Config, s: State, p: nat, weakFail: bool, i: nat)
    requires Inv(c, s) && p < |s.producers| && ProducerEnabled(c, s, p) && !ProducerStep(c, s, p, weakFail).panicked
    requires c.geometry.Valid() && Multiple(c.geometry.batchSize, s.producers[p].first + i)
    requires s.producers[p].pc.Capture?
    ensures p < |ProducerStep(c, s, p, weakFail).producers|
    ensures PassesBySetting(s.producers[p], ProducerStep(c, s, p, weakFail).producers[p], i)
  {
    hide Inv, Multiple;
  }

  lemma PublishPasses(c: Config, s: State, p: nat, weakFail: bool, i: nat)
    requires Inv(c, s) && p < |s.producers| && ProducerEnabled(c, s, p) && !ProducerStep(c, s, p, weakFail).panicked
    requires c.geometry.Valid() && Multiple(c.geometry.batchSize, s.producers[p].first + i)
    requires s.producers[p].pc.Publish?
    ensures p < |ProducerStep(c, s, p, weakFail).producers|
    ensures PassesBySetting(s.producers[p], ProducerStep(c, s, p, weakFail).producers[p], i)
  {
    hide Inv, Multiple, OwnsItsRows, CollectOk, PieceHere, Copied, ResponseOk, Range, ReservationOf, PieceAt;
    OwnParts(c, s, p);
    var me := s.producers[p];
    if me.pc.piece.pos <= i < me.pc.piece.pos + me.pc.piece.len {
      AlignedRow(c, me, i);
    }
    NextPieceStarts(c, me, me.pc.piece);
  }

  lemma NotifyPasses(c: Config, s: State, p: nat, weakFail: bool, i: nat)
    requires Inv(c, s) && p < |s.producers| && ProducerEnabled(c, s, p) && !ProducerStep(c, s, p, weakFail).panicked
    requires c.geometry.Valid() && Multiple(c.geometry.batchSize, s.producers[p].first + i)
    requires s.producers[p].pc.Notify?
    ensures p < |ProducerStep(c, s, p, weakFail).producers|
    ensures PassesBySetting(s.producers[p], ProducerStep(c, s, p, weakFail).producers[p], i)
  {
    hide Inv, Multiple, OwnsItsRows, CollectOk, PieceHere, Copied, ResponseOk, PieceAt;
    OwnParts(c, s, p);
    NextPieceStarts(c, s.producers[p], s.producers[p].pc.piece);
  }

  lemma CollectPasses(c: Config, s: State, p: nat, weakFail: bool, i: nat)
    requires Inv(c, s) && p < |s.producers| && ProducerEnabled(c, s, p) && !ProducerStep(c, s, p, weakFail).panicked
    requires c.geometry.Valid() && Multiple(c.geometry.batchSize, s.producers[p].first + i)
    requires s.producers[p].pc.Collect?
    ensures p < |ProducerStep(c, s, p, weakFail).producers|
    ensures PassesBySetting(s.producers[p], ProducerStep(c, s, p, weakFail).producers[p], i)
  {
    hide Inv, Multiple, Extend, SliceFits, CollectNext;
    if s.producers[p].pc.next < |s.producers[p].response| {
      CollectNextIs(s, p);
    }
  }

  lemma ProducerPasses(c: Config, s: State, p: nat, weakFail: bool, i: nat)
    requires Inv(c, s) && p < |s.producers| && ProducerEnabled(c, s, p) && !ProducerStep(c, s, p, weakFail).panicked
    requires c.geometry.Valid() && Multiple(c.geometry.batchSize, s.producers[p].first + i)
    requires Granted(s.producers[p].pc)
    ensures p < |ProducerStep(c, s, p, weakFail).producers|
    ensures PassesBySetting(s.producers[p], ProducerStep(c, s, p, weakFail).producers[p], i)
  {
    hide Inv, Multiple, ProducerStep, ProducerEnabled, PassesBySetting;
    NotAnswered(c, s, p);
    match s.producers[p].pc {
      case Copy(_, _) => CopyPasses(c, s, p, weakFail, i);
      case MarkDirty(_) => MarkDirtyPasses(c, s, p, weakFail, i);
      case SetDeadline(_) => SetDeadlinePasses(c, s, p, weakFail, i);
      case SetQueueStart(_) => SetQueueStartPasses(c, s, p, weakFail, i);
      case Capture(_) => CapturePasses(c, s, p, weakFail, i);
      case Publish(_, _) => PublishPasses(c, s, p, weakFail, i);
      case Notify(_) => NotifyPasses(c, s, p, weakFail, i);
      case Collect(_, _) => CollectPasses(c, s, p, weakFail, i);
    }
  }

  lemma NotAnswered(c: Config, s: State, p: nat)
    requires ProducerEnabled(c, s, p) && p < |s.producers|
    ensures !s.producers[p].pc.Answered?
  {
  }

  // ----- one step, one tracker -----

  /** A step passes a mark of the tracker's lap only by setting it in that tracker. */
  ghost predicate LapPassesBySetting(s: State, s': State, p: nat, b: nat)
    requires p < |s.producers| && b < |s.trackers|
  {
    var pc, a := s.producers[p].pc, s.trackers[b].lap;
    && (OwnerPassedDirty(s'.owner, s'.producers, a) <==>
        OwnerPassedDirty(s.owner, s.producers, a) || (pc.MarkDirty? && pc.piece.batch == b))
    && (OwnerPassedDeadline(s'.owner, s'.producers, a) ==>
          OwnerPassedDeadline(s.owner, s.producers, a) || (pc.SetDeadline? && pc.piece.batch == b))
    && (OwnerPassedQueueStart(s'.owner, s'.producers, a) ==>
          OwnerPassedQueueStart(s.owner, s.producers, a) || (pc.SetQueueStart? && pc.piece.batch == b))
  }

  lemma MarkingBatch(c: Config, s: State, p: nat, b: nat)
    requires Inv(c, s) && p < |s.producers| && b < |s.trackers| && Writing(s.producers[p].pc)
    ensures var me := s.producers[p]; var a := s.trackers[b].lap; var pc := me.pc;
            && (a in s.owner && s.owner[a].producer == p && s.owner[a].index == pc.piece.pos ==> pc.piece.batch == b)
            && ((pc.MarkDirty? || pc.SetDeadline? || pc.SetQueueStart?) && pc.piece.batch == b ==>
                  a in s.owner && s.owner[a].producer == p && s.owner[a].index == pc.piece.pos)
  {
    hide Inv, LapOf, Multiple;
    OwnersOf(c, s);
    WriterBeforeFull(c, s, p);
    OwnParts(c, s, p);
    var a, me := s.trackers[b].lap, s.producers[p];
    if a in s.owner && s.owner[a].producer == p && s.owner[a].index == me.pc.piece.pos {
      LowerBoundOfPiece(c, s, p, b);
    }
  }

  lemma LowerBoundOfPiece(c: Config, s: State, p: nat, b: nat)
    requires Inv(c, s) && p < |s.producers| && b < |s.trackers| && Writing(s.producers[p].pc)
    requires s.trackers[b].lap == s.producers[p].first + s.producers[p].pc.piece.pos
    ensures s.producers[p].pc.piece.batch == b
  {
    hide Inv, LapOf, Multiple;
    ConfigOf(c, s);
    WriterBeforeFull(c, s, p);
    WindowOf(c, s, b);
    var piece := s.producers[p].pc.piece;
    LowerBoundIs(c.geometry, piece.base, s.trackers[b].lap);
    LowerBoundIs(c.geometry, s.trackers[b].lap, s.trackers[b].lap);
    if piece.batch != b {
      DifferentLaps(c, s, b, piece.batch);
    }
  }

  /** A granted request has passed nothing yet. */
  lemma NothingPassedYet(c: Config, s: State, p: nat, weakFail: bool)
    requires ProducerEnabled(c, s, p) && s.producers[p].pc.Reserve?
    ensures p < |ProducerStep(c, s, p, weakFail).producers|
    ensures var me' := ProducerStep(c, s, p, weakFail).producers[p];
            forall i: nat :: !PassedDirty(me', i) && !PassedDeadline(me', i) && !PassedQueueStart(me', i)
  {
    hide WithSlots;
  }

  lemma OwnLapPasses(c: Config, s: State, p: nat, weakFail: bool, b: nat)
    requires Inv(c, s) && p < |s.producers| && ProducerEnabled(c, s, p) && b < |s.trackers|
    requires var a := s.trackers[b].lap; a in s.owner && s.owner[a].producer == p
    ensures LapPassesBySetting(s, ProducerStep(c, s, p, weakFail), p, b)
  {
    hide Inv, Multiple, ProducerStep, ProducerEnabled, PassedDirty, PassedDeadline, PassedQueueStart, NewPiece, LapOf;
    ConfigOf(c, s);
    OwnersOf(c, s);
    WindowOf(c, s, b);
    NoProducerPanics(c, s, p, weakFail);
    ProducerWrites(c, s, p, weakFail);
    ProducerPasses(c, s, p, weakFail, s.owner[s.trackers[b].lap].index);
    if Writing(s.producers[p].pc) {
      MarkingBatch(c, s, p, b);
    }
  }

  lemma OtherLapPasses(c: Config, s: State, p: nat, weakFail: bool, b: nat)
    requires Inv(c, s) && p < |s.producers| && ProducerEnabled(c, s, p) && b < |s.trackers|
    requires var a := s.trackers[b].lap; a in s.owner ==> s.owner[a].producer != p
    ensures LapPassesBySetting(s, ProducerStep(c, s, p, weakFail), p, b)
  {
    hide Inv, Multiple, ProducerStep, ProducerEnabled, PassedDirty, PassedDeadline, PassedQueueStart, NewPiece;
    var a := s.trackers[b].lap;
    OwnersOf(c, s);
    BoundsOf(c, s);
    ProducerWrites(c, s, p, weakFail);
    if a in s.owner {
      ProducerEffects(c, s, p, weakFail, s.owner[a].producer, b);
    }
    if s.producers[p].pc.Reserve? {
      NothingPassedYet(c, s, p, weakFail);
    }
    if Writing(s.producers[p].pc) {
      MarkingBatch(c, s, p, b);
    }
  }

  lemma ProducerKeepsMarks(c: Config, s: State, p: nat, weakFail: bool)
    requires Inv(c, s) && AllMarked(s) && p < |s.producers| && ProducerEnabled(c, s, p)
    ensures AllMarked(ProducerStep(c, s, p, weakFail))
  {
    hide Inv, ProducerStep, ProducerEnabled, OwnerPassedDirty, OwnerPassedDeadline, OwnerPassedQueueStart,
         ProducerMoved;
    var s' := ProducerStep(c, s, p, weakFail);
    ProducerEffects(c, s, p, weakFail, 0, 0);
    if Writing(s.producers[p].pc) {
      WriterNotFull(c, s, p);
    }
    forall b: nat | b < |s'.trackers| ensures MarksSet(s'.trackers[b], s'.owner, s'.producers) {
      ProducerEffects(c, s, p, weakFail, 0, b);
      var a := s.trackers[b].lap;
      if a in s.owner && s.owner[a].producer == p {
        OwnLapPasses(c, s, p, weakFail, b);
      } else {
        OtherLapPasses(c, s, p, weakFail, b);
      }
    }
  }

  lemma ExecutorKeepsMarks(c: Config, s: State, e: nat, weakFail: bool, result: BatchResult)
    requires Inv(c, s) && AllMarked(s) && ExecutorEnabled(c, s, e, result)
    ensures AllMarked(ExecutorStep(c, s, e, weakFail, result))
  {
    hide Inv, ExecutorStep, ExecutorEnabled, ExecutorMarked, PcEffect, MarksSet, LapOf, BatchId, RunOk;
    var s' := ExecutorStep(c, s, e, weakFail, result);
    ExecutorEffects(c, s, e, weakFail, result, 0, 0);
    forall b: nat | b < |s'.trackers| ensures MarksSet(s'.trackers[b], s'.owner, s'.producers) {
      ExecutorKeepsMark(c, s, e, weakFail, result, b);
    }
  }

  lemma ExecutorKeepsMark(c: Config, s: State, e: nat, weakFail: bool, result: BatchResult, b: nat)
    requires Inv(c, s) && AllMarked(s) && ExecutorEnabled(c, s, e, result)
    requires b < |ExecutorStep(c, s, e, weakFail, result).trackers|
    ensures var s' := ExecutorStep(c, s, e, weakFail, result); MarksSet(s'.trackers[b], s'.owner, s'.producers)
  {
    hide Inv, ExecutorStep, ExecutorEnabled, PcEffect, LapOf, BatchId, RunOk, PassedDirty, PassedDeadline,
         PassedQueueStart;
    ExecutorEffects(c, s, e, weakFail, result, b, 0);
    assert MarksSet(s.trackers[b], s.owner, s.producers);
    CountersOf(c, s);
    BoundsOf(c, s);
    MarkedIsDone(c, s, b);
    var pc := s.executors[e];
    if Holding(pc) {
      HeldTracker(c, s, e);
    } else if pc.TailCas? && pc.t == s.tail {
      AdvanceFacts(c, s, e);
    } else if pc.Claim? && pc.e == s.executorHead {
      ClaimFacts(c, s, e);
    }
  }

  // ----- batches that are run are counted -----

  /** batch_items is read before a lap's run ends. */
  ghost predicate Counted(s: State) {
    && (forall u: nat | s.runs[u] > 0 :: u in s.items)
    && (forall e: nat {:trigger s.executors[e]} | e < |s.executors| && AfterItems(s.executors[e]) ::
          s.executors[e].lap in s.items)
  }

  predicate AfterItems(pc: ExecutorPc) {
    pc.ReadRows? || pc.SetExecEnd?
  }

  lemma AfterItemsFrom(c: Config, s: State, e: nat, weakFail: bool, result: BatchResult)
    requires Inv(c, s) && ExecutorEnabled(c, s, e, result) && e < |ExecutorStep(c, s, e, weakFail, result).executors|
    requires AfterItems(ExecutorStep(c, s, e, weakFail, result).executors[e])
    ensures e < |s.executors|
    ensures var pc := s.executors[e];
            (pc.LoadItems? || AfterItems(pc)) && ExecutorStep(c, s, e, weakFail, result).executors[e].lap == pc.lap
  {
    hide Inv, ExecutorStep, ExecutorEnabled, LapOf, BatchId, RunOk, TrackerEffect;
    ExecutorEffects(c, s, e, weakFail, result, 0, e);
    if Holding(s.executors[e]) && !OnCounters(s.executors[e]) {
      OnlySealsPanic(c, s, e, weakFail, result);
      ExecutorGoesOn(c, s, e, weakFail, result);
    }
  }

  lemma ExecutorKeepsCount(c: Config, s: State, e: nat, weakFail: bool, result: BatchResult)
    requires Inv(c, s) && Counted(s) && ExecutorEnabled(c, s, e, result)
    ensures Counted(ExecutorStep(c, s, e, weakFail, result))
  {
    hide Inv, ExecutorStep, ExecutorEnabled, LapOf, BatchId, RunOk, TrackerEffect, PcEffect;
    var s' := ExecutorStep(c, s, e, weakFail, result);
    ExecutorEffects(c, s, e, weakFail, result, 0, e);
    forall d: nat | d < |s'.executors| && AfterItems(s'.executors[d]) ensures s'.executors[d].lap in s'.items {
      if d == e {
        AfterItemsFrom(c, s, e, weakFail, result);
      } else {
        ExecutorEffects(c, s, e, weakFail, result, 0, d);
      }
    }
  }

  // ----- runs -----

  ghost predicate MarksInv(s: State) {
    AllMarked(s) && Counted(s)
  }

  lemma ArrivalKeepsMarks(c: Config, s: State, rows: seq<Row>)
    requires Inv(c, s) && MarksInv(s) && Enabled(c, s, Arrive(rows))
    ensures MarksInv(Apply(c, s, Arrive(rows)))
  {
    hide Inv, PassedDirty, PassedDeadline, PassedQueueStart;
    OwnersOf(c, s);
    var s' := Apply(c, s, Arrive(rows));
    forall b: nat | b < |s'.trackers| ensures MarksSet(s'.trackers[b], s'.owner, s'.producers) {
      assert MarksSet(s.trackers[b], s.owner, s.producers);
    }
  }

  lemma ProducerKeepsCount(c: Config, s: State, p: nat, weakFail: bool)
    requires Counted(s) && ProducerEnabled(c, s, p)
    ensures p < |s.producers| && Counted(ProducerStep(c, s, p, weakFail))
  {
    hide ProducerStep, ProducerEnabled;
    ProducerEffects(c, s, p, weakFail, 0, 0);
  }

  lemma StepKeepsMarks(c: Config, s: State, s': State)
    requires Inv(c, s) && MarksInv(s) && SafeNext(c, s, s')
    ensures MarksInv(s')
  {
    hide Inv, AllMarked, Counted, ProducerStep, ExecutorStep, ProducerEnabled, ExecutorEnabled, GrantFits;
    var a :| Enabled(c, s, a) && GrantFits(c, s, a) && s' == Apply(c, s, a);
    match a {
      case Arrive(rows) => ArrivalKeepsMarks(c, s, rows);
      case Produce(p, weakFail) =>
        ProducerKeepsCount(c, s, p, weakFail);
        ProducerKeepsMarks(c, s, p, weakFail);
      case Execute(e, weakFail, result) =>
        ExecutorKeepsCount(c, s, e, weakFail, result);
        ExecutorKeepsMarks(c, s, e, weakFail, result);
    }
  }

  lemma InitMarks(c: Config, s: State)
    requires Init(c, s)
    ensures MarksInv(s)
  {
    forall b: nat | b < |s.trackers| ensures MarksSet(s.trackers[b], s.owner, s.producers) {
      assert InitTracker(c, b, s.trackers[b], s.tail);
    }
  }

  lemma {:induction false} RunKeepsMarks(c: Config, run: seq<State>, i: nat)
    requires Run(c, run) && i < |run|
    ensures MarksInv(run[i])
    decreases i
  {
    hide Inv, MarksInv, Run, Init, SafeNext;
    if i == 0 {
      RunStart(c, run);
      InitMarks(c, run[0]);
    } else {
      RunKeeps(c, run, i - 1);
      RunKeepsMarks(c, run, i - 1);
      RunStep(c, run, i);
      StepKeepsMarks(c, run[i - 1], run[i]);
    }
  }

  lemma TimersOfTracker(c: Config, s: State, b: nat)
    requires Inv(c, s) && b < |s.trackers|
    ensures LapTimers(s.trackers[b], s.owner, s.producers)
  {
    hide Inv;
    TrackerOf(c, s, b);
  }

  /**
   In every state of every run a lap's deadline and queue_start are set exactly from when the
   producer of its slot 0 has set them until the BatchState is replaced, and its mark is 1
   exactly from when that producer has written it until the batch has been reset.
  */
  lemma MarksExactly(c: Config, run: seq<State>, i: nat, b: nat)
    requires Run(c, run) && i < |run| && b < |run[i].trackers|
    ensures var s := run[i]; var tr := s.trackers[b];
            && (tr.deadline <==> tr.stage < STATE_RESET && OwnerPassedDeadline(s.owner, s.producers, tr.lap))
            && (tr.queueStart <==> tr.stage < STATE_RESET && OwnerPassedQueueStart(s.owner, s.producers, tr.lap))
            && (tr.dirty == 1 <==> tr.stage < DONE && OwnerPassedDirty(s.owner, s.producers, tr.lap))
  {
    hide Inv, Run, Counted, OwnerPassedDirty, OwnerPassedDeadline, OwnerPassedQueueStart;
    RunKeeps(c, run, i);
    RunKeepsMarks(c, run, i);
    TimersOfTracker(c, Calm(run[i]), b);
    assert MarksSet(run[i].trackers[b], run[i].owner, run[i].producers);
  }

  /** A lap that has been run has its batch_items recorded, and they are its reserved slots. */
  lemma RunsAreCounted(c: Config, run: seq<State>, i: nat, u: nat)
    requires Run(c, run) && i < |run| && run[i].runs[u] > 0
    ensures u in run[i].items && run[i].items[u] == |ReservedIn(c.geometry, run[i].owner, u)|
  {
    hide Run, AllMarked, ReservedIn;
    RunKeepsMarks(c, run, i);
    BatchItems(c, run, i, u);
  }
}
