/** An executor never waits for a notify that was sent to its lap. */
module RingWakeups {
  import opened InferTypes
  import opened Multiples
  import opened RingGeometry
  import opened RingModel
  import opened RingSteps
  import opened RingEffects
  import opened RingInvariant
  import opened RingProducerProofs
  import opened RingExecutorProofs
  import opened RingRuns

  /** The producer's piece holds slot a, and its notify is still to come. */
  predicate Notifying(me: Producer, a: nat) {
    && me.pc.Notify?
    && me.first + me.pc.piece.pos <= a < me.first + me.pc.piece.pos + me.pc.piece.len
  }

  /** Slot a is published, and its producer is past the notify that may follow. */
  predicate Sent(s: State, a: nat) {
    && a in s.owner && a in s.published
    && s.owner[a].producer < |s.producers|
    && !Notifying(s.producers[s.owner[a].producer], a)
  }

  /** The first and the last slot of a lap: the producers of these two notify. */
  predicate Edge(c: Config, lap: nat, a: nat) {
    a == lap || a == lap + c.geometry.batchSize - 1
  }

  /** A notify sent for the tracker's lap is stored as a permit. */
  ghost predicate Owed(c: Config, s: State, b: nat) {
    b < |s.trackers| ==>
      forall a: nat | Edge(c, s.trackers[b].lap, a) && Sent(s, a) :: Cell(b, s.trackers[b].gen) in s.permits
  }

  /** The executor has claimed its lap and not been woken. */
  predicate Waiting(pc: ExecutorPc) {
    pc.BorrowNotifier? || pc.AwaitNotify?
  }

  ghost predicate PieceBatch(c: Config, me: Producer) {
    HasPiece(me.pc) ==> c.geometry.Valid() && me.pc.piece.batch == BatchId(c.geometry, me.first + me.pc.piece.pos)
  }

  ghost predicate Wakeups(c: Config, s: State) {
    && (forall b: nat {:trigger s.trackers[b]} | b < |s.trackers| && s.trackers[b].stage == UNCLAIMED :: Owed(c, s, b))
    && (forall e: nat {:trigger s.executors[e]} | e < |s.executors| && Waiting(s.executors[e]) ::
          Owed(c, s, s.executors[e].batch))
    && (forall p: nat {:trigger s.producers[p]} | p < |s.producers| :: PieceBatch(c, s.producers[p]))
  }

  /** Tracker b's lap is unclaimed, or its executor has not been woken. */
  ghost predicate Expecting(s: State, b: nat) {
    && b < |s.trackers|
    && (s.trackers[b].stage == UNCLAIMED || exists e: nat :: e < |s.executors| && WaitsOn(s.executors[e], b))
  }

  predicate WaitsOn(pc: ExecutorPc, b: nat) {
    Waiting(pc) && pc.batch == b
  }

  lemma ExpectingIsOwed(c: Config, s: State, b: nat)
    requires Wakeups(c, s) && Expecting(s, b)
    ensures Owed(c, s, b)
  {
    hide Owed;
  }

  lemma ExpectingStage(c: Config, s: State, b: nat)
    requires Inv(c, s) && Expecting(s, b)
    ensures c.geometry.Valid() && b < c.geometry.capacity == |s.trackers|
    ensures s.trackers[b].stage < SEALED && LapOf(c.geometry, b, s.trackers[b].gen) == s.trackers[b].lap
  {
    hide Inv, LapOf;
    ConfigOf(c, s);
    TrackerOf(c, s, b);
    SizesOf(c, s);
    if s.trackers[b].stage != UNCLAIMED {
      var e: nat :| e < |s.executors| && WaitsOn(s.executors[e], b);
      HolderParts(c, s, e);
    }
  }

  // ----- producers -----

  /** The piece that holds a slot of the tracker's lap is written to that tracker. */
  lemma PieceOfLap(c: Config, s: State, p: nat, b: nat, a: nat)
    requires Inv(c, s) && p < |s.producers| && Expecting(s, b) && Notifying(s.producers[p], a)
    requires PieceBatch(c, s.producers[p])
    requires s.trackers[b].lap <= a < s.trackers[b].lap + c.geometry.batchSize
    ensures s.producers[p].pc.piece.batch == b
  {
    hide Inv, LapOf, BatchId, Expecting;
    ExpectingStage(c, s, b);
    OwnParts(c, s, p);
    WindowOf(c, s, b);
    var me := s.producers[p];
    var lap := s.trackers[b].lap;
    LowerBoundIs(c.geometry, lap, a);
    LowerBoundIs(c.geometry, me.pc.piece.base, a);
    LapBelongsToTracker(c.geometry, b, s.trackers[b].gen, me.first + me.pc.piece.pos - lap);
  }

  /** A notify adds the permit of the lap that it is sent for. */
  lemma NotifyPays(c: Config, s: State, p: nat, weakFail: bool, b: nat, a: nat)
    requires Inv(c, s) && Wakeups(c, s) && Expecting(s, b) && ProducerEnabled(c, s, p)
    requires s.producers[p].pc.Notify? && Edge(c, s.trackers[b].lap, a)
    requires Sent(ProducerStep(c, s, p, weakFail), a)
    ensures Cell(b, s.trackers[b].gen) in ProducerStep(c, s, p, weakFail).permits
  {
    hide Inv, ProducerStep, ProducerEnabled, PieceBatch, Expecting, NewPiece, LapOf;
    ExpectingStage(c, s, b);
    var s' := ProducerStep(c, s, p, weakFail);
    ProducerWrites(c, s, p, weakFail);
    ConfigOf(c, s);
    var q := s.owner[a].producer;
    ProducerEffects(c, s, p, weakFail, q, b);
    if Sent(s, a) {
      ExpectingIsOwed(c, s, b);
    } else {
      PieceOfLap(c, s, q, b, a);
    }
  }

  /** A piece with the first or the last slot of a lap begins or ends its batch. */
  lemma PieceAtEdge(c: Config, me: Producer, piece: Piece, lap: nat, a: nat)
    requires c.geometry.Valid() && PieceShape(c, me, piece)
    requires Multiple(c.geometry.batchSize, lap) && Edge(c, lap, a)
    requires me.first + piece.pos <= a < me.first + piece.pos + piece.len
    ensures SlotOf(me, piece) == 0 || SlotOf(me, piece) + piece.len == c.geometry.batchSize
  {
    LowerBoundIs(c.geometry, lap, a);
    LowerBoundIs(c.geometry, piece.base, a);
  }

  lemma PublisherShape(c: Config, s: State, p: nat)
    requires Inv(c, s) && p < |s.producers| && s.producers[p].pc.Publish?
    ensures c.geometry.Valid() && PieceShape(c, s.producers[p], s.producers[p].pc.piece)
    ensures var me := s.producers[p]; var lo := me.first + me.pc.piece.pos;
            forall a | lo <= a < lo + me.pc.piece.len :: a in s.owner && s.owner[a].producer == p
  {
    hide Inv;
    ConfigOf(c, s);
    WriterBeforeFull(c, s, p);
  }

  /** Publishing a slot at the edge of a lap does not send its notify yet. */
  lemma PublishSendsNothing(c: Config, s: State, p: nat, weakFail: bool, lap: nat, a: nat)
    requires Inv(c, s) && c.Valid() && Multiple(c.geometry.batchSize, lap) && ProducerEnabled(c, s, p)
    requires s.producers[p].pc.Publish? && Edge(c, lap, a)
    requires Sent(ProducerStep(c, s, p, weakFail), a)
    ensures a in s.published
  {
    hide Inv, ProducerStep, ProducerEnabled, PieceShape, Edge, NewPiece, Multiple;
    ProducerWrites(c, s, p, weakFail);
    PublisherShape(c, s, p);
    var me := s.producers[p];
    if a !in s.published {
      PieceAtEdge(c, me, me.pc.piece, lap, a);
    }
  }

  lemma SentBefore(c: Config, s: State, p: nat, weakFail: bool, b: nat, a: nat)
    requires Inv(c, s) && Expecting(s, b) && ProducerEnabled(c, s, p)
    requires !s.producers[p].pc.Notify? && Edge(c, s.trackers[b].lap, a)
    requires Sent(ProducerStep(c, s, p, weakFail), a)
    ensures Sent(s, a)
  {
    hide Inv, ProducerStep, ProducerEnabled, Expecting, LapOf, Multiple, NewPiece, Edge;
    ExpectingStage(c, s, b);
    ConfigOf(c, s);
    ProducerWrites(c, s, p, weakFail);
    if s.producers[p].pc.Publish? {
      WindowOf(c, s, b);
      PublishSendsNothing(c, s, p, weakFail, s.trackers[b].lap, a);
    }
    BoundsOf(c, s);
    OwnersOf(c, s);
    ProducerEffects(c, s, p, weakFail, s.owner[a].producer, b);
  }

  lemma ProducerOwed(c: Config, s: State, p: nat, weakFail: bool, b: nat)
    requires Inv(c, s) && Wakeups(c, s) && Expecting(s, b) && ProducerEnabled(c, s, p)
    ensures Owed(c, ProducerStep(c, s, p, weakFail), b)
  {
    hide Inv, ProducerStep, ProducerEnabled, Expecting, Wakeups, Sent, Edge;
    var s' := ProducerStep(c, s, p, weakFail);
    ProducerEffects(c, s, p, weakFail, p, b);
    ExpectingIsOwed(c, s, b);
    if b < |s'.trackers| {
      forall a: nat | Edge(c, s'.trackers[b].lap, a) && Sent(s', a) ensures Cell(b, s'.trackers[b].gen) in s'.permits {
        if s.producers[p].pc.Notify? {
          NotifyPays(c, s, p, weakFail, b, a);
        } else {
          SentBefore(c, s, p, weakFail, b, a);
        }
      }
    }
  }

  lemma ProducerPieceBatch(c: Config, s: State, p: nat, weakFail: bool, q: nat)
    requires Inv(c, s) && Wakeups(c, s) && ProducerEnabled(c, s, p) && q < |s.producers|
    ensures q < |ProducerStep(c, s, p, weakFail).producers|
    ensures PieceBatch(c, ProducerStep(c, s, p, weakFail).producers[q])
  {
    hide Inv, ProducerStep, ProducerEnabled, Owed, BatchId, LowerBound;
    ProducerEffects(c, s, p, weakFail, q, 0);
    ProducerWrites(c, s, p, weakFail);
    assert PieceBatch(c, s.producers[q]);
  }

  lemma ProducerKeeps(c: Config, s: State, p: nat, weakFail: bool)
    requires Inv(c, s) && Wakeups(c, s) && ProducerEnabled(c, s, p)
    ensures Wakeups(c, ProducerStep(c, s, p, weakFail))
  {
    hide Inv, ProducerStep, ProducerEnabled, Owed, PieceBatch, ProducerMarked;
    var s' := ProducerStep(c, s, p, weakFail);
    ProducerEffects(c, s, p, weakFail, 0, 0);
    forall b: nat | b < |s'.trackers| && s'.trackers[b].stage == UNCLAIMED ensures Owed(c, s', b) {
      StageKept(c, s, p, weakFail, b);
      ProducerOwed(c, s, p, weakFail, b);
    }
    forall e: nat | e < |s'.executors| && Waiting(s'.executors[e]) ensures Owed(c, s', s'.executors[e].batch) {
      HolderTrackers(c, s, e);
      assert WaitsOn(s.executors[e], s.executors[e].batch);
      ProducerOwed(c, s, p, weakFail, s.executors[e].batch);
    }
    forall q: nat | q < |s'.producers| ensures PieceBatch(c, s'.producers[q]) {
      ProducerPieceBatch(c, s, p, weakFail, q);
    }
  }

  lemma StageKept(c: Config, s: State, p: nat, weakFail: bool, b: nat)
    requires ProducerEnabled(c, s, p) && b < |ProducerStep(c, s, p, weakFail).trackers|
    ensures b < |s.trackers| && ProducerStep(c, s, p, weakFail).trackers[b].stage == s.trackers[b].stage
  {
    hide ProducerStep, ProducerEnabled, ProducerMoved;
    ProducerEffects(c, s, p, weakFail, 0, b);
  }

  lemma HolderTrackers(c: Config, s: State, e: nat)
    requires Inv(c, s) && e < |s.executors| && Holding(s.executors[e])
    ensures s.executors[e].batch < |s.trackers|
    ensures s.trackers[s.executors[e].batch].stage == StageOf(s.executors[e])
    ensures s.trackers[s.executors[e].batch].claimant == e
  {
    hide Inv;
    HolderParts(c, s, e);
  }

  // ----- executors -----

  /** A waiting executor's tracker and its permit are left alone by every other executor. */
  lemma WaitIsUndisturbed(c: Config, s: State, e: nat, weakFail: bool, result: BatchResult, d: nat)
    requires Inv(c, s) && ExecutorEnabled(c, s, e, result)
    requires d < |s.executors| && Waiting(s.executors[d]) && d != e
    ensures var b := s.executors[d].batch; var s' := ExecutorStep(c, s, e, weakFail, result);
            && b < |s'.trackers| == |s.trackers| && s'.trackers[b] == s.trackers[b]
            && (Cell(b, s.trackers[b].gen) in s.permits ==> Cell(b, s.trackers[b].gen) in s'.permits)
  {
    hide Inv, ExecutorStep, ExecutorEnabled, LapOf, BatchId, PcEffect;
    var b := s.executors[d].batch;
    HolderTrackers(c, s, d);
    TrackerOf(c, s, b);
    ExecutorEffects(c, s, e, weakFail, result, b, d);
    var pc := s.executors[e];
    if Holding(pc) {
      HolderTrackers(c, s, e);
      PermitsBatch(c, s, e);
    } else if pc.Claim? && pc.e == s.executorHead {
      ClaimFacts(c, s, e);
    } else if pc.TailCas? && pc.t == s.tail {
      AdvanceFacts(c, s, e);
    }
  }

  lemma PermitsBatch(c: Config, s: State, e: nat)
    requires Inv(c, s) && e < |s.executors|
    ensures s.executors[e].AwaitNotify? ==> s.executors[e].notifier.batch == s.executors[e].batch
  {
    hide Inv;
    HolderParts(c, s, e);
  }

  /** A step that leaves slots and producers alone sends no notify. */
  lemma OwedStays(c: Config, s: State, s': State, b: nat)
    requires Owed(c, s, b) && b < |s.trackers| == |s'.trackers|
    requires s'.owner == s.owner && s'.published == s.published && s'.producers == s.producers
    requires s'.trackers[b].lap == s.trackers[b].lap && s'.trackers[b].gen == s.trackers[b].gen
    requires Cell(b, s.trackers[b].gen) in s.permits ==> Cell(b, s.trackers[b].gen) in s'.permits
    ensures Owed(c, s', b)
  {
  }

  /** Nothing is sent for a lap at or past head. */
  lemma NothingOwedAhead(c: Config, s: State, s': State, b: nat)
    requires Inv(c, s) && b < |s'.trackers| && s'.trackers[b].lap >= s.head && c.geometry.batchSize >= 1
    requires s'.owner == s.owner
    ensures Owed(c, s', b)
  {
    hide Inv;
    BoundsOf(c, s);
  }

  lemma UnclaimedOwed(c: Config, s: State, e: nat, weakFail: bool, result: BatchResult, b: nat)
    requires Inv(c, s) && Wakeups(c, s) && ExecutorEnabled(c, s, e, result)
    requires b < |ExecutorStep(c, s, e, weakFail, result).trackers|
    requires ExecutorStep(c, s, e, weakFail, result).trackers[b].stage == UNCLAIMED
    ensures Owed(c, ExecutorStep(c, s, e, weakFail, result), b)
  {
    hide Inv, ExecutorStep, ExecutorEnabled, LapOf, BatchId, PcEffect, Owed, PieceBatch;
    var s' := ExecutorStep(c, s, e, weakFail, result);
    ExecutorEffects(c, s, e, weakFail, result, b, e);
    CountersOf(c, s);
    ConfigOf(c, s);
    if s'.trackers[b].lap != s.trackers[b].lap {
      NothingOwedAhead(c, s, s', b);
    } else {
      UnclaimedKept(c, s, e, weakFail, result, b);
      OwedStays(c, s, s', b);
    }
  }

  lemma UnclaimedKept(c: Config, s: State, e: nat, weakFail: bool, result: BatchResult, b: nat)
    requires Inv(c, s) && ExecutorEnabled(c, s, e, result)
    requires b < |s.trackers| == |ExecutorStep(c, s, e, weakFail, result).trackers|
    requires ExecutorStep(c, s, e, weakFail, result).trackers[b].stage == UNCLAIMED
    requires ExecutorStep(c, s, e, weakFail, result).trackers[b].lap == s.trackers[b].lap
    ensures s.trackers[b].stage == UNCLAIMED
    ensures ExecutorStep(c, s, e, weakFail, result).trackers[b].gen == s.trackers[b].gen
    ensures Cell(b, s.trackers[b].gen) in s.permits ==>
              Cell(b, s.trackers[b].gen) in ExecutorStep(c, s, e, weakFail, result).permits
  {
    hide Inv, ExecutorStep, ExecutorEnabled, LapOf, BatchId, PcEffect;
    ExecutorEffects(c, s, e, weakFail, result, b, e);
    if Holding(s.executors[e]) {
      HolderTrackers(c, s, e);
      PermitsBatch(c, s, e);
    } else if s.executors[e].TailCas? && s.executors[e].t == s.tail {
      AdvanceFacts(c, s, e);
      CountersOf(c, s);
      RingIsPositive(c.geometry);
    }
  }

  lemma WaitingOwed(c: Config, s: State, e: nat, weakFail: bool, result: BatchResult, d: nat)
    requires Inv(c, s) && Wakeups(c, s) && ExecutorEnabled(c, s, e, result)
    requires d < |ExecutorStep(c, s, e, weakFail, result).executors|
    requires Waiting(ExecutorStep(c, s, e, weakFail, result).executors[d])
    ensures Owed(c, ExecutorStep(c, s, e, weakFail, result), ExecutorStep(c, s, e, weakFail, result).executors[d].batch)
  {
    hide Inv, ExecutorStep, ExecutorEnabled, LapOf, BatchId, Owed, PieceBatch, TrackerEffect;
    var s' := ExecutorStep(c, s, e, weakFail, result);
    ExecutorEffects(c, s, e, weakFail, result, 0, d);
    if d != e {
      WaitIsUndisturbed(c, s, e, weakFail, result, d);
      OwedStays(c, s, s', s.executors[d].batch);
    } else {
      WaiterMoves(c, s, e, weakFail, result);
      OwedStays(c, s, s', s'.executors[e].batch);
    }
  }

  /** An executor that claims, or takes hold of the notifier, keeps what its lap is owed. */
  lemma WaiterMoves(c: Config, s: State, e: nat, weakFail: bool, result: BatchResult)
    requires Inv(c, s) && Wakeups(c, s) && ExecutorEnabled(c, s, e, result) && e < |s.executors|
    requires e < |ExecutorStep(c, s, e, weakFail, result).executors|
    requires Waiting(ExecutorStep(c, s, e, weakFail, result).executors[e])
    ensures var s' := ExecutorStep(c, s, e, weakFail, result); var b := s'.executors[e].batch;
            && b < |s.trackers| == |s'.trackers| && Owed(c, s, b)
            && s'.trackers[b].lap == s.trackers[b].lap && s'.trackers[b].gen == s.trackers[b].gen
            && s'.permits == s.permits
  {
    hide Inv, ExecutorStep, ExecutorEnabled, LapOf, BatchId, Owed, PieceBatch;
    var s' := ExecutorStep(c, s, e, weakFail, result);
    ExecutorEffects(c, s, e, weakFail, result, s'.executors[e].batch, e);
    if s.executors[e].Claim? {
      ClaimFacts(c, s, e);
    } else {
      HolderTrackers(c, s, e);
    }
  }

  lemma ExecutorKeeps(c: Config, s: State, e: nat, weakFail: bool, result: BatchResult)
    requires Inv(c, s) && Wakeups(c, s) && ExecutorEnabled(c, s, e, result)
    ensures Wakeups(c, ExecutorStep(c, s, e, weakFail, result))
  {
    hide Inv, ExecutorStep, ExecutorEnabled, LapOf, BatchId, Owed, PieceBatch, TrackerEffect, PcEffect;
    var s' := ExecutorStep(c, s, e, weakFail, result);
    ExecutorEffects(c, s, e, weakFail, result, 0, 0);
    forall b: nat | b < |s'.trackers| && s'.trackers[b].stage == UNCLAIMED ensures Owed(c, s', b) {
      UnclaimedOwed(c, s, e, weakFail, result, b);
    }
    forall d: nat | d < |s'.executors| && Waiting(s'.executors[d]) ensures Owed(c, s', s'.executors[d].batch) {
      WaitingOwed(c, s, e, weakFail, result, d);
    }
  }

  // ----- runs -----

  lemma ArriveSendsNothing(c: Config, s: State, rows: seq<Row>)
    requires Inv(c, s) && Wakeups(c, s) && Enabled(c, s, Arrive(rows))
    ensures Wakeups(c, Apply(c, s, Arrive(rows)))
  {
    hide Inv, PieceBatch, BatchId;
    OwnersOf(c, s);
    var s' := Apply(c, s, Arrive(rows));
    forall q: nat | q < |s'.producers| ensures PieceBatch(c, s'.producers[q]) {
      if q == |s.producers| {
        Newcomer(c, rows);
      } else {
        assert s'.producers[q] == s.producers[q];
      }
    }
  }

  lemma Newcomer(c: Config, rows: seq<Row>)
    ensures PieceBatch(c, Producer(rows, 0, LoadHead, []))
  {
  }

  lemma StepKeepsWakeups(c: Config, s: State, s': State)
    requires Inv(c, s) && Wakeups(c, s) && SafeNext(c, s, s')
    ensures Wakeups(c, s')
  {
    hide Inv, Wakeups, ProducerStep, ExecutorStep, ProducerEnabled, ExecutorEnabled, GrantFits;
    var a :| Enabled(c, s, a) && GrantFits(c, s, a) && s' == Apply(c, s, a);
    match a {
      case Arrive(rows) => ArriveSendsNothing(c, s, rows);
      case Produce(p, weakFail) => ProducerKeeps(c, s, p, weakFail);
      case Execute(e, weakFail, result) => ExecutorKeeps(c, s, e, weakFail, result);
    }
  }

  lemma InitWakeups(c: Config, s: State)
    requires Init(c, s)
    ensures Wakeups(c, s)
  {
    hide InitTracker;
  }

  lemma {:induction false} RunKeepsWakeups(c: Config, run: seq<State>, i: nat)
    requires Run(c, run) && i < |run|
    ensures Wakeups(c, run[i])
    decreases i
  {
    hide Inv, Wakeups, Run, Init, SafeNext;
    if i == 0 {
      RunStart(c, run);
      InitWakeups(c, run[0]);
    } else {
      RunKeeps(c, run, i - 1);
      RunKeepsWakeups(c, run, i - 1);
      RunStep(c, run, i);
      StepKeepsWakeups(c, run[i - 1], run[i]);
    }
  }

  lemma PermitOfWaiter(c: Config, s: State, e: nat)
    requires Inv(c, s) && e < |s.executors| && s.executors[e].AwaitNotify?
    ensures var pc := s.executors[e];
            && pc.batch < |s.trackers| && s.trackers[pc.batch].lap == pc.lap
            && pc.notifier == Cell(pc.batch, s.trackers[pc.batch].gen)
  {
    hide Inv;
    HolderParts(c, s, e);
  }

  /**
   No lost wakeup: once the notify for the first or the last slot of an executor's lap has
   been sent, the executor finds its permit, however late it began to wait.
  */
  lemma NoLostWakeup(c: Config, run: seq<State>, i: nat, e: nat, a: nat)
    requires Run(c, run) && i < |run| && e < |run[i].executors| && run[i].executors[e].AwaitNotify?
    requires Edge(c, run[i].executors[e].lap, a) && Sent(run[i], a)
    ensures run[i].executors[e].notifier in run[i].permits
  {
    hide Inv, Run, Edge, Sent, PieceBatch;
    RunKeeps(c, run, i);
    RunKeepsWakeups(c, run, i);
    PermitOfWaiter(c, Calm(run[i]), e);
    assert Owed(c, run[i], run[i].executors[e].batch);
  }
}
