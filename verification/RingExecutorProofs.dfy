/** Every executor step keeps the invariant. */
module RingExecutorProofs {
  import opened InferTypes
  import opened Multiples
  import opened Ranges
  import opened RingGeometry
  import opened RingModel
  import opened RingSteps
  import opened RingInvariant
  import opened RingFrames

  // ----- steps that move only the program counter -----

  /** What the invariant asks of one executor at program counter pc. */
  ghost predicate ExecutorFacts(c: Config, e: nat, pc: ExecutorPc, trackers: seq<Tracker>, buffers: seq<seq<Row>>,
                                head: nat, tail: nat)
  {
    && (Holding(pc) ==>
          && pc.batch < |trackers| && HoldingOk(c, e, pc, trackers[pc.batch])
          && pc.batch < |buffers| && ReadOk(c, pc, buffers[pc.batch]))
    && SealOk(c.geometry, pc, head)
    && TailOk(c.geometry, pc, head, tail)
    && PassOk(pc, tail, trackers)
  }

  lemma HolderParts(c: Config, s: State, e: nat)
    requires Inv(c, s) && e < |s.executors|
    ensures ExecutorFacts(c, e, s.executors[e], s.trackers, s.buffers, s.head, s.tail)
    ensures |s.trackers| == |s.buffers| == c.geometry.capacity
    ensures c.geometry.Valid()
  {
  }

  lemma MoveExecutor(c: Config, s: State, e: nat, pc': ExecutorPc)
    requires ExecutorsInv(c, s) && e < |s.executors|
    requires ExecutorFacts(c, e, pc', s.trackers, s.buffers, s.head, s.tail)
    ensures ExecutorsInv(c, SetExecutor(s, e, pc'))
  {
  }

  lemma MoveKeeps(c: Config, s: State, e: nat, pc': ExecutorPc)
    requires Inv(c, s) && e < |s.executors|
    requires ExecutorFacts(c, e, pc', s.trackers, s.buffers, s.head, s.tail)
    ensures Inv(c, SetExecutor(s, e, pc'))
  {
    MoveExecutor(c, s, e, pc');
  }

  lemma TrackerOf(c: Config, s: State, b: nat)
    requires Inv(c, s) && b < |s.trackers|
    ensures LapWindow(c.geometry, b, s.trackers[b], s.executorHead, s.tail)
    ensures LapSlots(c, s.trackers[b], s.owner, s.head)
    ensures LapFull(c.geometry, s.trackers[b], s.owner, s.published)
    ensures LapWritten(c.geometry, s.trackers[b], s.published)
    ensures LapTimers(s.trackers[b], s.owner, s.producers)
    ensures LapCells(b, s.trackers[b], s.outputs)
    ensures LapLedger(c, s.trackers[b], s.claims, s.runs, s.resets)
    ensures b < |s.buffers| && |s.buffers[b]| == c.geometry.batchSize
    ensures LapRows(c.geometry, s.trackers[b], s.buffers[b], s.owner, s.published)
  {
  }

  // ----- one tracker changes its stage -----

  lemma StageLaps(c: Config, s: State, b: nat, tr': Tracker)
    requires Sized(c.geometry, s.trackers, s.buffers)
    requires Windows(c.geometry, s.trackers, s.executorHead, s.tail)
    requires Fulls(c.geometry, s.trackers, s.owner, s.published)
    requires Writtens(c.geometry, s.trackers, s.published)
    requires Timers(s.trackers, s.owner, s.producers)
    requires BufferRows(c.geometry, s.trackers, s.buffers, s.owner, s.published)
    requires b < |s.trackers| && tr'.lap == s.trackers[b].lap
    requires LapWindow(c.geometry, b, tr', s.executorHead, s.tail)
    requires LapFull(c.geometry, tr', s.owner, s.published)
    requires LapWritten(c.geometry, tr', s.published)
    requires LapTimers(tr', s.owner, s.producers)
    ensures var trackers' := s.trackers[b := tr'];
            && Sized(c.geometry, trackers', s.buffers)
            && Windows(c.geometry, trackers', s.executorHead, s.tail)
            && Fulls(c.geometry, trackers', s.owner, s.published)
            && Writtens(c.geometry, trackers', s.published)
            && Timers(trackers', s.owner, s.producers)
            && BufferRows(c.geometry, trackers', s.buffers, s.owner, s.published)
  {
  }

  lemma StageSlots(c: Config, trackers: seq<Tracker>, owner: map<nat, Slot>, head: nat, b: nat, tr': Tracker)
    requires Slots(c, trackers, owner, head) && b < |trackers| && LapSlots(c, tr', owner, head)
    ensures Slots(c, trackers[b := tr'], owner, head)
  {
  }

  lemma StageCells(trackers: seq<Tracker>, outputs: map<Cell, BatchResult>, outputs': map<Cell, BatchResult>, b: nat,
                   tr': Tracker)
    requires Cells(trackers, outputs) && b < |trackers| && LapCells(b, tr', outputs')
    requires forall cell: Cell | cell.batch != b :: cell in outputs' <==> cell in outputs
    ensures Cells(trackers[b := tr'], outputs')
  {
    var trackers' := trackers[b := tr'];
    forall d | 0 <= d < |trackers'| ensures LapCells(d, trackers'[d], outputs') {
      if d != b {
        assert LapCells(d, trackers[d], outputs);
        assert Cell(d, trackers[d].gen).batch != b;
      }
    }
  }

  lemma StageLedger(c: Config, s: State, b: nat, tr': Tracker, runs': multiset<nat>, resets': multiset<nat>)
    requires Inv(c, s) && b < |s.trackers| && tr'.lap == s.trackers[b].lap
    requires LapLedger(c, tr', s.claims, runs', resets')
    requires forall u: nat | u != tr'.lap :: runs'[u] == s.runs[u] && resets'[u] == s.resets[u]
    ensures LapLedgers(c, s.trackers[b := tr'], s.claims, runs', resets')
    ensures PastLedger(c, s.tail, s.claims, runs', resets')
  {
    var trackers' := s.trackers[b := tr'];
    TrackerOf(c, s, b);
    forall d | 0 <= d < |trackers'| ensures LapLedger(c, trackers'[d], s.claims, runs', resets') {
      if d != b {
        TrackerOf(c, s, d);
        DifferentLaps(c, s, b, d);
      }
    }
  }

  lemma DifferentLaps(c: Config, s: State, b: nat, d: nat)
    requires Inv(c, s) && b < |s.trackers| && d < |s.trackers| && b != d
    ensures s.trackers[b].lap != s.trackers[d].lap
    ensures s.trackers[b].lap + c.geometry.batchSize <= s.trackers[d].lap
            || s.trackers[d].lap + c.geometry.batchSize <= s.trackers[b].lap
    ensures c.geometry.batchSize >= 1
  {
    hide *;
    Parts(c, s);
    SizedParts(c.geometry, s.trackers, s.buffers);
    LapsDisjoint(c.geometry, s.trackers, s.executorHead, s.tail, b, d);
  }

  /** No producer is writing into a lap that is full. */
  lemma StagePieces(c: Config, s: State, b: nat, tr': Tracker)
    requires Inv(c, s) && b < |s.trackers| && tr'.lap == s.trackers[b].lap
    requires tr'.gen == s.trackers[b].gen || s.trackers[b].stage >= FULL
    ensures Pieces(s.producers, s.trackers[b := tr'])
  {
    forall p | 0 <= p < |s.producers| && Writing(s.producers[p].pc)
      ensures s.producers[p].pc.piece.batch < |s.trackers|
      ensures PieceHere(s.producers[p], s.trackers[b := tr'][s.producers[p].pc.piece.batch])
    {
      WriterNotFull(c, s, p);
    }
  }

  lemma WriterNotFull(c: Config, s: State, p: nat)
    requires Inv(c, s) && p < |s.producers| && Writing(s.producers[p].pc)
    ensures s.producers[p].pc.piece.batch < |s.trackers|
    ensures PieceHere(s.producers[p], s.trackers[s.producers[p].pc.piece.batch])
    ensures s.trackers[s.producers[p].pc.piece.batch].stage < FULL
  {
    var me := s.producers[p];
    var tr := s.trackers[me.pc.piece.batch];
    assert ProducerShape(c, me);
    assert OwnsItsRows(p, me, s.owner);
    var a := me.first + me.pc.piece.pos;
    assert a in s.owner;
    assert ProgressOk(a, s.owner[a], s.producers, s.published);
    assert LapFull(c.geometry, tr, s.owner, s.published);
  }

  /** Only the claimant of a lap acts on its tracker's stage. */
  lemma StageExecutors(c: Config, s: State, e: nat, b: nat, tr': Tracker, pc': ExecutorPc)
    requires ExecutorsInv(c, s) && e < |s.executors| && b < |s.trackers|
    requires Holding(s.executors[e]) && s.executors[e].batch == b
    requires tr'.lap == s.trackers[b].lap && tr'.claimant == s.trackers[b].claimant
    requires ExecutorFacts(c, e, pc', s.trackers[b := tr'], s.buffers, s.head, s.tail)
    ensures ExecutorsInv(c, s.(trackers := s.trackers[b := tr'], executors := s.executors[e := pc']))
  {
    var trackers' := s.trackers[b := tr'];
    var executors' := s.executors[e := pc'];
    assert HoldingOk(c, e, s.executors[e], s.trackers[b]);
    forall d | 0 <= d < |executors'| && Holding(executors'[d])
      ensures executors'[d].batch < |trackers'| && HoldingOk(c, d, executors'[d], trackers'[executors'[d].batch])
    {
      if d != e {
        assert HoldingOk(c, d, s.executors[d], s.trackers[s.executors[d].batch]);
      }
    }
    forall d | 0 <= d < |executors'| ensures PassOk(executors'[d], s.tail, trackers') {
      assert PassOk(s.executors[d], s.tail, s.trackers);
    }
  }

  /** The step as a whole, for a lap held by executor e. */
  lemma StageKeeps(c: Config, s: State, e: nat, b: nat, tr': Tracker, pc': ExecutorPc,
                   outputs': map<Cell, BatchResult>, runs': multiset<nat>, resets': multiset<nat>)
    requires Inv(c, s) && e < |s.executors| && b < |s.trackers|
    requires Holding(s.executors[e]) && s.executors[e].batch == b
    requires tr'.lap == s.trackers[b].lap && tr'.claimant == s.trackers[b].claimant
    requires tr'.gen == s.trackers[b].gen || s.trackers[b].stage >= FULL
    requires LapWindow(c.geometry, b, tr', s.executorHead, s.tail)
    requires LapSlots(c, tr', s.owner, s.head)
    requires LapFull(c.geometry, tr', s.owner, s.published)
    requires LapWritten(c.geometry, tr', s.published)
    requires LapTimers(tr', s.owner, s.producers)
    requires LapCells(b, tr', outputs')
    requires LapLedger(c, tr', s.claims, runs', resets')
    requires forall cell: Cell | cell.batch != b :: cell in outputs' <==> cell in s.outputs
    requires forall u: nat | u != tr'.lap :: runs'[u] == s.runs[u] && resets'[u] == s.resets[u]
    requires Results(c, outputs', s.owner, s.head) && Collects(c, s.producers, outputs')
    requires ExecutorFacts(c, e, pc', s.trackers[b := tr'], s.buffers, s.head, s.tail)
    ensures Inv(c, s.(trackers := s.trackers[b := tr'], executors := s.executors[e := pc'],
                      outputs := outputs', runs := runs', resets := resets'))
  {
    hide *;
    Parts(c, s);
    Groups(c, s);
    StageLaps(c, s, b, tr');
    StageSlots(c, s.trackers, s.owner, s.head, b, tr');
    StageCells(s.trackers, s.outputs, outputs', b, tr');
    StageLedger(c, s, b, tr', runs', resets');
    StagePieces(c, s, b, tr');
    StageExecutors(c, s, e, b, tr', pc');
    ExecutorParts(c, s.(trackers := s.trackers[b := tr'], executors := s.executors[e := pc']));
    Whole(c, s.(trackers := s.trackers[b := tr'], executors := s.executors[e := pc'],
                outputs := outputs', runs := runs', resets := resets'));
  }

  lemma Groups(c: Config, s: State)
    requires Inv(c, s)
    ensures ExecutorsInv(c, s)
  {
  }

  lemma ExecutorParts(c: Config, s: State)
    requires ExecutorsInv(c, s)
    ensures Holders(c, s.executors, s.trackers)
    ensures Readers(c, s.executors, s.buffers)
    ensures Sealers(c.geometry, s.executors, s.head)
    ensures Tails(c.geometry, s.executors, s.head, s.tail)
    ensures Passes(s.executors, s.tail, s.trackers)
  {
  }

  /** The common case: outputs and ledger stay. */
  lemma PlainStageKeeps(c: Config, s: State, e: nat, b: nat, tr': Tracker, pc': ExecutorPc)
    requires Inv(c, s) && e < |s.executors| && b < |s.trackers|
    requires Holding(s.executors[e]) && s.executors[e].batch == b
    requires tr'.lap == s.trackers[b].lap && tr'.claimant == s.trackers[b].claimant && tr'.gen == s.trackers[b].gen
    requires LapWindow(c.geometry, b, tr', s.executorHead, s.tail)
    requires LapSlots(c, tr', s.owner, s.head)
    requires LapFull(c.geometry, tr', s.owner, s.published)
    requires LapWritten(c.geometry, tr', s.published)
    requires LapTimers(tr', s.owner, s.producers)
    requires LapCells(b, tr', s.outputs)
    requires LapLedger(c, tr', s.claims, s.runs, s.resets)
    requires ExecutorFacts(c, e, pc', s.trackers[b := tr'], s.buffers, s.head, s.tail)
    ensures Inv(c, SetTracker(SetExecutor(s, e, pc'), b, tr'))
  {
    hide LapWindow, LapSlots, LapFull, LapWritten, LapTimers, LapCells, LapLedger, ExecutorFacts, Inv;
    ResultsParts(c, s);
    StageKeeps(c, s, e, b, tr', pc', s.outputs, s.runs, s.resets);
  }

  lemma ResultsParts(c: Config, s: State)
    requires Inv(c, s)
    ensures Results(c, s.outputs, s.owner, s.head) && Collects(c, s.producers, s.outputs)
  {
  }

  // ----- claiming -----

  lemma LoadKeeps(c: Config, s: State, e: nat, pc': ExecutorPc)
    requires Inv(c, s) && e < |s.executors|
    requires !Holding(pc') && !pc'.TailDirty? && !pc'.TailDirtyCas? && !pc'.TailCas?
    requires pc'.Claim? ==> pc'.e < s.tail + c.geometry.ring
    requires pc'.TailHead? ==> pc'.t <= s.tail && Multiple(c.geometry.batchSize, pc'.t)
    ensures Inv(c, SetExecutor(s, e, pc'))
  {
    hide Inv;
    MoveKeeps(c, s, e, pc');
  }

  lemma BorrowKeeps(c: Config, s: State, e: nat)
    requires Inv(c, s) && e < |s.executors| && s.executors[e].BorrowNotifier?
    ensures s.executors[e].batch < |s.trackers|
    ensures var pc := s.executors[e];
            Inv(c, SetExecutor(s, e, AwaitNotify(pc.lap, pc.batch, Cell(pc.batch, s.trackers[pc.batch].gen))))
  {
    hide Inv;
    HolderParts(c, s, e);
    var pc := s.executors[e];
    MoveKeeps(c, s, e, AwaitNotify(pc.lap, pc.batch, Cell(pc.batch, s.trackers[pc.batch].gen)));
  }

  lemma DropPermit(c: Config, s: State, cell: Cell)
    requires Inv(c, s)
    ensures Inv(c, s.(permits := s.permits - {cell}))
  {
  }

  lemma WakeKeeps(c: Config, s: State, e: nat)
    requires Inv(c, s) && e < |s.executors| && s.executors[e].AwaitNotify?
    ensures var pc := s.executors[e];
            Inv(c, SetExecutor(s, e, SealLoad(pc.lap, pc.batch)).(permits := s.permits - {pc.notifier}))
  {
    hide Inv;
    HolderParts(c, s, e);
    var pc := s.executors[e];
    MoveKeeps(c, s, e, SealLoad(pc.lap, pc.batch));
    DropPermit(c, SetExecutor(s, e, SealLoad(pc.lap, pc.batch)), pc.notifier);
  }

  // ----- sealing -----

  lemma SealLoadKeeps(c: Config, s: State, e: nat)
    requires Inv(c, s) && e < |s.executors| && s.executors[e].SealLoad? && s.executors[e].lap <= s.head
    ensures var pc := s.executors[e];
            s.head < pc.lap + c.geometry.batchSize ==>
              Inv(c, SetExecutor(s, e, SealCas(pc.lap, pc.batch, s.head, pc.lap + c.geometry.batchSize - s.head)))
  {
    hide Inv;
    HolderParts(c, s, e);
    var pc := s.executors[e];
    if s.head < pc.lap + c.geometry.batchSize {
      MoveKeeps(c, s, e, SealCas(pc.lap, pc.batch, s.head, pc.lap + c.geometry.batchSize - s.head));
    }
  }

  /** head has moved past the batch: all of its slots are reserved. */
  lemma SealFullKeeps(c: Config, s: State, e: nat)
    requires Inv(c, s) && e < |s.executors| && s.executors[e].SealLoad?
    requires s.head >= s.executors[e].lap + c.geometry.batchSize
    ensures s.executors[e].batch < |s.trackers|
    ensures var pc := s.executors[e];
            Inv(c, SealTo(s, e, pc.lap, pc.batch, pc.lap + c.geometry.batchSize, 0))
  {
    hide Inv;
    HolderParts(c, s, e);
    var pc := s.executors[e];
    TrackerOf(c, s, pc.batch);
    PlainStageKeeps(c, s, e, pc.batch, s.trackers[pc.batch].(stage := SEALED, top := pc.lap + c.geometry.batchSize),
                    Spin(pc.lap, pc.batch, 0));
  }

  lemma SealRetryKeeps(c: Config, s: State, e: nat)
    requires Inv(c, s) && e < |s.executors| && s.executors[e].SealCas?
    ensures Inv(c, SetExecutor(s, e, SealLoad(s.executors[e].lap, s.executors[e].batch)))
  {
    hide Inv;
    HolderParts(c, s, e);
    MoveKeeps(c, s, e, SealLoad(s.executors[e].lap, s.executors[e].batch));
  }

  lemma HeadGrows(c: Config, s: State, head': nat)
    requires s.head <= head'
    requires Bounds(c, s.owner, s.published, s.head, s.tail) && Results(c, s.outputs, s.owner, s.head)
    requires Items(c.geometry, s.items, s.owner, s.head)
    requires ExecutorsInv(c, s)
    ensures Bounds(c, s.owner, s.published, head', s.tail) && Results(c, s.outputs, s.owner, head')
    ensures Items(c.geometry, s.items, s.owner, head')
    ensures ExecutorsInv(c, s.(head := head'))
  {
    forall cell | cell in s.outputs ensures OutputOk(c, cell, s.outputs[cell], s.owner, head') {
      assert OutputOk(c, cell, s.outputs[cell], s.owner, s.head);
    }
  }

  lemma SealSlots(c: Config, s: State, b: nat, head': nat)
    requires Inv(c, s) && b < |s.trackers|
    requires var tr := s.trackers[b];
             tr.stage < SEALED && tr.lap <= s.head < head' == tr.lap + c.geometry.batchSize
    ensures Slots(c, s.trackers[b := s.trackers[b].(stage := SEALED, top := s.head)], s.owner, head')
  {
    hide Inv;
    var trackers' := s.trackers[b := s.trackers[b].(stage := SEALED, top := s.head)];
    forall d | 0 <= d < |trackers'| ensures LapSlots(c, trackers'[d], s.owner, head') {
      TrackerOf(c, s, d);
      if d != b {
        DifferentLaps(c, s, b, d);
      }
    }
  }

  /** Rounding head up to the end of a claimed batch stays within the ring. */
  lemma SealBound(c: Config, s: State, e: nat)
    requires Inv(c, s) && e < |s.executors| && Holding(s.executors[e])
    ensures s.executors[e].lap + c.geometry.batchSize <= s.executorHead <= s.tail + c.geometry.ring
    ensures Counters(c, s.head, s.executorHead, s.tail)
  {
    hide Inv;
    HolderParts(c, s, e);
    TrackerOf(c, s, s.executors[e].batch);
    CountersOf(c, s);
    Gap(c.geometry.batchSize, s.executors[e].lap, s.executorHead);
  }

  lemma CountersOf(c: Config, s: State)
    requires Inv(c, s)
    ensures Counters(c, s.head, s.executorHead, s.tail) && c.geometry.Valid()
  {
  }

  lemma SealCasFacts(c: Config, s: State, e: nat)
    requires Inv(c, s) && e < |s.executors| && s.executors[e].SealCas? && s.executors[e].h == s.head
    ensures var pc := s.executors[e]; var b := pc.batch;
            && b < |s.trackers| && Holding(pc)
            && var tr' := s.trackers[b].(stage := SEALED, top := s.head);
               var head' := pc.h + pc.remaining;
               && head' == s.trackers[b].lap + c.geometry.batchSize && s.head < head'
               && s.trackers[b].stage < SEALED && s.trackers[b].lap <= s.head
               && Counters(c, head', s.executorHead, s.tail)
               && tr'.lap == s.trackers[b].lap && tr'.claimant == s.trackers[b].claimant
               && LapWindow(c.geometry, b, tr', s.executorHead, s.tail)
               && LapFull(c.geometry, tr', s.owner, s.published)
               && LapWritten(c.geometry, tr', s.published)
               && LapTimers(tr', s.owner, s.producers)
               && LapCells(b, tr', s.outputs)
               && LapLedger(c, tr', s.claims, s.runs, s.resets)
               && ExecutorFacts(c, e, Spin(pc.lap, b, pc.remaining), s.trackers[b := tr'], s.buffers, head', s.tail)
  {
    hide Inv;
    HolderParts(c, s, e);
    TrackerOf(c, s, s.executors[e].batch);
    SealBound(c, s, e);
  }

  lemma SealInv(c: Config, s: State, e: nat, b: nat, tr': Tracker, pc': ExecutorPc, head': nat)
    requires Inv(c, s) && e < |s.executors| && b < |s.trackers|
    requires Holding(s.executors[e]) && s.executors[e].batch == b
    requires tr' == s.trackers[b].(stage := SEALED, top := s.head)
    requires tr'.lap == s.trackers[b].lap && tr'.claimant == s.trackers[b].claimant && tr'.gen == s.trackers[b].gen
    requires s.trackers[b].stage < SEALED
    requires s.trackers[b].lap <= s.head < head' == s.trackers[b].lap + c.geometry.batchSize
    requires Counters(c, head', s.executorHead, s.tail)
    requires LapWindow(c.geometry, b, tr', s.executorHead, s.tail)
    requires LapFull(c.geometry, tr', s.owner, s.published)
    requires LapWritten(c.geometry, tr', s.published)
    requires LapTimers(tr', s.owner, s.producers)
    requires LapCells(b, tr', s.outputs)
    requires LapLedger(c, tr', s.claims, s.runs, s.resets)
    requires ExecutorFacts(c, e, pc', s.trackers[b := tr'], s.buffers, head', s.tail)
    ensures Inv(c, s.(trackers := s.trackers[b := tr'], executors := s.executors[e := pc'], head := head'))
  {
    hide *;
    Parts(c, s);
    Groups(c, s);
    StageLaps(c, s, b, tr');
    SealSlots(c, s, b, head');
    StageCells(s.trackers, s.outputs, s.outputs, b, tr');
    StageLedger(c, s, b, tr', s.runs, s.resets);
    StagePieces(c, s, b, tr');
    HeadGrows(c, s, head');
    StageExecutors(c, s.(head := head'), e, b, tr', pc');
    ExecutorParts(c, s.(head := head', trackers := s.trackers[b := tr'], executors := s.executors[e := pc']));
    Whole(c, s.(trackers := s.trackers[b := tr'], executors := s.executors[e := pc'], head := head'));
  }

  lemma SealCasKeeps(c: Config, s: State, e: nat)
    requires Inv(c, s) && e < |s.executors| && s.executors[e].SealCas? && s.executors[e].h == s.head
    requires s.executors[e].batch < |s.trackers|
    ensures var pc := s.executors[e];
            Inv(c, SealTo(s, e, pc.lap, pc.batch, pc.h, pc.remaining).(head := pc.h + pc.remaining))
  {
    hide *;
    var pc := s.executors[e];
    SealCasFacts(c, s, e);
    SealInv(c, s, e, pc.batch, s.trackers[pc.batch].(stage := SEALED, top := s.head),
            Spin(pc.lap, pc.batch, pc.remaining), pc.h + pc.remaining);
    SealToIs(s, e, pc.lap, pc.batch, pc.h, pc.remaining);
  }

  lemma SealToIs(s: State, e: nat, lap: nat, b: nat, top: nat, remaining: nat)
    requires e < |s.executors| && b < |s.trackers|
    ensures SealTo(s, e, lap, b, top, remaining) ==
            s.(trackers := s.trackers[b := s.trackers[b].(stage := SEALED, top := top)],
               executors := s.executors[e := Spin(lap, b, remaining)])
  {
  }

  // ----- spinning until every reserved slot is published -----

  lemma SlotsOf(c: Config, s: State)
    requires Inv(c, s)
    ensures Progress(s.owner, s.producers, s.published)
  {
  }

  /** The published slots of a sealed lap are among its reserved ones. */
  lemma PublishedWithinReserved(c: Config, tr: Tracker, owner: map<nat, Slot>, head: nat, published: set<nat>)
    requires tr.stage >= SEALED && LapSlots(c, tr, owner, head)
    requires forall a | a in published :: a in owner
    ensures ReservedIn(c.geometry, owner, tr.lap) == Range(tr.lap, tr.top)
    ensures PublishedIn(c.geometry, published, tr.lap) <= Range(tr.lap, tr.top)
  {
  }

  /**
   written_slots never exceeds what was reserved before the seal; when it equals the
   expected count, every reserved slot of the lap is published.
  */
  lemma SpinCount(c: Config, tr: Tracker, owner: map<nat, Slot>, head: nat, published: set<nat>)
    requires SEALED <= tr.stage < STATE_RESET && LapSlots(c, tr, owner, head) && LapWritten(c.geometry, tr, published)
    requires forall a | a in published :: a in owner
    ensures tr.writtenSlots <= tr.top - tr.lap == |ReservedIn(c.geometry, owner, tr.lap)|
    ensures tr.writtenSlots == tr.top - tr.lap ==>
              PublishedIn(c.geometry, published, tr.lap) == ReservedIn(c.geometry, owner, tr.lap)
  {
    PublishedWithinReserved(c, tr, owner, head, published);
    FullSubset(PublishedIn(c.geometry, published, tr.lap), tr.lap, tr.top);
  }

  lemma FullFromCount(g: Geometry, tr: Tracker, owner: map<nat, Slot>, published: set<nat>)
    requires PublishedIn(g, published, tr.lap) == ReservedIn(g, owner, tr.lap)
    ensures LapFull(g, tr.(stage := FULL), owner, published)
  {
    forall a | tr.lap <= a < tr.lap + g.batchSize && a in owner ensures a in published {
      assert a in ReservedIn(g, owner, tr.lap);
    }
  }

  /** The spin ends with written_slots equal to the expected count, never above it. */
  lemma SpinNeverOver(c: Config, s: State, e: nat)
    requires Inv(c, s) && e < |s.executors| && s.executors[e].Spin?
    ensures s.executors[e].batch < |s.trackers|
    ensures var pc := s.executors[e]; var tr := s.trackers[pc.batch];
            && pc.remaining <= c.geometry.batchSize
            && tr.writtenSlots <= c.geometry.batchSize - pc.remaining == |ReservedIn(c.geometry, s.owner, tr.lap)|
            && (tr.writtenSlots == c.geometry.batchSize - pc.remaining ==>
                  PublishedIn(c.geometry, s.published, tr.lap) == ReservedIn(c.geometry, s.owner, tr.lap))
  {
    hide Inv, PublishedIn, ReservedIn;
    HolderParts(c, s, e);
    var tr := s.trackers[s.executors[e].batch];
    TrackerOf(c, s, s.executors[e].batch);
    SlotsOf(c, s);
    SpinCount(c, tr, s.owner, s.head, s.published);
  }

  lemma SpinKeeps(c: Config, s: State, e: nat)
    requires Inv(c, s) && e < |s.executors| && s.executors[e].Spin?
    requires s.executors[e].batch < |s.trackers|
    requires s.trackers[s.executors[e].batch].writtenSlots == c.geometry.batchSize - s.executors[e].remaining
    ensures var pc := s.executors[e];
            Inv(c, SetTracker(SetExecutor(s, e, SetExecStart(pc.lap, pc.batch)), pc.batch,
                              s.trackers[pc.batch].(stage := FULL)))
  {
    hide Inv, PublishedIn, ReservedIn;
    HolderParts(c, s, e);
    var pc := s.executors[e];
    var tr := s.trackers[pc.batch];
    TrackerOf(c, s, pc.batch);
    SpinNeverOver(c, s, e);
    FullFromCount(c.geometry, tr, s.owner, s.published);
    PlainStageKeeps(c, s, e, pc.batch, tr.(stage := FULL), SetExecStart(pc.lap, pc.batch));
  }

  // ----- running the batch -----

  lemma ExecStartKeeps(c: Config, s: State, e: nat)
    requires Inv(c, s) && e < |s.executors| && s.executors[e].SetExecStart?
    requires s.executors[e].batch < |s.trackers|
    ensures var pc := s.executors[e];
            && !s.trackers[pc.batch].execStart
            && Inv(c, SetTracker(SetExecutor(s, e, LoadItems(pc.lap, pc.batch)), pc.batch,
                                 s.trackers[pc.batch].(execStart := true, stage := STARTED)))
  {
    hide Inv, PublishedIn;
    HolderParts(c, s, e);
    var pc := s.executors[e];
    TrackerOf(c, s, pc.batch);
    PlainStageKeeps(c, s, e, pc.batch, s.trackers[pc.batch].(execStart := true, stage := STARTED), LoadItems(pc.lap,
                    pc.batch));
  }

  lemma FullCount(g: Geometry, tr: Tracker, owner: map<nat, Slot>, published: set<nat>)
    requires tr.stage >= FULL && LapFull(g, tr, owner, published)
    requires forall a | a in published :: a in owner
    ensures PublishedIn(g, published, tr.lap) == ReservedIn(g, owner, tr.lap)
  {
  }

  /** batch_items is the number of slots that producers reserved in the lap. */
  lemma ItemsCount(c: Config, s: State, e: nat)
    requires Inv(c, s) && e < |s.executors| && s.executors[e].LoadItems?
    requires s.executors[e].batch < |s.trackers|
    ensures ItemsOk(c.geometry, s.executors[e].lap, s.trackers[s.executors[e].batch].writtenSlots, s.owner, s.head)
  {
    hide Inv, PublishedIn;
    HolderParts(c, s, e);
    var tr := s.trackers[s.executors[e].batch];
    TrackerOf(c, s, s.executors[e].batch);
    SlotsOf(c, s);
    FullCount(c.geometry, tr, s.owner, s.published);
  }

  lemma ItemsStep(c: Config, s: State, u: nat, n: nat)
    requires Inv(c, s) && ItemsOk(c.geometry, u, n, s.owner, s.head)
    ensures Inv(c, s.(items := s.items[u := n]))
  {
    hide *;
    Parts(c, s);
    ItemsGrow(c.geometry, s.items, s.owner, s.head, u, n);
    Whole(c, s.(items := s.items[u := n]));
  }

  lemma ItemsGrow(g: Geometry, items: map<nat, nat>, owner: map<nat, Slot>, head: nat, u: nat, n: nat)
    requires Items(g, items, owner, head) && ItemsOk(g, u, n, owner, head)
    ensures Items(g, items[u := n], owner, head)
  {
  }

  lemma LoadItemsKeeps(c: Config, s: State, e: nat)
    requires Inv(c, s) && e < |s.executors| && s.executors[e].LoadItems?
    requires s.executors[e].batch < |s.trackers|
    ensures var pc := s.executors[e];
            Inv(c, SetExecutor(s, e, ReadRows(pc.lap, pc.batch, []))
                .(items := s.items[pc.lap := s.trackers[pc.batch].writtenSlots]))
  {
    hide Inv, ItemsOk;
    var pc := s.executors[e];
    HolderParts(c, s, e);
    ItemsCount(c, s, e);
    MoveKeeps(c, s, e, ReadRows(pc.lap, pc.batch, []));
    ItemsStep(c, SetExecutor(s, e, ReadRows(pc.lap, pc.batch, [])), pc.lap, s.trackers[pc.batch].writtenSlots);
  }

  lemma ReadRowKeeps(c: Config, s: State, e: nat)
    requires Inv(c, s) && e < |s.executors| && s.executors[e].ReadRows?
    requires s.executors[e].batch < |s.buffers| && |s.executors[e].seen| < |s.buffers[s.executors[e].batch]|
    ensures var pc := s.executors[e];
            Inv(c, SetExecutor(s, e, ReadRows(pc.lap, pc.batch, pc.seen + [s.buffers[pc.batch][|pc.seen|]])))
  {
    hide Inv;
    var pc := s.executors[e];
    HolderParts(c, s, e);
    MoveKeeps(c, s, e, ReadRows(pc.lap, pc.batch, pc.seen + [s.buffers[pc.batch][|pc.seen|]]));
  }

  lemma RunDoneKeeps(c: Config, s: State, e: nat, result: BatchResult)
    requires Inv(c, s) && e < |s.executors| && s.executors[e].ReadRows?
    requires s.executors[e].batch < |s.buffers| && |s.executors[e].seen| >= |s.buffers[s.executors[e].batch]|
    requires RunOk(c, s.executors[e].seen, result)
    ensures Inv(c, SetExecutor(s, e, SetExecEnd(s.executors[e].lap, s.executors[e].batch, result)))
  {
    hide Inv, RunOk;
    var pc := s.executors[e];
    HolderParts(c, s, e);
    assert pc.seen == s.buffers[pc.batch];
    MoveKeeps(c, s, e, SetExecEnd(pc.lap, pc.batch, result));
  }

  lemma ExecEndKeeps(c: Config, s: State, e: nat)
    requires Inv(c, s) && e < |s.executors| && s.executors[e].SetExecEnd?
    requires s.executors[e].batch < |s.trackers|
    ensures var pc := s.executors[e];
            && !s.trackers[pc.batch].execEnd
            && Inv(c, SetTracker(SetExecutor(s, e, SetOutput(pc.lap, pc.batch, pc.result)), pc.batch,
                                 s.trackers[pc.batch].(execEnd := true, stage := ENDED))
                .(runs := s.runs + multiset{pc.lap}))
  {
    hide Inv, PublishedIn, RunOk, Results, Collects;
    HolderParts(c, s, e);
    var pc := s.executors[e];
    TrackerOf(c, s, pc.batch);
    ResultsParts(c, s);
    StageKeeps(c, s, e, pc.batch, s.trackers[pc.batch].(execEnd := true, stage := ENDED),
               SetOutput(pc.lap, pc.batch, pc.result),
               s.outputs, s.runs + multiset{pc.lap}, s.resets);
  }

  /** The session's answer on the batch rows answers every reserved slot of the lap. */
  lemma RunAnswersLap(c: Config, b: nat, tr: Tracker, buffer: seq<Row>, owner: map<nat, Slot>, published: set<nat>,
                      head: nat, result: BatchResult)
    requires FULL <= tr.stage < STATE_RESET && LapFull(c.geometry, tr, owner, published)
    requires LapSlots(c, tr, owner, head) && LapRows(c.geometry, tr, buffer, owner, published)
    requires |buffer| == c.geometry.batchSize && RunOk(c, buffer, result)
    requires b < c.geometry.capacity && LapOf(c.geometry, b, tr.gen) == tr.lap
    ensures OutputOk(c, Cell(b, tr.gen), result, owner, head)
  {
    if result.Ok? {
      forall o, a | 0 <= o < c.outputs && tr.lap <= a < tr.lap + c.geometry.batchSize && a in owner
        ensures |result.value| == c.outputs && |result.value[o]| == c.geometry.batchSize
        ensures o < |c.model(owner[a].row)| && result.value[o][a - tr.lap] == c.model(owner[a].row)[o]
      {
        assert a in published;
        assert buffer[a - tr.lap] == owner[a].row;
      }
    }
  }

  lemma OutputsGrow(c: Config, outputs: map<Cell, BatchResult>, owner: map<nat, Slot>, head: nat,
                    producers: seq<Producer>,
                    cell: Cell, result: BatchResult)
    requires cell !in outputs && OutputOk(c, cell, result, owner, head)
    requires Results(c, outputs, owner, head) && Collects(c, producers, outputs)
    ensures Results(c, outputs[cell := result], owner, head) && Collects(c, producers, outputs[cell := result])
  {
    forall p | 0 <= p < |producers| ensures CollectOk(c, producers[p], outputs[cell := result]) {
      CollectGrows(c, producers[p], outputs, cell, result);
    }
  }

  lemma AnsweredGrows(response: seq<Reservation>, outputs: map<Cell, BatchResult>, n: nat, cell: Cell,
                      result: BatchResult)
    requires cell !in outputs && AllAnswered(response, outputs, n)
    ensures AllAnswered(response, outputs[cell := result], n)
  {
  }

  lemma CollectGrows(c: Config, me: Producer, outputs: map<Cell, BatchResult>, cell: Cell, result: BatchResult)
    requires cell !in outputs && CollectOk(c, me, outputs)
    ensures CollectOk(c, me, outputs[cell := result])
  {
    hide DataOk;
    if me.pc.Answered? && me.pc.answer.Err? {
      var j :| 0 <= j < |me.response| && me.response[j].cell in outputs
               && outputs[me.response[j].cell] == Err(me.pc.answer.error) && AllAnswered(me.response, outputs, j);
      AnsweredGrows(me.response, outputs, j, cell, result);
      assert FirstError(me.response, outputs[cell := result], me.pc.answer.error);
    }
  }

  lemma SetOutputFacts(c: Config, s: State, e: nat)
    requires Inv(c, s) && e < |s.executors| && s.executors[e].SetOutput?
    requires s.executors[e].batch < |s.trackers|
    ensures var pc := s.executors[e]; var cell := Cell(pc.batch, s.trackers[pc.batch].gen);
            && cell !in s.outputs
            && LapOf(c.geometry, cell.batch, cell.gen) == pc.lap
            && Results(c, s.outputs[cell := pc.result], s.owner, s.head)
            && Collects(c, s.producers, s.outputs[cell := pc.result])
  {
    hide Inv, RunOk, Results, Collects, OutputOk;
    HolderParts(c, s, e);
    var pc := s.executors[e];
    var tr := s.trackers[pc.batch];
    TrackerOf(c, s, pc.batch);
    ResultsParts(c, s);
    RunAnswersLap(c, pc.batch, tr, s.buffers[pc.batch], s.owner, s.published, s.head, pc.result);
    OutputsGrow(c, s.outputs, s.owner, s.head, s.producers, Cell(pc.batch, tr.gen), pc.result);
  }

  lemma SetOutputKeeps(c: Config, s: State, e: nat)
    requires Inv(c, s) && e < |s.executors| && s.executors[e].SetOutput?
    requires s.executors[e].batch < |s.trackers|
    ensures var pc := s.executors[e]; var cell := Cell(pc.batch, s.trackers[pc.batch].gen);
            && cell !in s.outputs
            && Inv(c, SetTracker(SetExecutor(s, e, ResetState(pc.lap, pc.batch)), pc.batch,
                                 s.trackers[pc.batch].(stage := FILLED)).(outputs := s.outputs[cell := pc.result]))
  {
    hide Inv, PublishedIn, RunOk, Results, Collects;
    HolderParts(c, s, e);
    var pc := s.executors[e];
    TrackerOf(c, s, pc.batch);
    SetOutputFacts(c, s, e);
    StageKeeps(c, s, e, pc.batch, s.trackers[pc.batch].(stage := FILLED), ResetState(pc.lap, pc.batch),
               s.outputs[Cell(pc.batch, s.trackers[pc.batch].gen) := pc.result], s.runs, s.resets);
  }

  // ----- reset_batch -----

  /** The BatchState of the next lap has no output yet. */
  lemma NextCellIsEmpty(c: Config, s: State, b: nat)
    requires Inv(c, s) && b < |s.trackers| && s.trackers[b].stage < STATE_RESET
    ensures LapOf(c.geometry, b, s.trackers[b].gen + 1) == s.trackers[b].lap + c.geometry.ring
    ensures Cell(b, s.trackers[b].gen + 1) !in s.outputs
  {
    hide Inv;
    TrackerOf(c, s, b);
    CountersOf(c, s);
    ResultsParts(c, s);
    ResultBehindHead(c, s.outputs, s.owner, s.head, Cell(b, s.trackers[b].gen + 1));
  }

  lemma ResultBehindHead(c: Config, outputs: map<Cell, BatchResult>, owner: map<nat, Slot>, head: nat, cell: Cell)
    requires Results(c, outputs, owner, head)
    ensures cell in outputs ==> LapOf(c.geometry, cell.batch, cell.gen) + c.geometry.batchSize <= head
  {
  }

  lemma ResetStateKeeps(c: Config, s: State, e: nat)
    requires Inv(c, s) && e < |s.executors| && s.executors[e].ResetState?
    requires s.executors[e].batch < |s.trackers|
    ensures var pc := s.executors[e]; var tr := s.trackers[pc.batch];
            Inv(c, SetTracker(SetExecutor(s, e, ResetWritten(pc.lap, pc.batch)), pc.batch,
                              tr.(gen := tr.gen + 1, deadline := false, queueStart := false, execStart := false,
                                  execEnd := false, stage := STATE_RESET)).(resets := s.resets + multiset{pc.lap}))
  {
    hide Inv, PublishedIn, Results, Collects, LapOf;
    HolderParts(c, s, e);
    var pc := s.executors[e];
    var tr := s.trackers[pc.batch];
    TrackerOf(c, s, pc.batch);
    ResultsParts(c, s);
    NextCellIsEmpty(c, s, pc.batch);
    StageKeeps(c, s, e, pc.batch,
               tr.(gen := tr.gen + 1, deadline := false, queueStart := false,
                       execStart := false, execEnd := false, stage := STATE_RESET),
               ResetWritten(pc.lap, pc.batch), s.outputs, s.runs, s.resets + multiset{pc.lap});
  }

  lemma ResetWrittenKeeps(c: Config, s: State, e: nat)
    requires Inv(c, s) && e < |s.executors| && s.executors[e].ResetWritten?
    requires s.executors[e].batch < |s.trackers|
    ensures var pc := s.executors[e];
            Inv(c, SetTracker(SetExecutor(s, e, ResetDirty(pc.lap, pc.batch)), pc.batch,
                              s.trackers[pc.batch].(writtenSlots := 0, stage := WRITTEN_RESET)))
  {
    hide Inv, PublishedIn;
    HolderParts(c, s, e);
    var pc := s.executors[e];
    TrackerOf(c, s, pc.batch);
    PlainStageKeeps(c, s, e, pc.batch, s.trackers[pc.batch].(writtenSlots := 0, stage := WRITTEN_RESET),
                    ResetDirty(pc.lap, pc.batch));
  }

  lemma ResetDirtyKeeps(c: Config, s: State, e: nat)
    requires Inv(c, s) && e < |s.executors| && s.executors[e].ResetDirty?
    requires s.executors[e].batch < |s.trackers|
    ensures var pc := s.executors[e];
            Inv(c, SetTracker(SetExecutor(s, e, TailLoad), pc.batch, s.trackers[pc.batch].(dirty := 2, stage := DONE)))
  {
    hide Inv, PublishedIn;
    HolderParts(c, s, e);
    var pc := s.executors[e];
    TrackerOf(c, s, pc.batch);
    PlainStageKeeps(c, s, e, pc.batch, s.trackers[pc.batch].(dirty := 2, stage := DONE), TailLoad);
  }

  // ----- claiming a lap -----

  /** The tracker at an aligned index of the window serves the lap that begins there. */
  lemma TrackerAt(c: Config, s: State, u: nat)
    requires Inv(c, s) && Multiple(c.geometry.batchSize, u) && s.tail <= u < s.tail + c.geometry.ring
    ensures c.geometry.Valid()
    ensures BatchId(c.geometry, u) < |s.trackers| && s.trackers[BatchId(c.geometry, u)].lap == u
  {
    hide *;
    Parts(c, s);
    SizedParts(c.geometry, s.trackers, s.buffers);
    TailIsAligned(c, s.head, s.executorHead, s.tail);
    BatchOfWindow(c.geometry, s.trackers, s.executorHead, s.tail, u);
    LowerBoundIs(c.geometry, u, u);
  }

  lemma TailIsAligned(c: Config, head: nat, executorHead: nat, tail: nat)
    requires Counters(c, head, executorHead, tail)
    ensures Multiple(c.geometry.batchSize, tail) && Multiple(c.geometry.batchSize, executorHead)
  {
  }

  lemma ClaimBounds(c: Config, head: nat, executorHead: nat, tail: nat)
    requires c.Valid() && Counters(c, head, executorHead, tail) && executorHead < tail + c.geometry.ring
    ensures Counters(c, head, executorHead + c.geometry.batchSize, tail)
  {
    RingIsPositive(c.geometry);
    Sum(c.geometry.batchSize, tail, c.geometry.ring);
    Gap(c.geometry.batchSize, executorHead, tail + c.geometry.ring);
    assert Multiple(c.geometry.batchSize, c.geometry.batchSize);
    Sum(c.geometry.batchSize, executorHead, c.geometry.batchSize);
  }

  lemma ClaimWindows(c: Config, s: State, b: nat, e: nat)
    requires Inv(c, s) && b < |s.trackers| && s.trackers[b].lap == s.executorHead
    ensures Windows(c.geometry, s.trackers[b := s.trackers[b].(stage := CLAIMED, claimant := e)],
                    s.executorHead + c.geometry.batchSize, s.tail)
  {
    hide Inv, LapOf;
    var trackers' := s.trackers[b := s.trackers[b].(stage := CLAIMED, claimant := e)];
    forall d | 0 <= d < |trackers'|
      ensures LapWindow(c.geometry, d, trackers'[d], s.executorHead + c.geometry.batchSize, s.tail)
    {
      TrackerOf(c, s, d);
      if d != b {
        DifferentLaps(c, s, b, d);
      } else {
        CountersOf(c, s);
      }
    }
  }

  lemma ClaimLaps(c: Config, s: State, b: nat, e: nat)
    requires Sized(c.geometry, s.trackers, s.buffers)
    requires Slots(c, s.trackers, s.owner, s.head)
    requires Fulls(c.geometry, s.trackers, s.owner, s.published)
    requires Writtens(c.geometry, s.trackers, s.published)
    requires Timers(s.trackers, s.owner, s.producers)
    requires Cells(s.trackers, s.outputs)
    requires BufferRows(c.geometry, s.trackers, s.buffers, s.owner, s.published)
    requires Pieces(s.producers, s.trackers)
    requires b < |s.trackers| && s.trackers[b].stage == UNCLAIMED
    ensures var trackers' := s.trackers[b := s.trackers[b].(stage := CLAIMED, claimant := e)];
            && Sized(c.geometry, trackers', s.buffers)
            && Slots(c, trackers', s.owner, s.head)
            && Fulls(c.geometry, trackers', s.owner, s.published)
            && Writtens(c.geometry, trackers', s.published)
            && Timers(trackers', s.owner, s.producers)
            && Cells(trackers', s.outputs)
            && BufferRows(c.geometry, trackers', s.buffers, s.owner, s.published)
            && Pieces(s.producers, trackers')
  {
  }

  lemma ClaimLedger(c: Config, s: State, b: nat, e: nat)
    requires Inv(c, s) && b < |s.trackers| && s.trackers[b].lap == s.executorHead
    requires s.trackers[b].stage == UNCLAIMED
    ensures LapLedgers(c, s.trackers[b := s.trackers[b].(stage := CLAIMED, claimant := e)],
                       s.claims + multiset{s.executorHead}, s.runs, s.resets)
    ensures PastLedger(c, s.tail, s.claims + multiset{s.executorHead}, s.runs, s.resets)
  {
    hide Inv, LapOf;
    var trackers' := s.trackers[b := s.trackers[b].(stage := CLAIMED, claimant := e)];
    PastOf(c, s);
    TrackerOf(c, s, b);
    forall d | 0 <= d < |trackers'|
      ensures LapLedger(c, trackers'[d], s.claims + multiset{s.executorHead}, s.runs, s.resets)
    {
      TrackerOf(c, s, d);
      if d != b {
        DifferentLaps(c, s, b, d);
      }
    }
  }

  lemma PastOf(c: Config, s: State)
    requires Inv(c, s)
    ensures PastLedger(c, s.tail, s.claims, s.runs, s.resets)
  {
  }

  lemma ClaimExecutors(c: Config, s: State, b: nat, e: nat)
    requires ExecutorsInv(c, s) && e < |s.executors| && b < |s.trackers|
    requires s.trackers[b].stage == UNCLAIMED && s.trackers[b].lap >= c.start
    requires |s.trackers| == |s.buffers|
    ensures ExecutorsInv(c, s.(trackers := s.trackers[b := s.trackers[b].(stage := CLAIMED, claimant := e)],
                               executors := s.executors[e := BorrowNotifier(s.trackers[b].lap, b)]))
  {
    var trackers' := s.trackers[b := s.trackers[b].(stage := CLAIMED, claimant := e)];
    var executors' := s.executors[e := BorrowNotifier(s.trackers[b].lap, b)];
    forall d | 0 <= d < |executors'| && Holding(executors'[d])
      ensures executors'[d].batch < |trackers'| && HoldingOk(c, d, executors'[d], trackers'[executors'[d].batch])
    {
      if d != e {
        assert HoldingOk(c, d, s.executors[d], s.trackers[s.executors[d].batch]);
      }
    }
    forall d | 0 <= d < |executors'| ensures PassOk(executors'[d], s.tail, trackers') {
      assert PassOk(s.executors[d], s.tail, s.trackers);
    }
  }

  lemma ClaimInv(c: Config, s: State, b: nat, e: nat)
    requires Inv(c, s) && b < |s.trackers| && e < |s.executors|
    requires s.trackers[b].lap == s.executorHead && s.trackers[b].stage == UNCLAIMED && s.executorHead >= c.start
    requires |s.trackers| == |s.buffers|
    requires Counters(c, s.head, s.executorHead + c.geometry.batchSize, s.tail)
    ensures Inv(c, s.(executorHead := s.executorHead + c.geometry.batchSize,
                      executors := s.executors[e := BorrowNotifier(s.executorHead, b)],
                      trackers := s.trackers[b := s.trackers[b].(stage := CLAIMED, claimant := e)],
                      claims := s.claims + multiset{s.executorHead}))
  {
    hide *;
    Parts(c, s);
    Groups(c, s);
    ClaimWindows(c, s, b, e);
    ClaimLaps(c, s, b, e);
    ClaimLedger(c, s, b, e);
    ClaimExecutors(c, s, b, e);
    ExecutorParts(c, s.(trackers := s.trackers[b := s.trackers[b].(stage := CLAIMED, claimant := e)],
                        executors := s.executors[e := BorrowNotifier(s.executorHead, b)]));
    Whole(c, s.(executorHead := s.executorHead + c.geometry.batchSize,
                executors := s.executors[e := BorrowNotifier(s.executorHead, b)],
                trackers := s.trackers[b := s.trackers[b].(stage := CLAIMED, claimant := e)],
                claims := s.claims + multiset{s.executorHead}));
  }

  lemma ClaimFacts(c: Config, s: State, e: nat)
    requires Inv(c, s) && e < |s.executors| && s.executors[e].Claim? && s.executors[e].e == s.executorHead
    ensures c.geometry.Valid()
    ensures var b := BatchId(c.geometry, s.executorHead);
            && b < |s.trackers| == |s.buffers|
            && s.trackers[b].lap == s.executorHead && s.trackers[b].stage == UNCLAIMED && s.executorHead >= c.start
            && Counters(c, s.head, s.executorHead + c.geometry.batchSize, s.tail)
  {
    hide Inv, BatchId;
    HolderParts(c, s, e);
    CountersOf(c, s);
    ConfigOf(c, s);
    ClaimBounds(c, s.head, s.executorHead, s.tail);
    TrackerAt(c, s, s.executorHead);
    TrackerOf(c, s, BatchId(c.geometry, s.executorHead));
  }

  lemma ConfigOf(c: Config, s: State)
    requires Inv(c, s)
    ensures c.Valid()
  {
  }

  lemma SizesOf(c: Config, s: State)
    requires Inv(c, s)
    ensures |s.trackers| == |s.buffers| == c.geometry.capacity
  {
  }

  lemma ClaimKeeps(c: Config, s: State, e: nat)
    requires Inv(c, s) && e < |s.executors| && s.executors[e].Claim? && s.executors[e].e == s.executorHead
    requires c.geometry.Valid() && BatchId(c.geometry, s.executorHead) < |s.trackers|
    ensures Inv(c, ClaimLap(c, s, e))
  {
    hide Inv, BatchId;
    ClaimFacts(c, s, e);
    ClaimInv(c, s, BatchId(c.geometry, s.executorHead), e);
  }

  // ----- moving tail -----

  lemma TailDirtyKeeps(c: Config, s: State, e: nat, pc': ExecutorPc)
    requires Inv(c, s) && e < |s.executors|
    requires || (s.executors[e].TailHead? && pc' == TailDirty(s.executors[e].t)
                 && s.executors[e].t + c.geometry.batchSize < s.head)
             || (s.executors[e].TailDirty? && pc' == TailDirtyCas(s.executors[e].t))
    ensures Inv(c, SetExecutor(s, e, pc'))
  {
    hide Inv;
    HolderParts(c, s, e);
    MoveKeeps(c, s, e, pc');
  }

  lemma TakeDirtyKeeps(c: Config, s: State, b: nat)
    requires Inv(c, s) && b < |s.trackers|
    ensures Inv(c, SetTracker(s, b, s.trackers[b].(dirty := 0)))
  {
    hide Inv, PublishedIn;
    TrackerOf(c, s, b);
    TrackerStep(c, s, b, s.trackers[b].(dirty := 0));
  }

  lemma OnlyTrackerAt(c: Config, s: State, u: nat, d: nat)
    requires Inv(c, s) && Multiple(c.geometry.batchSize, u) && s.tail <= u < s.tail + c.geometry.ring
    requires d < |s.trackers| && s.trackers[d].lap == u
    ensures c.geometry.Valid() && d == BatchId(c.geometry, u)
  {
    hide Inv, BatchId;
    TrackerAt(c, s, u);
    if d != BatchId(c.geometry, u) {
      DifferentLaps(c, s, d, BatchId(c.geometry, u));
    }
  }

  lemma DirtyCasFacts(c: Config, s: State, e: nat, b: nat)
    requires Inv(c, s) && e < |s.executors| && s.executors[e].TailDirtyCas?
    requires c.geometry.Valid() && b == BatchId(c.geometry, s.executors[e].t) && b < |s.trackers|
    requires s.trackers[b].dirty == 2
    ensures ExecutorFacts(c, e, TailCas(s.executors[e].t), s.trackers[b := s.trackers[b].(dirty := 0)],
                          s.buffers, s.head, s.tail)
  {
    hide Inv, BatchId;
    HolderParts(c, s, e);
    var t := s.executors[e].t;
    if t == s.tail {
      CountersOf(c, s);
      RingIsPositive(c.geometry);
      TrackerOf(c, s, b);
      var trackers' := s.trackers[b := s.trackers[b].(dirty := 0)];
      forall d {:trigger trackers'[d]} | 0 <= d < |trackers'| && trackers'[d].lap == t
        ensures trackers'[d].stage == DONE && trackers'[d].dirty != 2
      {
        OnlyTrackerAt(c, s, t, d);
      }
    }
  }

  lemma DirtyCasKeeps(c: Config, s: State, e: nat, b: nat)
    requires Inv(c, s) && e < |s.executors| && s.executors[e].TailDirtyCas?
    requires c.geometry.Valid() && b == BatchId(c.geometry, s.executors[e].t) && b < |s.trackers|
    requires s.trackers[b].dirty == 2
    ensures Inv(c, SetTracker(SetExecutor(s, e, TailCas(s.executors[e].t)), b, s.trackers[b].(dirty := 0)))
  {
    hide Inv, BatchId, ExecutorFacts;
    DirtyCasFacts(c, s, e, b);
    TakeDirtyKeeps(c, s, b);
    MoveKeeps(c, SetTracker(s, b, s.trackers[b].(dirty := 0)), e, TailCas(s.executors[e].t));
  }

  /** The tracker of the lap that tail leaves behind, ready for its next lap. */
  ghost function Renewed(c: Config, tr: Tracker): Tracker {
    tr.(lap := tr.lap + c.geometry.ring, stage := UNCLAIMED)
  }

  ghost predicate Leaving(c: Config, s: State, b: nat) {
    && b < |s.trackers|
    && s.trackers[b].lap == s.tail
    && s.trackers[b].stage == DONE
    && s.trackers[b].dirty != 2
    && s.tail + c.geometry.batchSize < s.head
  }

  lemma AdvanceFacts(c: Config, s: State, e: nat)
    requires Inv(c, s) && e < |s.executors| && s.executors[e].TailCas? && s.executors[e].t == s.tail
    ensures c.geometry.Valid()
    ensures Leaving(c, s, BatchId(c.geometry, s.tail))
  {
    hide Inv, BatchId;
    HolderParts(c, s, e);
    CountersOf(c, s);
    RingIsPositive(c.geometry);
    TrackerAt(c, s, s.tail);
  }

  lemma AdvanceCounters(c: Config, s: State, b: nat)
    requires Inv(c, s) && Leaving(c, s, b)
    ensures Counters(c, s.head, s.executorHead, s.tail + c.geometry.batchSize)
  {
    hide Inv, LapOf;
    CountersOf(c, s);
    TrackerOf(c, s, b);
    Gap(c.geometry.batchSize, s.tail, s.executorHead);
    Sum(c.geometry.batchSize, c.geometry.batchSize, s.tail);
  }

  lemma AdvanceWindows(c: Config, s: State, b: nat)
    requires Inv(c, s) && Leaving(c, s, b)
    ensures Windows(c.geometry, s.trackers[b := Renewed(c, s.trackers[b])],
                    s.executorHead, s.tail + c.geometry.batchSize)
  {
    hide Inv, LapOf;
    var trackers' := s.trackers[b := Renewed(c, s.trackers[b])];
    CountersOf(c, s);
    RingIsPositive(c.geometry);
    Sum(c.geometry.batchSize, s.tail, c.geometry.ring);
    forall d | 0 <= d < |trackers'|
      ensures LapWindow(c.geometry, d, trackers'[d], s.executorHead, s.tail + c.geometry.batchSize)
    {
      TrackerOf(c, s, d);
      if d != b {
        DifferentLaps(c, s, b, d);
      }
    }
  }

  lemma BoundsOf(c: Config, s: State)
    requires Inv(c, s)
    ensures Bounds(c, s.owner, s.published, s.head, s.tail)
    ensures Progress(s.owner, s.producers, s.published)
  {
  }

  /** Nothing is reserved or published in the lap that the tracker serves next. */
  lemma AdvanceTracker(c: Config, s: State, b: nat)
    requires Inv(c, s) && Leaving(c, s, b) && b < |s.buffers|
    ensures var tr' := Renewed(c, s.trackers[b]);
            && LapSlots(c, tr', s.owner, s.head)
            && LapFull(c.geometry, tr', s.owner, s.published)
            && LapWritten(c.geometry, tr', s.published)
            && LapTimers(tr', s.owner, s.producers)
            && LapCells(b, tr', s.outputs)
            && LapRows(c.geometry, tr', s.buffers[b], s.owner, s.published)
  {
    hide Inv, LapOf;
    TrackerOf(c, s, b);
    CountersOf(c, s);
    BoundsOf(c, s);
    var tr' := Renewed(c, s.trackers[b]);
    assert PublishedIn(c.geometry, s.published, tr'.lap) == {};
  }

  lemma AdvanceLaps(c: Config, s: State, b: nat, tr': Tracker)
    requires b < |s.trackers| && b < |s.buffers|
    requires Sized(c.geometry, s.trackers, s.buffers)
    requires Slots(c, s.trackers, s.owner, s.head) && LapSlots(c, tr', s.owner, s.head)
    requires Fulls(c.geometry, s.trackers, s.owner, s.published) && LapFull(c.geometry, tr', s.owner, s.published)
    requires Writtens(c.geometry, s.trackers, s.published) && LapWritten(c.geometry, tr', s.published)
    requires Timers(s.trackers, s.owner, s.producers) && LapTimers(tr', s.owner, s.producers)
    requires Cells(s.trackers, s.outputs) && LapCells(b, tr', s.outputs)
    requires BufferRows(c.geometry, s.trackers, s.buffers, s.owner, s.published)
    requires LapRows(c.geometry, tr', s.buffers[b], s.owner, s.published)
    ensures var trackers' := s.trackers[b := tr'];
            && Sized(c.geometry, trackers', s.buffers)
            && Slots(c, trackers', s.owner, s.head)
            && Fulls(c.geometry, trackers', s.owner, s.published)
            && Writtens(c.geometry, trackers', s.published)
            && Timers(trackers', s.owner, s.producers)
            && Cells(trackers', s.outputs)
            && BufferRows(c.geometry, trackers', s.buffers, s.owner, s.published)
  {
  }

  lemma AdvanceSlots(c: Config, s: State, b: nat)
    requires Inv(c, s) && Leaving(c, s, b)
    ensures Bounds(c, s.owner, s.published, s.head, s.tail + c.geometry.batchSize)
  {
    hide Inv, LapOf;
    TrackerOf(c, s, b);
    BoundsOf(c, s);
  }

  lemma AdvanceLedger(c: Config, s: State, b: nat)
    requires Inv(c, s) && Leaving(c, s, b)
    ensures LapLedgers(c, s.trackers[b := Renewed(c, s.trackers[b])], s.claims, s.runs, s.resets)
    ensures PastLedger(c, s.tail + c.geometry.batchSize, s.claims, s.runs, s.resets)
  {
    hide Inv, LapOf;
    TrackerOf(c, s, b);
    PastOf(c, s);
    CountersOf(c, s);
    var trackers' := s.trackers[b := Renewed(c, s.trackers[b])];
    forall d | 0 <= d < |trackers'| ensures LapLedger(c, trackers'[d], s.claims, s.runs, s.resets) {
      TrackerOf(c, s, d);
    }
    forall u | c.start <= u < s.tail + c.geometry.batchSize && Multiple(c.geometry.batchSize, u)
      ensures s.claims[u] == 1 && s.runs[u] == 1 && s.resets[u] == 1
    {
      if u > s.tail {
        Gap(c.geometry.batchSize, s.tail, u);
      }
    }
  }

  lemma AdvancePieces(c: Config, s: State, b: nat)
    requires Inv(c, s) && Leaving(c, s, b)
    ensures Pieces(s.producers, s.trackers[b := Renewed(c, s.trackers[b])])
    ensures Admitted(s.producers, s.tail + c.geometry.batchSize + c.geometry.ring)
  {
    AdmittedOf(c, s);
    hide Inv;
    forall p | 0 <= p < |s.producers| && Writing(s.producers[p].pc)
      ensures s.producers[p].pc.piece.batch < |s.trackers|
      ensures PieceHere(s.producers[p], s.trackers[b := Renewed(c, s.trackers[b])][s.producers[p].pc.piece.batch])
    {
      WriterNotFull(c, s, p);
    }
  }

  lemma AdmittedOf(c: Config, s: State)
    requires Inv(c, s)
    ensures Admitted(s.producers, s.tail + c.geometry.ring)
  {
  }

  lemma AdvanceExecutors(c: Config, s: State, b: nat, e: nat)
    requires ExecutorsInv(c, s) && e < |s.executors| && Leaving(c, s, b) && c.geometry.Valid()
    ensures ExecutorsInv(c, s.(tail := s.tail + c.geometry.batchSize,
                               trackers := s.trackers[b := Renewed(c, s.trackers[b])],
                               executors := s.executors[e := TailLoad]))
  {
    var trackers' := s.trackers[b := Renewed(c, s.trackers[b])];
    var executors' := s.executors[e := TailLoad];
    forall d | 0 <= d < |executors'| && Holding(executors'[d])
      ensures executors'[d].batch < |trackers'| && HoldingOk(c, d, executors'[d], trackers'[executors'[d].batch])
    {
      assert HoldingOk(c, d, s.executors[d], s.trackers[s.executors[d].batch]);
    }
    forall d | 0 <= d < |executors'| ensures PassOk(executors'[d], s.tail + c.geometry.batchSize, trackers') {
      assert TailOk(c.geometry, s.executors[d], s.head, s.tail);
    }
  }

  lemma AdvanceInv(c: Config, s: State, b: nat, e: nat, tr': Tracker)
    requires Inv(c, s) && Leaving(c, s, b) && b < |s.trackers| == |s.buffers| && e < |s.executors|
    requires tr' == Renewed(c, s.trackers[b])
    ensures Inv(c, s.(tail := s.tail + c.geometry.batchSize,
                      executors := s.executors[e := TailLoad],
                      trackers := s.trackers[b := tr']))
  {
    hide *;
    Parts(c, s);
    Groups(c, s);
    AdvanceCounters(c, s, b);
    AdvanceWindows(c, s, b);
    AdvanceTracker(c, s, b);
    AdvanceLaps(c, s, b, tr');
    AdvanceSlots(c, s, b);
    AdvanceLedger(c, s, b);
    AdvancePieces(c, s, b);
    AdvanceExecutors(c, s, b, e);
    ExecutorParts(c, s.(tail := s.tail + c.geometry.batchSize, trackers := s.trackers[b := tr'],
                        executors := s.executors[e := TailLoad]));
    Whole(c, s.(tail := s.tail + c.geometry.batchSize,
                executors := s.executors[e := TailLoad],
                trackers := s.trackers[b := tr']));
  }

  lemma AdvanceKeeps(c: Config, s: State, e: nat)
    requires Inv(c, s) && e < |s.executors| && s.executors[e].TailCas? && s.executors[e].t == s.tail
    requires c.geometry.Valid() && BatchId(c.geometry, s.tail) < |s.trackers|
    ensures Inv(c, AdvanceTail(c, s, e, s.tail))
  {
    hide Inv, BatchId;
    AdvanceFacts(c, s, e);
    HolderParts(c, s, e);
    AdvanceInv(c, s, BatchId(c.geometry, s.tail), e, Renewed(c, s.trackers[BatchId(c.geometry, s.tail)]));
  }

  // ----- all executor steps -----

  lemma ExecutorStepKeeps(c: Config, s: State, e: nat, weakFail: bool, result: BatchResult)
    requires Inv(c, s) && ExecutorEnabled(c, s, e, result) && !SealsTooEarly(s, Execute(e, weakFail, result))
    ensures Inv(c, ExecutorStep(c, s, e, weakFail, result))
  {
    hide Inv, SetExecutor, SetTracker, SealTo, ClaimLap, AdvanceTail, BatchId, RunOk, LapOf, ExecutorFacts;
    var pc := s.executors[e];
    match pc {
      case LoadExecutorHead => LoadKeeps(c, s, e, LoadTailForClaim(s.executorHead));
      case LoadTailForClaim(h) =>
        LoadKeeps(c, s, e, if BelowRing(c.geometry, h, s.tail) then Claim(h) else LoadExecutorHead);
      case Claim(h) =>
        BatchIdFacts(c.geometry, s.executorHead);
        if s.executorHead == h && !weakFail {
          ClaimKeeps(c, s, e);
        } else {
          LoadKeeps(c, s, e, LoadExecutorHead);
        }
      case BorrowNotifier(_, _) => BorrowKeeps(c, s, e);
      case AwaitNotify(_, _, _) => WakeKeeps(c, s, e);
      case SealLoad(lap, _) =>
        SealLoadKeeps(c, s, e);
        if s.head >= lap + c.geometry.batchSize {
          SealFullKeeps(c, s, e);
        }
      case SealCas(_, _, h, _) =>
        if s.head == h && !weakFail {
          SealCasKeeps(c, s, e);
        } else {
          SealRetryKeeps(c, s, e);
        }
      case Spin(_, _, _) =>
        SpinNeverOver(c, s, e);
        SpinKeeps(c, s, e);
      case SetExecStart(_, _) => ExecStartKeeps(c, s, e);
      case LoadItems(_, _) => LoadItemsKeeps(c, s, e);
      case ReadRows(_, b, seen) =>
        if |seen| < |s.buffers[b]| {
          ReadRowKeeps(c, s, e);
        } else {
          RunDoneKeeps(c, s, e, result);
        }
      case SetExecEnd(_, _, _) => ExecEndKeeps(c, s, e);
      case SetOutput(_, _, _) => SetOutputKeeps(c, s, e);
      case ResetState(_, _) => ResetStateKeeps(c, s, e);
      case ResetWritten(_, _) => ResetWrittenKeeps(c, s, e);
      case ResetDirty(_, _) => ResetDirtyKeeps(c, s, e);
      case TailLoad =>
        CountersOf(c, s);
        LoadKeeps(c, s, e, TailHead(s.tail));
      case TailHead(t) =>
        if t + c.geometry.batchSize < s.head {
          TailDirtyKeeps(c, s, e, TailDirty(t));
        } else {
          LoadKeeps(c, s, e, LoadExecutorHead);
        }
      case TailDirty(t) =>
        BatchIdFacts(c.geometry, t);
        if s.trackers[BatchId(c.geometry, t)].dirty == 2 {
          TailDirtyKeeps(c, s, e, TailDirtyCas(t));
        } else {
          LoadKeeps(c, s, e, LoadExecutorHead);
        }
      case TailDirtyCas(t) =>
        BatchIdFacts(c.geometry, t);
        if s.trackers[BatchId(c.geometry, t)].dirty == 2 && !weakFail {
          DirtyCasKeeps(c, s, e, BatchId(c.geometry, t));
        } else {
          LoadKeeps(c, s, e, LoadExecutorHead);
        }
      case TailCas(t) =>
        BatchIdFacts(c.geometry, t);
        if s.tail == t && !weakFail {
          AdvanceKeeps(c, s, e);
        } else {
          LoadKeeps(c, s, e, LoadExecutorHead);
        }
    }
  }
}
