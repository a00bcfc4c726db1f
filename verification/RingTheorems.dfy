/** What holds in every state of every run of the protocol. */
module RingTheorems {
  import opened InferTypes
  import opened Multiples
  import opened Ranges
  import opened RingGeometry
  import opened RingModel
  import opened RingSteps
  import opened RingEffects
  import opened RingInvariant
  import opened RingProducerProofs
  import opened RingExecutorProofs
  import opened RingRuns

  // ----- what can panic -----

  /**
   From any state that a run reaches, a step panics exactly when it is the seal of a lap
   that head has not reached. Every other assertion, expect and panic is unreachable.
  */
  lemma SealPanicsExactly(c: Config, run: seq<State>, i: nat, a: Action)
    requires Run(c, run) && i < |run| && Enabled(c, run[i], a) && GrantFits(c, run[i], a)
    ensures Apply(c, run[i], a).panicked <==> SealsTooEarly(run[i], a)
  {
    hide Inv, Run, Apply, GrantFits, SealsTooEarly;
    RunKeeps(c, run, i);
    PanicsExactly(c, run[i], a);
  }

  /** A run panics only in its last step, and only there; all else is as before that step. */
  lemma PanicEndsRun(c: Config, run: seq<State>, i: nat)
    requires Run(c, run) && i < |run| && run[i].panicked
    ensures i == |run| - 1 > 0 && run[i] == Panic(run[i - 1])
    ensures var s := run[i - 1];
            exists e | 0 <= e < |s.executors| :: s.executors[e].SealLoad? && s.head < s.executors[e].lap
  {
    hide Inv, Run, SafeNext, Apply, GrantFits, Panic;
    if i + 1 < |run| {
      PanicIsLast(c, run, i);
    }
    RunBeginsCalm(c, run);
    if i > 0 {
      RunKeeps(c, run, i - 1);
      RunStep(c, run, i);
      PanickingStep(c, run[i - 1], run[i]);
    }
  }

  lemma RunBeginsCalm(c: Config, run: seq<State>)
    requires Run(c, run)
    ensures !run[0].panicked
  {
    hide Inv;
    RunStart(c, run);
    InitInv(c, run[0]);
    NotPanicked(c, run[0]);
  }

  lemma PanickingStep(c: Config, s: State, s': State)
    requires Inv(c, s) && SafeNext(c, s, s') && s'.panicked
    ensures s' == Panic(s)
    ensures exists e | 0 <= e < |s.executors| :: s.executors[e].SealLoad? && s.head < s.executors[e].lap
  {
    hide Inv, Enabled, Apply, GrantFits, Panic;
    var a :| Enabled(c, s, a) && GrantFits(c, s, a) && s' == Apply(c, s, a);
    PanicsExactly(c, s, a);
  }

  // ----- which threads can step -----

  lemma ProducerStops(c: Config, s: State, p: nat)
    requires Inv(c, s) && p < |s.producers|
    ensures ProducerEnabled(c, s, p) <==>
              var me := s.producers[p];
              && !me.pc.Answered? && !me.pc.Rejected?
              && (me.pc.Collect? && me.pc.next < |me.response| ==> me.response[me.pc.next].cell in s.outputs)
  {
    hide Inv, CollectOk, ResponseOk, OwnsItsRows, PieceHere;
    ConfigOf(c, s);
    OwnParts(c, s, p);
    NotifyingBatch(c, s, p);
  }

  lemma NotifyingBatch(c: Config, s: State, p: nat)
    requires Inv(c, s) && p < |s.producers|
    ensures s.producers[p].pc.Notify? ==> s.producers[p].pc.piece.batch < |s.trackers|
  {
    if s.producers[p].pc.Notify? {
      NotifierInRange(c, s, p);
      SizesOf(c, s);
    }
  }

  /**
   A request always has a next step, whose masked indices and slice bounds are in range,
   until it is answered or rejected, except while it waits for an output.
  */
  lemma ProducerStopsExactly(c: Config, run: seq<State>, i: nat, p: nat, weakFail: bool)
    requires Run(c, run) && i < |run| && p < |run[i].producers| && !run[i].panicked
    ensures Enabled(c, run[i], Produce(p, weakFail)) <==>
              var me := run[i].producers[p];
              && !me.pc.Answered? && !me.pc.Rejected?
              && (me.pc.Collect? && me.pc.next < |me.response| ==> me.response[me.pc.next].cell in run[i].outputs)
  {
    hide Inv, Run, ProducerEnabled;
    RunKeeps(c, run, i);
    ProducerStops(c, run[i], p);
  }

  lemma ExecutorStops(c: Config, s: State, e: nat, result: BatchResult)
    requires Inv(c, s) && e < |s.executors|
    ensures ExecutorEnabled(c, s, e, result) <==>
              var pc := s.executors[e];
              && (pc.AwaitNotify? ==> pc.notifier in s.permits)
              && (pc.Spin? ==>
                    pc.batch < |s.trackers| && s.trackers[pc.batch].writtenSlots + pc.remaining >= c.geometry.batchSize)
              && (pc.ReadRows? && |pc.seen| == c.geometry.batchSize ==> RunOk(c, pc.seen, result))
  {
    hide Inv, RunOk, PublishedIn, ReservedIn, TailOk, SealOk, PassOk;
    HolderParts(c, s, e);
    var pc := s.executors[e];
    if pc.Spin? {
      SpinNeverOver(c, s, e);
    }
    if pc.ReadRows? {
      TrackerOf(c, s, pc.batch);
    }
  }

  /**
   An executor always has a next step, whose masked indices are in range, except while it
   waits for its permit, for reserved slots to be published, or for its session's result.
  */
  lemma ExecutorStopsExactly(c: Config, run: seq<State>, i: nat, e: nat, weakFail: bool, result: BatchResult)
    requires Run(c, run) && i < |run| && e < |run[i].executors| && !run[i].panicked
    ensures Enabled(c, run[i], Execute(e, weakFail, result)) <==>
              var pc := run[i].executors[e];
              && (pc.AwaitNotify? ==> pc.notifier in run[i].permits)
              && (pc.Spin? ==>
                    && pc.batch < |run[i].trackers|
                    && run[i].trackers[pc.batch].writtenSlots + pc.remaining >= c.geometry.batchSize)
              && (pc.ReadRows? && |pc.seen| == c.geometry.batchSize ==> RunOk(c, pc.seen, result))
  {
    hide Inv, Run, ExecutorEnabled, RunOk;
    RunKeeps(c, run, i);
    ExecutorStops(c, run[i], e, result);
  }

  // ----- the counters -----

  /** head, executor_head and tail: order, alignment and distance. */
  lemma RingBounds(c: Config, run: seq<State>, i: nat)
    requires Run(c, run) && i < |run|
    ensures var s := run[i];
            && Multiple(c.geometry.batchSize, s.tail) && Multiple(c.geometry.batchSize, s.executorHead)
            && s.tail <= s.head <= s.tail + c.geometry.ring
            && s.tail <= s.executorHead <= s.tail + c.geometry.ring
  {
    RunKeeps(c, run, i);
  }

  // ----- end to end -----

  /**
   An answered request. A success holds, per output, the model's element of each of
   the request's own rows, in request order; a failure is that of the first batch, in
   request order, whose session failed.
  */
  ghost predicate AnswerOk(c: Config, rows: seq<Row>, pc: ProducerPc, response: seq<Reservation>,
                           outputs: map<Cell, BatchResult>) {
    pc.Answered? ==>
      match pc.answer
      case Ok(data) =>
        && |data| == c.outputs
        && forall o | 0 <= o < c.outputs ::
             && |data[o]| == |rows|
             && forall i | 0 <= i < |rows| :: o < |c.model(rows[i])| && data[o][i] == c.model(rows[i])[o]
      case Err(error) => FirstError(response, outputs, error)
  }

  lemma AnswerFacts(c: Config, s: State, p: nat)
    requires Inv(c, s) && p < |s.producers|
    ensures var me := s.producers[p]; AnswerOk(c, me.rows, me.pc, me.response, s.outputs)
  {
    hide Inv;
    OwnParts(c, s, p);
  }

  ghost predicate RowsKept(s: State, s': State, q: nat) {
    q < |s.producers| ==> q < |s'.producers| && s'.producers[q].rows == s.producers[q].rows
  }

  lemma StepKeepsRows(c: Config, s: State, s': State, q: nat)
    requires SafeNext(c, s, s')
    ensures RowsKept(s, s', q)
  {
    hide ProducerStep, ExecutorStep, ProducerEnabled, ExecutorEnabled, GrantFits, TrackerEffect, PcEffect;
    var a :| Enabled(c, s, a) && GrantFits(c, s, a) && s' == Apply(c, s, a);
    match a {
      case Arrive(rows) =>
      case Produce(p, weakFail) => ProducerEffects(c, s, p, weakFail, q, 0);
      case Execute(e, weakFail, result) =>
        ExecutorEffects(c, s, e, weakFail, result, 0, 0);
    }
  }

  /** The rows a request is answered for are the rows it arrived with. */
  lemma {:induction false} RowsNeverChange(c: Config, run: seq<State>, i: nat, j: nat, p: nat)
    requires Run(c, run) && i <= j < |run| && p < |run[i].producers|
    ensures p < |run[j].producers| && run[j].producers[p].rows == run[i].producers[p].rows
    decreases j
  {
    hide SafeNext, Run;
    if i < j {
      RowsNeverChange(c, run, i, j - 1, p);
      RunStep(c, run, j);
      StepKeepsRows(c, run[j - 1], run[j], p);
    }
  }

  /**
   End to end: whatever request stands at position p in state i, if it has an answer in a
   later state j, then that is the model's answer to the rows it had in state i, in order.
  */
  lemma EndToEnd(c: Config, run: seq<State>, i: nat, j: nat, p: nat)
    requires Run(c, run) && i <= j < |run| && p < |run[i].producers|
    ensures p < |run[j].producers|
    ensures var rows := run[i].producers[p].rows; var me := run[j].producers[p];
            AnswerOk(c, rows, me.pc, me.response, run[j].outputs)
  {
    hide Inv, Run;
    RowsNeverChange(c, run, i, j, p);
    RunKeeps(c, run, j);
    AnswerFacts(c, Calm(run[j]), p);
  }

  // ----- exclusive use of the shared buffers -----

  /** While a session runs on a batch's buffers, no producer is writing to them. */
  lemma RunningExcludesWriters(c: Config, run: seq<State>, i: nat, e: nat, p: nat)
    requires Run(c, run) && i < |run| && e < |run[i].executors| && p < |run[i].producers|
    requires Running(run[i].executors[e]) && Writing(run[i].producers[p].pc)
    ensures run[i].executors[e].batch != run[i].producers[p].pc.piece.batch
  {
    hide Inv, Run;
    RunKeeps(c, run, i);
    HolderParts(c, Calm(run[i]), e);
    WriterNotFull(c, Calm(run[i]), p);
  }

  /** Two producers that are writing never share a slot of a buffer. */
  lemma WritersAreDisjoint(c: Config, run: seq<State>, i: nat, p: nat, q: nat)
    requires Run(c, run) && i < |run| && p < |run[i].producers| && q < |run[i].producers| && p != q
    requires Writing(run[i].producers[p].pc) && Writing(run[i].producers[q].pc)
    ensures var x := run[i].producers[p]; var y := run[i].producers[q];
            || x.pc.piece.batch != y.pc.piece.batch
            || SlotOf(x, x.pc.piece) + x.pc.piece.len <= SlotOf(y, y.pc.piece)
            || SlotOf(y, y.pc.piece) + y.pc.piece.len <= SlotOf(x, x.pc.piece)
  {
    hide Inv, Run;
    RunKeeps(c, run, i);
    WriterBeforeFull(c, Calm(run[i]), p);
    WriterBeforeFull(c, Calm(run[i]), q);
    var x, y := run[i].producers[p], run[i].producers[q];
    if x.pc.piece.batch == y.pc.piece.batch {
      OwnersDiffer(run[i].owner, p, x, q, y);
    }
  }

  /** Two ranges whose slots have different owners do not meet. */
  lemma OwnersDiffer(owner: map<nat, Slot>, p: nat, x: Producer, q: nat, y: Producer)
    requires p != q && Writing(x.pc) && Writing(y.pc)
    requires x.pc.piece.len > 0 && y.pc.piece.len > 0
    requires forall a | x.first + x.pc.piece.pos <= a < x.first + x.pc.piece.pos + x.pc.piece.len ::
      a in owner && owner[a].producer == p
    requires forall a | y.first + y.pc.piece.pos <= a < y.first + y.pc.piece.pos + y.pc.piece.len ::
      a in owner && owner[a].producer == q
    ensures || x.first + x.pc.piece.pos + x.pc.piece.len <= y.first + y.pc.piece.pos
            || y.first + y.pc.piece.pos + y.pc.piece.len <= x.first + x.pc.piece.pos
  {
    var a, d := x.first + x.pc.piece.pos, y.first + y.pc.piece.pos;
    assert a in owner && d in owner;
  }

  /**
   A producer writes only into the lap that its tracker serves in the window
   [tail, tail + ring): tail has passed the lap that used the same slots before.
  */
  lemma NoRewriteBeforeTail(c: Config, run: seq<State>, i: nat, p: nat)
    requires Run(c, run) && i < |run| && p < |run[i].producers| && Writing(run[i].producers[p].pc)
    ensures var s := run[i]; var piece := s.producers[p].pc.piece;
            && s.tail <= piece.base && piece.base - c.geometry.ring < s.tail
            && piece.batch < |s.trackers| && s.trackers[piece.batch].lap == piece.base
            && 0 <= SlotOf(s.producers[p], piece) && SlotOf(s.producers[p], piece) + piece.len <= c.geometry.batchSize
  {
    hide Inv, Run;
    RunKeeps(c, run, i);
    WriterBeforeFull(c, Calm(run[i]), p);
    TrackerOf(c, Calm(run[i]), run[i].producers[p].pc.piece.batch);
  }

  // ----- the captured output cell -----

  lemma ReservationFacts(c: Config, s: State, p: nat, j: nat)
    requires Inv(c, s) && p < |s.producers| && j < |s.producers[p].response|
    ensures c.geometry.Valid()
    ensures ReservationOk(c, s.producers[p], s.producers[p].response[j])
  {
    ConfigOf(c, s);
    hide Inv;
    OwnParts(c, s, p);
  }

  lemma CellOfLap(c: Config, s: State, p: nat, j: nat, b: nat)
    requires Inv(c, s) && p < |s.producers| && j < |s.producers[p].response|
    requires b < |s.trackers| == c.geometry.capacity && s.trackers[b].stage < STATE_RESET
    ensures s.producers[p].response[j].cell == Cell(b, s.trackers[b].gen)
            <==> s.producers[p].response[j].base == s.trackers[b].lap
  {
    hide Inv, LapOf;
    TrackerOf(c, s, b);
    ReservationFacts(c, s, p, j);
    var r := s.producers[p].response[j];
    if r.base == s.trackers[b].lap {
      LapDeterminesState(c.geometry, r.cell.batch, r.cell.gen, b, s.trackers[b].gen);
    }
  }

  lemma HolderTracker(c: Config, s: State, e: nat)
    requires Inv(c, s) && e < |s.executors| && Holding(s.executors[e])
    ensures s.executors[e].batch < |s.trackers| == c.geometry.capacity
    ensures s.trackers[s.executors[e].batch].lap == s.executors[e].lap
    ensures s.trackers[s.executors[e].batch].stage == StageOf(s.executors[e])
  {
    hide Inv, RunOk;
    HolderParts(c, s, e);
  }

  /** The cell a reservation captured is the one that the executor of its lap fills, and no other lap's. */
  lemma ReservationMatchesLap(c: Config, run: seq<State>, i: nat, p: nat, j: nat, e: nat)
    requires Run(c, run) && i < |run| && p < |run[i].producers| && j < |run[i].producers[p].response|
    requires e < |run[i].executors| && run[i].executors[e].SetOutput?
    ensures run[i].executors[e].batch < |run[i].trackers|
    ensures var s := run[i]; var r := s.producers[p].response[j]; var b := s.executors[e].batch;
            r.cell == Cell(b, s.trackers[b].gen) <==> r.base == s.executors[e].lap
  {
    hide Inv, Run;
    RunKeeps(c, run, i);
    HolderTracker(c, Calm(run[i]), e);
    CellOfLap(c, Calm(run[i]), p, j, run[i].executors[e].batch);
  }

  /** Reservations of one lap share one cell; reservations of different laps never do. */
  lemma SameLapSameCell(c: Config, run: seq<State>, i: nat, p: nat, j: nat, q: nat, k: nat)
    requires Run(c, run) && i < |run| && p < |run[i].producers| && j < |run[i].producers[p].response|
    requires q < |run[i].producers| && k < |run[i].producers[q].response|
    ensures var r := run[i].producers[p].response[j]; var t := run[i].producers[q].response[k];
            r.base == t.base <==> r.cell == t.cell
  {
    hide Inv, Run, LapOf;
    RunKeeps(c, run, i);
    ReservationFacts(c, Calm(run[i]), p, j);
    ReservationFacts(c, Calm(run[i]), q, k);
    var r, t := run[i].producers[p].response[j], run[i].producers[q].response[k];
    if r.base == t.base {
      LapDeterminesState(c.geometry, r.cell.batch, r.cell.gen, t.cell.batch, t.cell.gen);
    }
  }

  /** reset_batch replaces a BatchState only once every reserved slot of its lap is published. */
  lemma ResetAfterPublish(c: Config, run: seq<State>, i: nat, e: nat, a: nat)
    requires Run(c, run) && i < |run| && e < |run[i].executors| && run[i].executors[e].ResetState?
    requires a in run[i].owner
    requires run[i].executors[e].lap <= a < run[i].executors[e].lap + c.geometry.batchSize
    ensures a in run[i].published
  {
    hide Inv, Run;
    RunKeeps(c, run, i);
    HolderTracker(c, Calm(run[i]), e);
    ReservedArePublished(c, Calm(run[i]), run[i].executors[e].batch, a);
  }

  lemma ReservedArePublished(c: Config, s: State, b: nat, a: nat)
    requires Inv(c, s) && b < |s.trackers| && s.trackers[b].stage >= FULL
    requires a in s.owner && s.trackers[b].lap <= a < s.trackers[b].lap + c.geometry.batchSize
    ensures a in s.published
  {
    hide Inv, LapOf;
    TrackerOf(c, s, b);
  }

  // ----- sealing and counting -----

  /**
   While the executor spins, written_slots is at most the expected count, which is
   the number of slots that producers reserved in the lap; when the two meet, every
   reserved slot of the lap is published.
  */
  lemma SealConservation(c: Config, run: seq<State>, i: nat, e: nat)
    requires Run(c, run) && i < |run| && e < |run[i].executors| && run[i].executors[e].Spin?
    ensures run[i].executors[e].batch < |run[i].trackers|
    ensures var s := run[i]; var pc := s.executors[e]; var tr := s.trackers[pc.batch];
            && tr.writtenSlots == |PublishedIn(c.geometry, s.published, pc.lap)|
            && c.geometry.batchSize - pc.remaining == |ReservedIn(c.geometry, s.owner, pc.lap)|
            && tr.writtenSlots <= c.geometry.batchSize - pc.remaining
            && (tr.writtenSlots == c.geometry.batchSize - pc.remaining ==>
                  PublishedIn(c.geometry, s.published, pc.lap) == ReservedIn(c.geometry, s.owner, pc.lap))
  {
    hide Inv, Run, LapOf, PublishedIn, ReservedIn;
    RunKeeps(c, run, i);
    SpinNeverOver(c, Calm(run[i]), e);
    HolderParts(c, Calm(run[i]), e);
    TrackerOf(c, Calm(run[i]), run[i].executors[e].batch);
  }

  /** The batch_items recorded for a lap stays the number of slots that producers reserved in it. */
  lemma BatchItems(c: Config, run: seq<State>, i: nat, u: nat)
    requires Run(c, run) && i < |run| && u in run[i].items
    ensures run[i].items[u] == |ReservedIn(c.geometry, run[i].owner, u)|
  {
    hide Run;
    RunKeeps(c, run, i);
    ItemsOf(c, Calm(run[i]), u);
  }

  lemma ItemsOf(c: Config, s: State, u: nat)
    requires Inv(c, s) && u in s.items
    ensures s.items[u] == |ReservedIn(c.geometry, s.owner, u)|
  {
    hide *;
    Parts(c, s);
    ItemAt(c.geometry, s.items, s.owner, s.head, u);
  }

  lemma ItemAt(g: Geometry, items: map<nat, nat>, owner: map<nat, Slot>, head: nat, u: nat)
    requires Items(g, items, owner, head) && u in items
    ensures items[u] == |ReservedIn(g, owner, u)|
  {
  }

  /**
   A seal closes the lap over exactly the slots reserved before head: none if head is at the
   lap's first slot. The assertion lets that case pass, and the batch is then run empty.
  */
  lemma SealClosesReserved(c: Config, run: seq<State>, i: nat, e: nat)
    requires Run(c, run) && i < |run| && e < |run[i].executors|
    requires run[i].executors[e].SealLoad? || run[i].executors[e].SealCas?
    ensures var s := run[i]; var lap := s.executors[e].lap;
            s.head < lap + c.geometry.batchSize ==>
              |ReservedIn(c.geometry, s.owner, lap)| == if s.head < lap then 0 else s.head - lap
    ensures var s := run[i]; var lap := s.executors[e].lap;
            s.head >= lap + c.geometry.batchSize ==> |ReservedIn(c.geometry, s.owner, lap)| == c.geometry.batchSize
  {
    hide Inv, Run, LapOf, RunOk;
    RunKeeps(c, run, i);
    var s := Calm(run[i]);
    HolderParts(c, s, e);
    TrackerOf(c, s, s.executors[e].batch);
    OpenLapReserved(c, s.trackers[s.executors[e].batch], s.owner, s.head);
  }

  lemma OpenLapReserved(c: Config, tr: Tracker, owner: map<nat, Slot>, head: nat)
    requires tr.stage < SEALED && LapSlots(c, tr, owner, head)
    ensures var high := if head < tr.lap then tr.lap
                        else if head < tr.lap + c.geometry.batchSize then head else tr.lap + c.geometry.batchSize;
            |ReservedIn(c.geometry, owner, tr.lap)| == high - tr.lap
  {
    var high := if head < tr.lap then tr.lap
                else if head < tr.lap + c.geometry.batchSize then head else tr.lap + c.geometry.batchSize;
    assert ReservedIn(c.geometry, owner, tr.lap) == Range(tr.lap, high);
  }

  // ----- once per lap, and the order of tail -----

  /** Every lap behind tail was claimed, run and reset exactly once, in whatever order the executors finished. */
  lemma PassedLapsAreDone(c: Config, run: seq<State>, i: nat, u: nat)
    requires Run(c, run) && i < |run|
    requires Multiple(c.geometry.batchSize, u) && c.start <= u < run[i].tail
    ensures run[i].claims[u] == 1 && run[i].runs[u] == 1 && run[i].resets[u] == 1
  {
    hide Inv, Run;
    RunKeeps(c, run, i);
    PastOf(c, Calm(run[i]));
  }

  /** No lap is ever claimed, run or reset twice; it is run only if claimed and reset only if run. */
  lemma OncePerLap(c: Config, run: seq<State>, i: nat, u: nat)
    requires Run(c, run) && i < |run|
    requires Multiple(c.geometry.batchSize, u) && c.start <= u
    ensures run[i].resets[u] <= run[i].runs[u] <= run[i].claims[u] <= 1
  {
    hide Inv, Run, LapOf, BatchId;
    RunKeeps(c, run, i);
    var s := Calm(run[i]);
    PastOf(c, s);
    if s.tail <= u < s.tail + c.geometry.ring {
      TrackerAt(c, s, u);
      TrackerOf(c, s, BatchId(c.geometry, u));
    }
  }

  /** Two executors never hold the same lap. */
  lemma OneExecutorPerLap(c: Config, run: seq<State>, i: nat, e: nat, d: nat)
    requires Run(c, run) && i < |run| && e < |run[i].executors| && d < |run[i].executors| && e != d
    requires Holding(run[i].executors[e]) && Holding(run[i].executors[d])
    ensures run[i].executors[e].batch != run[i].executors[d].batch
    ensures run[i].executors[e].lap != run[i].executors[d].lap
  {
    hide Inv, Run, LapOf;
    RunKeeps(c, run, i);
    HolderParts(c, Calm(run[i]), e);
    HolderParts(c, Calm(run[i]), d);
    DifferentLaps(c, Calm(run[i]), run[i].executors[e].batch, run[i].executors[d].batch);
  }

  lemma TailStep(c: Config, s: State, s': State)
    requires Inv(c, s) && SafeNext(c, s, s')
    ensures s'.tail == s.tail || s'.tail == s.tail + c.geometry.batchSize
    ensures s'.tail != s.tail ==>
              exists b | 0 <= b < |s.trackers| ::
                s.trackers[b].lap == s.tail && s.trackers[b].stage == DONE
                && (s.tail >= c.start ==> s.resets[s.tail] == 1)
  {
    hide Inv, GrantFits, ProducerStep, ExecutorStep, ProducerEnabled, ExecutorEnabled, LapOf, BatchId,
         PcEffect, TrackerEffect;
    var a :| Enabled(c, s, a) && GrantFits(c, s, a) && s' == Apply(c, s, a);
    if a.Produce? {
      ProducerEffects(c, s, a.p, a.weakFail, 0, 0);
    } else if a.Execute? {
      ExecutorEffects(c, s, a.e, a.weakFail, a.result, 0, 0);
      if s'.tail != s.tail {
        AdvanceFacts(c, s, a.e);
        TrackerOf(c, s, BatchId(c.geometry, s.tail));
      }
    }
  }

  /** From one state of a run to the next, tail stays or moves over one batch, whose lap has been reset. */
  lemma TailMovesByOneResetBatch(c: Config, run: seq<State>, i: nat)
    requires Run(c, run) && i + 1 < |run|
    ensures run[i + 1].tail == run[i].tail || run[i + 1].tail == run[i].tail + c.geometry.batchSize
    ensures run[i + 1].tail != run[i].tail ==>
              exists b | 0 <= b < |run[i].trackers| ::
                run[i].trackers[b].lap == run[i].tail && run[i].trackers[b].stage == DONE
                && (run[i].tail >= c.start ==> run[i].resets[run[i].tail] == 1)
  {
    hide Inv, Run, SafeNext;
    RunKeeps(c, run, i);
    RunStep(c, run, i + 1);
    TailStep(c, run[i], run[i + 1]);
  }
}
