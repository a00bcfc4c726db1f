/**
 The inductive invariant of the ring protocol. Each predicate takes only the parts
 of the state that it reads, so that a step leaves most of them as they were.
*/
module RingInvariant {
  import opened InferTypes
  import opened Multiples
  import opened RingGeometry
  import opened RingModel

  ghost predicate Sized(g: Geometry, trackers: seq<Tracker>, buffers: seq<seq<Row>>) {
    && |trackers| == |buffers| == g.capacity
    && forall b {:trigger buffers[b]} | 0 <= b < |buffers| :: |buffers[b]| == g.batchSize
  }

  ghost predicate Counters(c: Config, head: nat, executorHead: nat, tail: nat) {
    && Multiple(c.geometry.batchSize, tail)
    && Multiple(c.geometry.batchSize, executorHead)
    && tail <= head <= tail + c.geometry.ring
    && tail <= executorHead <= tail + c.geometry.ring
    && c.start <= executorHead
    && c.start <= head
  }

  // ----- slots -----

  ghost function PublishedIn(g: Geometry, published: set<nat>, lap: nat): (r: set<nat>) {
    set a | a in published && lap <= a < lap + g.batchSize
  }

  /** The slots that producers reserved in one lap. */
  ghost function ReservedIn(g: Geometry, owner: map<nat, Slot>, lap: nat): (r: set<nat>) {
    set a | a in owner.Keys && lap <= a < lap + g.batchSize
  }

  ghost predicate OwnerOk(c: Config, a: nat, slot: Slot, producers: seq<Producer>) {
    && slot.producer < |producers|
    && var me := producers[slot.producer];
       && Granted(me.pc)
       && slot.index < |me.rows|
       && a == me.first + slot.index
       && slot.row == me.rows[slot.index]
  }

  ghost predicate ProgressOk(a: nat, slot: Slot, producers: seq<Producer>, published: set<nat>) {
    slot.producer < |producers| ==> (a in published <==> slot.index < Written(producers[slot.producer]))
  }

  ghost predicate Owners(c: Config, owner: map<nat, Slot>, producers: seq<Producer>) {
    forall a | a in owner :: OwnerOk(c, a, owner[a], producers)
  }

  ghost predicate Progress(owner: map<nat, Slot>, producers: seq<Producer>, published: set<nat>) {
    && (forall a | a in owner :: ProgressOk(a, owner[a], producers, published))
    && (forall a | a in published :: a in owner)
  }

  ghost predicate Bounds(c: Config, owner: map<nat, Slot>, published: set<nat>, head: nat, tail: nat) {
    forall a | a in owner :: c.start <= a < head && (a < tail ==> a in published)
  }

  // ----- laps, one per tracker -----

  ghost predicate LapWindow(g: Geometry, b: nat, tr: Tracker, executorHead: nat, tail: nat) {
    && tail <= tr.lap < tail + g.ring
    && Multiple(g.batchSize, tr.lap)
    && LapOf(g, b, tr.gen) == (if tr.stage < STATE_RESET then tr.lap else tr.lap + g.ring)
    && tr.stage <= DONE
    && (tr.stage == UNCLAIMED <==> tr.lap >= executorHead)
  }

  /** The reserved slots of a lap are a prefix of it, up to head or to where it was sealed. */
  ghost predicate LapSlots(c: Config, tr: Tracker, owner: map<nat, Slot>, head: nat) {
    && (tr.stage >= SEALED ==> tr.lap <= tr.top <= tr.lap + c.geometry.batchSize <= head)
    && (forall a | tr.lap <= a < tr.lap + c.geometry.batchSize ::
          a in owner <==> a < (if tr.stage < SEALED then head else tr.top))
  }

  /** Once the executor has stopped spinning, every reserved slot of the lap is published. */
  ghost predicate LapFull(g: Geometry, tr: Tracker, owner: map<nat, Slot>, published: set<nat>) {
    tr.stage >= FULL ==>
      forall a | tr.lap <= a < tr.lap + g.batchSize && a in owner :: a in published
  }

  ghost predicate LapWritten(g: Geometry, tr: Tracker, published: set<nat>) {
    tr.writtenSlots == if tr.stage < WRITTEN_RESET then |PublishedIn(g, published, tr.lap)| else 0
  }

  ghost predicate PassedDeadline(p: Producer, i: nat) {
    || i < Written(p)
    || ((p.pc.SetQueueStart? || p.pc.Capture? || p.pc.Publish?) && p.pc.piece.pos == i)
  }

  ghost predicate PassedQueueStart(p: Producer, i: nat) {
    || i < Written(p)
    || ((p.pc.Capture? || p.pc.Publish?) && p.pc.piece.pos == i)
  }

  ghost predicate OwnerPassedDeadline(owner: map<nat, Slot>, producers: seq<Producer>, a: nat) {
    && a in owner
    && owner[a].producer < |producers|
    && PassedDeadline(producers[owner[a].producer], owner[a].index)
  }

  ghost predicate OwnerPassedQueueStart(owner: map<nat, Slot>, producers: seq<Producer>, a: nat) {
    && a in owner
    && owner[a].producer < |producers|
    && PassedQueueStart(producers[owner[a].producer], owner[a].index)
  }

  /** deadline and queue_start are set only by the producer of the lap's slot 0. */
  ghost predicate LapTimers(tr: Tracker, owner: map<nat, Slot>, producers: seq<Producer>) {
    && (tr.deadline ==> tr.stage < STATE_RESET && OwnerPassedDeadline(owner, producers, tr.lap))
    && (tr.queueStart ==> tr.stage < STATE_RESET && OwnerPassedQueueStart(owner, producers, tr.lap))
  }

  /** Which of the executor's OnceCells in the current BatchState are set. */
  ghost predicate LapCells(b: nat, tr: Tracker, outputs: map<Cell, BatchResult>) {
    && (tr.execStart <==> STARTED <= tr.stage < STATE_RESET)
    && (tr.execEnd <==> ENDED <= tr.stage < STATE_RESET)
    && (Cell(b, tr.gen) in outputs <==> tr.stage == FILLED)
    && (tr.dirty == 2 ==> tr.stage == DONE)
  }

  /** A published slot holds its owner's row until tail passes the lap. */
  ghost predicate LapRows(g: Geometry, tr: Tracker, buffer: seq<Row>, owner: map<nat, Slot>, published: set<nat>) {
    forall a | tr.lap <= a < tr.lap + g.batchSize && a in published ::
      a in owner && a - tr.lap < |buffer| && buffer[a - tr.lap] == owner[a].row
  }

  ghost predicate LapLedger(c: Config, tr: Tracker, claims: multiset<nat>, runs: multiset<nat>, resets: multiset<nat>) {
    tr.lap >= c.start ==>
      && claims[tr.lap] == (if tr.stage >= CLAIMED then 1 else 0)
      && runs[tr.lap] == (if tr.stage >= ENDED then 1 else 0)
      && resets[tr.lap] == (if tr.stage >= STATE_RESET then 1 else 0)
  }

  ghost predicate Windows(g: Geometry, trackers: seq<Tracker>, executorHead: nat, tail: nat) {
    forall b {:trigger trackers[b]} | 0 <= b < |trackers| :: LapWindow(g, b, trackers[b], executorHead, tail)
  }

  ghost predicate Slots(c: Config, trackers: seq<Tracker>, owner: map<nat, Slot>, head: nat) {
    forall b {:trigger trackers[b]} | 0 <= b < |trackers| :: LapSlots(c, trackers[b], owner, head)
  }

  ghost predicate Fulls(g: Geometry, trackers: seq<Tracker>, owner: map<nat, Slot>, published: set<nat>) {
    forall b {:trigger trackers[b]} | 0 <= b < |trackers| :: LapFull(g, trackers[b], owner, published)
  }

  ghost predicate Writtens(g: Geometry, trackers: seq<Tracker>, published: set<nat>) {
    forall b {:trigger trackers[b]} | 0 <= b < |trackers| :: LapWritten(g, trackers[b], published)
  }

  ghost predicate Timers(trackers: seq<Tracker>, owner: map<nat, Slot>, producers: seq<Producer>) {
    forall b {:trigger trackers[b]} | 0 <= b < |trackers| :: LapTimers(trackers[b], owner, producers)
  }

  ghost predicate Cells(trackers: seq<Tracker>, outputs: map<Cell, BatchResult>) {
    forall b {:trigger trackers[b]} | 0 <= b < |trackers| :: LapCells(b, trackers[b], outputs)
  }

  ghost predicate BufferRows(g: Geometry, trackers: seq<Tracker>, buffers: seq<seq<Row>>,
                             owner: map<nat, Slot>, published: set<nat>) {
    && |trackers| == |buffers|
    && forall b {:trigger trackers[b]} {:trigger buffers[b]} | 0 <= b < |trackers| ::
         LapRows(g, trackers[b], buffers[b], owner, published)
  }

  ghost predicate LapLedgers(c: Config, trackers: seq<Tracker>, claims: multiset<nat>, runs: multiset<nat>,
                             resets: multiset<nat>) {
    forall b {:trigger trackers[b]} | 0 <= b < |trackers| :: LapLedger(c, trackers[b], claims, runs, resets)
  }

  /** Every lap behind tail was claimed, run and reset exactly once; none ahead of the window yet. */
  ghost predicate PastLedger(c: Config, tail: nat, claims: multiset<nat>, runs: multiset<nat>, resets: multiset<nat>) {
    && (forall u | c.start <= u < tail && Multiple(c.geometry.batchSize, u) ::
          claims[u] == 1 && runs[u] == 1 && resets[u] == 1)
    && (forall u | u >= tail + c.geometry.ring :: claims[u] == 0 && runs[u] == 0 && resets[u] == 0)
  }

  // ----- results -----

  /** A filled output cell answers every reserved slot of its lap with the model's row. */
  ghost predicate OutputOk(c: Config, cell: Cell, result: BatchResult, owner: map<nat, Slot>, head: nat) {
    var lap := LapOf(c.geometry, cell.batch, cell.gen);
    && cell.batch < c.geometry.capacity
    && 0 <= lap && lap + c.geometry.batchSize <= head
    && (result.Ok? ==>
          && |result.value| == c.outputs
          && forall o | 0 <= o < c.outputs ::
               && |result.value[o]| == c.geometry.batchSize
               && forall a | lap <= a < lap + c.geometry.batchSize && a in owner ::
                    o < |c.model(owner[a].row)| && result.value[o][a - lap] == c.model(owner[a].row)[o])
  }

  ghost predicate Results(c: Config, outputs: map<Cell, BatchResult>, owner: map<nat, Slot>, head: nat) {
    forall cell | cell in outputs :: OutputOk(c, cell, outputs[cell], owner, head)
  }

  ghost predicate Permits(g: Geometry, permits: set<Cell>) {
    forall cell | cell in permits :: cell.batch < g.capacity
  }

  ghost predicate ItemsOk(g: Geometry, u: nat, n: nat, owner: map<nat, Slot>, head: nat) {
    u + g.batchSize <= head && n == |ReservedIn(g, owner, u)|
  }

  ghost predicate Items(g: Geometry, items: map<nat, nat>, owner: map<nat, Slot>, head: nat) {
    forall u | u in items :: ItemsOk(g, u, items[u], owner, head)
  }

  // ----- producers -----

  ghost predicate PieceShape(c: Config, me: Producer, piece: Piece) {
    && piece.len > 0
    && piece.pos + piece.len <= |me.rows|
    && Multiple(c.geometry.batchSize, piece.base)
    && piece.base <= me.first + piece.pos
    && me.first + piece.pos + piece.len <= piece.base + c.geometry.batchSize
    && piece.batch < c.geometry.capacity
    && (piece.pos + piece.len == |me.rows| || me.first + piece.pos + piece.len == piece.base + c.geometry.batchSize)
    && (piece.pos > 0 ==> me.first + piece.pos == piece.base)
  }

  /** The first `done` rows of the piece are in the buffer. */
  ghost predicate Copied(me: Producer, piece: Piece, done: nat, buffer: seq<Row>) {
    && done <= piece.len && piece.pos + piece.len <= |me.rows|
    && 0 <= me.first + piece.pos - piece.base
    && me.first + piece.pos + piece.len - piece.base <= |buffer|
    && forall i | piece.pos <= i < piece.pos + done :: buffer[me.first + i - piece.base] == me.rows[i]
  }

  ghost function DoneRows(pc: ProducerPc): nat
    requires Writing(pc)
  {
    if pc.Copy? then pc.done else pc.piece.len
  }

  /** A piece being written belongs to the lap that its tracker serves now. */
  ghost predicate PieceHere(me: Producer, tr: Tracker) {
    && Writing(me.pc)
    && tr.lap == me.pc.piece.base
    && (me.pc.MarkDirty? || me.pc.SetDeadline? || me.pc.SetQueueStart? ==>
          me.first + me.pc.piece.pos == me.pc.piece.base)
    && (me.pc.Publish? ==> me.pc.cell == Cell(me.pc.piece.batch, tr.gen))
  }

  function CoveredBy(response: seq<Reservation>): (n: int) {
    if response == [] then 0
    else response[|response| - 1].pos + response[|response| - 1].end - response[|response| - 1].first
  }

  /** Where in the request the j-th reservation begins. */
  function PosAt(response: seq<Reservation>, j: nat): (n: int) {
    if j < |response| then response[j].pos else CoveredBy(response)
  }

  ghost predicate ReservationOk(c: Config, me: Producer, r: Reservation) {
    && r.cell.batch < c.geometry.capacity
    && LapOf(c.geometry, r.cell.batch, r.cell.gen) == r.base
    && r.first < r.end <= c.geometry.batchSize
    && r.base + r.first == me.first + r.pos
    && r.pos + (r.end - r.first) <= |me.rows|
  }

  ghost predicate ResponseOk(c: Config, me: Producer) {
    && (forall j | 0 <= j < |me.response| :: ReservationOk(c, me, me.response[j]))
    && (|me.response| > 0 ==> me.response[0].pos == 0)
    && (forall j, k | 0 <= j && k == j + 1 && k < |me.response| ::
          me.response[k].pos == me.response[j].pos + (me.response[j].end - me.response[j].first))
    && CoveredBy(me.response) == Written(me)
  }

  /** What depends on the producer alone. */
  ghost predicate ProducerShape(c: Config, me: Producer) {
    && |me.rows| >= 1
    && ResponseOk(c, me)
    && (Writing(me.pc) || me.pc.Notify? ==> PieceShape(c, me, me.pc.piece))
  }

  /** Per output: the model's element of each of the first n rows, in order. */
  ghost predicate DataOk(c: Config, rows: seq<Row>, n: int, data: seq<seq<Element>>) {
    && 0 <= n <= |rows|
    && |data| == c.outputs
    && forall o | 0 <= o < c.outputs ::
         && |data[o]| == n
         && forall i | 0 <= i < n :: o < |c.model(rows[i])| && data[o][i] == c.model(rows[i])[o]
  }

  ghost predicate AllAnswered(response: seq<Reservation>, outputs: map<Cell, BatchResult>, n: nat) {
    && n <= |response|
    && forall j | 0 <= j < n :: response[j].cell in outputs && outputs[response[j].cell].Ok?
  }

  /** The error is that of the first failing batch, in request order. */
  ghost predicate FirstError(response: seq<Reservation>, outputs: map<Cell, BatchResult>, error: InferError) {
    exists j | 0 <= j < |response| ::
      && response[j].cell in outputs
      && outputs[response[j].cell] == Err(error)
      && AllAnswered(response, outputs, j)
  }

  ghost predicate CollectOk(c: Config, me: Producer, outputs: map<Cell, BatchResult>) {
    && (me.pc.Collect? ==>
          && AllAnswered(me.response, outputs, me.pc.next)
          && if me.pc.next == 0 then me.pc.data == []
             else DataOk(c, me.rows, PosAt(me.response, me.pc.next), me.pc.data))
    && (me.pc.Answered? && me.pc.answer.Ok? ==>
          && AllAnswered(me.response, outputs, |me.response|)
          && DataOk(c, me.rows, |me.rows|, me.pc.answer.value))
    && (me.pc.Answered? && me.pc.answer.Err? ==> FirstError(me.response, outputs, me.pc.answer.error))
  }

  ghost predicate OwnsItsRows(p: nat, me: Producer, owner: map<nat, Slot>) {
    Granted(me.pc) ==>
      forall a | me.first <= a < me.first + |me.rows| ::
        a in owner && owner[a].producer == p && owner[a].index == a - me.first
  }

  ghost predicate Shapes(c: Config, producers: seq<Producer>) {
    forall p {:trigger producers[p]} | 0 <= p < |producers| :: ProducerShape(c, producers[p])
  }

  ghost predicate Admitted(producers: seq<Producer>, limit: nat) {
    forall p {:trigger producers[p]} | 0 <= p < |producers| :: producers[p].pc.Reserve? ==> producers[p].pc.h < limit
  }

  ghost predicate Owning(producers: seq<Producer>, owner: map<nat, Slot>) {
    forall p {:trigger producers[p]} | 0 <= p < |producers| :: OwnsItsRows(p, producers[p], owner)
  }

  ghost predicate Pieces(producers: seq<Producer>, trackers: seq<Tracker>) {
    forall p {:trigger producers[p]} | 0 <= p < |producers| && Writing(producers[p].pc) ::
      producers[p].pc.piece.batch < |trackers| && PieceHere(producers[p], trackers[producers[p].pc.piece.batch])
  }

  ghost predicate Copies(producers: seq<Producer>, buffers: seq<seq<Row>>) {
    forall p {:trigger producers[p]} | 0 <= p < |producers| && Writing(producers[p].pc) ::
      && producers[p].pc.piece.batch < |buffers|
      && Copied(producers[p], producers[p].pc.piece, DoneRows(producers[p].pc), buffers[producers[p].pc.piece.batch])
  }

  ghost predicate Collects(c: Config, producers: seq<Producer>, outputs: map<Cell, BatchResult>) {
    forall p {:trigger producers[p]} | 0 <= p < |producers| :: CollectOk(c, producers[p], outputs)
  }

  // ----- executors -----

  ghost predicate HoldingOk(c: Config, e: nat, pc: ExecutorPc, tr: Tracker)
    requires Holding(pc)
  {
    && tr.lap == pc.lap
    && pc.lap >= c.start
    && tr.stage == StageOf(pc)
    && tr.claimant == e
    && (pc.AwaitNotify? ==> pc.notifier == Cell(pc.batch, tr.gen))
    && (pc.Spin? ==> pc.remaining == pc.lap + c.geometry.batchSize - tr.top)
  }

  ghost predicate ReadOk(c: Config, pc: ExecutorPc, buffer: seq<Row>) {
    && (pc.ReadRows? ==> pc.seen <= buffer)
    && (pc.SetExecEnd? || pc.SetOutput? ==> RunOk(c, buffer, pc.result))
  }

  ghost predicate SealOk(g: Geometry, pc: ExecutorPc, head: nat) {
    pc.SealCas? ==> pc.remaining > 0 && pc.lap <= pc.h && pc.h + pc.remaining == pc.lap + g.batchSize && pc.h <= head
  }

  ghost predicate TailOk(g: Geometry, pc: ExecutorPc, head: nat, tail: nat) {
    && (pc.Claim? ==> pc.e < tail + g.ring)
    && (pc.TailHead? ==> pc.t <= tail && Multiple(g.batchSize, pc.t))
    && (pc.TailDirty? || pc.TailDirtyCas? || pc.TailCas? ==> pc.t <= tail && pc.t + g.batchSize < head)
  }

  /** tail is moved only over a lap that is done and whose dirty mark was taken. */
  ghost predicate PassOk(pc: ExecutorPc, tail: nat, trackers: seq<Tracker>) {
    pc.TailCas? && pc.t == tail ==>
      forall b {:trigger trackers[b]} | 0 <= b < |trackers| && trackers[b].lap == pc.t ::
        trackers[b].stage == DONE && trackers[b].dirty != 2
  }

  ghost predicate Holders(c: Config, executors: seq<ExecutorPc>, trackers: seq<Tracker>) {
    forall e {:trigger executors[e]} | 0 <= e < |executors| && Holding(executors[e]) ::
      executors[e].batch < |trackers| && HoldingOk(c, e, executors[e], trackers[executors[e].batch])
  }

  ghost predicate Readers(c: Config, executors: seq<ExecutorPc>, buffers: seq<seq<Row>>) {
    forall e {:trigger executors[e]} | 0 <= e < |executors| && Holding(executors[e]) ::
      executors[e].batch < |buffers| && ReadOk(c, executors[e], buffers[executors[e].batch])
  }

  ghost predicate Sealers(g: Geometry, executors: seq<ExecutorPc>, head: nat) {
    forall e {:trigger executors[e]} | 0 <= e < |executors| :: SealOk(g, executors[e], head)
  }

  ghost predicate Tails(g: Geometry, executors: seq<ExecutorPc>, head: nat, tail: nat) {
    forall e {:trigger executors[e]} | 0 <= e < |executors| :: TailOk(g, executors[e], head, tail)
  }

  ghost predicate Passes(executors: seq<ExecutorPc>, tail: nat, trackers: seq<Tracker>) {
    forall e {:trigger executors[e]} | 0 <= e < |executors| :: PassOk(executors[e], tail, trackers)
  }

  // ----- all together -----

  ghost predicate SlotsInv(c: Config, s: State) {
    && Owners(c, s.owner, s.producers)
    && Progress(s.owner, s.producers, s.published)
    && Bounds(c, s.owner, s.published, s.head, s.tail)
  }

  ghost predicate LapsInv(c: Config, s: State) {
    && Sized(c.geometry, s.trackers, s.buffers)
    && Windows(c.geometry, s.trackers, s.executorHead, s.tail)
    && Slots(c, s.trackers, s.owner, s.head)
    && Fulls(c.geometry, s.trackers, s.owner, s.published)
    && Writtens(c.geometry, s.trackers, s.published)
    && Timers(s.trackers, s.owner, s.producers)
    && Cells(s.trackers, s.outputs)
    && BufferRows(c.geometry, s.trackers, s.buffers, s.owner, s.published)
  }

  ghost predicate LedgerInv(c: Config, s: State) {
    && LapLedgers(c, s.trackers, s.claims, s.runs, s.resets)
    && PastLedger(c, s.tail, s.claims, s.runs, s.resets)
  }

  ghost predicate ResultsInv(c: Config, s: State) {
    && Results(c, s.outputs, s.owner, s.head)
    && Permits(c.geometry, s.permits)
    && Items(c.geometry, s.items, s.owner, s.head)
  }

  ghost predicate ProducersInv(c: Config, s: State) {
    && Shapes(c, s.producers)
    && Admitted(s.producers, s.tail + c.geometry.ring)
    && Owning(s.producers, s.owner)
    && Pieces(s.producers, s.trackers)
    && Copies(s.producers, s.buffers)
    && Collects(c, s.producers, s.outputs)
  }

  ghost predicate ExecutorsInv(c: Config, s: State) {
    && Holders(c, s.executors, s.trackers)
    && Readers(c, s.executors, s.buffers)
    && Sealers(c.geometry, s.executors, s.head)
    && Tails(c.geometry, s.executors, s.head, s.tail)
    && Passes(s.executors, s.tail, s.trackers)
  }

  ghost predicate Inv(c: Config, s: State) {
    && c.Valid()
    && !s.panicked
    && Counters(c, s.head, s.executorHead, s.tail)
    && SlotsInv(c, s)
    && LapsInv(c, s)
    && LedgerInv(c, s)
    && ResultsInv(c, s)
    && ProducersInv(c, s)
    && ExecutorsInv(c, s)
  }

  /** The invariant, taken apart. */
  lemma Parts(c: Config, s: State)
    requires Inv(c, s)
    ensures c.Valid() && c.geometry.Valid() && c.geometry.batchSize >= 1
    ensures !s.panicked
    ensures Counters(c, s.head, s.executorHead, s.tail)
    ensures Owners(c, s.owner, s.producers)
    ensures Progress(s.owner, s.producers, s.published)
    ensures Bounds(c, s.owner, s.published, s.head, s.tail)
    ensures Sized(c.geometry, s.trackers, s.buffers)
    ensures Windows(c.geometry, s.trackers, s.executorHead, s.tail)
    ensures Slots(c, s.trackers, s.owner, s.head)
    ensures Fulls(c.geometry, s.trackers, s.owner, s.published)
    ensures Writtens(c.geometry, s.trackers, s.published)
    ensures Timers(s.trackers, s.owner, s.producers)
    ensures Cells(s.trackers, s.outputs)
    ensures BufferRows(c.geometry, s.trackers, s.buffers, s.owner, s.published)
    ensures LapLedgers(c, s.trackers, s.claims, s.runs, s.resets)
    ensures PastLedger(c, s.tail, s.claims, s.runs, s.resets)
    ensures Results(c, s.outputs, s.owner, s.head)
    ensures Permits(c.geometry, s.permits)
    ensures Items(c.geometry, s.items, s.owner, s.head)
    ensures Shapes(c, s.producers)
    ensures Admitted(s.producers, s.tail + c.geometry.ring)
    ensures Owning(s.producers, s.owner)
    ensures Pieces(s.producers, s.trackers)
    ensures Copies(s.producers, s.buffers)
    ensures Collects(c, s.producers, s.outputs)
    ensures Holders(c, s.executors, s.trackers)
    ensures Readers(c, s.executors, s.buffers)
    ensures Sealers(c.geometry, s.executors, s.head)
    ensures Tails(c.geometry, s.executors, s.head, s.tail)
    ensures Passes(s.executors, s.tail, s.trackers)
  {
  }

  /** The invariant, put together. */
  lemma Whole(c: Config, s: State)
    requires c.Valid()
    requires !s.panicked
    requires Counters(c, s.head, s.executorHead, s.tail)
    requires Owners(c, s.owner, s.producers)
    requires Progress(s.owner, s.producers, s.published)
    requires Bounds(c, s.owner, s.published, s.head, s.tail)
    requires Sized(c.geometry, s.trackers, s.buffers)
    requires Windows(c.geometry, s.trackers, s.executorHead, s.tail)
    requires Slots(c, s.trackers, s.owner, s.head)
    requires Fulls(c.geometry, s.trackers, s.owner, s.published)
    requires Writtens(c.geometry, s.trackers, s.published)
    requires Timers(s.trackers, s.owner, s.producers)
    requires Cells(s.trackers, s.outputs)
    requires BufferRows(c.geometry, s.trackers, s.buffers, s.owner, s.published)
    requires LapLedgers(c, s.trackers, s.claims, s.runs, s.resets)
    requires PastLedger(c, s.tail, s.claims, s.runs, s.resets)
    requires Results(c, s.outputs, s.owner, s.head)
    requires Permits(c.geometry, s.permits)
    requires Items(c.geometry, s.items, s.owner, s.head)
    requires Shapes(c, s.producers)
    requires Admitted(s.producers, s.tail + c.geometry.ring)
    requires Owning(s.producers, s.owner)
    requires Pieces(s.producers, s.trackers)
    requires Copies(s.producers, s.buffers)
    requires Collects(c, s.producers, s.outputs)
    requires Holders(c, s.executors, s.trackers)
    requires Readers(c, s.executors, s.buffers)
    requires Sealers(c.geometry, s.executors, s.head)
    requires Tails(c.geometry, s.executors, s.head, s.tail)
    requires Passes(s.executors, s.tail, s.trackers)
    ensures Inv(c, s)
  {
  }

  // ----- where an index lies -----

  lemma LapIsOfTracker(g: Geometry, b: nat, gen: nat, lap: nat)
    requires g.Valid() && b < g.capacity
    requires LapOf(g, b, gen) == lap || LapOf(g, b, gen) == lap + g.ring
    ensures BatchId(g, lap) == b
  {
    if LapOf(g, b, gen) == lap {
      LapBelongsToTracker(g, b, gen, 0);
    } else if gen == 0 {
      LapOfExact(g, b, 0);
      BatchOffsetBound(g, b, 0);
    } else {
      LapBelongsToTracker(g, b, gen - 1, 0);
    }
  }

  /** Different trackers serve different laps, which do not overlap. */
  lemma LapsDisjoint(g: Geometry, trackers: seq<Tracker>, executorHead: nat, tail: nat, b: nat, b': nat)
    requires g.Valid() && |trackers| == g.capacity && Windows(g, trackers, executorHead, tail)
    requires b < |trackers| && b' < |trackers| && b != b'
    ensures trackers[b].lap + g.batchSize <= trackers[b'].lap || trackers[b'].lap + g.batchSize <= trackers[b].lap
  {
    LapIsOfTracker(g, b, trackers[b].gen, trackers[b].lap);
    LapIsOfTracker(g, b', trackers[b'].gen, trackers[b'].lap);
    if trackers[b].lap < trackers[b'].lap {
      Gap(g.batchSize, trackers[b].lap, trackers[b'].lap);
    } else if trackers[b'].lap < trackers[b].lap {
      Gap(g.batchSize, trackers[b'].lap, trackers[b].lap);
    }
  }

  lemma BatchOfWindow(g: Geometry, trackers: seq<Tracker>, executorHead: nat, tail: nat, a: nat)
    requires g.Valid() && |trackers| == g.capacity && Windows(g, trackers, executorHead, tail)
    requires Multiple(g.batchSize, tail) && tail <= a < tail + g.ring
    ensures BatchId(g, a) < |trackers| && trackers[BatchId(g, a)].lap == LowerBound(g, a)
  {
    BatchIdFacts(g, a);
    LowerBoundFacts(g, a);
    if LowerBound(g, a) < tail {
      Gap(g.batchSize, LowerBound(g, a), tail);
    }
    var b := BatchId(g, a);
    WindowLap(g, tail, b, trackers[b].gen, trackers[b].lap, a);
  }

  /** A reserved slot that is not published yet lies in the lap its tracker serves now. */
  lemma UnpublishedIsInWindow(c: Config, s: State, a: nat)
    requires Inv(c, s) && a in s.owner && a !in s.published
    ensures s.tail <= a < s.head
    ensures BatchId(c.geometry, a) < |s.trackers| && s.trackers[BatchId(c.geometry, a)].lap == LowerBound(c.geometry, a)
  {
    hide *;
    Parts(c, s);
    UnpublishedBounds(c, s.owner, s.published, s.head, s.executorHead, s.tail, a);
    SizedParts(c.geometry, s.trackers, s.buffers);
    BatchOfWindow(c.geometry, s.trackers, s.executorHead, s.tail, a);
  }

  lemma UnpublishedBounds(c: Config, owner: map<nat, Slot>, published: set<nat>,
                          head: nat, executorHead: nat, tail: nat, a: nat)
    requires Bounds(c, owner, published, head, tail) && Counters(c, head, executorHead, tail)
    requires a in owner && a !in published
    ensures tail <= a < head && a < tail + c.geometry.ring && Multiple(c.geometry.batchSize, tail)
  {
  }

  lemma SizedParts(g: Geometry, trackers: seq<Tracker>, buffers: seq<seq<Row>>)
    requires Sized(g, trackers, buffers)
    ensures |trackers| == |buffers| == g.capacity
  {
  }
}
