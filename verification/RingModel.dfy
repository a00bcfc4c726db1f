/**
 The shared state of one SuperTensor ring and the program counters of the
 threads that work on it.

 head, executorHead and tail are unbounded here; module RingIndex shows that the
 masked 64-bit reads of the program give the same answers. Fields marked
 "history" are read by no step's guard and by no real field's new value.
*/
module RingModel {
  import opened InferTypes
  import opened Multiples
  import opened RingGeometry

  /** What does not change during a run. `start` is where warmups left the ring. */
  datatype Config = Config(
    geometry: Geometry,
    start: nat,
    outputs: nat,
    model: Row -> seq<Element>)
  {
    ghost predicate Valid() {
      && geometry.Valid()
      && geometry.capacity >= 2
      && Multiple(geometry.batchSize, start)
      && forall row: Row :: |model(row)| == outputs
    }
  }

  /** Identity of one BatchState object: the gen-th one that its tracker held. */
  datatype Cell = Cell(batch: nat, gen: nat)

  // How far a lap has got (history). A lap keeps its stage until tail passes it.
  const UNCLAIMED: nat := 0
  const CLAIMED: nat := 1
  const SEALED: nat := 2
  const FULL: nat := 3
  const STARTED: nat := 4
  const ENDED: nat := 5
  const FILLED: nat := 6
  const STATE_RESET: nat := 7
  const WRITTEN_RESET: nat := 8
  const DONE: nat := 9

  datatype Tracker = Tracker(
    dirty: nat,
    writtenSlots: nat,
    // the current BatchState: which one it is, and which of its cells are set
    gen: nat,
    deadline: bool,
    queueStart: bool,
    execStart: bool,
    execEnd: bool,
    // history: the lap this tracker serves in the window [tail, tail + ring)
    lap: nat,
    stage: nat,
    top: nat,
    claimant: nat)

  /** One slice of a request that lies inside one batch. */
  datatype Piece = Piece(pos: nat, base: nat, batch: nat, len: nat)

  /** What a WriteReservation holds; base and pos are history. */
  datatype Reservation = Reservation(cell: Cell, first: nat, end: nat, base: nat, pos: nat)

  type Answer = Result<seq<seq<Element>>, InferError>

  datatype ProducerPc =
    | LoadHead
    | LoadTail(h: nat)
    | Reserve(h: nat, t: nat)
    | Copy(piece: Piece, done: nat)
    | MarkDirty(piece: Piece)
    | SetDeadline(piece: Piece)
    | SetQueueStart(piece: Piece)
    | Capture(piece: Piece)
    | Publish(piece: Piece, cell: Cell)
    | Notify(piece: Piece)
    | Collect(next: nat, data: seq<seq<Element>>)
    | Answered(answer: Answer)
    | Rejected

  /** A request being served: its rows, where its reservation begins, its response so far. */
  datatype Producer = Producer(rows: seq<Row>, first: nat, pc: ProducerPc, response: seq<Reservation>)

  datatype ExecutorPc =
    | LoadExecutorHead
    | LoadTailForClaim(e: nat)
    | Claim(e: nat)
    | BorrowNotifier(lap: nat, batch: nat)
    | AwaitNotify(lap: nat, batch: nat, notifier: Cell)
    | SealLoad(lap: nat, batch: nat)
    | SealCas(lap: nat, batch: nat, h: nat, remaining: nat)
    | Spin(lap: nat, batch: nat, remaining: nat)
    | SetExecStart(lap: nat, batch: nat)
    | LoadItems(lap: nat, batch: nat)
    | ReadRows(lap: nat, batch: nat, seen: seq<Row>)
    | SetExecEnd(lap: nat, batch: nat, result: BatchResult)
    | SetOutput(lap: nat, batch: nat, result: BatchResult)
    | ResetState(lap: nat, batch: nat)
    | ResetWritten(lap: nat, batch: nat)
    | ResetDirty(lap: nat, batch: nat)
    | TailLoad
    | TailHead(t: nat)
    | TailDirty(t: nat)
    | TailDirtyCas(t: nat)
    | TailCas(t: nat)

  /** Who reserved an absolute index, and for which row (history). */
  datatype Slot = Slot(producer: nat, index: nat, row: Row)

  datatype State = State(
    head: nat,
    executorHead: nat,
    tail: nat,
    trackers: seq<Tracker>,
    buffers: seq<seq<Row>>,
    outputs: map<Cell, BatchResult>,
    permits: set<Cell>,
    producers: seq<Producer>,
    executors: seq<ExecutorPc>,
    panicked: bool,
    // history
    owner: map<nat, Slot>,
    published: set<nat>,
    items: map<nat, nat>,
    claims: multiset<nat>,
    runs: multiset<nat>,
    resets: multiset<nat>)

  // ----- reading a producer's progress -----

  /** A reservation has been granted. */
  predicate Granted(pc: ProducerPc) {
    !pc.LoadHead? && !pc.LoadTail? && !pc.Reserve? && !pc.Rejected?
  }

  /** The producer is inside insert_tensors_at and has not published the piece yet. */
  predicate Writing(pc: ProducerPc) {
    pc.Copy? || pc.MarkDirty? || pc.SetDeadline? || pc.SetQueueStart? || pc.Capture? || pc.Publish?
  }

  /** How many of its own rows the producer has published. */
  function Written(p: Producer): (n: nat) {
    if Writing(p.pc) then p.pc.piece.pos
    else if p.pc.Notify? then p.pc.piece.pos + p.pc.piece.len
    else if Granted(p.pc) then |p.rows|
    else 0
  }

  // ----- reading an executor's progress -----

  /** The executor holds a claimed lap that is not finished. */
  predicate Holding(pc: ExecutorPc) {
    || pc.BorrowNotifier? || pc.AwaitNotify? || pc.SealLoad? || pc.SealCas? || pc.Spin?
    || pc.SetExecStart? || pc.LoadItems?
    || pc.ReadRows? || pc.SetExecEnd? || pc.SetOutput? || pc.ResetState? || pc.ResetWritten? || pc.ResetDirty?
  }

  function StageOf(pc: ExecutorPc): (stage: nat)
    requires Holding(pc)
  {
    match pc
    case BorrowNotifier(_, _) => CLAIMED
    case AwaitNotify(_, _, _) => CLAIMED
    case SealLoad(_, _) => CLAIMED
    case SealCas(_, _, _, _) => CLAIMED
    case Spin(_, _, _) => SEALED
    case SetExecStart(_, _) => FULL
    case LoadItems(_, _) => STARTED
    case ReadRows(_, _, _) => STARTED
    case SetExecEnd(_, _, _) => STARTED
    case SetOutput(_, _, _) => ENDED
    case ResetState(_, _) => FILLED
    case ResetWritten(_, _) => STATE_RESET
    case ResetDirty(_, _) => WRITTEN_RESET
  }

  /** The session is reading the batch's input tensors, or has not handed them back yet. */
  predicate Running(pc: ExecutorPc) {
    pc.SetExecStart? || pc.LoadItems? || pc.ReadRows? || pc.SetExecEnd? || pc.SetOutput?
  }

  /** What a session may answer on these batch rows: a row-wise model, or an error. */
  ghost predicate RunOk(c: Config, rows: seq<Row>, result: BatchResult) {
    result.Ok? ==>
      && |result.value| == c.outputs
      && forall o | 0 <= o < c.outputs ::
           && |result.value[o]| == |rows|
           && forall i | 0 <= i < |rows| :: o < |c.model(rows[i])| && result.value[o][i] == c.model(rows[i])[o]
  }
}
