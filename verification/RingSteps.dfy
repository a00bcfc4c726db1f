/**
 The atomic steps of the protocol: one load, one store, one CAS, one OnceCell set,
 one row copied or one output cell read per step. Any producer or executor may
 take the next step. A failed `expect`, `assert!` or `panic!` sets `panicked`.
*/
module RingSteps {
  import opened InferTypes
  import opened Ranges
  import opened RingGeometry
  import opened RingModel

  datatype Action =
    | Arrive(rows: seq<Row>)
    | Produce(p: nat, weakFail: bool)
    | Execute(e: nat, weakFail: bool, result: BatchResult)

  function Panic(s: State): (s': State) {
    s.(panicked := true)
  }

  function SetProducer(s: State, p: nat, pc: ProducerPc): (s': State)
    requires p < |s.producers|
  {
    s.(producers := s.producers[p := s.producers[p].(pc := pc)])
  }

  function SetExecutor(s: State, e: nat, pc: ExecutorPc): (s': State)
    requires e < |s.executors|
  {
    s.(executors := s.executors[e := pc])
  }

  function SetTracker(s: State, b: nat, tracker: Tracker): (s': State)
    requires b < |s.trackers|
  {
    s.(trackers := s.trackers[b := tracker])
  }

  // ----- producers: infer, insert_tensors_at, WriteReservation::new, get_data -----

  /** The next slice of a request of n rows reserved from `first` on: up to the end of its batch. */
  function PieceAt(g: Geometry, first: nat, pos: nat, n: nat): (piece: Piece)
    requires g.Valid() && pos < n
  {
    LowerBoundFacts(g, first + pos);
    BatchIdFacts(g, first + pos);
    var base := LowerBound(g, first + pos);
    var room := base + g.batchSize - (first + pos);
    Piece(pos, base, BatchId(g, first + pos), if n - pos <= room then n - pos else room)
  }

  /** After a piece: go on with the rest of the request, or start waiting for the results. */
  function AfterPiece(c: Config, p: Producer, piece: Piece): (pc: ProducerPc)
    requires c.geometry.Valid()
  {
    if piece.pos + piece.len < |p.rows| then
      Copy(PieceAt(c.geometry, p.first, piece.pos + piece.len, |p.rows|), 0)
    else
      Collect(0, [])
  }

  /** The capacity check: the wrapped distance of a stale head behind tail reads as full. */
  predicate BelowRing(g: Geometry, index: nat, tail: nat) {
    tail <= index < tail + g.ring
  }

  function SlotsFor(p: nat, rows: seq<Row>, first: nat, indices: set<nat>): (m: map<nat, Slot>)
    requires forall a | a in indices :: first <= a < first + |rows|
  {
    map a | a in indices :: Slot(p, a - first, rows[a - first])
  }

  /** Row i of the request belongs at absolute index first + i; earlier slots keep their owners. */
  function WithSlots(owner: map<nat, Slot>, p: nat, rows: seq<Row>, first: nat): (owner': map<nat, Slot>)
    ensures forall a :: a in owner' <==> a in owner || first <= a < first + |rows|
    ensures forall a | a in owner' ::
              owner'[a] == if first <= a < first + |rows| then Slot(p, a - first, rows[a - first]) else owner[a]
  {
    owner + SlotsFor(p, rows, first, Range(first, first + |rows|))
  }

  function Grant(c: Config, s: State, p: nat): (s': State)
    requires c.geometry.Valid() && p < |s.producers| && |s.producers[p].rows| >= 1
  {
    var me := s.producers[p];
    var n := |me.rows|;
    s.(head := s.head + n,
       producers := s.producers[p := me.(first := s.head, pc := Copy(PieceAt(c.geometry, s.head, 0, n), 0))],
       owner := WithSlots(s.owner, p, me.rows, s.head))
  }

  function CopyRow(s: State, p: nat): (s': State)
    requires p < |s.producers| && s.producers[p].pc.Copy?
    requires var me := s.producers[p]; var piece := me.pc.piece;
             && me.pc.done < piece.len && piece.pos + piece.len <= |me.rows|
             && piece.batch < |s.buffers| && me.first + piece.pos >= piece.base
             && me.first + piece.pos + piece.len - piece.base <= |s.buffers[piece.batch]|
  {
    var me := s.producers[p];
    var piece := me.pc.piece;
    var slot := me.first + piece.pos + me.pc.done - piece.base;
    SetProducer(s, p, Copy(piece, me.pc.done + 1))
      .(buffers := s.buffers[piece.batch := s.buffers[piece.batch][slot := me.rows[piece.pos + me.pc.done]]])
  }

  /** The slot of the piece within its batch. */
  function SlotOf(p: Producer, piece: Piece): (slot: int) {
    p.first + piece.pos - piece.base
  }

  /** The reservation that a finished piece adds to the response. */
  function ReservationOf(me: Producer): (r: Reservation)
    requires me.pc.Publish? && SlotOf(me, me.pc.piece) >= 0
  {
    var slot := SlotOf(me, me.pc.piece);
    Reservation(me.pc.cell, slot, slot + me.pc.piece.len, me.pc.piece.base, me.pc.piece.pos)
  }

  /** The producer of the first or the last slot of a batch has a notify to send. */
  function AfterPublish(c: Config, me: Producer): (me': Producer)
    requires c.geometry.Valid()
    requires me.pc.Publish? && SlotOf(me, me.pc.piece) >= 0
  {
    var piece := me.pc.piece;
    var slot := SlotOf(me, piece);
    var last := slot + piece.len == c.geometry.batchSize;
    me.(pc := if slot == 0 || last then Notify(piece) else AfterPiece(c, me, piece),
        response := me.response + [ReservationOf(me)])
  }

  function PublishPiece(c: Config, s: State, p: nat): (s': State)
    requires c.geometry.Valid()
    requires p < |s.producers| && s.producers[p].pc.Publish?
    requires var me := s.producers[p]; me.pc.piece.batch < |s.trackers| && SlotOf(me, me.pc.piece) >= 0
  {
    var me := s.producers[p];
    var b := me.pc.piece.batch;
    var lo := me.first + me.pc.piece.pos;
    s.(trackers := s.trackers[b := s.trackers[b].(writtenSlots := s.trackers[b].writtenSlots + me.pc.piece.len)],
       producers := s.producers[p := AfterPublish(c, me)],
       published := s.published + Range(lo, lo + me.pc.piece.len))
  }

  /** executor_notifier of whatever BatchState the tracker holds now. */
  function NotifyExecutor(c: Config, s: State, p: nat): (s': State)
    requires c.geometry.Valid()
    requires p < |s.producers| && s.producers[p].pc.Notify?
    requires s.producers[p].pc.piece.batch < |s.trackers|
  {
    var me := s.producers[p];
    var piece := me.pc.piece;
    SetProducer(s, p, AfterPiece(c, me, piece))
      .(permits := s.permits + {Cell(piece.batch, s.trackers[piece.batch].gen)})
  }

  /** Append this reservation's slice of every output to the data collected so far. */
  function Extend(data: seq<seq<Element>>, values: seq<seq<Element>>, first: nat, end: nat): (data': seq<seq<Element>>)
    requires first <= end && forall o | 0 <= o < |values| :: end <= |values[o]|
    requires data == [] || |data| == |values|
    ensures |data'| == |values|
  {
    seq(|values|, o requires 0 <= o < |values| =>
      (if data == [] then [] else data[o]) + values[o][first..end])
  }

  predicate SliceFits(values: seq<seq<Element>>, data: seq<seq<Element>>, first: nat, end: nat) {
    && first <= end
    && (forall o | 0 <= o < |values| :: end <= |values[o]|)
    && (data == [] || |data| == |values|)
  }

  function CollectNext(s: State, p: nat): (s': State)
    requires p < |s.producers| && s.producers[p].pc.Collect?
    requires s.producers[p].pc.next < |s.producers[p].response|
    requires s.producers[p].response[s.producers[p].pc.next].cell in s.outputs
  {
    var me := s.producers[p];
    var r := me.response[me.pc.next];
    match s.outputs[r.cell]
    case Err(error) => SetProducer(s, p, Answered(Err(error)))
    case Ok(values) =>
      if SliceFits(values, me.pc.data, r.first, r.end)
      then SetProducer(s, p, Collect(me.pc.next + 1, Extend(me.pc.data, values, r.first, r.end)))
      else Panic(s)
  }

  predicate ProducerEnabled(c: Config, s: State, p: nat) {
    && c.geometry.Valid()
    && p < |s.producers|
    && var me := s.producers[p];
       match me.pc
       case LoadHead => true
       case LoadTail(_) => true
       case Reserve(_, _) => |me.rows| >= 1
       case Copy(piece, done) =>
         && done <= piece.len && piece.pos + piece.len <= |me.rows|
         && piece.batch < |s.buffers| && SlotOf(me, piece) >= 0
         && SlotOf(me, piece) + piece.len <= |s.buffers[piece.batch]|
       case MarkDirty(piece) => piece.batch < |s.trackers|
       case SetDeadline(piece) => piece.batch < |s.trackers|
       case SetQueueStart(piece) => piece.batch < |s.trackers|
       case Capture(piece) => piece.batch < |s.trackers|
       case Publish(piece, _) => piece.batch < |s.trackers| && SlotOf(me, piece) >= 0
       case Notify(piece) => piece.batch < |s.trackers|
       case Collect(next, _) => next < |me.response| ==> me.response[next].cell in s.outputs
       case Answered(_) => false
       case Rejected => false
  }

  function ProducerStep(c: Config, s: State, p: nat, weakFail: bool): (s': State)
    requires ProducerEnabled(c, s, p)
  {
    var me := s.producers[p];
    match me.pc
    case LoadHead => SetProducer(s, p, LoadTail(s.head))
    case LoadTail(h) => SetProducer(s, p, if BelowRing(c.geometry, h, s.tail) then Reserve(h, s.tail) else Rejected)
    case Reserve(h, _) => if s.head == h && !weakFail then Grant(c, s, p) else SetProducer(s, p, LoadHead)
    case Copy(piece, done) =>
      if done < piece.len then CopyRow(s, p)
      else SetProducer(s, p, if SlotOf(me, piece) == 0 then MarkDirty(piece) else Capture(piece))
    case MarkDirty(piece) =>
      SetTracker(SetProducer(s, p, SetDeadline(piece)), piece.batch, s.trackers[piece.batch].(dirty := 1))
    case SetDeadline(piece) =>
      if s.trackers[piece.batch].deadline then Panic(s)
      else SetTracker(SetProducer(s, p, SetQueueStart(piece)), piece.batch, s.trackers[piece.batch].(deadline := true))
    case SetQueueStart(piece) =>
      if s.trackers[piece.batch].queueStart then Panic(s)
      else SetTracker(SetProducer(s, p, Capture(piece)), piece.batch, s.trackers[piece.batch].(queueStart := true))
    case Capture(piece) => SetProducer(s, p, Publish(piece, Cell(piece.batch, s.trackers[piece.batch].gen)))
    case Publish(_, _) => PublishPiece(c, s, p)
    case Notify(_) => NotifyExecutor(c, s, p)
    case Collect(next, data) =>
      if next < |me.response| then CollectNext(s, p)
      else if next == 0 then Panic(s)
      else SetProducer(s, p, Answered(Ok(data)))
  }

  // ----- executors: execute_on_batch, seal_current_batch, reset_batch, move_tail -----

  function ClaimLap(c: Config, s: State, e: nat): (s': State)
    requires c.geometry.Valid() && e < |s.executors|
    requires BatchId(c.geometry, s.executorHead) < |s.trackers|
  {
    BatchIdFacts(c.geometry, s.executorHead);
    var b := BatchId(c.geometry, s.executorHead);
    s.(executorHead := s.executorHead + c.geometry.batchSize,
       executors := s.executors[e := BorrowNotifier(s.executorHead, b)],
       trackers := s.trackers[b := s.trackers[b].(stage := CLAIMED, claimant := e)],
       claims := s.claims + multiset{s.executorHead})
  }

  function SealTo(s: State, e: nat, lap: nat, b: nat, top: nat, remaining: nat): (s': State)
    requires e < |s.executors| && b < |s.trackers|
  {
    SetTracker(SetExecutor(s, e, Spin(lap, b, remaining)), b, s.trackers[b].(stage := SEALED, top := top))
  }

  function AdvanceTail(c: Config, s: State, e: nat, t: nat): (s': State)
    requires c.geometry.Valid() && e < |s.executors|
    requires BatchId(c.geometry, t) < |s.trackers|
  {
    BatchIdFacts(c.geometry, t);
    var b := BatchId(c.geometry, t);
    s.(tail := t + c.geometry.batchSize,
       executors := s.executors[e := TailLoad],
       trackers := s.trackers[b := s.trackers[b].(lap := t + c.geometry.ring, stage := UNCLAIMED)])
  }

  ghost predicate ExecutorEnabled(c: Config, s: State, e: nat, result: BatchResult) {
    && c.geometry.Valid()
    && |s.trackers| == |s.buffers| == c.geometry.capacity
    && e < |s.executors|
    && var pc := s.executors[e];
       && (Holding(pc) ==> pc.batch < |s.trackers|)
       && (pc.AwaitNotify? ==> pc.notifier in s.permits)
       && (pc.Spin? ==>
             && pc.remaining <= c.geometry.batchSize
             && s.trackers[pc.batch].writtenSlots >= c.geometry.batchSize - pc.remaining)
       && (pc.ReadRows? ==>
             && |pc.seen| <= |s.buffers[pc.batch]|
             && (|pc.seen| == |s.buffers[pc.batch]| ==> RunOk(c, pc.seen, result)))
  }

  ghost function ExecutorStep(c: Config, s: State, e: nat, weakFail: bool, result: BatchResult): (s': State)
    requires ExecutorEnabled(c, s, e, result)
  {
    var size := c.geometry.batchSize;
    var pc := s.executors[e];
    match pc
    case LoadExecutorHead => SetExecutor(s, e, LoadTailForClaim(s.executorHead))
    case LoadTailForClaim(h) =>
      SetExecutor(s, e, if BelowRing(c.geometry, h, s.tail) then Claim(h) else LoadExecutorHead)
    case Claim(h) =>
      BatchIdFacts(c.geometry, s.executorHead);
      if s.executorHead == h && !weakFail then ClaimLap(c, s, e) else SetExecutor(s, e, LoadExecutorHead)
    case BorrowNotifier(lap, b) => SetExecutor(s, e, AwaitNotify(lap, b, Cell(b, s.trackers[b].gen)))
    case AwaitNotify(lap, b, notifier) => SetExecutor(s, e, SealLoad(lap, b)).(permits := s.permits - {notifier})
    case SealLoad(lap, b) =>
      if s.head < lap then Panic(s)
      else if s.head < lap + size then SetExecutor(s, e, SealCas(lap, b, s.head, lap + size - s.head))
      else SealTo(s, e, lap, b, lap + size, 0)
    case SealCas(lap, b, h, remaining) =>
      if s.head == h && !weakFail
      then SealTo(s, e, lap, b, h, remaining).(head := h + remaining)
      else SetExecutor(s, e, SealLoad(lap, b))
    case Spin(lap, b, remaining) =>
      if s.trackers[b].writtenSlots == size - remaining
      then SetTracker(SetExecutor(s, e, SetExecStart(lap, b)), b, s.trackers[b].(stage := FULL))
      else Panic(s)
    case SetExecStart(lap, b) =>
      if s.trackers[b].execStart then Panic(s)
      else SetTracker(SetExecutor(s, e, LoadItems(lap, b)), b, s.trackers[b].(execStart := true, stage := STARTED))
    case LoadItems(lap, b) =>
      SetExecutor(s, e, ReadRows(lap, b, [])).(items := s.items[lap := s.trackers[b].writtenSlots])
    case ReadRows(lap, b, seen) =>
      if |seen| < |s.buffers[b]|
      then SetExecutor(s, e, ReadRows(lap, b, seen + [s.buffers[b][|seen|]]))
      else SetExecutor(s, e, SetExecEnd(lap, b, result))
    case SetExecEnd(lap, b, answer) =>
      if s.trackers[b].execEnd then Panic(s)
      else SetTracker(SetExecutor(s, e, SetOutput(lap, b, answer)), b, s.trackers[b].(execEnd := true, stage := ENDED))
             .(runs := s.runs + multiset{lap})
    case SetOutput(lap, b, answer) =>
      var cell := Cell(b, s.trackers[b].gen);
      if cell in s.outputs then Panic(s)
      else SetTracker(SetExecutor(s, e, ResetState(lap, b)), b, s.trackers[b].(stage := FILLED))
             .(outputs := s.outputs[cell := answer])
    case ResetState(lap, b) =>
      var renewed := s.trackers[b].(gen := s.trackers[b].gen + 1, deadline := false, queueStart := false,
                                  execStart := false, execEnd := false, stage := STATE_RESET);
      SetTracker(SetExecutor(s, e, ResetWritten(lap, b)), b, renewed).(resets := s.resets + multiset{lap})
    case ResetWritten(lap, b) =>
      SetTracker(SetExecutor(s, e, ResetDirty(lap, b)), b, s.trackers[b].(writtenSlots := 0, stage := WRITTEN_RESET))
    case ResetDirty(lap, b) =>
      SetTracker(SetExecutor(s, e, TailLoad), b, s.trackers[b].(dirty := 2, stage := DONE))
    case TailLoad => SetExecutor(s, e, TailHead(s.tail))
    case TailHead(t) => SetExecutor(s, e, if t + size < s.head then TailDirty(t) else LoadExecutorHead)
    case TailDirty(t) =>
      BatchIdFacts(c.geometry, t);
      SetExecutor(s, e, if s.trackers[BatchId(c.geometry, t)].dirty == 2 then TailDirtyCas(t) else LoadExecutorHead)
    case TailDirtyCas(t) =>
      BatchIdFacts(c.geometry, t);
      var b := BatchId(c.geometry, t);
      if s.trackers[b].dirty == 2 && !weakFail
      then SetTracker(SetExecutor(s, e, TailCas(t)), b, s.trackers[b].(dirty := 0))
      else SetExecutor(s, e, LoadExecutorHead)
    case TailCas(t) =>
      BatchIdFacts(c.geometry, t);
      if s.tail == t && !weakFail then AdvanceTail(c, s, e, t) else SetExecutor(s, e, LoadExecutorHead)
  }

  // ----- the transition relation -----

  ghost predicate Enabled(c: Config, s: State, a: Action) {
    && !s.panicked
    && match a
       case Arrive(rows) => |rows| >= 1
       case Produce(p, _) => ProducerEnabled(c, s, p)
       case Execute(e, _, result) => ExecutorEnabled(c, s, e, result)
  }

  ghost function Apply(c: Config, s: State, a: Action): (s': State)
    requires Enabled(c, s, a)
  {
    match a
    case Arrive(rows) => s.(producers := s.producers + [Producer(rows, 0, LoadHead, [])])
    case Produce(p, weakFail) => ProducerStep(c, s, p, weakFail)
    case Execute(e, weakFail, result) => ExecutorStep(c, s, e, weakFail, result)
  }

  // ----- what the program takes for granted -----

  /** A reservation that is about to be granted fits between head and tail + ring. */
  ghost predicate GrantFits(c: Config, s: State, a: Action) {
    a.Produce? && a.p < |s.producers| && s.producers[a.p].pc.Reserve? && !a.weakFail && s.head == s.producers[a.p].pc.h
    ==> s.head + |s.producers[a.p].rows| <= s.tail + c.geometry.ring
  }

  /** One step of the program, in a workload whose reservations fit. */
  ghost predicate SafeNext(c: Config, s: State, s': State) {
    exists a :: Enabled(c, s, a) && GrantFits(c, s, a) && s' == Apply(c, s, a)
  }

  /**
   A notify reaches a BatchState whose lap has reserved slots. It fails only for a
   producer that is delayed, between publishing and notifying, until its batch has
   been run and reset. Runs may violate it.
  */
  ghost predicate NotifyInTime(c: Config, s: State, a: Action) {
    a.Produce? && a.p < |s.producers| && s.producers[a.p].pc.Notify? ==>
      var b := s.producers[a.p].pc.piece.batch;
      b < |s.trackers| ==> LapOf(c.geometry, b, s.trackers[b].gen) < s.head
  }

  /** An executor was woken for a lap that head has not reached, and now seals it. */
  ghost predicate SealsTooEarly(s: State, a: Action) {
    a.Execute? && a.e < |s.executors| && s.executors[a.e].SealLoad? && s.head < s.executors[a.e].lap
  }
}
