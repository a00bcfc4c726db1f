/**
 The ring's sequential routines on machine words, run by one thread at a time: the tail
 loop, a warmup, and the loop that splits a request over batches. The ghost counters
 are the unbounded values that the protocol's theorems speak about.
*/
module SuperTensor {
  import opened InferTypes
  import opened Multiples
  import opened Words64
  import opened RingGeometry
  import opened RingModel
  import opened RingSteps
  import opened RingInvariant
  import opened RingRuns
  import opened RingIndex

  /** The cells of one BatchState that are set. */
  datatype BatchState = BatchState(deadline: bool, queueStart: bool, execStart: bool, execEnd: bool,
                                   output: Option<BatchResult>)

  function NewState(): (s: BatchState) {
    BatchState(false, false, false, false, None)
  }

  /** No cell of the BatchState is set. */
  ghost predicate Unset(s: BatchState) {
    !s.deadline && !s.queueStart && !s.execStart && !s.execEnd && s.output.None?
  }

  /** A call of insert_tensors_at: rows [start, end) of the request go to `batch`, from `slot` on. */
  datatype Write = Write(batch: nat, slot: nat, start: nat, end: nat)

  /** How seal_current_batch ends when nobody else takes a step. */
  datatype SealOutcome = Sealed | WaitsForWriters | NotWrittenYet | TooManyWritten

  // ----- geometry of consecutive batches -----

  /** Different laps less than one ring apart are on different trackers. */
  lemma DifferentBatches(g: Geometry, u: nat, v: nat)
    requires g.Valid() && Multiple(g.batchSize, u) && Multiple(g.batchSize, v) && u < v < u + g.ring
    ensures BatchId(g, u) != BatchId(g, v)
  {
    LowerBoundIs(g, u, u);
    LowerBoundIs(g, v, v);
    BatchIdFacts(g, u);
    BatchIdFacts(g, v);
    OwnGeneration(g, u);
    OwnGeneration(g, v);
    if BatchId(g, u) == BatchId(g, v) {
      ClosestLap(g, BatchId(g, u), u / g.ring, v / g.ring);
    }
  }

  /** Batch b has a lap in [low, high). */
  ghost predicate Passed(g: Geometry, low: nat, high: nat, b: nat)
    requires g.Valid()
  {
    exists u: nat :: Multiple(g.batchSize, u) && low <= u < high && BatchId(g, u) == b
  }

  lemma PassedStep(g: Geometry, low: nat, high: nat, b: nat)
    requires g.Valid() && Multiple(g.batchSize, high) && low <= high
    ensures Passed(g, low, high + g.batchSize, b) <==> Passed(g, low, high, b) || b == BatchId(g, high)
  {
    hide BatchId;
    if u: nat :| Multiple(g.batchSize, u) && low <= u < high + g.batchSize && BatchId(g, u) == b {
      if high < u {
        Gap(g.batchSize, high, u);
      }
    }
    if b == BatchId(g, high) {
      assert low <= high < high + g.batchSize;
    }
  }

  lemma NotPassedYet(g: Geometry, low: nat, high: nat)
    requires g.Valid() && Multiple(g.batchSize, high) && low <= high < low + g.ring
    ensures !Passed(g, low, high, BatchId(g, high))
  {
    if u: nat :| Multiple(g.batchSize, u) && low <= u < high && BatchId(g, u) == BatchId(g, high) {
      DifferentBatches(g, u, high);
    }
  }

  /** The mark of the batch that index x falls in. */
  ghost function MarkAt(g: Geometry, marks: seq<nat>, x: nat): (mark: nat)
    requires g.Valid() && |marks| == g.capacity
  {
    BatchIdFacts(g, x);
    marks[BatchId(g, x)]
  }

  /** Where the tail loop may stop, and what lies behind it. */
  ghost predicate StopsAt(g: Geometry, marks: seq<nat>, low: nat, head: nat, t: nat)
    requires g.Valid() && |marks| == g.capacity
  {
    && low <= t && Multiple(g.batchSize, t)
    && (t + g.batchSize >= head || MarkAt(g, marks, t) != 2)
    && AllFinished(g, marks, low, head, t)
  }

  /** Every batch in [low, t) is in state 2 and ends behind head. */
  ghost predicate AllFinished(g: Geometry, marks: seq<nat>, low: nat, head: nat, t: nat)
    requires g.Valid() && |marks| == g.capacity
  {
    forall u: nat {:trigger MarkAt(g, marks, u)} | Multiple(g.batchSize, u) && low <= u < t ::
      u + g.batchSize < head && MarkAt(g, marks, u) == 2
  }

  /** Passing the batches in [low, t) clears their marks, and no others. */
  ghost predicate Cleared(g: Geometry, before: seq<nat>, low: nat, t: nat, after: seq<nat>)
    requires g.Valid()
  {
    && |before| == |after| == g.capacity
    && forall b | 0 <= b < g.capacity :: after[b] == if Passed(g, low, t, b) then 0 else before[b]
  }

  lemma ClearedNothing(g: Geometry, marks: seq<nat>, low: nat)
    requires g.Valid() && |marks| == g.capacity
    ensures Cleared(g, marks, low, low, marks)
  {
  }

  /** The tail loop reads the next batch's mark as it was when the loop began. */
  lemma MarkStillThere(g: Geometry, before: seq<nat>, low: nat, t: nat, after: seq<nat>)
    requires g.Valid() && Multiple(g.batchSize, t) && low <= t < low + g.ring && Cleared(g, before, low, t, after)
    ensures BatchId(g, t) < |after| && MarkAt(g, before, t) == after[BatchId(g, t)]
  {
    hide Passed, BatchId;
    NotPassedYet(g, low, t);
    BatchIdFacts(g, t);
  }

  lemma ClearedOneMore(g: Geometry, before: seq<nat>, low: nat, t: nat, after: seq<nat>)
    requires g.Valid() && Multiple(g.batchSize, t) && low <= t && Cleared(g, before, low, t, after)
    ensures BatchId(g, t) < |after| && Cleared(g, before, low, t + g.batchSize, after[BatchId(g, t) := 0])
  {
    hide Passed, BatchId;
    BatchIdFacts(g, t);
    forall b: nat | b < g.capacity
      ensures Passed(g, low, t + g.batchSize, b) <==> Passed(g, low, t, b) || b == BatchId(g, t)
    {
      PassedStep(g, low, t, b);
    }
  }

  lemma FinishedOneMore(g: Geometry, marks: seq<nat>, low: nat, head: nat, t: nat)
    requires g.Valid() && |marks| == g.capacity && Multiple(g.batchSize, t) && AllFinished(g, marks, low, head, t)
    requires t + g.batchSize < head && MarkAt(g, marks, t) == 2
    ensures AllFinished(g, marks, low, head, t + g.batchSize)
  {
    hide MarkAt;
    forall u: nat {:trigger MarkAt(g, marks, u)} | Multiple(g.batchSize, u) && low <= u < t + g.batchSize
      ensures u + g.batchSize < head && MarkAt(g, marks, u) == 2
    {
      if t < u {
        Gap(g.batchSize, t, u);
      }
    }
  }

  lemma NextAligned(g: Geometry, u: nat)
    requires g.Valid() && Multiple(g.batchSize, u)
    ensures Multiple(g.batchSize, u + g.batchSize)
  {
    Sum(g.batchSize, u, g.batchSize);
  }

  // ----- warmups -----

  /** Where tail is once warmups have brought head to `head`. */
  function WarmTail(g: Geometry, head: nat): (t: nat) {
    if head < g.batchSize then 0 else head - g.batchSize
  }

  /**
   After warmups only tail's batch is in state 2. With a single batch not even that one:
   the second warmup finds its own mark behind tail and takes it.
  */
  ghost predicate WarmMarks(g: Geometry, head: nat, marks: seq<nat>)
    requires g.Valid()
  {
    && |marks| == g.capacity
    && forall b | 0 <= b < g.capacity ::
         marks[b] == if head > 0 && b == BatchId(g, WarmTail(g, head)) && (g.capacity >= 2 || head == g.batchSize)
                     then 2 else 0
  }

  /** Tail's batch has been reset and waits for its next lap; every other batch waits for one in the window. */
  ghost predicate WarmGens(g: Geometry, head: nat, gens: seq<nat>)
    requires g.Valid()
  {
    && |gens| == g.capacity
    && forall b | 0 <= b < g.capacity :: WarmGen(g, head, b, gens[b])
  }

  ghost predicate WarmGen(g: Geometry, head: nat, b: nat, gen: nat)
    requires g.Valid()
  {
    if head > 0 && b == BatchId(g, WarmTail(g, head))
    then LapOf(g, b, gen) == WarmTail(g, head) + g.ring
    else head <= LapOf(g, b, gen) < WarmTail(g, head) + g.ring
  }

  lemma WarmTailFacts(g: Geometry, head: nat)
    requires g.Valid() && Multiple(g.batchSize, head)
    ensures Multiple(g.batchSize, WarmTail(g, head)) && WarmTail(g, head + g.batchSize) == head
    ensures head > 0 ==> WarmTail(g, head) + g.batchSize == head
    ensures head == 0 ==> WarmTail(g, head) == 0
  {
  }

  lemma CapacityTwo(g: Geometry)
    requires g.Valid()
    ensures g.capacity >= 2 ==> 2 * g.batchSize <= g.ring
    ensures g.capacity == 1 ==> g.ring == g.batchSize
  {
    if g.capacity >= 2 {
      Distribute(g.capacity, 2, g.batchSize);
      AtLeastOneStep(g.capacity - 2, g.batchSize);
    }
  }

  /** The batch of the warmup that is ending, and the one before it. */
  lemma WarmBatches(g: Geometry, head: nat)
    requires g.Valid() && Multiple(g.batchSize, head)
    ensures BatchId(g, head) < g.capacity && BatchId(g, WarmTail(g, head)) < g.capacity
    ensures head > 0 && g.capacity >= 2 ==> BatchId(g, head) != BatchId(g, WarmTail(g, head))
    ensures g.capacity == 1 ==> BatchId(g, head) == BatchId(g, WarmTail(g, head)) == 0
  {
    hide BatchId;
    WarmTailFacts(g, head);
    CapacityTwo(g);
    BatchIdFacts(g, head);
    BatchIdFacts(g, WarmTail(g, head));
    if head > 0 && g.capacity >= 2 {
      DifferentBatches(g, WarmTail(g, head), head);
    }
  }

  /** The tail loop of a warmup moves tail over the previous warmup's batch and stops at its own. */
  lemma WarmStop(g: Geometry, head: nat, marks: seq<nat>, t: nat)
    requires g.Valid() && Multiple(g.batchSize, head) && WarmMarks(g, head, marks)
    requires BatchId(g, head) < |marks|
    requires StopsAt(g, marks[BatchId(g, head) := 2], WarmTail(g, head), head + g.batchSize, t)
    ensures t == head
  {
    hide BatchId;
    WarmTailFacts(g, head);
    WarmBatches(g, head);
    var low, now := WarmTail(g, head), marks[BatchId(g, head) := 2];
    assert low < head ==> MarkAt(g, now, low) == 2;
    FinishedAt(g, now, low, head + g.batchSize, t, head);
    if low < t {
      Gap(g.batchSize, low, t);
    }
  }

  lemma FinishedAt(g: Geometry, marks: seq<nat>, low: nat, head: nat, t: nat, u: nat)
    requires g.Valid() && |marks| == g.capacity && AllFinished(g, marks, low, head, t)
    ensures Multiple(g.batchSize, u) && low <= u < t ==> u + g.batchSize < head && MarkAt(g, marks, u) == 2
  {
  }

  lemma WarmMarksNext(g: Geometry, head: nat, marks: seq<nat>, after: seq<nat>)
    requires g.Valid() && Multiple(g.batchSize, head) && WarmMarks(g, head, marks) && BatchId(g, head) < |marks|
    requires Cleared(g, marks[BatchId(g, head) := 2], WarmTail(g, head), head, after)
    ensures WarmMarks(g, head + g.batchSize, after)
  {
    hide BatchId, Passed;
    WarmTailFacts(g, head);
    WarmBatches(g, head);
    var low := WarmTail(g, head);
    forall b: nat | b < g.capacity ensures Passed(g, low, head, b) <==> head > 0 && b == BatchId(g, low) {
      NothingPassed(g, low, b);
      if head > 0 {
        PassedStep(g, low, low, b);
      }
    }
  }

  lemma NothingPassed(g: Geometry, low: nat, b: nat)
    requires g.Valid()
    ensures !Passed(g, low, low, b)
  {
  }

  lemma WarmGensNext(g: Geometry, head: nat, gens: seq<nat>)
    requires g.Valid() && Multiple(g.batchSize, head) && WarmGens(g, head, gens) && BatchId(g, head) < |gens|
    ensures WarmGens(g, head + g.batchSize, gens[BatchId(g, head) := gens[BatchId(g, head)] + 1])
  {
    hide WarmGen;
    var gens' := gens[BatchId(g, head) := gens[BatchId(g, head)] + 1];
    forall b: nat | b < g.capacity ensures WarmGen(g, head + g.batchSize, b, gens'[b]) {
      WarmGenNext(g, head, b, gens[b]);
    }
  }

  lemma WarmGenNext(g: Geometry, head: nat, b: nat, gen: nat)
    requires g.Valid() && Multiple(g.batchSize, head) && b < g.capacity && WarmGen(g, head, b, gen)
    ensures WarmGen(g, head + g.batchSize, b, if b == BatchId(g, head) then gen + 1 else gen)
  {
    hide BatchId, LapOf, Multiple;
    WarmTailFacts(g, head);
    WarmBatches(g, head);
    CapacityTwo(g);
    if b == BatchId(g, head) {
      NextLapOf(g, head, b, gen);
      LapGrows(g, b, gen);
    } else {
      OtherLapOf(g, head, b, gen);
    }
  }

  lemma LapGrows(g: Geometry, b: nat, gen: nat)
    ensures LapOf(g, b, gen + 1) == LapOf(g, b, gen) + g.ring
  {
  }

  /** The batch at head is about to serve the lap at head. */
  lemma NextLapOf(g: Geometry, head: nat, b: nat, gen: nat)
    requires g.Valid() && Multiple(g.batchSize, head) && b < g.capacity && WarmGen(g, head, b, gen)
    requires b == BatchId(g, head)
    ensures LapOf(g, b, gen) == head
  {
    hide BatchId, LapOf, Multiple;
    WarmTailFacts(g, head);
    WarmBatches(g, head);
    CapacityTwo(g);
    if !(head > 0 && b == BatchId(g, WarmTail(g, head))) {
      LowerBoundIs(g, head, head);
      BatchIdFacts(g, head);
      OwnGeneration(g, head);
      SameWindowSameLap(g, WarmTail(g, head), b, gen, head / g.ring, LapOf(g, b, gen), head);
    }
  }

  lemma OtherLapOf(g: Geometry, head: nat, b: nat, gen: nat)
    requires g.Valid() && Multiple(g.batchSize, head) && b < g.capacity && WarmGen(g, head, b, gen)
    requires b != BatchId(g, head)
    ensures head + g.batchSize <= LapOf(g, b, gen) < head + g.ring
  {
    hide BatchId, LapOf, Multiple;
    WarmTailFacts(g, head);
    WarmBatches(g, head);
    CapacityTwo(g);
    if !(head > 0 && b == BatchId(g, WarmTail(g, head))) {
      LapOfIsAligned(g, b, gen);
      LapIsOfTracker(g, b, gen, LapOf(g, b, gen));
      if head < LapOf(g, b, gen) {
        Gap(g.batchSize, head, LapOf(g, b, gen));
      }
    }
  }

  /** A warmed-up ring of one batch rejects every request; with more batches it has room. */
  lemma WarmRingIsFullExactly(g: Geometry, head: nat)
    requires Machine(g) && Multiple(g.batchSize, head) && head > 0
    ensures ReadsFull(g, Wrap(head), Wrap(WarmTail(g, head))) <==> g.capacity == 1
  {
    hide Machine, Wrap;
    HalfAbove(g);
    WarmTailFacts(g, head);
    CapacityTwo(g);
    FullCheckAgrees(g, head, WarmTail(g, head));
  }

  // ----- a warm ring is an initial state of the protocol -----

  /** What each tracker of the ring holds: mark, written slots, BatchState, and how often it was reset. */
  datatype TrackerWords = TrackerWords(mark: nat, written: nat, state: BatchState, gen: nat)

  ghost predicate WarmWords(g: Geometry, head: nat, words: seq<TrackerWords>)
    requires g.Valid()
  {
    && |words| == g.capacity
    && WarmMarks(g, head, Marks(words)) && WarmGens(g, head, Gens(words))
  }

  ghost function Marks(words: seq<TrackerWords>): (marks: seq<nat>) {
    seq(|words|, b requires 0 <= b < |words| => words[b].mark)
  }

  ghost function Gens(words: seq<TrackerWords>): (gens: seq<nat>) {
    seq(|words|, b requires 0 <= b < |words| => words[b].gen)
  }

  /** The protocol's tracker: all but the lap that it serves is taken from the ring. */
  ghost function WarmTracker(g: Geometry, head: nat, b: nat, w: TrackerWords): (tr: Tracker)
    requires g.Valid() && b < g.capacity
  {
    LapOfIsAligned(g, b, w.gen);
    var behind := head > 0 && b == BatchId(g, WarmTail(g, head));
    var lap: nat := if behind then WarmTail(g, head) else LapOf(g, b, w.gen);
    Tracker(w.mark, w.written, w.gen, w.state.deadline, w.state.queueStart, w.state.execStart, w.state.execEnd,
            lap, if behind then DONE else UNCLAIMED, if behind then lap else 0, 0)
  }

  /** The output cells that are filled. */
  ghost function WarmOutputs(words: seq<TrackerWords>): (outputs: map<Cell, BatchResult>) {
    map b: nat | b < |words| && words[b].state.output.Some? :: Cell(b, words[b].gen) := words[b].state.output.value
  }

  ghost function WarmRing(g: Geometry, head: nat, words: seq<TrackerWords>, buffers: seq<seq<Row>>, executors: nat)
    : (s: State)
    requires g.Valid() && |words| == g.capacity
  {
    State(head, head, WarmTail(g, head),
          seq(g.capacity, b requires 0 <= b < g.capacity => WarmTracker(g, head, b, words[b])),
          buffers, WarmOutputs(words), {}, [], seq(executors, e => LoadExecutorHead), false,
          map[], {}, map[], multiset{}, multiset{}, multiset{})
  }

  lemma WarmTrackerIsInitial(c: Config, marks: seq<nat>, gens: seq<nat>, b: nat, w: TrackerWords)
    requires c.Valid() && WarmMarks(c.geometry, c.start, marks) && WarmGens(c.geometry, c.start, gens)
    requires b < c.geometry.capacity && w.mark == marks[b] && w.gen == gens[b]
    ensures InitTracker(c, b, WarmTracker(c.geometry, c.start, b, w), WarmTail(c.geometry, c.start))
       <==> w.written == 0 && !w.state.deadline && !w.state.queueStart && !w.state.execStart && !w.state.execEnd
  {
    hide BatchId, LapOf, Multiple;
    var g := c.geometry;
    assert WarmGen(g, c.start, b, gens[b]);
    WarmTailFacts(g, c.start);
    LapOfIsAligned(g, b, gens[b]);
  }

  lemma NoOutputsExactly(words: seq<TrackerWords>)
    ensures WarmOutputs(words) == map[] <==> forall b | 0 <= b < |words| :: words[b].state.output.None?
  {
    if b: nat :| b < |words| && words[b].state.output.Some? {
      assert Cell(b, words[b].gen) in WarmOutputs(words);
    }
  }

  /**
   With at least two batches, a ring whose marks and generations are those that warmups leave
   enters service in an initial state of the protocol exactly when no slot is written and no
   cell of any BatchState is set.
  */
  lemma WarmRingIsInitial(c: Config, words: seq<TrackerWords>, buffers: seq<seq<Row>>, executors: nat)
    requires c.Valid() && WarmWords(c.geometry, c.start, words)
    requires |buffers| == c.geometry.capacity && forall b | 0 <= b < |buffers| :: |buffers[b]| == c.geometry.batchSize
    ensures Init(c, WarmRing(c.geometry, c.start, words, buffers, executors))
       <==> forall b | 0 <= b < |words| :: words[b].written == 0 && Unset(words[b].state)
  {
    hide InitTracker, WarmTracker, WarmMarks, WarmGens, WarmOutputs, BatchId, LapOf;
    var s := WarmRing(c.geometry, c.start, words, buffers, executors);
    WarmTailFacts(c.geometry, c.start);
    NoOutputsExactly(words);
    forall b: nat | b < |words|
      ensures s.trackers[b] == WarmTracker(c.geometry, c.start, b, words[b])
      ensures InitTracker(c, b, s.trackers[b], s.tail)
         <==> words[b].written == 0 && !words[b].state.deadline && !words[b].state.queueStart
              && !words[b].state.execStart && !words[b].state.execEnd
    {
      WarmTrackerIsInitial(c, Marks(words), Gens(words), b, words[b]);
    }
  }

  // ----- splitting a request -----

  /** A write lies in one batch, at the slot of its first row. */
  ghost predicate WriteOk(g: Geometry, first: nat, w: Write)
    requires g.Valid()
  {
    && w.start < w.end
    && w.batch == BatchId(g, first + w.start)
    && w.slot == first + w.start - LowerBound(g, first + w.start)
    && w.slot + (w.end - w.start) <= g.batchSize
  }

  /** Consecutive writes that cover rows [0, end); all but the last reach the end of their batch. */
  ghost predicate SplitUpTo(g: Geometry, first: nat, writes: seq<Write>, end: nat)
    requires g.Valid()
  {
    && (forall i | 0 <= i < |writes| :: WriteOk(g, first, writes[i]))
    && (if writes == [] then end == 0 else writes[0].start == 0 && writes[|writes| - 1].end == end)
    && (forall i, j | 0 <= i && j == i + 1 && j < |writes| ::
          writes[j].start == writes[i].end && writes[i].slot + (writes[i].end - writes[i].start) == g.batchSize)
  }

  /** The last write reaches the end of its batch. */
  ghost predicate LastFull(g: Geometry, writes: seq<Write>) {
    writes != [] ==>
      var last := writes[|writes| - 1];
      last.slot + (last.end - last.start) == g.batchSize
  }

  lemma SplitOneMore(g: Geometry, first: nat, writes: seq<Write>, w: Write)
    requires g.Valid() && SplitUpTo(g, first, writes, w.start) && WriteOk(g, first, w) && LastFull(g, writes)
    ensures SplitUpTo(g, first, writes + [w], w.end)
  {
    hide WriteOk;
  }

  /** The i-th write begins at a batch boundary, i batches after the first one's. */
  lemma {:induction false} WriteBegins(g: Geometry, first: nat, writes: seq<Write>, end: nat, i: nat)
    requires g.Valid() && SplitUpTo(g, first, writes, end) && i < |writes|
    ensures first + writes[i].start - writes[i].slot == LowerBound(g, first) + i * g.batchSize
    decreases i
  {
    hide BatchId;
    assert WriteOk(g, first, writes[i]);
    if i > 0 {
      WriteBegins(g, first, writes, end, i - 1);
      assert WriteOk(g, first, writes[i - 1]);
      var x := first + writes[i].start;
      LowerBoundFacts(g, first + writes[i - 1].start);
      NextAligned(g, LowerBound(g, first + writes[i - 1].start));
      LowerBoundIs(g, x, x);
      Distribute(i, 1, g.batchSize);
    }
  }

  /** How many writes a request of n rows takes: the batches it touches. */
  lemma WritesCount(g: Geometry, first: nat, writes: seq<Write>, n: nat)
    requires g.Valid() && n > 0 && SplitUpTo(g, first, writes, n)
    ensures |writes| == (first - LowerBound(g, first) + n + g.batchSize - 1) / g.batchSize
  {
    hide BatchId, LowerBound;
    var m := |writes|;
    WriteBegins(g, first, writes, n, m - 1);
    var last := writes[m - 1];
    assert WriteOk(g, first, last);
    var total := first - LowerBound(g, first) + n;
    Distribute(m, 1, g.batchSize);
    SlotIsNotNegative(g, first, last);
    QuotientIsUnique(g.batchSize, total + g.batchSize - 1, m, total - 1 - (m - 1) * g.batchSize);
  }

  lemma SlotIsNotNegative(g: Geometry, first: nat, w: Write)
    requires g.Valid()
    ensures first >= LowerBound(g, first) >= 0 && first + w.start >= LowerBound(g, first + w.start) >= 0
  {
    LowerBoundFacts(g, first);
    LowerBoundFacts(g, first + w.start);
  }

  /** Every row of the request is in exactly one write. */
  lemma {:induction false} RowInOneWrite(g: Geometry, first: nat, writes: seq<Write>, n: nat, k: nat)
    requires g.Valid() && SplitUpTo(g, first, writes, n) && k < n
    ensures exists i | 0 <= i < |writes| ::
              && writes[i].start <= k < writes[i].end
              && forall j | 0 <= j < |writes| && j != i :: !(writes[j].start <= k < writes[j].end)
    decreases |writes|
  {
    hide WriteOk;
    var init, last := writes[..|writes| - 1], writes[|writes| - 1];
    WriteIsNotEmpty(g, first, last);
    InitSplit(g, first, writes, n);
    if k < last.start {
      RowInOneWrite(g, first, init, last.start, k);
      var i :| 0 <= i < |init| && init[i].start <= k < init[i].end
               && forall j | 0 <= j < |init| && j != i :: !(init[j].start <= k < init[j].end);
      forall j | 0 <= j < |writes| && j != i ensures !(writes[j].start <= k < writes[j].end) {
        assert j < |init| ==> writes[j] == init[j];
      }
      assert writes[i] == init[i];
    } else {
      forall j | 0 <= j < |writes| && j != |writes| - 1 ensures !(writes[j].start <= k < writes[j].end) {
        EarlierEnds(g, first, writes, n, j);
      }
    }
  }

  lemma WriteIsNotEmpty(g: Geometry, first: nat, w: Write)
    requires g.Valid()
    ensures WriteOk(g, first, w) ==> w.start < w.end
  {
  }

  lemma InitSplit(g: Geometry, first: nat, writes: seq<Write>, n: nat)
    requires g.Valid() && SplitUpTo(g, first, writes, n) && writes != []
    ensures SplitUpTo(g, first, writes[..|writes| - 1], writes[|writes| - 1].start)
  {
    hide WriteOk;
    var init := writes[..|writes| - 1];
    forall i, j | 0 <= i && j == i + 1 && j < |init|
      ensures init[j].start == init[i].end && init[i].slot + (init[i].end - init[i].start) == g.batchSize
    {
      assert init[i] == writes[i] && init[j] == writes[j];
    }
    if init != [] {
      assert writes[|writes| - 1].start == writes[|writes| - 2].end;
    }
  }

  lemma {:induction false} EarlierEnds(g: Geometry, first: nat, writes: seq<Write>, n: nat, j: nat)
    requires g.Valid() && SplitUpTo(g, first, writes, n) && j < |writes| - 1
    ensures writes[j].end <= writes[|writes| - 1].start
    decreases |writes| - j
  {
    hide WriteOk;
    assert writes[j + 1].start == writes[j].end;
    if j + 1 < |writes| - 1 {
      EarlierEnds(g, first, writes, n, j + 1);
      WriteIsNotEmpty(g, first, writes[j + 1]);
    }
  }

  /** Each write is the piece that the protocol's step takes at that point of the request. */
  lemma WriteIsPiece(g: Geometry, first: nat, writes: seq<Write>, n: nat, i: nat)
    requires g.Valid() && SplitUpTo(g, first, writes, n) && i < |writes|
    ensures var w := writes[i];
            && w.start < w.end <= n && w.slot <= first + w.start
            && PieceAt(g, first, w.start, n) == Piece(w.start, first + w.start - w.slot, w.batch, w.end - w.start)
  {
    hide BatchId, LowerBound;
    var w := writes[i];
    assert WriteOk(g, first, w);
    SlotIsNotNegative(g, first, w);
    if i < |writes| - 1 {
      EarlierEnds(g, first, writes, n, i);
      WriteIsNotEmpty(g, first, writes[|writes| - 1]);
      assert writes[i + 1].start == w.end;
    }
  }

  // ----- the ring's object -----

  class SuperTensorBuffer {
    const geometry: Geometry
    const masks: Masks
    var head: Word
    var executorHead: Word
    var tail: Word
    const dirty: array<nat>
    const writtenSlots: array<nat>
    const states: array<BatchState>
    // the unbounded counters
    ghost var H: nat
    ghost var E: nat
    ghost var T: nat
    // which BatchState each tracker holds: how often it has been reset
    ghost var gens: seq<nat>

    ghost predicate Shape() {
      && geometry.Valid() && geometry.ring < HALF && Machine(geometry)
      && masks == MasksOf(geometry)
      && dirty.Length == writtenSlots.Length == states.Length == geometry.capacity
      && dirty != writtenSlots
    }

    /** The words are the counters, wrapped. */
    ghost predicate Synced()
      reads this
    {
      && Shape()
      && head == Wrap(H) && executorHead == Wrap(E) && tail == Wrap(T)
      && |gens| == geometry.capacity
      && Multiple(geometry.batchSize, T) && Multiple(geometry.batchSize, E) && T <= H
    }

    ghost predicate Valid()
      reads this
    {
      Synced() && H <= T + geometry.ring && T <= E <= T + geometry.ring
    }

    /** After warmups: head and executor_head together, tail one batch behind, no slot written, all BatchStates new. */
    ghost predicate Warm()
      reads this, dirty, writtenSlots, states
    {
      && Synced() && E == H && T == WarmTail(geometry, H)
      && WarmMarks(geometry, H, dirty[..]) && WarmGens(geometry, H, gens)
      && forall b | 0 <= b < geometry.capacity :: writtenSlots[b] == 0 && Unset(states[b])
    }

    /** What the trackers hold. */
    ghost function Words(): (words: seq<TrackerWords>)
      requires Synced()
      reads this, dirty, writtenSlots, states
    {
      seq(geometry.capacity,
          b requires 0 <= b < geometry.capacity && Synced() reads this, dirty, writtenSlots, states =>
            TrackerWords(dirty[b], writtenSlots[b], states[b], gens[b]))
    }

    /** new_with_overrides: anything but two powers of two panics. */
    constructor (g: Geometry)
      requires Machine(g)
      ensures Valid() && Warm() && H == E == T == 0 && geometry == g
      ensures fresh(dirty) && fresh(writtenSlots) && fresh(states)
    {
      RingIsPositive(g);
      geometry := g;
      masks := MasksOf(g);
      head, executorHead, tail := 0, 0, 0;
      dirty := new nat[g.capacity](i => 0);
      writtenSlots := new nat[g.capacity](i => 0);
      states := new BatchState[g.capacity](i => NewState());
      H, E, T := 0, 0, 0;
      gens := seq(g.capacity, i => 0);
      new;
      NewIsWarm(g, dirty[..], gens);
    }

    /** A warm ring of at least two batches is an initial state of the protocol. */
    lemma EntersService(c: Config, buffers: seq<seq<Row>>, executors: nat)
      requires Warm() && c.Valid() && c.geometry == geometry && c.start == H
      requires |buffers| == geometry.capacity && forall b | 0 <= b < |buffers| :: |buffers[b]| == geometry.batchSize
      ensures Init(c, WarmRing(geometry, H, Words(), buffers, executors))
    {
      hide Init, Unset, WarmMarks, WarmGens, Multiple;
      assert Marks(Words()) == dirty[..] && Gens(Words()) == gens;
      WarmRingIsInitial(c, Words(), buffers, executors);
    }

    /**
     move_tail_to_next_non_dirty_buffer, undisturbed: tail ends at the first batch that is
     not in state 2, or whose end is not behind head; the batches it passes lose their mark.
    */
    method MoveTail()
      requires Synced() && H <= T + geometry.ring + geometry.batchSize
      modifies this`tail, this`T, dirty
      ensures Synced() && StopsAt(geometry, old(dirty[..]), old(T), H, T)
      ensures Cleared(geometry, old(dirty[..]), old(T), T, dirty[..])
    {
      hide Machine, MasksOf, BatchId, MarkAt, AllFinished, Cleared, Wrap, Multiple, Passed;
      ghost var low, before := T, dirty[..];
      HalfAbove(geometry);
      ClearedNothing(geometry, before, low);
      NothingFinished(geometry, before, low, H);
      while true
        invariant Synced() && low <= T && H <= T + geometry.ring + geometry.batchSize
        invariant AllFinished(geometry, before, low, H, T)
        invariant Cleared(geometry, before, low, T, dirty[..])
        decreases H - T
      {
        SeenParts(geometry, T);
        AlignedBounds(geometry, T);
        TailTest(geometry, T, H);
        var t := RingBufferIndex(tail, masks);
        if NothingToPass(t, head) {
          break;
        }
        MarkStillThere(geometry, before, low, T, dirty[..]);
        var b := t.BatchId();
        if dirty[b] != 2 {
          break;
        }
        NextAligned(geometry, T);
        FinishedOneMore(geometry, before, low, H, T);
        ClearedOneMore(geometry, before, low, T, dirty[..]);
        dirty[b] := 0;
        tail := t.BatchHigherBound();
        T := T + geometry.batchSize;
      }
    }

    /** reset_batch: a new BatchState, no slots written, and the mark for the tail loop. */
    method ResetBatch(b: nat)
      requires Shape() && b < geometry.capacity && |gens| == geometry.capacity
      modifies this`gens, dirty, writtenSlots, states
      ensures dirty[..] == old(dirty[..])[b := 2]
      ensures writtenSlots[..] == old(writtenSlots[..])[b := 0]
      ensures Unset(states[b]) && states[..] == old(states[..])[b := states[b]]
      ensures gens == old(gens)[b := old(gens)[b] + 1]
    {
      states[b] := NewState();
      gens := gens[b := gens[b] + 1];
      writtenSlots[b] := 0;
      dirty[b] := 2;
    }

    /** warmup: one batch is claimed and run outside the protocol, then reset and passed on to the tail loop. */
    method Warmup()
      requires Warm()
      modifies this`head, this`executorHead, this`tail, this`H, this`E, this`T, this`gens, dirty, writtenSlots, states
      ensures Warm() && H == old(H) + geometry.batchSize
    {
      hide Machine, MasksOf, BatchId, Wrap, Multiple, WarmMarks, WarmGens, StopsAt, Cleared;
      HalfAbove(geometry);
      WarmTailFacts(geometry, H);
      WarmBatches(geometry, H);
      CapacityTwo(geometry);
      SeenParts(geometry, H);
      AlignedBounds(geometry, H);
      WrapAddsUp(H, geometry.batchSize);
      NextAligned(geometry, H);
      ghost var first, marks := H, dirty[..];
      var batchStart := head;
      head := WrappingAdd(head, masks.batchSize);
      executorHead := WrappingAdd(executorHead, masks.batchSize);
      H, E := H + geometry.batchSize, E + geometry.batchSize;
      var b := RingBufferIndex(batchStart, masks).BatchId();
      dirty[b] := 1;
      WarmGensNext(geometry, first, gens);
      ResetBatch(b);
      assert dirty[..] == marks[b := 2];
      MoveTail();
      WarmStop(geometry, first, marks, T);
      WarmMarksNext(geometry, first, marks, dirty[..]);
    }

    /** The manager's warmups: three for each session. */
    method WarmupAll(sessions: nat)
      requires Warm() && H == 0
      modifies this`head, this`executorHead, this`tail, this`H, this`E, this`T, this`gens, dirty, writtenSlots, states
      ensures Warm() && H == (3 * sessions) * geometry.batchSize
    {
      hide Warm;
      for i := 0 to sessions
        invariant Warm() && H == (3 * i) * geometry.batchSize
      {
        for k := 0 to 3
          invariant Warm() && H == (3 * i + k) * geometry.batchSize
        {
          Warmup();
          OneMoreBatch(3 * i + k, geometry.batchSize);
        }
      }
    }

    /**
     seal_current_batch, undisturbed, on the lap at u: head is pushed to the end of the
     batch, and the written slots are compared with those reserved before.
    */
    method SealCurrentBatch(lap: Word, ghost u: nat) returns (outcome: SealOutcome)
      requires Synced() && lap == Wrap(u) && Multiple(geometry.batchSize, u)
      requires u + geometry.batchSize <= H + geometry.ring && H <= u + geometry.ring
      modifies this`head, this`H
      ensures Synced()
      ensures H == if u <= old(H) < u + geometry.batchSize then u + geometry.batchSize else old(H)
      ensures outcome.NotWrittenYet? <==> old(H) < u
      ensures BatchId(geometry, u) < writtenSlots.Length
      ensures !outcome.NotWrittenYet? ==>
                var reserved := if old(H) < u + geometry.batchSize then old(H) - u else geometry.batchSize;
                var written := writtenSlots[BatchId(geometry, u)];
                && (outcome.Sealed? <==> written == reserved)
                && (outcome.WaitsForWriters? <==> written < reserved)
    {
      hide Machine, MasksOf, BatchId, Wrap, Multiple, Seen;
      HalfAbove(geometry);
      SeenParts(geometry, u);
      BatchIdFacts(geometry, u);
      SealTests(geometry, u, H);
      var index := RingBufferIndex(lap, masks);
      var remaining: nat := 0;
      if !SealAllowed(index, head) {
        return NotWrittenYet;
      }
      if StillOpen(geometry, index, head) {
        remaining := WrappingSub(index.BatchHigherBound(), head);
        WrapAddsUp(H, remaining);
        head := WrappingAdd(head, remaining);
        H := H + remaining;
      }
      var written, expected := writtenSlots[index.BatchId()], geometry.batchSize - remaining;
      return if written == expected then Sealed else if written < expected then WaitsForWriters else TooManyWritten;
    }

    /** The loop of infer over the batches that rows reserved from `index` on fall into. */
    method SplitRequest(index: Word, n: Word, ghost first: nat) returns (done: seq<Write>)
      requires Shape() && n >= 1 && index == Wrap(first)
      ensures SplitUpTo(geometry, first, done, n)
      ensures |done| == (first - LowerBound(geometry, first) + n + geometry.batchSize - 1) / geometry.batchSize
    {
      hide Machine, MasksOf, BatchId, LowerBound, Wrap, Multiple, SplitUpTo, WriteOk, Seen;
      var current := RingBufferIndex(index, masks);
      var left: nat := n;
      var inputStart: nat := 0;
      done := [];
      NoWrites(geometry, first);
      SeenParts(geometry, first);
      while true
        invariant left > 0 && inputStart + left == n
        invariant current == Seen(geometry, first + inputStart)
        invariant SplitUpTo(geometry, first, done, inputStart) && LastFull(geometry, done)
        decreases left
      {
        ghost var x := first + inputStart;
        SeenParts(geometry, x);
        IndexRefines(geometry, x);
        LowerBoundFacts(geometry, x);
        RoomRefines(geometry, x);
        var room := WrappingSub(current.BatchHigherBound(), current.index);
        var toWrite := if left <= room then left else room;
        var inputEnd := inputStart + toWrite;
        var w := Write(current.BatchId(), current.BatchSlotId(), inputStart, inputEnd);
        WriteIsOk(geometry, first, w);
        SplitOneMore(geometry, first, done, w);
        done := done + [w];
        inputStart := inputEnd;
        left := left - toWrite;
        if left == 0 {
          break;
        }
        current := RingBufferIndex(current.BatchHigherBound(), masks);
        SeenParts(geometry, first + inputStart);
      }
      WritesCount(geometry, first, done, n);
    }

    /**
     infer, undisturbed, up to its copies: a full ring rejects the request; otherwise head
     moves over its rows and they are written in order, split at the batch boundaries.
    */
    method Infer(n: Word) returns (writes: Option<seq<Write>>)
      requires Valid() && n >= 1
      modifies this`head, this`H
      ensures Synced() && (Valid() <==> H <= T + geometry.ring)
      ensures writes.None? <==> old(H) - T >= geometry.ring
      ensures writes.None? ==> H == old(H)
      ensures writes.Some? ==>
                && H == old(H) + n
                && SplitUpTo(geometry, old(H), writes.value, n)
                && |writes.value|
                   == (old(H) - LowerBound(geometry, old(H)) + n + geometry.batchSize - 1) / geometry.batchSize
    {
      hide Machine, MasksOf, BatchId, LowerBound, Wrap, Multiple, SplitUpTo, WriteOk, Seen;
      HalfAbove(geometry);
      FullCheckAgrees(geometry, H, T);
      if ReadsFull(geometry, head, tail) {
        return None;
      }
      ghost var first := H;
      var start := head;
      SeenParts(geometry, H);
      WrapAddsUp(H, n);
      head := WrappingAdd(head, n);
      H := H + n;
      var done := SplitRequest(start, n, first);
      return Some(done);
    }
  }

  lemma NoWrites(g: Geometry, first: nat)
    requires g.Valid()
    ensures SplitUpTo(g, first, [], 0)
  {
  }

  lemma WriteIsOk(g: Geometry, first: nat, w: Write)
    requires g.Valid() && w.start < w.end && w.batch == BatchId(g, first + w.start)
    requires w.slot == first + w.start - LowerBound(g, first + w.start) && w.slot + (w.end - w.start) <= g.batchSize
    ensures WriteOk(g, first, w)
  {
  }

  lemma NothingFinished(g: Geometry, marks: seq<nat>, low: nat, head: nat)
    requires g.Valid() && |marks| == g.capacity
    ensures AllFinished(g, marks, low, head, low)
  {
  }

  lemma NewIsWarm(g: Geometry, marks: seq<nat>, gens: seq<nat>)
    requires g.Valid() && |marks| == |gens| == g.capacity
    requires forall b | 0 <= b < g.capacity :: marks[b] == 0 && gens[b] == 0
    ensures WarmMarks(g, 0, marks) && WarmGens(g, 0, gens)
  {
    forall b: nat | b < g.capacity ensures WarmGen(g, 0, b, gens[b]) {
      BatchOffsetBound(g, b, 0);
    }
  }

  lemma OneMoreBatch(k: nat, n: nat)
    ensures k * n + n == (k + 1) * n
  {
  }
}
