/**
 The program's RingBufferIndex: a 64-bit word read through the ring's masks. Its answers
 are those of RingGeometry on unbounded counters, and each of the program's wrapped
 comparisons takes the branch that the true order of the counters asks for.
*/
module RingIndex {
  import opened Multiples
  import opened Words64
  import opened RingGeometry
  import opened RingModel
  import opened RingSteps
  import opened RingInvariant
  import opened RingExecutorProofs
  import opened RingRuns

  /** The masks that PaddedAtomic keeps beside each counter. */
  datatype Masks = Masks(ringMask: Word, batchMask: Word, batchSize: Word)

  datatype RingBufferIndex = RingBufferIndex(index: Word, masks: Masks) {
    function BatchSlotId(): (slot: Word) {
      And(index, masks.batchMask)
    }

    function BatchId(): (b: Word)
      requires masks.batchSize > 0
    {
      And(index, masks.ringMask) / masks.batchSize
    }

    function BatchLowerBound(): (u: Word) {
      WrappingSub(index, BatchSlotId())
    }

    function BatchHigherBound(): (u: Word) {
      WrappingAdd(BatchLowerBound(), masks.batchSize)
    }
  }

  /** What the constructor accepts, for a ring smaller than half the word range. */
  ghost predicate Machine(g: Geometry) {
    && g.Valid()
    && g.ring < HALF
    && g.capacity < WORD && g.batchSize < WORD
    && IsPowerOfTwo(g.capacity) && IsPowerOfTwo(g.batchSize)
  }

  /** A ring below half the word range is accepted exactly if both sizes are powers of two. */
  lemma MachineExactly(capacity: nat, batchSize: nat)
    requires 0 <= capacity * batchSize < HALF
    ensures Machine(Geometry(capacity, batchSize, capacity * batchSize))
       <==> (exists j: nat :: capacity == Pow2(j)) && exists k: nat :: batchSize == Pow2(k)
  {
    hide IsPowerOfTwo, Pow2;
    if capacity >= 1 && batchSize >= 1 {
      AtLeastOneStep(capacity, batchSize);
      AtLeastOneStep(batchSize, capacity);
      IsPowerOfTwoExactly(capacity);
      IsPowerOfTwoExactly(batchSize);
    }
  }

  function MasksOf(g: Geometry): (m: Masks)
    requires g.Valid() && g.ring < WORD
  {
    RingIsPositive(g);
    Masks(g.ring - 1, g.batchSize - 1, g.batchSize)
  }

  /** Counter x, as the program sees it. */
  function Seen(g: Geometry, x: nat): (i: RingBufferIndex)
    requires g.Valid() && g.ring < WORD
  {
    RingBufferIndex(Wrap(x), MasksOf(g))
  }

  lemma PowersOf(g: Geometry) returns (j: nat, k: nat)
    requires Machine(g)
    ensures g.batchSize == Pow2(j) && g.ring == Pow2(k)
    ensures Multiple(g.batchSize, WORD) && Multiple(g.ring, WORD)
  {
    hide And;
    IsPowerOfTwoExactly(g.batchSize);
    IsPowerOfTwoExactly(g.capacity);
    j :| g.batchSize == Pow2(j);
    var i: nat :| g.capacity == Pow2(i);
    PowersMultiply(i, j);
    k := i + j;
    DividesWord(g.batchSize, j);
    DividesWord(g.ring, k);
  }

  /** Masking a wrapped counter with 2^k - 1 is the true counter's remainder. */
  lemma MaskedCounter(x: nat, n: nat, k: nat)
    requires n == Pow2(k) && Multiple(n, WORD)
    ensures And(Wrap(x), n - 1) == x % n
  {
    hide Pow2, And;
    MaskIsRemainder(Wrap(x), k);
    RemainderOfWrap(x, n);
  }

  /** The masked words, as terms of their own: division and remainder only meet in the callers. */
  lemma SeenParts(g: Geometry, x: nat)
    requires g.Valid() && g.ring < WORD
    ensures Seen(g, x).index == Wrap(x) && Seen(g, x).masks == MasksOf(g)
    ensures MasksOf(g).ringMask == g.ring - 1 && MasksOf(g).batchMask == g.batchSize - 1
    ensures MasksOf(g).batchSize == g.batchSize
    ensures g.batchSize >= 1
  {
  }

  lemma SlotRefines(g: Geometry, x: nat)
    requires Machine(g)
    ensures Seen(g, x).BatchSlotId() == x % g.batchSize
    ensures And(Wrap(x), g.ring - 1) == x % g.ring
  {
    hide And, Pow2, Multiple, Wrap, Seen, MasksOf;
    var j, k := PowersOf(g);
    SeenParts(g, x);
    MaskedCounter(x, g.ring, k);
    MaskedCounter(x, g.batchSize, j);
  }

  lemma BoundsRefine(g: Geometry, x: nat, slot: Word)
    requires g.Valid() && g.ring < WORD && Seen(g, x).BatchSlotId() == slot == x - LowerBound(g, x)
    ensures Seen(g, x).BatchLowerBound() == Wrap(LowerBound(g, x))
    ensures Seen(g, x).BatchHigherBound() == Wrap(LowerBound(g, x) + g.batchSize)
  {
    hide And, Seen, MasksOf, LowerBound, Wrap;
    SeenParts(g, x);
    WrapAddsUp(x, slot);
    WrapAddsUp(LowerBound(g, x), g.batchSize);
  }

  lemma BatchRefines(g: Geometry, x: nat)
    requires g.Valid() && g.ring < WORD && g.ring >= 1 && And(Wrap(x), g.ring - 1) == x % g.ring
    ensures Seen(g, x).BatchId() == BatchId(g, x)
  {
    hide And, Seen, MasksOf, Wrap;
    SeenParts(g, x);
  }

  /** The masked reads of a wrapped counter are the division and remainder of the true one. */
  lemma IndexRefines(g: Geometry, x: nat)
    requires Machine(g)
    ensures Seen(g, x).BatchId() == BatchId(g, x)
    ensures Seen(g, x).BatchSlotId() == x - LowerBound(g, x)
    ensures Seen(g, x).BatchLowerBound() == Wrap(LowerBound(g, x))
    ensures Seen(g, x).BatchHigherBound() == Wrap(LowerBound(g, x) + g.batchSize)
  {
    hide And, Seen, MasksOf, Wrap, BatchId;
    RingIsPositive(g);
    SlotRefines(g, x);
    BatchRefines(g, x);
    BoundsRefine(g, x, x % g.batchSize);
  }

  // ----- comparisons -----

  /** The capacity checks of infer and execute_on_batch; an index behind tail reads as full. */
  predicate ReadsFull(g: Geometry, index: Word, tail: Word) {
    WrappingSub(index, tail) >= g.ring
  }

  lemma FullCheckAgrees(g: Geometry, index: nat, tail: nat)
    requires g.ring < HALF && tail - (WORD - g.ring) <= index < tail + WORD
    ensures ReadsFull(g, Wrap(index), Wrap(tail)) <==> !BelowRing(g, index, tail)
  {
    WrappedDifference(index, tail);
    WrapFacts(index - tail);
  }

  /** The shape of the program's tests "a is after b": their wrapped distance is small. */
  predicate NotBehind(a: Word, b: Word) {
    WrappingSub(a, b) < HALF
  }

  lemma NotBehindAgrees(a: nat, b: nat)
    requires a < b + HALF && b <= a + HALF
    ensures NotBehind(Wrap(a), Wrap(b)) <==> b <= a
    ensures b <= a ==> WrappingSub(Wrap(a), Wrap(b)) == a - b
    ensures WrappingSub(Wrap(a), Wrap(b)) == 0 <==> a == b
  {
    WrappedDifference(a, b);
    WrapFacts(a - b);
  }

  /** For counters less than a cycle apart: the test is right up to half a cycle, and wrong beyond. */
  lemma NotBehindExactly(a: nat, b: nat)
    requires a < b + HALF && b < a + WORD
    ensures (NotBehind(Wrap(a), Wrap(b)) <==> b <= a) <==> b <= a + (WORD - HALF)
  {
    WrappedDifference(a, b);
    WrapFacts(a - b);
  }

  /** The seal's `dist_to_higher > 0 && dist_to_higher < HALF_RANGE`. */
  predicate StillOpen(g: Geometry, lap: RingBufferIndex, head: Word) {
    0 < WrappingSub(lap.BatchHigherBound(), head) < HALF
  }

  /** The seal's assertion on the head it has loaded. */
  predicate SealAllowed(lap: RingBufferIndex, head: Word) {
    NotBehind(head, lap.BatchLowerBound())
  }

  /** The tail loop's exit: no batch but the newest is behind head. */
  predicate NothingToPass(tail: RingBufferIndex, head: Word) {
    NotBehind(tail.BatchHigherBound(), head)
  }

  lemma AlignedBounds(g: Geometry, u: nat)
    requires Machine(g) && Multiple(g.batchSize, u)
    ensures Seen(g, u).BatchLowerBound() == Wrap(u)
    ensures Seen(g, u).BatchHigherBound() == Wrap(u + g.batchSize)
    ensures Seen(g, u).BatchId() == BatchId(g, u)
  {
    hide And, Pow2, BatchId, IsPowerOfTwo;
    IndexRefines(g, u);
    LowerBoundIs(g, u, u);
    hide LowerBound, Multiple;
  }

  /** In every run the seal's 64-bit tests answer the true questions about head, and the gap is exact. */
  lemma SealRefines(c: Config, run: seq<State>, i: nat, e: nat)
    requires Machine(c.geometry) && Run(c, run) && i < |run| && e < |run[i].executors|
    requires run[i].executors[e].SealLoad?
    ensures var s := run[i]; var lap := s.executors[e].lap; var seen := Seen(c.geometry, lap);
            && (SealAllowed(seen, Wrap(s.head)) <==> lap <= s.head)
            && (StillOpen(c.geometry, seen, Wrap(s.head)) <==> s.head < lap + c.geometry.batchSize)
            && (s.head < lap + c.geometry.batchSize ==>
                  WrappingSub(seen.BatchHigherBound(), Wrap(s.head)) == lap + c.geometry.batchSize - s.head)
            && seen.BatchId() == s.executors[e].batch
  {
    hide Inv, Run, Machine, BatchId, Seen, SealAllowed, StillOpen;
    RunKeeps(c, run, i);
    SealDistances(c, Calm(run[i]), e);
    SealTests(c.geometry, run[i].executors[e].lap, run[i].head);
  }

  lemma SealTests(g: Geometry, lap: nat, head: nat)
    requires Machine(g) && Multiple(g.batchSize, lap)
    requires lap + g.batchSize <= head + g.ring && head <= lap + g.ring
    ensures g.Valid() && g.ring < WORD
    ensures var seen := Seen(g, lap);
            && (SealAllowed(seen, Wrap(head)) <==> lap <= head)
            && (StillOpen(g, seen, Wrap(head)) <==> head < lap + g.batchSize)
            && (head < lap + g.batchSize ==>
                  WrappingSub(seen.BatchHigherBound(), Wrap(head)) == lap + g.batchSize - head)
            && seen.BatchId() == BatchId(g, lap)
  {
    hide Machine, Multiple, BatchId, And, Wrap, WrappingSub, WrappingAdd, MasksOf;
    HalfAbove(g);
    AlignedBounds(g, lap);
    NotBehindAgrees(head, lap);
    NotBehindAgrees(lap + g.batchSize, head);
  }

  lemma HalfAbove(g: Geometry)
    requires Machine(g)
    ensures g.Valid() && g.ring < HALF && g.batchSize <= g.ring
  {
    RingIsPositive(g);
  }

  /** head and a claimed lap are within one ring of each other. */
  lemma SealDistances(c: Config, s: State, e: nat)
    requires Inv(c, s) && e < |s.executors| && Holding(s.executors[e])
    ensures var lap := s.executors[e].lap;
            && Multiple(c.geometry.batchSize, lap) && c.geometry.Valid()
            && lap + c.geometry.batchSize <= s.head + c.geometry.ring && s.head <= lap + c.geometry.ring
            && BatchId(c.geometry, lap) == s.executors[e].batch
  {
    hide Inv, LapOf, BatchId, RunOk;
    HolderParts(c, s, e);
    CountersOf(c, s);
    var b := s.executors[e].batch;
    TrackerOf(c, s, b);
    RingIsPositive(c.geometry);
    Sum(c.geometry.batchSize, s.tail, c.geometry.ring);
    Gap(c.geometry.batchSize, s.trackers[b].lap, s.tail + c.geometry.ring);
    LapIsOfTracker(c.geometry, b, s.trackers[b].gen, s.trackers[b].lap);
  }

  /**
   The tail loop's 64-bit exit test, on the tail that the executor loaded before: it answers
   the true question exactly as long as head is not more than half a cycle past that batch.
  */
  lemma TailTestRefines(c: Config, run: seq<State>, i: nat, e: nat)
    requires Machine(c.geometry) && Run(c, run) && i < |run| && e < |run[i].executors| && run[i].executors[e].TailHead?
    requires run[i].head < run[i].executors[e].t + c.geometry.batchSize + WORD
    ensures var head := run[i].head; var t := run[i].executors[e].t; var size := c.geometry.batchSize;
            (NothingToPass(Seen(c.geometry, t), Wrap(head)) <==> !(t + size < head))
            <==> head <= t + size + (WORD - HALF)
  {
    hide Inv, Run, Machine, BatchId, Seen, NothingToPass, Calm;
    RunKeeps(c, run, i);
    HolderParts(c, Calm(run[i]), e);
    CountersOf(c, Calm(run[i]));
    HalfAbove(c.geometry);
    TailTest(c.geometry, run[i].executors[e].t, run[i].head);
  }

  lemma TailTest(g: Geometry, t: nat, head: nat)
    requires Machine(g) && Multiple(g.batchSize, t) && t <= head < t + g.batchSize + WORD
    ensures g.Valid() && g.ring < WORD
    ensures (NothingToPass(Seen(g, t), Wrap(head)) <==> !(t + g.batchSize < head))
            <==> head <= t + g.batchSize + (WORD - HALF)
  {
    hide Machine, Multiple, BatchId, And, Wrap, WrappingSub, WrappingAdd, MasksOf;
    HalfAbove(g);
    AlignedBounds(g, t);
    NotBehindExactly(t + g.batchSize, head);
  }

  /** The room left in a batch, as the program computes it. */
  lemma RoomRefines(g: Geometry, x: nat)
    requires Machine(g)
    ensures g.Valid() && g.ring < WORD
    ensures var seen := Seen(g, x);
            WrappingSub(seen.BatchHigherBound(), seen.index) == LowerBound(g, x) + g.batchSize - x > 0
  {
    hide Machine, MasksOf, Wrap, LowerBound;
    HalfAbove(g);
    SeenParts(g, x);
    IndexRefines(g, x);
    LowerBoundFacts(g, x);
    WrappedDifference(LowerBound(g, x) + g.batchSize, x);
    WrapFacts(LowerBound(g, x) + g.batchSize - x);
  }
}
