/**
 Which tracker an absolute index falls on, over unbounded counters.

 A lap is one use of one batch id: the absolute indices [u, u + batchSize) for a
 batch-aligned u. Laps are named by that u. Tracker b serves the laps
 b * batchSize, b * batchSize + ring, b * batchSize + 2 * ring, ... in turn.
*/
module RingGeometry {
  import opened Multiples

  datatype Geometry = Geometry(capacity: nat, batchSize: nat, ring: nat) {
    predicate Valid() {
      && capacity >= 1
      && batchSize >= 1
      && ring == capacity * batchSize
    }
  }

  /** Slot 0 of the batch that index a falls in. */
  function LowerBound(g: Geometry, a: nat): (u: int)
    requires g.Valid()
  {
    a - a % g.batchSize
  }

  function BatchId(g: Geometry, a: nat): (b: nat)
    requires g.Valid()
  {
    RingIsPositive(g);
    (a % g.ring) / g.batchSize
  }

  lemma RingIsPositive(g: Geometry)
    requires g.Valid()
    ensures g.ring >= g.batchSize >= 1
    ensures Multiple(g.batchSize, g.ring)
  {
    Product(g.batchSize, g.capacity);
    AtLeastOneStep(g.capacity, g.batchSize);
  }

  /** The lap served by the gen-th BatchState of tracker b. */
  ghost function LapOf(g: Geometry, b: nat, gen: nat): (u: int)
    decreases gen
  {
    if gen == 0 then b * g.batchSize else LapOf(g, b, gen - 1) + g.ring
  }

  lemma {:induction false} LapOfExact(g: Geometry, b: nat, gen: nat)
    ensures LapOf(g, b, gen) == gen * g.ring + b * g.batchSize
    decreases gen
  {
    if gen != 0 {
      LapOfExact(g, b, gen - 1);
      Distribute(gen, 1, g.ring);
    }
  }

  lemma {:induction false} LapOfIsAligned(g: Geometry, b: nat, gen: nat)
    requires g.Valid()
    ensures Multiple(g.batchSize, LapOf(g, b, gen))
    ensures LapOf(g, b, gen) >= 0
    decreases gen
  {
    RingIsPositive(g);
    if gen == 0 {
      Product(g.batchSize, b);
    } else {
      LapOfIsAligned(g, b, gen - 1);
      Sum(g.batchSize, LapOf(g, b, gen - 1), g.ring);
    }
  }

  lemma BatchOffsetBound(g: Geometry, b: nat, j: nat)
    requires g.Valid() && b < g.capacity && j < g.batchSize
    ensures 0 <= b * g.batchSize + j < g.ring
  {
    OffsetBound(g.capacity, b, g.batchSize);
  }

  lemma OffsetBound(k: nat, b: nat, n: nat)
    requires b < k
    ensures 0 <= b * n && b * n + n <= k * n
  {
    Distribute(k, b, n);
    AtLeastOneStep(k - b, n);
    AtLeastOneStep(b, n);
  }

  lemma IndexParts(a: nat, ring: nat, size: nat, gen: nat, b: nat, j: nat)
    requires size > 0 && ring > 0 && j < size
    requires 0 <= b * size + j < ring
    requires a == gen * ring + (b * size + j)
    ensures a / ring == gen && (a % ring) / size == b
  {
    QuotientIsUnique(ring, a, gen, b * size + j);
    QuotientIsUnique(size, b * size + j, b, j);
  }

  /** Every index of a lap of tracker b maps to batch id b, at its own slot. */
  lemma LapBelongsToTracker(g: Geometry, b: nat, gen: nat, j: nat)
    requires g.Valid() && b < g.capacity && j < g.batchSize
    ensures g.ring > 0
    ensures LapOf(g, b, gen) >= 0
    ensures BatchId(g, LapOf(g, b, gen) + j) == b
    ensures LowerBound(g, LapOf(g, b, gen) + j) == LapOf(g, b, gen)
    ensures (LapOf(g, b, gen) + j) / g.ring == gen
  {
    RingIsPositive(g);
    LapOfIsAligned(g, b, gen);
    var u := LapOf(g, b, gen);
    LowerBoundIs(g, u, u + j);
    LapOfExact(g, b, gen);
    BatchOffsetBound(g, b, j);
    IndexParts(u + j, g.ring, g.batchSize, gen, b, j);
  }

  /** LowerBound is the aligned index at most batchSize - 1 below. */
  lemma LowerBoundIs(g: Geometry, u: nat, a: nat)
    requires g.Valid() && Multiple(g.batchSize, u) && u <= a < u + g.batchSize
    ensures LowerBound(g, a) == u
  {
    AgreesWithRemainder(g.batchSize, u);
    var q := u / g.batchSize;
    assert u == q * g.batchSize;
    QuotientIsUnique(g.batchSize, a, q, a - u);
  }

  lemma LowerBoundFacts(g: Geometry, a: nat)
    requires g.Valid()
    ensures 0 <= LowerBound(g, a) <= a < LowerBound(g, a) + g.batchSize
    ensures Multiple(g.batchSize, LowerBound(g, a))
  {
    var q := a / g.batchSize;
    assert a == q * g.batchSize + a % g.batchSize;
    Product(g.batchSize, q);
  }

  lemma QuotientBelow(m: nat, n: nat, k: nat)
    requires n > 0 && m < k * n
    ensures 0 <= m / n < k
    ensures m == (m / n) * n + m % n
  {
    var b := m / n;
    Distribute(b, k, n);
    AtLeastOneStep(b - k, n);
  }

  lemma DivMod(a: nat, n: nat)
    requires n > 0
    ensures a == (a / n) * n + a % n && 0 <= a % n < n && a / n >= 0
  {
  }

  lemma SplitIndex(a: nat, ring: nat, size: nat, capacity: nat)
    requires size > 0 && ring > 0 && ring == capacity * size
    ensures 0 <= (a % ring) / size < capacity
    ensures 0 <= (a % ring) % size < size
    ensures a / ring >= 0
    ensures a == (a / ring) * ring + (((a % ring) / size) * size + (a % ring) % size)
  {
    DivMod(a, ring);
    QuotientBelow(a % ring, size, capacity);
    DivMod(a % ring, size);
  }

  lemma BatchIdFacts(g: Geometry, a: nat)
    requires g.Valid()
    ensures g.ring > 0
    ensures BatchId(g, a) < g.capacity
    ensures LapOf(g, BatchId(g, a), a / g.ring) == LowerBound(g, a)
  {
    RingIsPositive(g);
    SplitIndex(a, g.ring, g.batchSize, g.capacity);
    var m := a % g.ring;
    LapPlusSlot(g, m / g.batchSize, a / g.ring, m % g.batchSize, a);
  }

  lemma LapPlusSlot(g: Geometry, b: nat, gen: nat, j: nat, a: nat)
    requires g.Valid() && b < g.capacity && j < g.batchSize
    requires a == gen * g.ring + (b * g.batchSize + j)
    ensures LapOf(g, b, gen) == LowerBound(g, a)
  {
    LapOfExact(g, b, gen);
    LapBelongsToTracker(g, b, gen, j);
  }

  /** The BatchState identity (b, gen) determines the lap, and conversely. */
  lemma LapDeterminesState(g: Geometry, b: nat, gen: nat, b': nat, gen': nat)
    requires g.Valid() && b < g.capacity && b' < g.capacity
    requires LapOf(g, b, gen) == LapOf(g, b', gen')
    ensures b == b' && gen == gen'
  {
    LapBelongsToTracker(g, b, gen, 0);
    LapBelongsToTracker(g, b', gen', 0);
  }

  /** Within a window of one ring, a tracker serves exactly one lap. */
  lemma {:induction false} OneLapPerWindow(g: Geometry, b: nat, gen: nat, gen': nat)
    requires g.Valid() && gen <= gen'
    requires LapOf(g, b, gen') < LapOf(g, b, gen) + g.ring
    ensures gen == gen'
    decreases gen'
  {
    if gen < gen' {
      LapsGrow(g, b, gen, gen' - 1);
    }
  }

  lemma {:induction false} LapsGrow(g: Geometry, b: nat, gen: nat, gen': nat)
    requires gen <= gen'
    ensures LapOf(g, b, gen) <= LapOf(g, b, gen')
    decreases gen'
  {
    if gen < gen' {
      LapsGrow(g, b, gen, gen' - 1);
    }
  }

  /** Two laps of one tracker inside one window are the same lap. */
  lemma SameWindowSameLap(g: Geometry, low: int, b: nat, gen: nat, own: nat, lap: nat, u: int)
    requires g.Valid() && b < g.capacity
    requires LapOf(g, b, gen) == lap || LapOf(g, b, gen) == lap + g.ring
    requires LapOf(g, b, own) == u
    requires low <= lap < low + g.ring && low <= u < low + g.ring
    ensures lap == u
  {
    if LapOf(g, b, gen) == lap {
      ClosestLap(g, b, gen, own);
    } else if gen == 0 {
      LapOfExact(g, b, 0);
      BatchOffsetBound(g, b, 0);
    } else {
      ClosestLap(g, b, gen - 1, own);
    }
  }

  lemma ClosestLap(g: Geometry, b: nat, gen: nat, gen': nat)
    requires g.Valid()
    requires LapOf(g, b, gen') < LapOf(g, b, gen) + g.ring
    requires LapOf(g, b, gen) < LapOf(g, b, gen') + g.ring
    ensures gen == gen'
  {
    if gen <= gen' {
      OneLapPerWindow(g, b, gen, gen');
    } else {
      OneLapPerWindow(g, b, gen', gen);
    }
  }

  /**
   If tracker b serves lap `lap` and index a maps to b, both inside the window
   that starts at `low`, then `lap` is a's own lap. The tracker's current
   BatchState may already be the one of the next lap.
  */
  lemma WindowLap(g: Geometry, low: int, b: nat, gen: nat, lap: nat, a: nat)
    requires g.Valid() && b < g.capacity && BatchId(g, a) == b
    requires LapOf(g, b, gen) == lap || LapOf(g, b, gen) == lap + g.ring
    requires low <= lap < low + g.ring
    requires low <= LowerBound(g, a) && a < low + g.ring
    ensures lap == LowerBound(g, a)
  {
    BatchIdFacts(g, a);
    LowerBoundFacts(g, a);
    OwnGeneration(g, a);
    SameWindowSameLap(g, low, b, gen, a / g.ring, lap, LowerBound(g, a));
  }

  lemma OwnGeneration(g: Geometry, a: nat)
    requires g.Valid()
    ensures g.ring > 0 && a / g.ring >= 0
  {
    RingIsPositive(g);
  }
}
