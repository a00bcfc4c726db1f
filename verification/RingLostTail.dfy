/**
 Moving tail takes two CASes: one takes the dirty mark of the batch behind tail, one
 advances tail. When the first succeeds and the second does not, nobody can ever move
 tail over that batch again.
*/
module RingLostTail {
  import opened InferTypes
  import opened RingGeometry
  import opened RingModel
  import opened RingSteps
  import opened RingEffects
  import opened RingInvariant
  import opened RingExecutorProofs
  import opened RingRuns

  ghost predicate NobodyPasses(executors: seq<ExecutorPc>, lap: nat) {
    forall e {:trigger executors[e]} | 0 <= e < |executors| :: !(executors[e].TailCas? && executors[e].t == lap)
  }

  /** Tracker b has finished its lap, its mark is gone, and no executor is about to move tail over it. */
  ghost predicate Lost(s: State, b: nat) {
    && b < |s.trackers|
    && s.trackers[b].stage == DONE && s.trackers[b].dirty != 2
    && NobodyPasses(s.executors, s.trackers[b].lap)
  }

  // ----- a lost lap stays lost -----

  lemma ProducerKeepsLost(c: Config, s: State, p: nat, weakFail: bool, b: nat)
    requires Inv(c, s) && ProducerEnabled(c, s, p) && Lost(s, b)
    ensures Lost(ProducerStep(c, s, p, weakFail), b)
    ensures ProducerStep(c, s, p, weakFail).trackers[b].lap == s.trackers[b].lap
  {
    hide Inv, ProducerStep, ProducerEnabled;
    ProducerEffects(c, s, p, weakFail, 0, b);
    if Writing(s.producers[p].pc) {
      WriterNotFull(c, s, p);
    }
  }

  /** A finished, unmarked lap is out of reach of every executor but one that is about to pass it. */
  lemma LostIsOutOfReach(c: Config, s: State, e: nat, b: nat)
    requires Inv(c, s) && c.geometry.Valid() && e < |s.executors| && Lost(s, b)
    ensures !Reaches(c, s, s.executors[e], b)
  {
    hide Inv, BatchId;
    HolderParts(c, s, e);
    var pc := s.executors[e];
    if pc.Claim? && pc.e == s.executorHead {
      ClaimFacts(c, s, e);
    }
    if pc.TailCas? && pc.t == s.tail {
      AdvanceFacts(c, s, e);
    }
  }

  lemma LapBatch(c: Config, s: State, b: nat)
    requires Inv(c, s) && b < |s.trackers|
    ensures c.geometry.Valid() && BatchId(c.geometry, s.trackers[b].lap) == b
  {
    hide Inv, BatchId, LapOf;
    ConfigOf(c, s);
    TrackerOf(c, s, b);
    HasCapacity(c, s);
    LapIsOfTracker(c.geometry, b, s.trackers[b].gen, s.trackers[b].lap);
  }

  lemma HasCapacity(c: Config, s: State)
    requires Inv(c, s)
    ensures |s.trackers| == c.geometry.capacity
  {
  }

  lemma ExecutorKeepsLost(c: Config, s: State, e: nat, weakFail: bool, result: BatchResult, b: nat)
    requires Inv(c, s) && e < |s.executors| && ExecutorEnabled(c, s, e, result) && Lost(s, b)
    ensures Lost(ExecutorStep(c, s, e, weakFail, result), b)
    ensures ExecutorStep(c, s, e, weakFail, result).trackers[b].lap == s.trackers[b].lap
  {
    hide Inv, ExecutorStep, ExecutorEnabled, BatchId, Reaches;
    LapBatch(c, s, b);
    LostIsOutOfReach(c, s, e, b);
    var s' := ExecutorStep(c, s, e, weakFail, result);
    ExecutorEffects(c, s, e, weakFail, result, b, e);
    forall d {:trigger s'.executors[d]} | 0 <= d < |s'.executors|
      ensures !(s'.executors[d].TailCas? && s'.executors[d].t == s.trackers[b].lap)
    {
      ExecutorEffects(c, s, e, weakFail, result, b, d);
    }
  }

  lemma StepKeepsLost(c: Config, s: State, s': State, b: nat)
    requires Inv(c, s) && SafeNext(c, s, s') && Lost(s, b)
    ensures Lost(s', b) && s'.trackers[b].lap == s.trackers[b].lap
  {
    hide Inv, ProducerStep, ExecutorStep, ProducerEnabled, ExecutorEnabled, GrantFits;
    var a :| Enabled(c, s, a) && GrantFits(c, s, a) && s' == Apply(c, s, a);
    match a {
      case Arrive(_) =>
      case Produce(p, weakFail) => ProducerKeepsLost(c, s, p, weakFail, b);
      case Execute(e, weakFail, result) =>
            ExecutorEffects(c, s, e, weakFail, result, 0, e);
        ExecutorKeepsLost(c, s, e, weakFail, result, b);
    }
  }

  /** tail never passes a lost lap, so head never gets further than one ring beyond it. */
  lemma {:induction false} LostForever(c: Config, run: seq<State>, i: nat, j: nat, b: nat)
    requires Run(c, run) && i <= j < |run| && Lost(run[i], b)
    ensures Lost(run[j], b) && run[j].trackers[b].lap == run[i].trackers[b].lap
    ensures run[j].tail <= run[i].trackers[b].lap
    ensures run[j].head <= run[i].trackers[b].lap + c.geometry.ring
    decreases j
  {
    hide Inv, Run, SafeNext, Lost;
    if i < j {
      LostForever(c, run, i, j - 1, b);
      RunKeeps(c, run, j - 1);
      RunStep(c, run, j);
      StepKeepsLost(c, run[j - 1], run[j], b);
    }
    RunKeeps(c, run, j);
    LostBounds(c, run[j], b);
  }

  lemma LostBounds(c: Config, s: State, b: nat)
    requires Inv(c, Calm(s)) && Lost(s, b)
    ensures s.tail <= s.trackers[b].lap && s.head <= s.trackers[b].lap + c.geometry.ring
  {
    hide Inv, LapOf, Calm;
    TrackerOf(c, Calm(s), b);
    CountersOf(c, Calm(s));
  }

  // ----- how a lap gets lost -----

  /** At most one executor is about to move tail from where it is. */
  ghost predicate OnePasser(executors: seq<ExecutorPc>, tail: nat) {
    forall e, d {:trigger executors[e], executors[d]} |
      0 <= e < |executors| && 0 <= d < |executors| && executors[e].TailCas? && executors[d].TailCas?
      && executors[e].t == tail && executors[d].t == tail :: e == d
  }

  lemma PasserFacts(c: Config, s: State, e: nat)
    requires Inv(c, s) && e < |s.executors|
    ensures PassOk(s.executors[e], s.tail, s.trackers) && TailOk(c.geometry, s.executors[e], s.head, s.tail)
  {
  }

  lemma TailTracker(c: Config, s: State)
    requires Inv(c, s)
    ensures c.geometry.Valid() && c.geometry.ring >= c.geometry.batchSize >= 1
    ensures BatchId(c.geometry, s.tail) < |s.trackers| && s.trackers[BatchId(c.geometry, s.tail)].lap == s.tail
  {
    hide Inv, BatchId;
    CountersOf(c, s);
    RingIsPositive(c.geometry);
    TrackerAt(c, s, s.tail);
  }

  lemma PairKept(c: Config, s: State, e: nat, weakFail: bool, result: BatchResult, x: nat, y: nat)
    requires Inv(c, s) && ExecutorEnabled(c, s, e, result) && OnePasser(s.executors, s.tail)
    requires x < |s.executors| && y < |s.executors|
    ensures var s' := ExecutorStep(c, s, e, weakFail, result);
            && |s'.executors| == |s.executors|
            && (s'.executors[x].TailCas? && s'.executors[y].TailCas?
                 && s'.executors[x].t == s'.tail && s'.executors[y].t == s'.tail
                ==> x == y)
  {
    hide Inv, ExecutorStep, ExecutorEnabled, BatchId, Reaches;
    TailTracker(c, s);
    var b := BatchId(c.geometry, s.tail);
    ExecutorEffects(c, s, e, weakFail, result, b, x);
    ExecutorEffects(c, s, e, weakFail, result, b, y);
    PasserFacts(c, s, x);
    PasserFacts(c, s, y);
  }

  lemma StepKeepsOnePasser(c: Config, s: State, s': State)
    requires Inv(c, s) && SafeNext(c, s, s') && OnePasser(s.executors, s.tail)
    ensures OnePasser(s'.executors, s'.tail)
  {
    hide Inv, ProducerStep, ExecutorStep, ProducerEnabled, ExecutorEnabled, GrantFits;
    var a :| Enabled(c, s, a) && GrantFits(c, s, a) && s' == Apply(c, s, a);
    match a {
      case Arrive(_) =>
      case Produce(p, weakFail) =>
        ProducerEffects(c, s, p, weakFail, 0, 0);
      case Execute(e, weakFail, result) =>
            ExecutorEffects(c, s, e, weakFail, result, 0, e);
        PairKept(c, s, e, weakFail, result, e, e);
        forall x, y {:trigger s'.executors[x], s'.executors[y]} |
          0 <= x < |s'.executors| && 0 <= y < |s'.executors| && s'.executors[x].TailCas? && s'.executors[y].TailCas?
          && s'.executors[x].t == s'.tail && s'.executors[y].t == s'.tail
          ensures x == y
        {
          PairKept(c, s, e, weakFail, result, x, y);
        }
    }
  }

  lemma {:induction false} RunHasOnePasser(c: Config, run: seq<State>, i: nat)
    requires Run(c, run) && i < |run|
    ensures OnePasser(run[i].executors, run[i].tail)
    decreases i
  {
    hide Inv, Init, SafeNext, OnePasser;
    if i == 0 {
      RunStart(c, run);
      NobodyAtFirst(c, run[0]);
    } else {
      RunHasOnePasser(c, run, i - 1);
      RunKeeps(c, run, i - 1);
      RunStep(c, run, i);
      StepKeepsOnePasser(c, run[i - 1], run[i]);
    }
  }

  lemma NobodyAtFirst(c: Config, s: State)
    requires Init(c, s)
    ensures OnePasser(s.executors, s.tail)
  {
  }

  // ----- how a lap gets lost, exactly -----

  /**
   The two ways to lose tracker b's lap. A weak CAS on tail fails although tail is as
   expected, after the dirty mark has been taken. Or an executor that read tail before it
   moved on takes the mark of the tracker's later lap; its CAS on tail is bound to fail.
  */
  ghost predicate Loses(c: Config, s: State, a: Action, b: nat)
    requires c.geometry.Valid()
  {
    && a.Execute? && a.e < |s.executors| && b < |s.trackers|
    && var pc := s.executors[a.e];
       || (pc.TailCas? && pc.t == s.tail && a.weakFail && BatchId(c.geometry, pc.t) == b)
       || (pc.TailDirtyCas? && pc.t < s.tail && !a.weakFail
              && BatchId(c.geometry, pc.t) == b && s.trackers[b].dirty == 2)
  }

  lemma FailedTailCas(c: Config, s: State, e: nat, result: BatchResult)
    requires ExecutorEnabled(c, s, e, result) && e < |s.executors| && s.executors[e].TailCas?
    ensures ExecutorStep(c, s, e, true, result) == SetExecutor(s, e, LoadExecutorHead)
  {
  }

  lemma FailedTailCasLoses(c: Config, s: State, e: nat, result: BatchResult)
    requires Inv(c, s) && OnePasser(s.executors, s.tail) && ExecutorEnabled(c, s, e, result)
    requires e < |s.executors| && s.executors[e].TailCas? && s.executors[e].t == s.tail
    ensures c.geometry.Valid() && Lost(ExecutorStep(c, s, e, true, result), BatchId(c.geometry, s.tail))
  {
    hide Inv, ExecutorEnabled, ExecutorStep, BatchId;
    TailTracker(c, s);
    PasserFacts(c, s, e);
    FailedTailCas(c, s, e, result);
  }

  lemma StaleDirtyCas(c: Config, s: State, e: nat, result: BatchResult, b: nat)
    requires ExecutorEnabled(c, s, e, result) && e < |s.executors| && s.executors[e].TailDirtyCas?
    requires b == BatchId(c.geometry, s.executors[e].t) && b < |s.trackers| && s.trackers[b].dirty == 2
    ensures ExecutorStep(c, s, e, false, result)
         == SetTracker(SetExecutor(s, e, TailCas(s.executors[e].t)), b, s.trackers[b].(dirty := 0))
  {
    hide BatchId;
  }

  lemma StaleDirtyCasLoses(c: Config, s: State, e: nat, result: BatchResult, b: nat)
    requires Inv(c, s) && ExecutorEnabled(c, s, e, result)
    requires e < |s.executors| && s.executors[e].TailDirtyCas? && s.executors[e].t < s.tail
    requires c.geometry.Valid() && b == BatchId(c.geometry, s.executors[e].t) && b < |s.trackers|
    requires s.trackers[b].dirty == 2
    ensures Lost(ExecutorStep(c, s, e, false, result), b)
  {
    hide Inv, ExecutorEnabled, ExecutorStep, BatchId, LapOf;
    TrackerOf(c, s, b);
    StaleDirtyCas(c, s, e, result, b);
    forall d {:trigger s.executors[d]} | 0 <= d < |s.executors|
      ensures !(s.executors[d].TailCas? && s.executors[d].t == s.trackers[b].lap)
    {
      PasserFacts(c, s, d);
    }
  }

  /** A successful CAS on tail hands the tracker its next lap. */
  lemma AdvanceRenews(c: Config, s: State, e: nat, result: BatchResult, b: nat)
    requires ExecutorEnabled(c, s, e, result) && e < |s.executors| && s.executors[e].TailCas?
    requires s.executors[e].t == s.tail
    requires b == BatchId(c.geometry, s.tail) && b < |s.trackers|
    ensures b < |ExecutorStep(c, s, e, false, result).trackers|
    ensures ExecutorStep(c, s, e, false, result).trackers[b].stage == UNCLAIMED
  {
    hide BatchId;
  }

  lemma WeakDirtyCas(c: Config, s: State, e: nat, result: BatchResult)
    requires ExecutorEnabled(c, s, e, result) && e < |s.executors| && s.executors[e].TailDirtyCas?
    ensures ExecutorStep(c, s, e, true, result).trackers == s.trackers
  {
    hide BatchId;
  }

  /** Before a step that may write to tracker b, its lap is not finished, or its mark is there. */
  lemma ReachedIsOpen(c: Config, s: State, e: nat, b: nat)
    requires Inv(c, s) && c.geometry.Valid() && e < |s.executors| && b < |s.trackers|
    requires Reaches(c, s, s.executors[e], b)
    ensures var pc := s.executors[e];
            || s.trackers[b].stage != DONE
            || (pc.TailDirtyCas? && BatchId(c.geometry, pc.t) == b && s.trackers[b].dirty == 2)
            || (pc.TailCas? && pc.t == s.tail && BatchId(c.geometry, s.tail) == b)
  {
    hide Inv, BatchId;
    HolderParts(c, s, e);
    if s.executors[e].Claim? && s.executors[e].e == s.executorHead {
      ClaimFacts(c, s, e);
    }
  }

  /** An executor step that loses a batch is one of the two. */
  lemma ExecutorLosesOnly(c: Config, s: State, e: nat, weakFail: bool, result: BatchResult, b: nat)
    requires Inv(c, s) && ExecutorEnabled(c, s, e, result) && e < |s.executors| && c.geometry.Valid()
    requires b < |s.trackers| && !Lost(s, b) && Lost(ExecutorStep(c, s, e, weakFail, result), b)
    ensures Loses(c, s, Execute(e, weakFail, result), b)
  {
    hide Inv, ExecutorEnabled, ExecutorStep, BatchId;
    LapBatch(c, s, b);
    HasCapacity(c, s);
    TailTracker(c, s);
    ExecutorEffects(c, s, e, weakFail, result, b, e);
    var s' := ExecutorStep(c, s, e, weakFail, result);
    if Reaches(c, s, s.executors[e], b) {
      ReachedStep(c, s, e, weakFail, result, b);
    } else {
      var d :| 0 <= d < |s.executors| && s.executors[d].TailCas? && s.executors[d].t == s.trackers[b].lap;
      ExecutorEffects(c, s, e, weakFail, result, b, d);
      assert d == e;
      LeavesTailCas(c, s, e, b);
    }
  }

  /** The lap at tracker b is at or beyond tail, and an executor's tail is not ahead of it. */
  lemma LeavesTailCas(c: Config, s: State, e: nat, b: nat)
    requires Inv(c, s) && e < |s.executors| && s.executors[e].TailCas? && c.geometry.Valid()
    requires b < |s.trackers| && s.executors[e].t == s.trackers[b].lap
    ensures s.executors[e].t == s.tail && BatchId(c.geometry, s.tail) == b
  {
    hide Inv, BatchId, LapOf;
    LapBatch(c, s, b);
    TrackerOf(c, s, b);
    PasserFacts(c, s, e);
  }

  lemma ReachedStep(c: Config, s: State, e: nat, weakFail: bool, result: BatchResult, b: nat)
    requires Inv(c, s) && ExecutorEnabled(c, s, e, result) && e < |s.executors| && c.geometry.Valid()
    requires b < |s.trackers| && Reaches(c, s, s.executors[e], b) && Lost(ExecutorStep(c, s, e, weakFail, result), b)
    ensures Loses(c, s, Execute(e, weakFail, result), b)
  {
    hide Inv, ExecutorEnabled, ExecutorStep, BatchId;
    ReachedIsOpen(c, s, e, b);
    ExecutorEffects(c, s, e, weakFail, result, b, e);
    TailTracker(c, s);
    PasserFacts(c, s, e);
    var pc := s.executors[e];
    if pc.TailDirtyCas? && BatchId(c.geometry, pc.t) == b && s.trackers[b].dirty == 2 {
      if weakFail {
        WeakDirtyCas(c, s, e, result);
      } else {
        StaleDirtyCas(c, s, e, result, b);
        assert SetExecutor(s, e, TailCas(pc.t)).executors[e] == TailCas(pc.t);
      }
    } else if pc.TailCas? && pc.t == s.tail && BatchId(c.geometry, s.tail) == b && !weakFail {
      AdvanceRenews(c, s, e, result, b);
    }
  }

  /** No producer step loses a batch. */
  lemma ProducerLosesNone(c: Config, s: State, p: nat, weakFail: bool, b: nat)
    requires Inv(c, s) && ProducerEnabled(c, s, p) && b < |s.trackers| && !Lost(s, b)
    ensures !Lost(ProducerStep(c, s, p, weakFail), b)
  {
    hide Inv, ProducerStep, ProducerEnabled;
    ProducerEffects(c, s, p, weakFail, 0, b);
    if Writing(s.producers[p].pc) {
      WriterNotFull(c, s, p);
    }
  }

  /** A step loses a batch exactly when it is one of the two CASes. */
  lemma LosesExactly(c: Config, s: State, a: Action, b: nat)
    requires Inv(c, s) && OnePasser(s.executors, s.tail) && Enabled(c, s, a) && b < |s.trackers| && !Lost(s, b)
    ensures c.geometry.Valid()
    ensures Lost(Apply(c, s, a), b) <==> Loses(c, s, a, b)
  {
    hide Inv, ProducerStep, ExecutorStep, ProducerEnabled, ExecutorEnabled, OnePasser, BatchId, Lost;
    TailTracker(c, s);
    match a {
      case Arrive(rows) => ArrivalLosesNone(s, rows, b);
      case Produce(p, weakFail) => ProducerLosesNone(c, s, p, weakFail, b);
      case Execute(e, weakFail, result) =>
            ExecutorEffects(c, s, e, weakFail, result, 0, e);
        if Lost(ExecutorStep(c, s, e, weakFail, result), b) {
          ExecutorLosesOnly(c, s, e, weakFail, result, b);
        }
        if Loses(c, s, a, b) {
          if s.executors[e].TailCas? {
            FailedTailCasLoses(c, s, e, result);
          } else {
            StaleDirtyCasLoses(c, s, e, result, b);
          }
        }
    }
  }

  lemma ArrivalLosesNone(s: State, rows: seq<Row>, b: nat)
    requires !Lost(s, b)
    ensures !Lost(s.(producers := s.producers + [Producer(rows, 0, LoadHead, [])]), b)
  {
  }

  /** The step from state i to state i + 1 is one of the two CASes. */
  ghost predicate LosingStep(c: Config, run: seq<State>, i: nat, b: nat)
    requires c.geometry.Valid() && i + 1 < |run|
  {
    exists a :: Enabled(c, run[i], a) && run[i + 1] == Apply(c, run[i], a) && Loses(c, run[i], a, b)
  }

  /** In a run a batch gets lost from one state to the next exactly by one of the two CASes. */
  lemma LostStepExactly(c: Config, run: seq<State>, i: nat, b: nat)
    requires Run(c, run) && i + 1 < |run| && b < |run[i].trackers| && !Lost(run[i], b)
    ensures c.geometry.Valid()
    ensures Lost(run[i + 1], b) <==> LosingStep(c, run, i, b)
  {
    hide Inv, Run, Enabled, Apply, GrantFits, Loses, Lost, OnePasser;
    RunKeeps(c, run, i);
    RunHasOnePasser(c, run, i);
    RunStep(c, run, i + 1);
    ValidOf(c, run[i]);
    if Lost(run[i + 1], b) {
      var a :| Enabled(c, run[i], a) && GrantFits(c, run[i], a) && run[i + 1] == Apply(c, run[i], a);
      LosesExactly(c, run[i], a, b);
    }
    if LosingStep(c, run, i, b) {
      var a :| Enabled(c, run[i], a) && run[i + 1] == Apply(c, run[i], a) && Loses(c, run[i], a, b);
      LosesExactly(c, run[i], a, b);
    }
  }

  lemma ValidOf(c: Config, s: State)
    requires Inv(c, s)
    ensures c.geometry.Valid()
  {
  }

  /** A new or warmed-up ring has lost nothing. */
  lemma NothingLostAtFirst(c: Config, s: State, b: nat)
    requires Init(c, s)
    ensures !Lost(s, b)
  {
    if b < |s.trackers| {
      assert InitTracker(c, b, s.trackers[b], s.tail);
    }
  }

  /** Trackers are neither added nor removed. */
  lemma TrackersStay(c: Config, run: seq<State>, i: nat)
    requires Run(c, run) && i < |run|
    ensures |run[i].trackers| == c.geometry.capacity
  {
    hide Inv, Run;
    RunKeeps(c, run, i);
    HasCapacity(c, Calm(run[i]));
  }

  /** Over a whole run: tracker b's lap is lost in state j exactly when one of the two CASes took it before. */
  lemma {:induction false} LostExactly(c: Config, run: seq<State>, j: nat, b: nat)
    requires Run(c, run) && j < |run| && b < c.geometry.capacity
    ensures c.geometry.Valid()
    ensures Lost(run[j], b) <==> exists i: nat :: i < j && LosingStep(c, run, i, b)
    decreases j
  {
    hide Run, Init, Lost, LosingStep;
    RunStart(c, run);
    NothingLostAtFirst(c, run[0], b);
    TrackersStay(c, run, j);
    InitValid(c, run[0]);
    if j > 0 {
      LostExactly(c, run, j - 1, b);
      TrackersStay(c, run, j - 1);
      if Lost(run[j - 1], b) {
        LostForever(c, run, j - 1, j, b);
      } else {
        LostStepExactly(c, run, j - 1, b);
      }
    }
  }

  lemma InitValid(c: Config, s: State)
    requires Init(c, s)
    ensures c.geometry.Valid()
  {
  }
}
