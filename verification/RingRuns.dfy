/** Runs of the protocol, and the invariant over all of them. */
module RingRuns {
  import opened InferTypes
  import opened Multiples
  import opened RingGeometry
  import opened RingModel
  import opened RingSteps
  import opened RingInvariant
  import opened RingProducerProofs
  import opened RingExecutorProofs

  /**
   A tracker when the ring enters service. The last warmup leaves its own tracker
   behind tail, reset and still marked; every other tracker waits for its next lap.
  */
  ghost predicate InitTracker(c: Config, b: nat, tr: Tracker, tail: nat) {
    && tr.writtenSlots == 0
    && !tr.deadline && !tr.queueStart && !tr.execStart && !tr.execEnd
    && if c.start > 0 && LapOf(c.geometry, b, tr.gen) == tail + c.geometry.ring
       then tr.lap == tr.top == tail && tr.stage == DONE && tr.dirty == 2
       else tr.lap == LapOf(c.geometry, b, tr.gen) && c.start <= tr.lap < tail + c.geometry.ring
            && tr.stage == UNCLAIMED && tr.dirty == 0
  }

  /** The ring after `start / batchSize` sequential warmups (none: as constructed). */
  ghost predicate Init(c: Config, s: State) {
    && c.Valid()
    && Sized(c.geometry, s.trackers, s.buffers)
    && s.head == s.executorHead == c.start
    && s.tail == (if c.start == 0 then 0 else c.start - c.geometry.batchSize)
    && (forall b {:trigger s.trackers[b]} | 0 <= b < |s.trackers| :: InitTracker(c, b, s.trackers[b], s.tail))
    && (forall e {:trigger s.executors[e]} | 0 <= e < |s.executors| :: s.executors[e].LoadExecutorHead?)
    && s.producers == []
    && s.outputs == map[] && s.permits == {} && s.owner == map[] && s.published == {} && s.items == map[]
    && s.claims == multiset{} && s.runs == multiset{} && s.resets == multiset{}
    && !s.panicked
  }

  lemma InitCounters(c: Config, s: State)
    requires Init(c, s)
    ensures Counters(c, s.head, s.executorHead, s.tail)
    ensures c.geometry.ring >= c.geometry.batchSize >= 1
  {
    RingIsPositive(c.geometry);
    if c.start > 0 {
      assert c.start >= c.geometry.batchSize && Multiple(c.geometry.batchSize, c.start - c.geometry.batchSize);
    }
  }

  lemma InitLap(c: Config, s: State, b: nat)
    requires Init(c, s) && b < |s.trackers|
    ensures var tr := s.trackers[b];
            && LapWindow(c.geometry, b, tr, s.executorHead, s.tail)
            && LapSlots(c, tr, s.owner, s.head)
            && LapFull(c.geometry, tr, s.owner, s.published)
            && LapWritten(c.geometry, tr, s.published)
            && LapTimers(tr, s.owner, s.producers)
            && LapCells(b, tr, s.outputs)
            && LapLedger(c, tr, s.claims, s.runs, s.resets)
            && LapRows(c.geometry, tr, s.buffers[b], s.owner, s.published)
  {
    InitCounters(c, s);
    var tr := s.trackers[b];
    assert InitTracker(c, b, tr, s.tail);
    LapOfIsAligned(c.geometry, b, tr.gen);
    assert PublishedIn(c.geometry, s.published, tr.lap) == {};
  }

  lemma InitLaps(c: Config, s: State)
    requires Init(c, s)
    ensures Windows(c.geometry, s.trackers, s.executorHead, s.tail)
    ensures Slots(c, s.trackers, s.owner, s.head)
    ensures Fulls(c.geometry, s.trackers, s.owner, s.published)
    ensures Writtens(c.geometry, s.trackers, s.published)
    ensures Timers(s.trackers, s.owner, s.producers)
    ensures Cells(s.trackers, s.outputs)
    ensures BufferRows(c.geometry, s.trackers, s.buffers, s.owner, s.published)
    ensures LapLedgers(c, s.trackers, s.claims, s.runs, s.resets)
  {
    InitSized(c, s);
    hide Init, LapWindow, LapSlots, LapFull, LapWritten, LapTimers, LapCells, LapLedger, LapRows;
    forall b | 0 <= b < |s.trackers|
      ensures var tr := s.trackers[b];
              && LapWindow(c.geometry, b, tr, s.executorHead, s.tail)
              && LapSlots(c, tr, s.owner, s.head)
              && LapFull(c.geometry, tr, s.owner, s.published)
              && LapWritten(c.geometry, tr, s.published)
              && LapTimers(tr, s.owner, s.producers)
              && LapCells(b, tr, s.outputs)
              && LapLedger(c, tr, s.claims, s.runs, s.resets)
              && LapRows(c.geometry, tr, s.buffers[b], s.owner, s.published)
    {
      InitLap(c, s, b);
    }
  }

  lemma InitSized(c: Config, s: State)
    requires Init(c, s)
    ensures |s.trackers| == |s.buffers|
  {
  }

  lemma InitThreads(c: Config, s: State)
    requires Init(c, s)
    ensures Owners(c, s.owner, s.producers) && Progress(s.owner, s.producers, s.published)
    ensures Bounds(c, s.owner, s.published, s.head, s.tail)
    ensures ResultsInv(c, s) && ProducersInv(c, s) && ExecutorsInv(c, s)
    ensures PastLedger(c, s.tail, s.claims, s.runs, s.resets)
  {
    InitCounters(c, s);
  }

  lemma InitInv(c: Config, s: State)
    requires Init(c, s)
    ensures Inv(c, s)
  {
    hide Windows, Slots, Fulls, Writtens, Timers, Cells, BufferRows, LapLedgers, PastLedger, Owners, Progress, Bounds,
         ResultsInv, ProducersInv, ExecutorsInv, Counters, InitTracker;
    InitCounters(c, s);
    InitLaps(c, s);
    InitThreads(c, s);
  }

  /** A seal that comes too early changes nothing but the panic flag. */
  lemma EarlySealPanics(c: Config, s: State, a: Action)
    requires Enabled(c, s, a) && SealsTooEarly(s, a)
    ensures Apply(c, s, a) == Panic(s)
  {
  }

  lemma ActionKeeps(c: Config, s: State, a: Action)
    requires Inv(c, s) && Enabled(c, s, a) && GrantFits(c, s, a) && !SealsTooEarly(s, a)
    ensures Inv(c, Apply(c, s, a))
  {
    hide Inv, ProducerStep, ExecutorStep, ProducerEnabled, ExecutorEnabled, GrantFits, SealsTooEarly;
    match a {
      case Arrive(rows) => ArriveKeeps(c, s, rows);
      case Produce(p, weakFail) => ProducerStepKeeps(c, s, p, weakFail);
      case Execute(e, weakFail, result) => ExecutorStepKeeps(c, s, e, weakFail, result);
    }
  }

  /**
   A step panics exactly when it is the seal of a lap that head has not reached: no
   other assertion, expect or panic of the program can fail.
  */
  lemma PanicsExactly(c: Config, s: State, a: Action)
    requires Inv(c, s) && Enabled(c, s, a) && GrantFits(c, s, a)
    ensures Apply(c, s, a).panicked <==> SealsTooEarly(s, a)
    ensures SealsTooEarly(s, a) ==> Apply(c, s, a) == Panic(s)
    ensures !SealsTooEarly(s, a) ==> Inv(c, Apply(c, s, a))
  {
    hide Enabled, GrantFits, Apply, SealsTooEarly;
    if SealsTooEarly(s, a) {
      EarlySealPanics(c, s, a);
    } else {
      ActionKeeps(c, s, a);
    }
  }

  /** A step of an executor that is not at a seal does not panic. */
  lemma OnlySealsPanic(c: Config, s: State, e: nat, weakFail: bool, result: BatchResult)
    requires Inv(c, s) && ExecutorEnabled(c, s, e, result) && e < |s.executors| && !s.executors[e].SealLoad?
    ensures !ExecutorStep(c, s, e, weakFail, result).panicked
  {
    hide Inv, ExecutorStep, ExecutorEnabled;
    NotPanicked(c, s);
    PanicsExactly(c, s, Execute(e, weakFail, result));
  }

  /** The state with its panic flag cleared: a panic changes nothing else. */
  function Calm(s: State): (s': State)
    ensures !s'.panicked
    ensures s'.head == s.head && s'.executorHead == s.executorHead && s'.tail == s.tail
    ensures s'.trackers == s.trackers && s'.buffers == s.buffers && s'.outputs == s.outputs && s'.permits == s.permits
    ensures s'.producers == s.producers && s'.executors == s.executors
    ensures s'.owner == s.owner && s'.published == s.published && s'.items == s.items
    ensures s'.claims == s.claims && s'.runs == s.runs && s'.resets == s.resets
    ensures !s.panicked ==> s' == s
  {
    if s.panicked then s.(panicked := false) else s
  }

  lemma CalmAfterPanic(s: State)
    requires !s.panicked
    ensures Calm(Panic(s)) == s
  {
  }

  /** Every step keeps the invariant, except that a panic sets the panic flag and changes nothing else. */
  lemma StepKeeps(c: Config, s: State, s': State)
    requires Inv(c, s) && SafeNext(c, s, s')
    ensures Inv(c, Calm(s'))
    ensures s'.panicked ==> s' == Panic(s)
  {
    hide Inv, Enabled, Apply, GrantFits, SealsTooEarly, Panic, Calm;
    var a :| Enabled(c, s, a) && GrantFits(c, s, a) && s' == Apply(c, s, a);
    NotPanicked(c, s);
    PanicsExactly(c, s, a);
    CalmAfterPanic(s);
    if !SealsTooEarly(s, a) {
      NotPanicked(c, s');
    }
  }

  lemma NotPanicked(c: Config, s: State)
    requires Inv(c, s)
    ensures !s.panicked
  {
  }

  /** State i of a run is an initial one, or follows from the state before by one step. */
  ghost predicate StepAt(c: Config, run: seq<State>, i: nat)
    requires i < |run|
  {
    if i == 0 then Init(c, run[0]) else SafeNext(c, run[i - 1], run[i])
  }

  /** A finite run: any interleaving of any threads' steps, from the ring's entry into service. */
  ghost predicate Run(c: Config, run: seq<State>) {
    |run| > 0 && forall i: nat | i < |run| :: StepAt(c, run, i)
  }

  lemma RunStart(c: Config, run: seq<State>)
    requires Run(c, run)
    ensures Init(c, run[0])
  {
    hide Init;
    assert StepAt(c, run, 0);
  }

  lemma RunStep(c: Config, run: seq<State>, j: nat)
    requires Run(c, run) && 0 < j < |run|
    ensures SafeNext(c, run[j - 1], run[j])
  {
    hide SafeNext;
    assert StepAt(c, run, j);
  }

  /** Nothing happens after a panic. */
  lemma PanicIsLast(c: Config, run: seq<State>, i: nat)
    requires Run(c, run) && i + 1 < |run|
    ensures !run[i].panicked
  {
    hide Apply, GrantFits;
    RunStep(c, run, i + 1);
  }

  /** The invariant holds in every state of every run, up to the panic flag of the last one. */
  lemma {:induction false} RunKeeps(c: Config, run: seq<State>, i: nat)
    requires Run(c, run) && i < |run|
    ensures Inv(c, Calm(run[i]))
    ensures i + 1 < |run| ==> Inv(c, run[i])
    decreases i
  {
    hide Inv, Init, SafeNext, Calm;
    if i == 0 {
      RunStart(c, run);
      InitInv(c, run[0]);
      NotPanicked(c, run[0]);
    } else {
      RunKeeps(c, run, i - 1);
      RunStep(c, run, i);
      StepKeeps(c, run[i - 1], run[i]);
    }
    if i + 1 < |run| {
      PanicIsLast(c, run, i);
    }
  }

  // ----- states that runs reach -----

  ghost predicate Reached(c: Config, s: State) {
    exists run :: Run(c, run) && run[|run| - 1] == s
  }

  /** A run that ends in a reached state can be continued by any step whose grant fits. */
  lemma ReachedNext(c: Config, s: State, a: Action)
    requires Reached(c, s) && Enabled(c, s, a) && GrantFits(c, s, a)
    ensures Reached(c, Apply(c, s, a))
  {
    hide Init, Enabled, GrantFits, Apply;
    var run :| Run(c, run) && run[|run| - 1] == s;
    var s' := Apply(c, s, a);
    var run' := run + [s'];
    assert SafeNext(c, s, s');
    forall i: nat | i < |run'| ensures StepAt(c, run', i) {
      assert i < |run| ==> StepAt(c, run, i);
    }
    assert Run(c, run') && run'[|run'| - 1] == s';
  }

  lemma ReachedFirst(c: Config, s: State)
    requires Init(c, s)
    ensures Reached(c, s)
  {
    hide Init;
    var run := [s];
    assert StepAt(c, run, 0);
    assert Run(c, run) && run[|run| - 1] == s;
  }
}
