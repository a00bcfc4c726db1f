/** What holds in addition in runs in which every notify comes in time. */
module RingTimely {
  import opened InferTypes
  import opened RingGeometry
  import opened RingModel
  import opened RingSteps
  import opened RingEffects
  import opened RingInvariant
  import opened RingExecutorProofs
  import opened RingRuns

  /** A sealed lap has at least one reserved slot. */
  ghost predicate LapUsed(c: Config, tr: Tracker) {
    tr.stage >= SEALED && tr.lap >= c.start ==> tr.lap < tr.top
  }

  /** An executor that seals was woken for a lap with a reserved slot. */
  ghost predicate SealInTime(pc: ExecutorPc, head: nat) {
    && (pc.SealLoad? ==> pc.lap < head)
    && (pc.SealCas? ==> pc.lap < pc.h <= head)
  }

  /** Stored permits belong to laps with reserved slots. */
  ghost predicate PermitsInTime(g: Geometry, permits: set<Cell>, head: nat) {
    forall cell | cell in permits :: LapOf(g, cell.batch, cell.gen) < head
  }

  ghost predicate Timely(c: Config, s: State) {
    && PermitsInTime(c.geometry, s.permits, s.head)
    && (forall e {:trigger s.executors[e]} | 0 <= e < |s.executors| :: SealInTime(s.executors[e], s.head))
    && (forall b {:trigger s.trackers[b]} | 0 <= b < |s.trackers| :: LapUsed(c, s.trackers[b]))
    && (forall u | u in s.items :: s.items[u] >= 1)
  }

  // ----- steps -----

  lemma ProducerTimely(c: Config, s: State, p: nat, weakFail: bool)
    requires Timely(c, s) && ProducerEnabled(c, s, p) && NotifyInTime(c, s, Produce(p, weakFail))
    ensures Timely(c, ProducerStep(c, s, p, weakFail))
  {
    hide ProducerStep, ProducerEnabled, LapOf;
    var s' := ProducerStep(c, s, p, weakFail);
    ProducerEffects(c, s, p, weakFail, 0, 0);
    forall b | 0 <= b < |s'.trackers| ensures LapUsed(c, s'.trackers[b]) {
      ProducerEffects(c, s, p, weakFail, 0, b);
    }
  }

  /** A woken executor finds head past the base of its lap. */
  lemma WokenAfterReserve(c: Config, s: State, e: nat)
    requires Inv(c, s) && PermitsInTime(c.geometry, s.permits, s.head) && e < |s.executors|
    requires s.executors[e].AwaitNotify?
    requires s.executors[e].notifier in s.permits
    ensures s.executors[e].lap < s.head
  {
    hide Inv;
    HolderParts(c, s, e);
    TrackerOf(c, s, s.executors[e].batch);
  }

  /** batch_items of a sealed lap is not zero. */
  lemma ItemsNotZero(c: Config, s: State, e: nat)
    requires Inv(c, s) && Timely(c, s) && e < |s.executors| && s.executors[e].LoadItems?
    requires s.executors[e].batch < |s.trackers|
    ensures s.trackers[s.executors[e].batch].writtenSlots >= 1
  {
    hide Inv;
    HolderParts(c, s, e);
    var tr := s.trackers[s.executors[e].batch];
    TrackerOf(c, s, s.executors[e].batch);
    SlotsOf(c, s);
    ItemsCount(c, s, e);
    PublishedWithinReserved(c, tr, s.owner, s.head, s.published);
  }

  /** A tracker's sealed lap keeps a reserved slot. */
  lemma LapStaysUsed(c: Config, s: State, e: nat, weakFail: bool, result: BatchResult, b: nat)
    requires Inv(c, s) && Timely(c, s) && ExecutorEnabled(c, s, e, result) && b < |s.trackers|
    ensures b < |ExecutorStep(c, s, e, weakFail, result).trackers|
    ensures LapUsed(c, ExecutorStep(c, s, e, weakFail, result).trackers[b])
  {
    hide Inv, ExecutorStep, ExecutorEnabled, LapOf, BatchId;
    ExecutorEffects(c, s, e, weakFail, result, b, e);
    HolderParts(c, s, e);
    BatchIsPositive(c, s);
  }

  lemma BatchIsPositive(c: Config, s: State)
    requires Inv(c, s)
    ensures c.geometry.batchSize >= 1
  {
  }

  /** An executor about to seal stays in time. */
  lemma SealStaysInTime(c: Config, s: State, e: nat, weakFail: bool, result: BatchResult, d: nat)
    requires Inv(c, s) && Timely(c, s) && ExecutorEnabled(c, s, e, result) && d < |s.executors|
    ensures d < |ExecutorStep(c, s, e, weakFail, result).executors|
    ensures var s' := ExecutorStep(c, s, e, weakFail, result); SealInTime(s'.executors[d], s'.head)
  {
    hide Inv, ExecutorStep, ExecutorEnabled, LapOf, BatchId, TrackerEffect;
    ExecutorEffects(c, s, e, weakFail, result, 0, d);
    PermitIsThere(c, s, e, result);
    if s.executors[e].AwaitNotify? {
      WokenAfterReserve(c, s, e);
    }
  }

  lemma PermitIsThere(c: Config, s: State, e: nat, result: BatchResult)
    requires ExecutorEnabled(c, s, e, result)
    ensures e < |s.executors|
    ensures s.executors[e].AwaitNotify? ==> s.executors[e].notifier in s.permits
    ensures s.executors[e].LoadItems? ==> s.executors[e].batch < |s.trackers|
  {
    hide RunOk;
  }

  lemma ExecutorTimely(c: Config, s: State, e: nat, weakFail: bool, result: BatchResult)
    requires Inv(c, s) && Timely(c, s) && ExecutorEnabled(c, s, e, result)
    ensures Timely(c, ExecutorStep(c, s, e, weakFail, result))
  {
    hide Inv, ExecutorStep, ExecutorEnabled, LapOf, LapUsed, SealInTime, TrackerEffect, PcEffect;
    var s' := ExecutorStep(c, s, e, weakFail, result);
    ExecutorEffects(c, s, e, weakFail, result, 0, 0);
    PermitIsThere(c, s, e, result);
    if s.executors[e].LoadItems? {
      ItemsNotZero(c, s, e);
    }
    forall b: nat | b < |s'.trackers| ensures LapUsed(c, s'.trackers[b]) {
      LapStaysUsed(c, s, e, weakFail, result, b);
    }
    forall d: nat | d < |s'.executors| ensures SealInTime(s'.executors[d], s'.head) {
      SealStaysInTime(c, s, e, weakFail, result, d);
    }
  }

  lemma StepTimely(c: Config, s: State, a: Action)
    requires Inv(c, s) && Timely(c, s) && Enabled(c, s, a) && NotifyInTime(c, s, a)
    ensures Timely(c, Apply(c, s, a)) && !SealsTooEarly(s, a)
  {
    hide Inv, ProducerStep, ExecutorStep, ProducerEnabled, ExecutorEnabled, NotifyInTime;
    match a {
      case Arrive(rows) =>
      case Produce(p, weakFail) => ProducerTimely(c, s, p, weakFail);
      case Execute(e, weakFail, result) =>
        PermitIsThere(c, s, e, result);
        ExecutorTimely(c, s, e, weakFail, result);
    }
  }

  // ----- runs -----

  /** A step in which requests fit and no notify is late. */
  ghost predicate TimelyNext(c: Config, s: State, s': State) {
    exists a :: Enabled(c, s, a) && GrantFits(c, s, a) && NotifyInTime(c, s, a) && s' == Apply(c, s, a)
  }

  ghost predicate TimelyStepAt(c: Config, run: seq<State>, i: nat)
    requires i < |run|
  {
    if i == 0 then Init(c, run[0]) else TimelyNext(c, run[i - 1], run[i])
  }

  ghost predicate TimelyRun(c: Config, run: seq<State>) {
    |run| > 0 && forall i: nat | i < |run| :: TimelyStepAt(c, run, i)
  }

  lemma InitTimely(c: Config, s: State)
    requires Init(c, s)
    ensures Timely(c, s)
  {
    forall b | 0 <= b < |s.trackers| ensures LapUsed(c, s.trackers[b]) {
      assert InitTracker(c, b, s.trackers[b], s.tail);
    }
  }

  lemma NextTimely(c: Config, s: State, s': State)
    requires Inv(c, s) && Timely(c, s) && TimelyNext(c, s, s')
    ensures Inv(c, s') && Timely(c, s')
  {
    hide Inv, Timely, Enabled, Apply, GrantFits, NotifyInTime, SealsTooEarly;
    var a :| Enabled(c, s, a) && GrantFits(c, s, a) && NotifyInTime(c, s, a) && s' == Apply(c, s, a);
    StepTimely(c, s, a);
    ActionKeeps(c, s, a);
  }

  lemma {:induction false} TimelyRunKeeps(c: Config, run: seq<State>, i: nat)
    requires TimelyRun(c, run) && i < |run|
    ensures Inv(c, run[i]) && Timely(c, run[i])
    decreases i
  {
    hide Inv, Timely, Init, TimelyNext;
    assert TimelyStepAt(c, run, i);
    if i == 0 {
      InitInv(c, run[0]);
      InitTimely(c, run[0]);
    } else {
      TimelyRunKeeps(c, run, i - 1);
      NextTimely(c, run[i - 1], run[i]);
    }
  }

  /** If no notify is late, nothing panics at all. */
  lemma NeverPanics(c: Config, run: seq<State>, i: nat)
    requires TimelyRun(c, run) && i < |run|
    ensures !run[i].panicked
  {
    hide Inv, TimelyRun, Timely;
    TimelyRunKeeps(c, run, i);
    NotPanicked(c, run[i]);
  }

  /** If no notify is late, no batch is run empty. */
  lemma BatchItemsNotZero(c: Config, run: seq<State>, i: nat, u: nat)
    requires TimelyRun(c, run) && i < |run| && u in run[i].items
    ensures run[i].items[u] >= 1
  {
    hide Inv, TimelyRun, LapOf;
    TimelyRunKeeps(c, run, i);
  }
}
