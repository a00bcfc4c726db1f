/**
 Runs together with the actions that were taken: what a session returned is what its
 batch's readers get, and what a request arrived with is what it is answered for.
*/
module RingSessions {
  import opened InferTypes
  import opened RingGeometry
  import opened RingModel
  import opened RingSteps
  import opened RingEffects
  import opened RingInvariant
  import opened RingProducerProofs
  import opened RingExecutorProofs
  import opened RingRuns
  import opened RingTheorems

  // ----- runs with their actions -----

  ghost predicate Took(c: Config, s: State, a: Action, s': State) {
    Enabled(c, s, a) && GrantFits(c, s, a) && s' == Apply(c, s, a)
  }

  /** The k-th action leads from state k to state k + 1. */
  ghost predicate TookAt(c: Config, run: seq<State>, acts: seq<Action>, k: nat)
    requires k < |acts| && |run| == |acts| + 1
  {
    Took(c, run[k], acts[k], run[k + 1])
  }

  ghost predicate Trace(c: Config, run: seq<State>, acts: seq<Action>) {
    && |run| == |acts| + 1 && Init(c, run[0])
    && forall k: nat | k < |acts| :: TookAt(c, run, acts, k)
  }

  lemma TraceIsRun(c: Config, run: seq<State>, acts: seq<Action>)
    requires Trace(c, run, acts)
    ensures Run(c, run)
  {
    hide Init, Enabled, GrantFits, Apply;
    forall i: nat | i < |run| ensures StepAt(c, run, i) {
      if i > 0 {
        assert TookAt(c, run, acts, i - 1);
      }
    }
  }

  /** Every run has its actions. */
  lemma {:induction false} RunIsTrace(c: Config, run: seq<State>) returns (acts: seq<Action>)
    requires Run(c, run)
    ensures Trace(c, run, acts)
  {
    hide Init, Enabled, GrantFits, Apply;
    assert StepAt(c, run, 0);
    acts := [];
    for i := 1 to |run|
      invariant |acts| == i - 1
      invariant forall k: nat | k < i - 1 :: Took(c, run[k], acts[k], run[k + 1])
    {
      assert StepAt(c, run, i);
      var a :| Enabled(c, run[i - 1], a) && GrantFits(c, run[i - 1], a) && run[i] == Apply(c, run[i - 1], a);
      acts := acts + [a];
    }
  }

  // ----- what sessions returned -----

  /** The session that runs on this executor's batch returns: it has read all rows of the batch. */
  ghost predicate SessionReturns(c: Config, s: State, a: Action) {
    && a.Execute? && a.e < |s.executors|
    && s.executors[a.e].ReadRows? && |s.executors[a.e].seen| == c.geometry.batchSize
  }

  /** This session return is the one for the lap whose output cell is `cell`. */
  ghost predicate ReturnsFor(c: Config, s: State, a: Action, cell: Cell) {
    && SessionReturns(c, s, a)
    && var pc := s.executors[a.e];
       && pc.batch < |s.trackers| && cell == Cell(pc.batch, s.trackers[pc.batch].gen)
       && LapOf(c.geometry, cell.batch, cell.gen) == pc.lap
  }

  ghost predicate ReturnedAt(c: Config, run: seq<State>, acts: seq<Action>, k: nat, cell: Cell, result: BatchResult) {
    k < |acts| && k < |run| && ReturnsFor(c, run[k], acts[k], cell) && acts[k].result == result
  }

  /** The model's outputs for these rows: output o of row i at position i. */
  ghost function Columns(c: Config, rows: seq<Row>): (values: seq<seq<Element>>)
    requires c.Valid()
  {
    seq(c.outputs, o requires 0 <= o < c.outputs =>
      seq(|rows|, i requires 0 <= i < |rows| => c.model(rows[i])[o]))
  }

  /** A session may fail in any way, or answer with the model's outputs, and with nothing else. */
  lemma SessionMayReturn(c: Config, rows: seq<Row>, result: BatchResult)
    requires c.Valid()
    ensures RunOk(c, rows, result) <==> result.Err? || result.value == Columns(c, rows)
  {
    if result.Ok? && RunOk(c, rows, result) {
      assert forall o | 0 <= o < c.outputs :: result.value[o] == Columns(c, rows)[o];
    }
  }

  /** Before state i some session returned this result for the lap of `cell`. */
  ghost predicate Returned(c: Config, run: seq<State>, acts: seq<Action>, i: nat, cell: Cell, result: BatchResult) {
    exists k: nat :: k < i && ReturnedAt(c, run, acts, k, cell, result)
  }

  /** The executor holds its session's result and has not stored it yet. */
  predicate Ending(pc: ExecutorPc) {
    pc.SetExecEnd? || pc.SetOutput?
  }

  ghost predicate Held(s: State, e: nat, cell: Cell, result: BatchResult) {
    && e < |s.executors| && Ending(s.executors[e]) && s.executors[e].result == result
    && s.executors[e].batch < |s.trackers|
    && cell == Cell(s.executors[e].batch, s.trackers[s.executors[e].batch].gen)
  }

  /** Stored results, and results about to be stored, are what sessions returned. */
  ghost predicate FromSessions(c: Config, run: seq<State>, acts: seq<Action>, i: nat)
    requires i < |run|
  {
    && (forall cell | cell in run[i].outputs :: Returned(c, run, acts, i, cell, run[i].outputs[cell]))
    && (forall e: nat, cell, result | Held(run[i], e, cell, result) :: Returned(c, run, acts, i, cell, result))
  }

  /** A result that an executor holds after a step was returned in that step or held before. */
  lemma HeldFrom(c: Config, s: State, a: Action, e: nat, cell: Cell, result: BatchResult)
    requires Inv(c, s) && Enabled(c, s, a) && GrantFits(c, s, a) && Held(Apply(c, s, a), e, cell, result)
    ensures Held(s, e, cell, result) || (ReturnsFor(c, s, a, cell) && a.result == result)
  {
    hide Inv, ProducerStep, ExecutorStep, ProducerEnabled, ExecutorEnabled, RunOk, LapOf, BatchId;
    match a {
      case Arrive(_) =>
      case Produce(p, weakFail) =>
        ProducerEffects(c, s, p, weakFail, 0, Apply(c, s, a).executors[e].batch);
      case Execute(d, weakFail, r) =>
        HeldByExecutor(c, s, d, weakFail, r, e, cell, result);
    }
  }

  /** Two executors never hold the same tracker; a held tracker's state is that of its lap until it is reset. */
  lemma HeldTracker(c: Config, s: State, e: nat)
    requires Inv(c, s) && e < |s.executors| && Holding(s.executors[e])
    ensures var pc := s.executors[e];
            && pc.batch < |s.trackers| && s.trackers[pc.batch].claimant == e
            && s.trackers[pc.batch].stage == StageOf(pc)
            && (StageOf(pc) < STATE_RESET ==> LapOf(c.geometry, pc.batch, s.trackers[pc.batch].gen) == pc.lap)
    ensures var pc := s.executors[e];
            pc.ReadRows? ==> pc.batch < |s.buffers| && |pc.seen| <= |s.buffers[pc.batch]| == c.geometry.batchSize
  {
    hide Inv, LapOf;
    HolderParts(c, s, e);
    TrackerOf(c, s, s.executors[e].batch);
  }

  lemma HeldByExecutor(c: Config, s: State, d: nat, weakFail: bool, r: BatchResult, e: nat, cell: Cell,
                       result: BatchResult)
    requires Inv(c, s) && ExecutorEnabled(c, s, d, r) && Held(ExecutorStep(c, s, d, weakFail, r), e, cell, result)
    ensures Held(s, e, cell, result) || (ReturnsFor(c, s, Execute(d, weakFail, r), cell) && r == result)
  {
    hide Inv, ExecutorStep, ExecutorEnabled, RunOk, LapOf, BatchId;
    var s' := ExecutorStep(c, s, d, weakFail, r);
    ExecutorEffects(c, s, d, weakFail, r, s'.executors[e].batch, e);
    if Holding(s.executors[d]) {
      HeldTracker(c, s, d);
    }
    if e != d {
      HeldTracker(c, s, e);
    } else {
      OnlySealsPanic(c, s, d, weakFail, r);
      ExecutorGoesOn(c, s, d, weakFail, r);
    }
  }

  /** An output cell that is filled after a step was filled before, or takes a result that an executor held. */
  lemma FilledFrom(c: Config, s: State, a: Action, cell: Cell)
    requires Inv(c, s) && Enabled(c, s, a) && GrantFits(c, s, a) && cell in Apply(c, s, a).outputs
    ensures var result := Apply(c, s, a).outputs[cell];
            (cell in s.outputs && s.outputs[cell] == result) || exists e: nat :: Held(s, e, cell, result)
  {
    hide Inv, ProducerStep, ExecutorStep, ProducerEnabled, ExecutorEnabled, RunOk, PcEffect, TrackerEffect;
    match a {
      case Arrive(_) =>
      case Produce(p, weakFail) => ProducerEffects(c, s, p, weakFail, 0, 0);
      case Execute(e, weakFail, r) =>
        ExecutorEffects(c, s, e, weakFail, r, 0, 0);
        assert Apply(c, s, a).outputs != s.outputs ==> Held(s, e, Cell(s.executors[e].batch,
                    s.trackers[s.executors[e].batch].gen), s.executors[e].result);
    }
  }

  lemma ReturnedBefore(c: Config, run: seq<State>, acts: seq<Action>, i: nat, cell: Cell, result: BatchResult)
    requires Returned(c, run, acts, i, cell, result)
    ensures Returned(c, run, acts, i + 1, cell, result)
  {
    hide ReturnedAt;
  }

  lemma ReturnedNow(c: Config, run: seq<State>, acts: seq<Action>, i: nat, cell: Cell, result: BatchResult)
    requires i < |acts| && i < |run| && ReturnsFor(c, run[i], acts[i], cell) && acts[i].result == result
    ensures Returned(c, run, acts, i + 1, cell, result)
  {
    hide ReturnsFor;
    assert ReturnedAt(c, run, acts, i, cell, result);
  }

  lemma SessionsStep(c: Config, run: seq<State>, acts: seq<Action>, i: nat)
    requires i < |acts| && |run| == |acts| + 1 && Inv(c, run[i]) && TookAt(c, run, acts, i)
    requires FromSessions(c, run, acts, i)
    ensures FromSessions(c, run, acts, i + 1)
  {
    hide Inv, Enabled, GrantFits, Apply, Held, Returned, ReturnsFor;
    var s, s' := run[i], run[i + 1];
    forall e: nat, cell, result | Held(s', e, cell, result) ensures Returned(c, run, acts, i + 1, cell, result) {
      HeldFrom(c, s, acts[i], e, cell, result);
      if Held(s, e, cell, result) {
        ReturnedBefore(c, run, acts, i, cell, result);
      } else {
        ReturnedNow(c, run, acts, i, cell, result);
      }
    }
    forall cell | cell in s'.outputs ensures Returned(c, run, acts, i + 1, cell, s'.outputs[cell]) {
      FilledFrom(c, s, acts[i], cell);
      ReturnedBefore(c, run, acts, i, cell, s'.outputs[cell]);
    }
  }

  lemma SessionsInit(c: Config, run: seq<State>, acts: seq<Action>)
    requires |run| > 0 && Init(c, run[0])
    ensures FromSessions(c, run, acts, 0)
  {
    hide InitTracker;
  }

  lemma {:induction false} SessionsKept(c: Config, run: seq<State>, acts: seq<Action>, i: nat)
    requires Trace(c, run, acts) && i < |run|
    ensures FromSessions(c, run, acts, i)
    decreases i
  {
    hide Inv, Init, FromSessions, Took;
    if i == 0 {
      SessionsInit(c, run, acts);
    } else {
      SessionsKept(c, run, acts, i - 1);
      TraceIsRun(c, run, acts);
      RunKeeps(c, run, i - 1);
      assert TookAt(c, run, acts, i - 1);
      SessionsStep(c, run, acts, i - 1);
    }
  }

  /** Whatever an output cell holds, in any state of any run, its lap's own session returned it earlier. */
  lemma OutputsAreSessionResults(c: Config, run: seq<State>, acts: seq<Action>, i: nat, cell: Cell)
    requires Trace(c, run, acts) && i < |run| && cell in run[i].outputs
    ensures Returned(c, run, acts, i, cell, run[i].outputs[cell])
  {
    hide Trace, Returned, Held;
    SessionsKept(c, run, acts, i);
  }

  // ----- one session for each lap -----

  /** The session of this lap has returned. */
  ghost predicate Spent(s: State, cell: Cell) {
    && cell.batch < |s.trackers|
    && var tr := s.trackers[cell.batch];
       || tr.gen > cell.gen
       || (tr.gen == cell.gen && ENDED <= tr.stage < STATE_RESET)
       || (tr.gen == cell.gen && exists e: nat :: AboutToEnd(s, e, cell.batch))
  }

  ghost predicate AboutToEnd(s: State, e: nat, b: nat) {
    e < |s.executors| && s.executors[e].SetExecEnd? && s.executors[e].batch == b
  }

  lemma SpentReturnsNot(c: Config, s: State, a: Action, cell: Cell)
    requires Inv(c, s) && Spent(s, cell)
    ensures !ReturnsFor(c, s, a, cell)
  {
    hide Inv, LapOf;
    if ReturnsFor(c, s, a, cell) {
      HeldTracker(c, s, a.e);
      if e: nat :| AboutToEnd(s, e, cell.batch) {
        HeldTracker(c, s, e);
      }
    }
  }

  lemma ReturnSpends(c: Config, s: State, a: Action, cell: Cell)
    requires Inv(c, s) && Enabled(c, s, a) && ReturnsFor(c, s, a, cell)
    ensures Spent(Apply(c, s, a), cell)
  {
    hide Inv, ExecutorStep, ExecutorEnabled, LapOf, RunOk, BatchId;
    HeldTracker(c, s, a.e);
    OnlySealsPanic(c, s, a.e, a.weakFail, a.result);
    ExecutorGoesOn(c, s, a.e, a.weakFail, a.result);
    ExecutorEffects(c, s, a.e, a.weakFail, a.result, cell.batch, a.e);
    assert AboutToEnd(Apply(c, s, a), a.e, cell.batch);
  }

  lemma SpentByExecutor(c: Config, s: State, d: nat, weakFail: bool, result: BatchResult, cell: Cell)
    requires Inv(c, s) && Spent(s, cell) && ExecutorEnabled(c, s, d, result)
    requires Inv(c, ExecutorStep(c, s, d, weakFail, result))
    ensures Spent(ExecutorStep(c, s, d, weakFail, result), cell)
  {
    hide Inv, ExecutorStep, ExecutorEnabled, LapOf, RunOk, BatchId;
    var s' := ExecutorStep(c, s, d, weakFail, result);
    ExecutorEffects(c, s, d, weakFail, result, cell.batch, d);
    var b, pc := cell.batch, s.executors[d];
    if s.trackers[b].gen == cell.gen {
      if Holding(pc) {
        HeldTracker(c, s, d);
        if pc.SetExecEnd? || pc.SetOutput? {
          OnlySealsPanic(c, s, d, weakFail, result);
          ExecutorGoesOn(c, s, d, weakFail, result);
          HeldTracker(c, s', d);
        }
      } else if pc.TailCas? && pc.t == s.tail {
        AdvanceFacts(c, s, d);
      } else if pc.Claim? && pc.e == s.executorHead {
        ClaimFacts(c, s, d);
      }
      MarkedIsDone(c, s, b);
      if e: nat :| AboutToEnd(s, e, b) && e != d {
        HeldTracker(c, s, e);
        ExecutorEffects(c, s, d, weakFail, result, b, e);
        assert AboutToEnd(s', e, b);
      }
    }
  }

  lemma MarkedIsDone(c: Config, s: State, b: nat)
    requires Inv(c, s) && b < |s.trackers|
    ensures s.trackers[b].dirty == 2 ==> s.trackers[b].stage == DONE
  {
    hide Inv;
    TrackerOf(c, s, b);
  }

  lemma SpentStays(c: Config, s: State, a: Action, cell: Cell)
    requires Inv(c, s) && Spent(s, cell) && Enabled(c, s, a) && GrantFits(c, s, a)
    ensures Spent(Apply(c, s, a), cell)
  {
    hide Inv, ProducerStep, ExecutorStep, ProducerEnabled, ExecutorEnabled, RunOk, Panic, GrantFits;
    PanicsExactly(c, s, a);
    if SealsTooEarly(s, a) {
      PanicKeepsSpent(s, cell);
    } else {
      match a {
        case Arrive(_) => ArrivalKeepsSpent(c, s, a, cell);
        case Produce(p, weakFail) => SpentByProducer(c, s, p, weakFail, cell);
        case Execute(e, weakFail, r) => SpentByExecutor(c, s, e, weakFail, r, cell);
      }
    }
  }

  lemma PanicKeepsSpent(s: State, cell: Cell)
    requires Spent(s, cell)
    ensures Spent(Panic(s), cell)
  {
    if e: nat :| AboutToEnd(s, e, cell.batch) {
      assert AboutToEnd(Panic(s), e, cell.batch);
    }
  }

  lemma ArrivalKeepsSpent(c: Config, s: State, a: Action, cell: Cell)
    requires Spent(s, cell) && a.Arrive? && Enabled(c, s, a)
    ensures Spent(Apply(c, s, a), cell)
  {
    if e: nat :| AboutToEnd(s, e, cell.batch) {
      assert AboutToEnd(Apply(c, s, a), e, cell.batch);
    }
  }

  lemma SpentByProducer(c: Config, s: State, p: nat, weakFail: bool, cell: Cell)
    requires Spent(s, cell) && ProducerEnabled(c, s, p)
    ensures Spent(ProducerStep(c, s, p, weakFail), cell)
  {
    hide ProducerStep, ProducerEnabled;
    ProducerEffects(c, s, p, weakFail, 0, cell.batch);
    if e: nat :| AboutToEnd(s, e, cell.batch) {
      assert AboutToEnd(ProducerStep(c, s, p, weakFail), e, cell.batch);
    }
  }

  lemma {:induction false} ReturnedIsSpent(c: Config, run: seq<State>, acts: seq<Action>, k: nat, i: nat, cell: Cell)
    requires Trace(c, run, acts) && k < i < |run| && ReturnsFor(c, run[k], acts[k], cell)
    ensures Spent(run[i], cell)
    decreases i
  {
    hide Inv, Init, Spent, ReturnsFor, Enabled, GrantFits, Apply;
    TraceIsRun(c, run, acts);
    RunKeeps(c, run, i - 1);
    assert TookAt(c, run, acts, i - 1);
    if k + 1 < i {
      ReturnedIsSpent(c, run, acts, k, i - 1, cell);
      SpentStays(c, run[i - 1], acts[i - 1], cell);
    } else {
      ReturnSpends(c, run[k], acts[k], cell);
    }
  }

  /** A lap's session returns once. */
  lemma OneReturnPerLap(c: Config, run: seq<State>, acts: seq<Action>, k: nat, l: nat, cell: Cell)
    requires Trace(c, run, acts) && k < |acts| && l < |acts|
    requires ReturnsFor(c, run[k], acts[k], cell) && ReturnsFor(c, run[l], acts[l], cell)
    ensures k == l
  {
    hide Inv, Trace, Spent, ReturnsFor;
    if k != l {
      var first, second := if k < l then k else l, if k < l then l else k;
      TraceLength(c, run, acts);
      ReturnedIsSpent(c, run, acts, first, second, cell);
      TraceIsRun(c, run, acts);
      RunKeeps(c, run, second);
      SpentReturnsNot(c, run[second], acts[second], cell);
    }
  }

  lemma TraceLength(c: Config, run: seq<State>, acts: seq<Action>)
    requires Trace(c, run, acts)
    ensures |run| == |acts| + 1
  {
  }

  /** What a lap's session returned is what its cell holds as soon as, and as long as, it holds anything. */
  lemma ResultsAreStored(c: Config, run: seq<State>, acts: seq<Action>, k: nat, i: nat, cell: Cell)
    requires Trace(c, run, acts) && k < |acts| && i < |run|
    requires ReturnsFor(c, run[k], acts[k], cell) && cell in run[i].outputs
    ensures k < i && run[i].outputs[cell] == acts[k].result
  {
    hide Trace, ReturnsFor;
    OutputsAreSessionResults(c, run, acts, i, cell);
    var l: nat :| l < i && ReturnedAt(c, run, acts, l, cell, run[i].outputs[cell]);
    OneReturnPerLap(c, run, acts, k, l, cell);
  }

  // ----- what requests are answered -----

  /** A session returned a success for the reservation's lap. */
  ghost predicate SessionSucceeded(c: Config, run: seq<State>, acts: seq<Action>, i: nat, cell: Cell) {
    exists result: BatchResult :: result.Ok? && Returned(c, run, acts, i, cell, result)
  }

  /** All reservations before the j-th succeeded, and the j-th one's session returned this error. */
  ghost predicate FailedAt(c: Config, run: seq<State>, acts: seq<Action>, i: nat, response: seq<Reservation>, j: nat,
                           error: InferError)
  {
    && j < |response| && Returned(c, run, acts, i, response[j].cell, Err(error))
    && forall l: nat | l < j :: SessionSucceeded(c, run, acts, i, response[l].cell)
  }

  lemma FilledBySuccess(c: Config, run: seq<State>, acts: seq<Action>, i: nat, cell: Cell)
    requires Trace(c, run, acts) && i < |run| && cell in run[i].outputs && run[i].outputs[cell].Ok?
    ensures SessionSucceeded(c, run, acts, i, cell)
  {
    hide Trace, Returned;
    OutputsAreSessionResults(c, run, acts, i, cell);
  }

  /** What an answer says about its sessions: an error is the first failing one's, a success needs them all. */
  lemma AnswersAreSessionResults(c: Config, run: seq<State>, acts: seq<Action>, i: nat, p: nat)
    requires Trace(c, run, acts) && i < |run| && p < |run[i].producers| && run[i].producers[p].pc.Answered?
    ensures var me := run[i].producers[p];
            match me.pc.answer
            case Ok(_) => forall j: nat | j < |me.response| :: SessionSucceeded(c, run, acts, i, me.response[j].cell)
            case Err(error) => exists j: nat :: FailedAt(c, run, acts, i, me.response, j, error)
  {
    hide Inv, Trace, Returned, SessionSucceeded;
    TraceIsRun(c, run, acts);
    RunKeeps(c, run, i);
    OwnParts(c, Calm(run[i]), p);
    var me := run[i].producers[p];
    match me.pc.answer {
      case Ok(_) =>
        forall j: nat | j < |me.response| ensures SessionSucceeded(c, run, acts, i, me.response[j].cell) {
          FilledBySuccess(c, run, acts, i, me.response[j].cell);
        }
      case Err(error) =>
        var j :| 0 <= j < |me.response| && me.response[j].cell in run[i].outputs
                 && run[i].outputs[me.response[j].cell] == Err(error) && AllAnswered(me.response, run[i].outputs, j);
        OutputsAreSessionResults(c, run, acts, i, me.response[j].cell);
        forall l: nat | l < j ensures SessionSucceeded(c, run, acts, i, me.response[l].cell) {
          FilledBySuccess(c, run, acts, i, me.response[l].cell);
        }
        assert FailedAt(c, run, acts, i, me.response, j, error);
    }
  }

  lemma NoneFailed(c: Config, run: seq<State>, acts: seq<Action>, i: nat, cell: Cell, error: InferError)
    requires |run| == |acts| + 1
    requires forall k | 0 <= k < |acts| && SessionReturns(c, run[k], acts[k]) :: acts[k].result.Ok?
    ensures !Returned(c, run, acts, i, cell, Err(error))
  {
    hide SessionReturns;
  }

  /** If no session ever fails, no request is answered with an error. */
  lemma NoFailureNoError(c: Config, run: seq<State>, acts: seq<Action>, i: nat, p: nat)
    requires Trace(c, run, acts) && i < |run| && p < |run[i].producers| && run[i].producers[p].pc.Answered?
    requires forall k | 0 <= k < |acts| && SessionReturns(c, run[k], acts[k]) :: acts[k].result.Ok?
    ensures run[i].producers[p].pc.answer.Ok?
  {
    hide SessionReturns, SessionSucceeded, Returned, TookAt, Init;
    var answer := run[i].producers[p].pc.answer;
    if answer.Err? {
      forall cell ensures !Returned(c, run, acts, i, cell, Err(answer.error)) {
        NoneFailed(c, run, acts, i, cell, answer.error);
      }
    }
    AnswersAreSessionResults(c, run, acts, i, p);
  }

  lemma ArrivalAdds(c: Config, s: State, a: Action)
    requires Enabled(c, s, a) && a.Arrive?
    ensures Apply(c, s, a).producers == s.producers + [Producer(a.rows, 0, LoadHead, [])]
  {
  }

  /** A request keeps the rows of the action in which it arrived, and is answered for them. */
  lemma RequestsAreServed(c: Config, run: seq<State>, acts: seq<Action>, k: nat, i: nat)
    requires Trace(c, run, acts) && k < |acts| && acts[k].Arrive? && k < i < |run|
    ensures var p := |run[k].producers|;
            && p < |run[i].producers| && run[i].producers[p].rows == acts[k].rows
            && var me := run[i].producers[p]; AnswerOk(c, acts[k].rows, me.pc, me.response, run[i].outputs)
  {
    hide Inv, Init, Run, Enabled, Apply, GrantFits, AnswerOk;
    TraceIsRun(c, run, acts);
    assert TookAt(c, run, acts, k);
    ArrivalAdds(c, run[k], acts[k]);
    RowsNeverChange(c, run, k + 1, i, |run[k].producers|);
    EndToEnd(c, run, k + 1, i, |run[k].producers|);
  }

  lemma ProducersBefore(c: Config, s: State, a: Action)
    requires Enabled(c, s, a) && GrantFits(c, s, a)
    ensures |Apply(c, s, a).producers| == |s.producers| + if a.Arrive? then 1 else 0
  {
    hide ProducerStep, ExecutorStep, ProducerEnabled, ExecutorEnabled, GrantFits, PcEffect, TrackerEffect;
    match a {
      case Arrive(_) =>
      case Produce(p, weakFail) => ProducerEffects(c, s, p, weakFail, 0, 0);
      case Execute(e, weakFail, r) => ExecutorEffects(c, s, e, weakFail, r, 0, 0);
    }
  }

  /** No request without an arrival: the p-th request is the one that arrived when there were p. */
  lemma {:induction false} EveryRequestArrived(c: Config, run: seq<State>, acts: seq<Action>, i: nat, p: nat)
    returns (k: nat)
    requires Trace(c, run, acts) && i < |run| && p < |run[i].producers|
    ensures k < i && k < |acts| && acts[k].Arrive? && |run[k].producers| == p
    decreases i
  {
    hide Enabled, Apply, GrantFits, InitTracker;
    if i > 0 {
      assert TookAt(c, run, acts, i - 1);
      ProducersBefore(c, run[i - 1], acts[i - 1]);
      if p < |run[i - 1].producers| {
        k := EveryRequestArrived(c, run, acts, i - 1, p);
      } else {
        k := i - 1;
      }
    }
  }
}
