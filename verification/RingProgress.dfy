/**
 How many of its own steps a thread needs, whatever the other threads do meanwhile: to
 insert its request, to fill its batch's output, and to collect its answer.
*/
module RingProgress {
  import opened InferTypes
  import opened Ranges
  import opened RingGeometry
  import opened RingModel
  import opened RingSteps
  import opened RingEffects
  import opened RingInvariant
  import opened RingProducerProofs
  import opened RingExecutorProofs
  import opened RingRuns
  import opened RingTheorems
  import opened RingSessions

  /** How many of the actions i .. j - 1 are steps of producer p. */
  function ProducerSteps(acts: seq<Action>, p: nat, i: nat, j: nat): (n: nat)
    requires j <= |acts|
    decreases j
  {
    if j <= i then 0
    else ProducerSteps(acts, p, i, j - 1) + if acts[j - 1].Produce? && acts[j - 1].p == p then 1 else 0
  }

  function ExecutorSteps(acts: seq<Action>, e: nat, i: nat, j: nat): (n: nat)
    requires j <= |acts|
    decreases j
  {
    if j <= i then 0
    else ExecutorSteps(acts, e, i, j - 1) + if acts[j - 1].Execute? && acts[j - 1].e == e then 1 else 0
  }

  // ----- inserting -----

  /** How many steps a piece still takes. */
  function PieceRank(pc: ProducerPc): (r: int)
    requires HasPiece(pc)
  {
    match pc
    case Copy(piece, done) => 7 + piece.len - done
    case MarkDirty(_) => 6
    case SetDeadline(_) => 5
    case SetQueueStart(_) => 4
    case Capture(_) => 3
    case Publish(_, _) => 2
    case Notify(_) => 1
  }

  /** The producer goes on with its piece. */
  ghost predicate Advanced(me: Producer, me': Producer) {
    && HasPiece(me.pc) && HasPiece(me'.pc)
    && me'.pc.piece == me.pc.piece && me'.first == me.first && me'.rows == me.rows
    && 0 < PieceRank(me'.pc) < PieceRank(me.pc)
  }

  /** The producer has published its piece and needs no notify, or has sent it. */
  ghost predicate WentOn(c: Config, me: Producer, me': Producer)
    requires c.geometry.Valid()
  {
    && HasPiece(me.pc) && me'.pc == AfterPiece(c, me, me.pc.piece) && me'.first == me.first && me'.rows == me.rows
  }

  lemma CopyAdvances(c: Config, s: State, p: nat, weakFail: bool)
    requires ProducerEnabled(c, s, p) && s.producers[p].pc.Copy? && !ProducerStep(c, s, p, weakFail).panicked
    ensures p < |ProducerStep(c, s, p, weakFail).producers|
    ensures Advanced(s.producers[p], ProducerStep(c, s, p, weakFail).producers[p])
  {
    hide CopyRow;
    if s.producers[p].pc.done < s.producers[p].pc.piece.len {
      CopyRowSets(s, p);
    }
  }

  lemma MarkDirtyAdvances(c: Config, s: State, p: nat, weakFail: bool)
    requires ProducerEnabled(c, s, p) && s.producers[p].pc.MarkDirty? && !ProducerStep(c, s, p, weakFail).panicked
    ensures p < |ProducerStep(c, s, p, weakFail).producers|
    ensures Advanced(s.producers[p], ProducerStep(c, s, p, weakFail).producers[p])
  {
    hide SetTracker, SetProducer;
    var piece := s.producers[p].pc.piece;
    SetMineIs(s, p, SetDeadline(piece), piece.batch, s.trackers[piece.batch].(dirty := 1));
  }

  lemma SetDeadlineAdvances(c: Config, s: State, p: nat, weakFail: bool)
    requires ProducerEnabled(c, s, p) && s.producers[p].pc.SetDeadline? && !ProducerStep(c, s, p, weakFail).panicked
    ensures p < |ProducerStep(c, s, p, weakFail).producers|
    ensures Advanced(s.producers[p], ProducerStep(c, s, p, weakFail).producers[p])
  {
    hide SetTracker, SetProducer;
    var piece := s.producers[p].pc.piece;
    SetMineIs(s, p, SetQueueStart(piece), piece.batch, s.trackers[piece.batch].(deadline := true));
  }

  lemma SetQueueStartAdvances(c: Config, s: State, p: nat, weakFail: bool)
    requires ProducerEnabled(c, s, p) && s.producers[p].pc.SetQueueStart? && !ProducerStep(c, s, p, weakFail).panicked
    ensures p < |ProducerStep(c, s, p, weakFail).producers|
    ensures Advanced(s.producers[p], ProducerStep(c, s, p, weakFail).producers[p])
  {
    hide SetTracker, SetProducer;
    var piece := s.producers[p].pc.piece;
    SetMineIs(s, p, Capture(piece), piece.batch, s.trackers[piece.batch].(queueStart := true));
  }

  lemma CaptureAdvances(c: Config, s: State, p: nat, weakFail: bool)
    requires ProducerEnabled(c, s, p) && s.producers[p].pc.Capture? && !ProducerStep(c, s, p, weakFail).panicked
    ensures p < |ProducerStep(c, s, p, weakFail).producers|
    ensures Advanced(s.producers[p], ProducerStep(c, s, p, weakFail).producers[p])
  {
    hide PieceAt;
  }

  lemma PublishAdvances(c: Config, s: State, p: nat, weakFail: bool)
    requires c.geometry.Valid() && ProducerEnabled(c, s, p) && s.producers[p].pc.Publish?
    ensures p < |ProducerStep(c, s, p, weakFail).producers|
    ensures var me := s.producers[p]; var me' := ProducerStep(c, s, p, weakFail).producers[p];
            var slot := SlotOf(me, me.pc.piece);
            if slot == 0 || slot + me.pc.piece.len == c.geometry.batchSize then Advanced(me, me')
            else WentOn(c, me, me')
  {
    hide PieceAt, Range, ReservationOf;
  }

  lemma NotifyAdvances(c: Config, s: State, p: nat, weakFail: bool)
    requires c.geometry.Valid() && ProducerEnabled(c, s, p) && s.producers[p].pc.Notify?
    ensures p < |ProducerStep(c, s, p, weakFail).producers|
    ensures WentOn(c, s.producers[p], ProducerStep(c, s, p, weakFail).producers[p])
  {
    hide PieceAt;
  }

  lemma InsertAdvances(c: Config, s: State, p: nat, weakFail: bool)
    requires c.geometry.Valid() && p < |s.producers| && ProducerEnabled(c, s, p) && HasPiece(s.producers[p].pc)
    requires !ProducerStep(c, s, p, weakFail).panicked
    ensures p < |ProducerStep(c, s, p, weakFail).producers|
    ensures var me := s.producers[p]; var me' := ProducerStep(c, s, p, weakFail).producers[p];
            var slot := SlotOf(me, me.pc.piece);
            if me.pc.Notify? || (me.pc.Publish? && slot != 0 && slot + me.pc.piece.len != c.geometry.batchSize)
            then WentOn(c, me, me') else Advanced(me, me')
  {
    hide ProducerStep, ProducerEnabled, Advanced, WentOn;
    match s.producers[p].pc {
      case Copy(_, _) => CopyAdvances(c, s, p, weakFail);
      case MarkDirty(_) => MarkDirtyAdvances(c, s, p, weakFail);
      case SetDeadline(_) => SetDeadlineAdvances(c, s, p, weakFail);
      case SetQueueStart(_) => SetQueueStartAdvances(c, s, p, weakFail);
      case Capture(_) => CaptureAdvances(c, s, p, weakFail);
      case Publish(_, _) => PublishAdvances(c, s, p, weakFail);
      case Notify(_) => NotifyAdvances(c, s, p, weakFail);
    }
  }

  /** How many steps the request still takes until it waits for its outputs: at most 9 for each further row. */
  function InsertRank(me: Producer): (r: int)
    requires HasPiece(me.pc)
  {
    PieceRank(me.pc) + 9 * (|me.rows| - me.pc.piece.pos - me.pc.piece.len)
  }

  /** The request's rows are all published; it collects its answer, or has it. */
  predicate Inserted(pc: ProducerPc) {
    pc.Collect? || pc.Answered?
  }

  lemma NextPieceRank(c: Config, me: Producer, me': Producer)
    requires c.geometry.Valid() && WentOn(c, me, me') && PieceRank(me.pc) >= 1
    ensures Inserted(me'.pc) || (HasPiece(me'.pc) && 0 < InsertRank(me') < InsertRank(me))
  {
    var pos := me.pc.piece.pos + me.pc.piece.len;
    if pos < |me.rows| {
      LowerBoundFacts(c.geometry, me.first + pos);
    }
  }

  lemma NoProducerPanics(c: Config, s: State, p: nat, weakFail: bool)
    requires Inv(c, s) && ProducerEnabled(c, s, p) && p < |s.producers| && !s.producers[p].pc.Reserve?
    ensures !ProducerStep(c, s, p, weakFail).panicked
  {
    hide Inv, ProducerStep, ProducerEnabled;
    NotPanicked(c, s);
    PanicsExactly(c, s, Produce(p, weakFail));
  }

  lemma PieceInRequest(c: Config, s: State, p: nat)
    requires Inv(c, s) && p < |s.producers| && HasPiece(s.producers[p].pc)
    ensures c.geometry.Valid()
    ensures var me := s.producers[p]; me.pc.piece.pos + me.pc.piece.len <= |me.rows| && PieceRank(me.pc) >= 1
  {
    hide Inv;
    ConfigOf(c, s);
    OwnParts(c, s, p);
  }

  /** A request that is inserted at the latest after `left` more steps. */
  ghost predicate Inserting(s: State, p: nat, left: int) {
    && p < |s.producers|
    && var pc := s.producers[p].pc;
       Inserted(pc) || (HasPiece(pc) && InsertRank(s.producers[p]) <= left)
  }

  lemma OwnInsertStep(c: Config, s: State, p: nat, weakFail: bool, left: int)
    requires Inv(c, s) && ProducerEnabled(c, s, p) && Inserting(s, p, left)
    ensures Inserting(ProducerStep(c, s, p, weakFail), p, left - 1)
  {
    hide Inv, ProducerStep, ProducerEnabled, AfterPiece;
    var pc := s.producers[p].pc;
    if HasPiece(pc) {
      PieceInRequest(c, s, p);
      NoProducerPanics(c, s, p, weakFail);
      InsertAdvances(c, s, p, weakFail);
      var me, me' := s.producers[p], ProducerStep(c, s, p, weakFail).producers[p];
      if WentOn(c, me, me') {
        NextPieceRank(c, me, me');
      }
    } else {
      NoProducerPanics(c, s, p, weakFail);
      CollectGoesOn(c, s, p, weakFail);
    }
  }

  // ----- collecting -----

  lemma CollectGoesOn(c: Config, s: State, p: nat, weakFail: bool)
    requires p < |s.producers| && ProducerEnabled(c, s, p) && Inserted(s.producers[p].pc)
    requires !ProducerStep(c, s, p, weakFail).panicked
    ensures var me := s.producers[p]; var s' := ProducerStep(c, s, p, weakFail);
            && me.pc.Collect? && p < |s'.producers| && s'.producers[p].response == me.response
            && (s'.producers[p].pc.Answered?
                || (me.pc.next < |me.response|
                    && s'.producers[p].pc.Collect? && s'.producers[p].pc.next == me.pc.next + 1))
  {
    hide Extend, SliceFits, CollectNext;
    if s.producers[p].pc.next < |s.producers[p].response| {
      CollectNextIs(s, p);
    }
  }

  /** Every reservation of the response has its result. */
  ghost predicate AllFilled(response: seq<Reservation>, outputs: map<Cell, BatchResult>) {
    forall j | 0 <= j < |response| :: response[j].cell in outputs
  }

  /** An output cell, once filled, is never written again. */
  ghost predicate OutputsKept(s: State, s': State) {
    forall cell | cell in s.outputs :: cell in s'.outputs && s'.outputs[cell] == s.outputs[cell]
  }

  lemma StepKeepsOutputs(c: Config, s: State, a: Action)
    requires Inv(c, s) && Enabled(c, s, a) && GrantFits(c, s, a)
    ensures OutputsKept(s, Apply(c, s, a))
  {
    hide Inv, ProducerStep, ExecutorStep, ProducerEnabled, ExecutorEnabled, GrantFits, PcEffect, TrackerEffect, LapOf,
         Results, Collects, RunOk;
    match a {
      case Arrive(_) =>
      case Produce(p, weakFail) => ProducerEffects(c, s, p, weakFail, 0, 0);
      case Execute(e, weakFail, r) =>
        ExecutorEffects(c, s, e, weakFail, r, 0, 0);
        if s.executors[e].SetOutput? && s.executors[e].batch < |s.trackers| {
          SetOutputFacts(c, s, e);
        }
    }
  }

  /** A request that waits for nothing and has its answer at the latest after `left` more steps. */
  ghost predicate Collecting(s: State, p: nat, response: seq<Reservation>, left: int) {
    && p < |s.producers| && s.producers[p].response == response && AllFilled(response, s.outputs)
    && var pc := s.producers[p].pc;
       pc.Answered? || (pc.Collect? && |response| - pc.next + 1 <= left)
  }

  lemma OwnCollectStep(c: Config, s: State, p: nat, weakFail: bool, response: seq<Reservation>, left: int)
    requires Inv(c, s) && ProducerEnabled(c, s, p) && Collecting(s, p, response, left)
    ensures Collecting(ProducerStep(c, s, p, weakFail), p, response, left - 1)
  {
    hide Inv, ProducerStep, ProducerEnabled;
    NoProducerPanics(c, s, p, weakFail);
    CollectGoesOn(c, s, p, weakFail);
    ProducerEffects(c, s, p, weakFail, p, 0);
  }

  // ----- in any run -----

  /** A request changes only in its own steps. */
  lemma OthersLeaveIt(c: Config, s: State, a: Action, p: nat)
    requires Enabled(c, s, a) && GrantFits(c, s, a) && p < |s.producers| && !(a.Produce? && a.p == p)
    ensures p < |Apply(c, s, a).producers| && Apply(c, s, a).producers[p] == s.producers[p]
  {
    hide ProducerStep, ExecutorStep, ProducerEnabled, ExecutorEnabled, GrantFits, PcEffect, TrackerEffect;
    match a {
      case Arrive(_) =>
      case Produce(q, weakFail) => ProducerEffects(c, s, q, weakFail, p, 0);
      case Execute(e, weakFail, r) => ExecutorEffects(c, s, e, weakFail, r, 0, 0);
    }
  }

  lemma AllStayFilled(response: seq<Reservation>, s: State, s': State)
    requires AllFilled(response, s.outputs) && OutputsKept(s, s')
    ensures AllFilled(response, s'.outputs)
  {
  }

  lemma TraceStep(c: Config, run: seq<State>, acts: seq<Action>, j: nat)
    requires Trace(c, run, acts) && 0 < j < |run|
    ensures j <= |acts| && Inv(c, run[j - 1]) && Took(c, run[j - 1], acts[j - 1], run[j])
  {
    hide Inv, Run, Init, Took;
    TraceIsRun(c, run, acts);
    RunKeeps(c, run, j - 1);
    assert TookAt(c, run, acts, j - 1);
  }

  lemma {:induction false} InsertsOn(c: Config, run: seq<State>, acts: seq<Action>, i: nat, j: nat, p: nat)
    requires Trace(c, run, acts) && i <= j < |run| && p < |run[i].producers| && HasPiece(run[i].producers[p].pc)
    ensures j <= |acts|
    ensures Inserting(run[j], p, InsertRank(run[i].producers[p]) - ProducerSteps(acts, p, i, j))
    decreases j
  {
    hide Trace, Inv, InsertRank, Enabled, GrantFits, Apply;
    TraceLength(c, run, acts);
    if i < j {
      InsertsOn(c, run, acts, i, j - 1, p);
      TraceStep(c, run, acts, j);
      var left := InsertRank(run[i].producers[p]) - ProducerSteps(acts, p, i, j - 1);
      if acts[j - 1].Produce? && acts[j - 1].p == p {
        OwnStepIs(c, run[j - 1], acts[j - 1]);
        OwnInsertStep(c, run[j - 1], p, acts[j - 1].weakFail, left);
      } else {
        OthersLeaveIt(c, run[j - 1], acts[j - 1], p);
      }
    }
  }

  lemma OwnStepIs(c: Config, s: State, a: Action)
    requires Enabled(c, s, a) && a.Produce?
    ensures ProducerEnabled(c, s, a.p) && Apply(c, s, a) == ProducerStep(c, s, a.p, a.weakFail)
  {
  }

  /**
   A request that is being inserted takes at most InsertRank steps of its own until all its
   rows are published and it collects its answer, whatever other threads do meanwhile.
  */
  lemma InsertsWithin(c: Config, run: seq<State>, acts: seq<Action>, i: nat, j: nat, p: nat)
    requires Trace(c, run, acts) && i <= j < |run| && p < |run[i].producers| && HasPiece(run[i].producers[p].pc)
    requires j <= |acts| && ProducerSteps(acts, p, i, j) >= InsertRank(run[i].producers[p])
    ensures p < |run[j].producers| && Inserted(run[j].producers[p].pc)
    ensures var me := run[j].producers[p];
            forall a | me.first <= a < me.first + |me.rows| :: a in run[j].published
  {
    hide Trace, Inv, InsertRank;
    InsertsOn(c, run, acts, i, j, p);
    TraceIsRun(c, run, acts);
    RunKeeps(c, run, j);
    StillRanked(c, Calm(run[j]), p);
    AllPublished(c, Calm(run[j]), p);
  }

  lemma StillRanked(c: Config, s: State, p: nat)
    requires Inv(c, s) && p < |s.producers|
    ensures HasPiece(s.producers[p].pc) ==> InsertRank(s.producers[p]) > 0
  {
    hide Inv;
    if HasPiece(s.producers[p].pc) {
      PieceInRequest(c, s, p);
    }
  }

  lemma AllPublished(c: Config, s: State, p: nat)
    requires Inv(c, s) && p < |s.producers| && Inserted(s.producers[p].pc)
    ensures var me := s.producers[p]; forall a | me.first <= a < me.first + |me.rows| :: a in s.published
  {
    hide Inv;
    OwnParts(c, s, p);
    BoundsOf(c, s);
    var me := s.producers[p];
    forall a | me.first <= a < me.first + |me.rows| ensures a in s.published {
      assert ProgressOk(a, s.owner[a], s.producers, s.published);
    }
  }

  lemma {:induction false} CollectsOn(c: Config, run: seq<State>, acts: seq<Action>, i: nat, j: nat, p: nat)
    requires Trace(c, run, acts) && i <= j < |run| && p < |run[i].producers| && run[i].producers[p].pc.Collect?
    requires AllFilled(run[i].producers[p].response, run[i].outputs)
    ensures j <= |acts| && OutputsKept(run[i], run[j])
    ensures var me := run[i].producers[p];
            Collecting(run[j], p, me.response, |me.response| - me.pc.next + 1 - ProducerSteps(acts, p, i, j))
    decreases j
  {
    hide Trace, Inv, AllFilled, Enabled, GrantFits, Apply;
    TraceLength(c, run, acts);
    if i < j {
      CollectsOn(c, run, acts, i, j - 1, p);
      TraceStep(c, run, acts, j);
      StepKeepsOutputs(c, run[j - 1], acts[j - 1]);
      var me := run[i].producers[p];
      AllStayFilled(me.response, run[j - 1], run[j]);
      if acts[j - 1].Produce? && acts[j - 1].p == p {
        OwnStepIs(c, run[j - 1], acts[j - 1]);
        OwnCollectStep(c, run[j - 1], p, acts[j - 1].weakFail, me.response,
                       |me.response| - me.pc.next + 1 - ProducerSteps(acts, p, i, j - 1));
      } else {
        OthersLeaveIt(c, run[j - 1], acts[j - 1], p);
      }
    }
  }

  lemma AnswerFits(c: Config, s: State, p: nat)
    requires Inv(c, s) && p < |s.producers| && s.producers[p].pc.Answered?
    requires AllFilled(s.producers[p].response, s.outputs)
    ensures var me := s.producers[p];
            me.pc.answer.Ok? <==> forall j | 0 <= j < |me.response| :: s.outputs[me.response[j].cell].Ok?
  {
    hide Inv, DataOk;
    OwnParts(c, s, p);
  }

  lemma NextInResponse(c: Config, s: State, p: nat)
    requires Inv(c, s) && p < |s.producers| && s.producers[p].pc.Collect?
    ensures s.producers[p].pc.next <= |s.producers[p].response|
  {
    hide Inv, DataOk;
    OwnParts(c, s, p);
  }

  /**
   Once the results of all its batches are there, a request takes at most one step for each
   one it has not collected, and one more, until it is answered, whatever other threads do
   meanwhile. The answer is a success exactly when all the results are.
  */
  lemma AnswersWithin(c: Config, run: seq<State>, acts: seq<Action>, i: nat, j: nat, p: nat)
    requires Trace(c, run, acts) && i <= j < |run| && p < |run[i].producers| && run[i].producers[p].pc.Collect?
    requires AllFilled(run[i].producers[p].response, run[i].outputs)
    ensures j <= |acts| && p < |run[j].producers|
    ensures var me := run[i].producers[p]; var pc := run[j].producers[p].pc;
            && (ProducerSteps(acts, p, i, j) > |me.response| - me.pc.next ==> pc.Answered?)
            && (pc.Answered? ==>
                  (pc.answer.Ok? <==>
                   forall r | 0 <= r < |me.response| :: run[i].outputs[me.response[r].cell].Ok?))
  {
    hide Trace, Inv;
    CollectsOn(c, run, acts, i, j, p);
    TraceIsRun(c, run, acts);
    RunKeeps(c, run, j);
    if run[j].producers[p].pc.Answered? {
      AnswerFits(c, Calm(run[j]), p);
    } else {
      NextInResponse(c, Calm(run[j]), p);
    }
  }

  /** And these steps can be taken: alone, the request reaches its answer. */
  lemma {:induction false} AnswersAlone(c: Config, run: seq<State>, acts: seq<Action>, p: nat)
    returns (run': seq<State>, acts': seq<Action>)
    requires Trace(c, run, acts) && !run[|acts|].panicked && p < |run[|acts|].producers|
    requires var me := run[|acts|].producers[p]; me.pc.Collect? && AllFilled(me.response, run[|acts|].outputs)
    ensures Trace(c, run', acts') && run <= run' && acts <= acts'
    ensures forall k | |acts| <= k < |acts'| :: acts'[k] == Produce(p, false)
    ensures var me := run[|acts|].producers[p]; |acts'| - |acts| <= |me.response| - me.pc.next + 1
    ensures p < |run'[|acts'|].producers| && run'[|acts'|].producers[p].pc.Answered?
    decreases |run[|acts|].producers[p].response| - run[|acts|].producers[p].pc.next
  {
    hide Trace, Inv, Run, AllFilled, Enabled, GrantFits, Apply;
    TraceLength(c, run, acts);
    var s, a := run[|acts|], Produce(p, false);
    TraceIsRun(c, run, acts);
    RunKeeps(c, run, |acts|);
    NextInResponse(c, s, p);
    CanCollect(c, s, p);
    var s' := Apply(c, s, a);
    OwnStepIs(c, s, a);
    OwnCollectStep(c, s, p, false, s.producers[p].response, |s.producers[p].response| - s.producers[p].pc.next + 1);
    NoProducerPanics(c, s, p, false);
    TraceExtends(c, run, acts, a);
    run', acts' := run + [s'], acts + [a];
    if s'.producers[p].pc.Collect? {
      run', acts' := AnswersAlone(c, run', acts', p);
    }
  }

  lemma CanCollect(c: Config, s: State, p: nat)
    requires Inv(c, s) && p < |s.producers| && s.producers[p].pc.Collect?
    requires AllFilled(s.producers[p].response, s.outputs)
    ensures Enabled(c, s, Produce(p, false)) && GrantFits(c, s, Produce(p, false))
  {
    hide Inv, ProducerEnabled;
    NotPanicked(c, s);
    ProducerStops(c, s, p);
  }

  lemma TraceExtends(c: Config, run: seq<State>, acts: seq<Action>, a: Action)
    requires Trace(c, run, acts) && Enabled(c, run[|acts|], a) && GrantFits(c, run[|acts|], a)
    ensures Trace(c, run + [Apply(c, run[|acts|], a)], acts + [a])
  {
    hide Init, Enabled, GrantFits, Apply;
    var run', acts' := run + [Apply(c, run[|acts|], a)], acts + [a];
    forall k: nat | k < |acts'| ensures TookAt(c, run', acts', k) {
      assert k < |acts| ==> TookAt(c, run, acts, k);
    }
  }

  // ----- filling an output -----

  /** The executor has sealed its lap and has not stored its output yet. */
  predicate Filling(pc: ExecutorPc) {
    pc.Spin? || pc.SetExecStart? || pc.LoadItems? || pc.ReadRows? || pc.SetExecEnd? || pc.SetOutput?
  }

  /** How many steps it still takes to store the output. */
  function FillRank(g: Geometry, pc: ExecutorPc): (r: int)
    requires Filling(pc)
  {
    match pc
    case Spin(_, _, _) => 6 + g.batchSize
    case SetExecStart(_, _) => 5 + g.batchSize
    case LoadItems(_, _) => 4 + g.batchSize
    case ReadRows(_, _, seen) => 3 + g.batchSize - |seen|
    case SetExecEnd(_, _, _) => 2
    case SetOutput(_, _, _) => 1
  }

  /** The lap's output is filled, or executor e fills it at the latest after `left` more steps. */
  ghost predicate FillsBy(c: Config, s: State, e: nat, cell: Cell, left: int) {
    || cell in s.outputs
    || (&& e < |s.executors| && Filling(s.executors[e]) && FillRank(c.geometry, s.executors[e]) <= left
        && s.executors[e].batch < |s.trackers|
        && cell == Cell(s.executors[e].batch, s.trackers[s.executors[e].batch].gen))
  }

  lemma StoresOutput(c: Config, s: State, e: nat, weakFail: bool, result: BatchResult)
    requires ExecutorEnabled(c, s, e, result) && e < |s.executors| && s.executors[e].SetOutput?
    ensures s.executors[e].batch < |s.trackers|
    ensures Cell(s.executors[e].batch, s.trackers[s.executors[e].batch].gen)
            in ExecutorStep(c, s, e, weakFail, result).outputs
  {
    hide RunOk;
  }

  lemma OwnFillStep(c: Config, s: State, e: nat, weakFail: bool, result: BatchResult, cell: Cell, left: int)
    requires Inv(c, s) && ExecutorEnabled(c, s, e, result) && cell !in s.outputs && FillsBy(c, s, e, cell, left)
    ensures FillsBy(c, ExecutorStep(c, s, e, weakFail, result), e, cell, left - 1)
  {
    hide Inv, ExecutorStep, ExecutorEnabled, RunOk, LapOf, BatchId, PcEffect;
    var pc := s.executors[e];
    HeldTracker(c, s, e);
    OnlySealsPanic(c, s, e, weakFail, result);
    ExecutorGoesOn(c, s, e, weakFail, result);
    ExecutorEffects(c, s, e, weakFail, result, pc.batch, e);
    if pc.SetOutput? {
      StoresOutput(c, s, e, weakFail, result);
    }
  }

  lemma OthersLeaveFill(c: Config, s: State, a: Action, e: nat, cell: Cell, left: int)
    requires Inv(c, s) && Enabled(c, s, a) && GrantFits(c, s, a) && !(a.Execute? && a.e == e)
    requires cell !in s.outputs && FillsBy(c, s, e, cell, left)
    ensures FillsBy(c, Apply(c, s, a), e, cell, left)
  {
    hide Inv, ProducerStep, ExecutorStep, ProducerEnabled, ExecutorEnabled, GrantFits, PcEffect, LapOf, BatchId, RunOk;
    HeldTracker(c, s, e);
    match a {
      case Arrive(_) =>
      case Produce(p, weakFail) => ProducerEffects(c, s, p, weakFail, 0, cell.batch);
      case Execute(d, weakFail, r) =>
        ExecutorEffects(c, s, d, weakFail, r, cell.batch, e);
        if Holding(s.executors[d]) {
          HeldTracker(c, s, d);
        }
    }
  }

  lemma FillStep(c: Config, s: State, a: Action, s': State, e: nat, cell: Cell, left: int)
    requires Inv(c, s) && Took(c, s, a, s') && FillsBy(c, s, e, cell, left)
    ensures FillsBy(c, s', e, cell, if a.Execute? && a.e == e then left - 1 else left)
  {
    hide Inv, FillsBy, OutputsKept, Enabled, GrantFits, Apply;
    StepKeepsOutputs(c, s, a);
    if cell in s.outputs {
      FilledStays(c, s, s', e, cell, left - 1);
    } else if a.Execute? && a.e == e {
      OwnFillIs(c, s, a);
      OwnFillStep(c, s, e, a.weakFail, a.result, cell, left);
    } else {
      OthersLeaveFill(c, s, a, e, cell, left);
    }
  }

  lemma {:induction false} FillsOn(c: Config, run: seq<State>, acts: seq<Action>, i: nat, j: nat, e: nat, cell: Cell,
                                   left: int)
    requires Trace(c, run, acts) && i <= j < |run| && FillsBy(c, run[i], e, cell, left)
    ensures j <= |acts|
    ensures FillsBy(c, run[j], e, cell, left - ExecutorSteps(acts, e, i, j))
    decreases j
  {
    hide Trace, Inv, FillsBy, Took;
    TraceLength(c, run, acts);
    if i < j {
      FillsOn(c, run, acts, i, j - 1, e, cell, left);
      TraceStep(c, run, acts, j);
      FillStep(c, run[j - 1], acts[j - 1], run[j], e, cell, left - ExecutorSteps(acts, e, i, j - 1));
    }
  }

  lemma FilledStays(c: Config, s: State, s': State, e: nat, cell: Cell, left: int)
    requires cell in s.outputs && OutputsKept(s, s')
    ensures FillsBy(c, s', e, cell, left) && FillsBy(c, s', e, cell, left + 1)
  {
  }

  lemma OwnFillIs(c: Config, s: State, a: Action)
    requires Enabled(c, s, a) && a.Execute?
    ensures ExecutorEnabled(c, s, a.e, a.result) && Apply(c, s, a) == ExecutorStep(c, s, a.e, a.weakFail, a.result)
  {
    hide RunOk;
  }

  lemma FillRankIsPositive(c: Config, s: State, e: nat)
    requires Inv(c, s) && e < |s.executors| && Filling(s.executors[e])
    ensures FillRank(c.geometry, s.executors[e]) > 0
  {
    hide Inv;
    HeldTracker(c, s, e);
  }

  /**
   Once an executor has sealed its lap, it takes at most FillRank steps of its own, one for
   each row of the batch and six more, until the lap's output cell is filled, whatever other
   threads do meanwhile.
  */
  lemma FillsWithin(c: Config, run: seq<State>, acts: seq<Action>, i: nat, j: nat, e: nat)
    requires Trace(c, run, acts) && i <= j < |run| && e < |run[i].executors| && Filling(run[i].executors[e])
    requires j <= |acts| && ExecutorSteps(acts, e, i, j) >= FillRank(c.geometry, run[i].executors[e])
    ensures var pc := run[i].executors[e];
            pc.batch < |run[i].trackers| && Cell(pc.batch, run[i].trackers[pc.batch].gen) in run[j].outputs
  {
    hide Trace, Inv, FillRank;
    TraceIsRun(c, run, acts);
    RunKeeps(c, run, i);
    HeldTracker(c, Calm(run[i]), e);
    var pc := run[i].executors[e];
    var cell := Cell(pc.batch, run[i].trackers[pc.batch].gen);
    FillsOn(c, run, acts, i, j, e, cell, FillRank(c.geometry, pc));
    RunKeeps(c, run, j);
    if cell !in run[j].outputs {
      FillRankIsPositive(c, Calm(run[j]), e);
    }
  }
}
