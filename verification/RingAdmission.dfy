/**
 The capacity check of `infer` looks only at head - tail, not at the request's size. That is
 enough for requests of one size that divides the batch; others may be granted past the ring.
*/
module RingAdmission {
  import opened InferTypes
  import opened Multiples
  import opened RingGeometry
  import opened RingModel
  import opened RingSteps
  import opened RingEffects
  import opened RingInvariant
  import opened RingProducerProofs
  import opened RingExecutorProofs
  import opened RingRuns
  import opened RingTheorems

  /** Why runs are restricted: a grant keeps the invariant only if the request fits. */
  lemma GrantExactly(c: Config, s: State, p: nat)
    requires Inv(c, s) && c.geometry.Valid() && p < |s.producers| && s.producers[p].pc.Reserve?
    requires |s.producers[p].rows| >= 1
    ensures Inv(c, Grant(c, s, p)) <==> s.head + |s.producers[p].rows| <= s.tail + c.geometry.ring
  {
    hide Inv, PieceAt, WithSlots;
    if s.head + |s.producers[p].rows| <= s.tail + c.geometry.ring {
      GrantKeeps(c, s, p);
    }
    if Inv(c, Grant(c, s, p)) {
      CountersOf(c, Grant(c, s, p));
    }
  }

  // ----- requests of one size that divides the batch -----

  ghost predicate AllOfSize(producers: seq<Producer>, n: nat) {
    forall p {:trigger producers[p]} | 0 <= p < |producers| :: |producers[p].rows| == n
  }

  /** A step of the program as it is, in a workload whose requests have the given sizes. */
  ghost predicate SizedNext(c: Config, s: State, s': State, sizes: set<nat>) {
    exists a :: Enabled(c, s, a) && s' == Apply(c, s, a) && (a.Arrive? ==> |a.rows| in sizes)
  }

  ghost predicate SizedStepAt(c: Config, run: seq<State>, sizes: set<nat>, i: nat)
    requires i < |run|
  {
    if i == 0 then Init(c, run[0]) else SizedNext(c, run[i - 1], run[i], sizes)
  }

  ghost predicate SizedRun(c: Config, run: seq<State>, sizes: set<nat>) {
    |run| > 0 && forall i: nat | i < |run| :: SizedStepAt(c, run, sizes, i)
  }

  lemma EveryGrantFits(c: Config, s: State, a: Action, n: nat)
    requires Inv(c, s) && Enabled(c, s, a)
    requires n > 0 && Multiple(n, c.geometry.batchSize) && Multiple(n, s.head) && AllOfSize(s.producers, n)
    ensures GrantFits(c, s, a)
  {
    hide Inv, Multiple, ProducerStep, ExecutorStep, ExecutorEnabled;
    CountersOf(c, s);
    AdmittedOf(c, s);
    ConfigOf(c, s);
    RingIsPositive(c.geometry);
    Transitive(n, c.geometry.batchSize, s.tail);
    Transitive(n, c.geometry.batchSize, c.geometry.ring);
    Sum(n, s.tail, c.geometry.ring);
    if s.head < s.tail + c.geometry.ring {
      Gap(n, s.head, s.tail + c.geometry.ring);
    }
  }

  /** What a step may do to head: a grant adds the request, a seal rounds it up to a batch end. */
  ghost predicate HeadStep(c: Config, s: State, s': State, a: Action) {
    || s'.head == s.head
    || (a.Produce? && a.p < |s.producers| && s'.head == s.head + |s.producers[a.p].rows|)
    || (a.Execute? && a.e < |s.executors| && s.executors[a.e].SealCas?
        && s'.head == s.executors[a.e].h + s.executors[a.e].remaining)
  }

  lemma StepHead(c: Config, s: State, a: Action)
    requires Enabled(c, s, a)
    ensures HeadStep(c, s, Apply(c, s, a), a)
  {
    hide ProducerStep, ExecutorStep, ProducerEnabled, ExecutorEnabled, TrackerEffect, PcEffect;
    match a {
      case Arrive(_) =>
      case Produce(p, weakFail) => ProducerEffects(c, s, p, weakFail, 0, 0);
      case Execute(e, weakFail, result) => ExecutorEffects(c, s, e, weakFail, result, 0, 0);
    }
  }

  lemma SealedHead(c: Config, s: State, e: nat, n: nat)
    requires Inv(c, s) && e < |s.executors| && s.executors[e].SealCas?
    requires n > 0 && Multiple(n, c.geometry.batchSize)
    ensures Multiple(n, s.executors[e].h + s.executors[e].remaining)
  {
    hide Inv, LapOf, RunOk;
    HolderParts(c, s, e);
    TrackerOf(c, s, s.executors[e].batch);
    Transitive(n, c.geometry.batchSize, s.executors[e].lap);
    Sum(n, s.executors[e].lap, c.geometry.batchSize);
  }

  lemma StepRowCounts(c: Config, s: State, a: Action, n: nat)
    requires Enabled(c, s, a) && AllOfSize(s.producers, n) && (a.Arrive? ==> |a.rows| == n)
    ensures AllOfSize(Apply(c, s, a).producers, n)
  {
    hide ProducerStep, ExecutorStep, ProducerEnabled, ExecutorEnabled, TrackerEffect, PcEffect;
    match a {
      case Arrive(_) =>
      case Produce(p, weakFail) =>
        var s' := ProducerStep(c, s, p, weakFail);
        ProducerEffects(c, s, p, weakFail, 0, 0);
        forall q | 0 <= q < |s'.producers| ensures |s'.producers[q].rows| == n {
          ProducerEffects(c, s, p, weakFail, q, 0);
        }
      case Execute(e, weakFail, result) => ExecutorEffects(c, s, e, weakFail, result, 0, 0);
    }
  }

  lemma UniformStep(c: Config, s: State, s': State, n: nat)
    requires Inv(c, Calm(s)) && SizedNext(c, s, s', {n})
    requires n > 0 && Multiple(n, c.geometry.batchSize) && Multiple(n, s.head) && AllOfSize(s.producers, n)
    ensures SafeNext(c, s, s') && Multiple(n, s'.head) && AllOfSize(s'.producers, n)
  {
    hide Inv, Multiple, Enabled, Apply, GrantFits, Calm;
    var a :| Enabled(c, s, a) && s' == Apply(c, s, a) && (a.Arrive? ==> |a.rows| in {n});
    EnabledIsCalm(c, s, a);
    EveryGrantFits(c, s, a, n);
    StepRowCounts(c, s, a, n);
    StepHead(c, s, a);
    HeadStaysMultiple(c, s, s', a, n);
  }

  lemma EnabledIsCalm(c: Config, s: State, a: Action)
    requires Enabled(c, s, a)
    ensures !s.panicked
  {
    hide ProducerEnabled, ExecutorEnabled;
  }

  lemma HeadStaysMultiple(c: Config, s: State, s': State, a: Action, n: nat)
    requires Inv(c, s) && HeadStep(c, s, s', a)
    requires n > 0 && Multiple(n, c.geometry.batchSize) && Multiple(n, s.head) && AllOfSize(s.producers, n)
    ensures Multiple(n, s'.head)
  {
    hide Inv;
    if a.Produce? {
      assert Multiple(n, n);
      Sum(n, s.head, n);
    } else if a.Execute? && a.e < |s.executors| && s.executors[a.e].SealCas? {
      SealedHead(c, s, a.e, n);
    }
  }

  /**
   If every request has n rows and n divides the batch size, the check as it stands
   admits only requests that fit: every run of the program is a safe run, and n
   divides head throughout, seals included.
  */
  lemma {:induction false} UniformRequestsFit(c: Config, run: seq<State>, n: nat, i: nat)
    requires SizedRun(c, run, {n}) && i < |run| && n > 0 && Multiple(n, c.geometry.batchSize)
    ensures Run(c, run[..i + 1])
    ensures Multiple(n, run[i].head) && AllOfSize(run[i].producers, n)
    decreases i
  {
    hide Init, SizedNext, SafeNext, Inv, Calm;
    assert SizedStepAt(c, run, {n}, i);
    if i == 0 {
      FirstHead(c, run[0], n);
      assert StepAt(c, run[..1], 0);
    } else {
      UniformRequestsFit(c, run, n, i - 1);
      RunKeeps(c, run[..i], i - 1);
      UniformStep(c, run[i - 1], run[i], n);
      var prefix := run[..i + 1];
      forall k: nat | k < |prefix| ensures StepAt(c, prefix, k) {
        assert k < i ==> StepAt(c, run[..i], k);
      }
    }
  }

  lemma FirstHead(c: Config, s: State, n: nat)
    requires Init(c, s) && n > 0 && Multiple(n, c.geometry.batchSize)
    ensures Multiple(n, s.head) && AllOfSize(s.producers, n)
  {
    Transitive(n, c.geometry.batchSize, c.start);
  }

  ghost predicate Fits(g: Geometry, s: State) {
    s.head <= s.tail + g.ring
  }

  lemma OneSizeFits(c: Config, run: seq<State>, sizes: set<nat>)
    requires (forall n | n in sizes :: sizes == {n} && Multiple(n, c.geometry.batchSize)) && 0 !in sizes
    requires SizedRun(c, run, sizes) && c.geometry.Valid()
    ensures Fits(c.geometry, run[|run| - 1])
  {
    hide Init, SizedNext;
    if n :| n in sizes {
      LastFits(c, run, n);
    } else {
      MoreSizes(c, run, sizes, {1});
      Product(1, c.geometry.batchSize);
      LastFits(c, run, 1);
    }
  }

  lemma MoreSizes(c: Config, run: seq<State>, sizes: set<nat>, sizes': set<nat>)
    requires SizedRun(c, run, sizes) && sizes <= sizes'
    ensures SizedRun(c, run, sizes')
  {
    hide Init, Enabled, Apply;
    forall i: nat | i < |run| ensures SizedStepAt(c, run, sizes', i) {
      assert SizedStepAt(c, run, sizes, i);
    }
  }

  lemma LastFits(c: Config, run: seq<State>, n: nat)
    requires n >= 1 && Multiple(n, c.geometry.batchSize) && SizedRun(c, run, {n})
    ensures Fits(c.geometry, run[|run| - 1])
  {
    hide SizedNext, Init, Run;
    UniformRequestsFit(c, run, n, |run| - 1);
    assert run[..|run|] == run;
    RingBounds(c, run, |run| - 1);
  }

  // ----- requests that fill the ring, and one that is too large -----

  lemma RunExtends(c: Config, run: seq<State>, s: State, sizes: set<nat>)
    requires SizedRun(c, run, sizes) && SizedNext(c, run[|run| - 1], s, sizes)
    ensures SizedRun(c, run + [s], sizes)
  {
    hide Init, SizedNext;
    var run' := run + [s];
    forall i: nat | i < |run'| ensures SizedStepAt(c, run', sizes, i) {
      assert i < |run| ==> SizedStepAt(c, run, sizes, i);
    }
  }

  /** What the next request's progress needs of the state, and what it changes. */
  ghost predicate Asking(s: State, n: nat, head: nat, tail: nat, pc: ProducerPc) {
    && !s.panicked && s.head == head && s.tail == tail
    && |s.producers| > 0
    && |s.producers[|s.producers| - 1].rows| == n
    && s.producers[|s.producers| - 1].pc == pc
  }

  ghost predicate Between(s: State, head: nat, tail: nat) {
    !s.panicked && s.head == head && s.tail == tail
  }

  lemma Arrives(c: Config, s: State, sizes: set<nat>, n: nat, head: nat, tail: nat) returns (s': State)
    requires n >= 1 && n in sizes && Between(s, head, tail)
    ensures SizedNext(c, s, s', sizes) && Asking(s', n, head, tail, LoadHead)
  {
    var rows: seq<Row> := seq(n, i => []);
    var a := Arrive(rows);
    s' := Apply(c, s, a);
    assert Enabled(c, s, a);
  }

  lemma LoadsHead(c: Config, s: State, sizes: set<nat>, n: nat, head: nat, tail: nat) returns (s': State)
    requires c.geometry.Valid() && Asking(s, n, head, tail, LoadHead)
    ensures SizedNext(c, s, s', sizes) && Asking(s', n, head, tail, LoadTail(head))
  {
    var a := Produce(|s.producers| - 1, false);
    s' := Apply(c, s, a);
    assert Enabled(c, s, a);
  }

  lemma LoadsTail(c: Config, s: State, sizes: set<nat>, n: nat, head: nat, tail: nat) returns (s': State)
    requires c.geometry.Valid() && Asking(s, n, head, tail, LoadTail(head))
    requires tail <= head < tail + c.geometry.ring
    ensures SizedNext(c, s, s', sizes) && Asking(s', n, head, tail, Reserve(head, tail))
  {
    var a := Produce(|s.producers| - 1, false);
    s' := Apply(c, s, a);
    assert Enabled(c, s, a);
  }

  lemma Reserves(c: Config, s: State, sizes: set<nat>, n: nat, head: nat, tail: nat) returns (s': State)
    requires c.geometry.Valid() && n >= 1 && Asking(s, n, head, tail, Reserve(head, tail))
    ensures SizedNext(c, s, s', sizes) && Between(s', head + n, tail)
  {
    hide PieceAt, WithSlots;
    var a := Produce(|s.producers| - 1, false);
    s' := Apply(c, s, a);
    assert Enabled(c, s, a);
  }

  lemma OneMoreGrant(c: Config, run: seq<State>, sizes: set<nat>, n: nat, head: nat, tail: nat)
    returns (run': seq<State>)
    requires c.geometry.Valid() && n >= 1 && n in sizes && SizedRun(c, run, sizes)
    requires Between(run[|run| - 1], head, tail) && tail <= head < tail + c.geometry.ring
    ensures SizedRun(c, run', sizes) && Between(run'[|run'| - 1], head + n, tail)
  {
    hide Init, SizedNext, Asking, Between;
    var s := run[|run| - 1];
    var s1 := Arrives(c, s, sizes, n, head, tail);
    var s2 := LoadsHead(c, s1, sizes, n, head, tail);
    var s3 := LoadsTail(c, s2, sizes, n, head, tail);
    var s4 := Reserves(c, s3, sizes, n, head, tail);
    RunExtends(c, run, s1, sizes);
    RunExtends(c, run + [s1], s2, sizes);
    RunExtends(c, run + [s1] + [s2], s3, sizes);
    RunExtends(c, run + [s1] + [s2] + [s3], s4, sizes);
    run' := run + [s1] + [s2] + [s3] + [s4];
  }

  /** Requests of n rows fill what is left of the ring; if n does not divide it, the last one overruns. */
  lemma {:induction false} FillsAndOverruns(c: Config, run: seq<State>, sizes: set<nat>, n: nat, head: nat, tail: nat)
    returns (run': seq<State>)
    requires c.geometry.Valid() && n >= 1 && n in sizes && SizedRun(c, run, sizes)
    requires Between(run[|run| - 1], head, tail) && tail <= head < tail + c.geometry.ring
    requires !Multiple(n, tail + c.geometry.ring - head)
    ensures SizedRun(c, run', sizes) && !Fits(c.geometry, run'[|run'| - 1])
    decreases tail + c.geometry.ring - head
  {
    hide SizedRun;
    run' := OneMoreGrant(c, run, sizes, n, head, tail);
    if head + n < tail + c.geometry.ring {
      run' := FillsAndOverruns(c, run', sizes, n, head + n, tail);
    }
  }

  lemma FirstStep(c: Config, run: seq<State>, sizes: set<nat>)
    requires |run| == 1 && Init(c, run[0])
    ensures SizedRun(c, run, sizes)
  {
    hide Init;
  }

  lemma TwoBatches(g: Geometry)
    requires g.Valid() && g.capacity >= 2
    ensures g.batchSize < g.ring
  {
    Distribute(g.capacity, 1, g.batchSize);
    AtLeastOneStep(g.capacity - 1, g.batchSize);
  }

  lemma NotBoth(n: nat, x: nat, y: nat)
    requires Multiple(n, y) && !Multiple(n, x) && x <= y
    ensures !Multiple(n, y - x)
  {
    if Multiple(n, y - x) {
      Difference(n, y - x, y);
    }
  }
}
