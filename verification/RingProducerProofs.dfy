/** Every producer step keeps the invariant. */
module RingProducerProofs {
  import opened InferTypes
  import opened Multiples
  import opened Ranges
  import opened RingGeometry
  import opened RingModel
  import opened RingSteps
  import opened RingInvariant
  import opened RingFrames

  /** A producer changes its own program counter and nothing that others read of it. */
  ghost predicate Quiet(me: Producer, me': Producer) {
    && me'.rows == me.rows
    && me'.first == me.first
    && me'.response == me.response
    && Granted(me'.pc) == Granted(me.pc)
    && Written(me') == Written(me)
    && (forall i :: PassedDeadline(me, i) ==> PassedDeadline(me', i))
    && (forall i :: PassedQueueStart(me, i) ==> PassedQueueStart(me', i))
  }

  lemma QuietSlots(c: Config, owner: map<nat, Slot>, producers: seq<Producer>, published: set<nat>, p: nat,
                   me': Producer)
    requires p < |producers| && Quiet(producers[p], me')
    requires Owners(c, owner, producers) && Progress(owner, producers, published)
    ensures Owners(c, owner, producers[p := me']) && Progress(owner, producers[p := me'], published)
  {
  }

  lemma QuietTimers(trackers: seq<Tracker>, owner: map<nat, Slot>, producers: seq<Producer>, p: nat, me': Producer)
    requires p < |producers| && Quiet(producers[p], me')
    requires Timers(trackers, owner, producers)
    ensures Timers(trackers, owner, producers[p := me'])
  {
  }

  ghost predicate OwnFacts(c: Config, s: State, me': Producer) {
    && ProducerShape(c, me')
    && (me'.pc.Reserve? ==> me'.pc.h < s.tail + c.geometry.ring)
    && (Writing(me'.pc) ==>
          && me'.pc.piece.batch < |s.trackers| && PieceHere(me', s.trackers[me'.pc.piece.batch])
          && me'.pc.piece.batch < |s.buffers|
          && Copied(me', me'.pc.piece, DoneRows(me'.pc), s.buffers[me'.pc.piece.batch]))
    && CollectOk(c, me', s.outputs)
  }

  lemma QuietProducers(c: Config, s: State, p: nat, me': Producer)
    requires p < |s.producers| && Quiet(s.producers[p], me')
    requires ProducersInv(c, s) && OwnFacts(c, s, me')
    ensures ProducersInv(c, s.(producers := s.producers[p := me']))
  {
  }

  lemma QuietStep(c: Config, s: State, p: nat, me': Producer)
    requires p < |s.producers| && Quiet(s.producers[p], me')
    requires Inv(c, s) && OwnFacts(c, s, me')
    ensures Inv(c, s.(producers := s.producers[p := me']))
  {
    QuietSlots(c, s.owner, s.producers, s.published, p, me');
    QuietTimers(s.trackers, s.owner, s.producers, p, me');
    QuietProducers(c, s, p, me');
  }

  lemma OwnParts(c: Config, s: State, p: nat)
    requires Inv(c, s) && p < |s.producers|
    ensures var me := s.producers[p];
            && ProducerShape(c, me)
            && OwnsItsRows(p, me, s.owner)
            && CollectOk(c, me, s.outputs)
            && (me.pc.Reserve? ==> me.pc.h < s.tail + c.geometry.ring)
            && (Writing(me.pc) ==>
                  && me.pc.piece.batch < |s.trackers| == |s.buffers|
                  && PieceHere(me, s.trackers[me.pc.piece.batch])
                  && Copied(me, me.pc.piece, DoneRows(me.pc), s.buffers[me.pc.piece.batch]))
  {
  }

  // ----- the steps that only move the program counter -----

  lemma LoadKeeps(c: Config, s: State, p: nat, weakFail: bool)
    requires Inv(c, s) && ProducerEnabled(c, s, p)
    requires s.producers[p].pc.LoadHead? || s.producers[p].pc.LoadTail?
    ensures Inv(c, ProducerStep(c, s, p, weakFail))
  {
    var me := s.producers[p];
    var pc := if me.pc.LoadHead? then LoadTail(s.head)
              else if BelowRing(c.geometry, me.pc.h, s.tail) then Reserve(me.pc.h, s.tail) else Rejected;
    QuietStep(c, s, p, me.(pc := pc));
  }

  lemma RetryKeeps(c: Config, s: State, p: nat)
    requires Inv(c, s) && p < |s.producers| && s.producers[p].pc.Reserve?
    ensures Inv(c, SetProducer(s, p, LoadHead))
  {
    QuietStep(c, s, p, s.producers[p].(pc := LoadHead));
  }

  lemma CopyDoneKeeps(c: Config, s: State, p: nat, weakFail: bool)
    requires Inv(c, s) && ProducerEnabled(c, s, p)
    requires s.producers[p].pc.Copy? && s.producers[p].pc.done >= s.producers[p].pc.piece.len
    ensures Inv(c, ProducerStep(c, s, p, weakFail))
  {
    hide Inv;
    OwnParts(c, s, p);
    var me := s.producers[p];
    var pc := if SlotOf(me, me.pc.piece) == 0 then MarkDirty(me.pc.piece) else Capture(me.pc.piece);
    QuietStep(c, s, p, me.(pc := pc));
  }

  lemma CaptureKeeps(c: Config, s: State, p: nat, weakFail: bool)
    requires Inv(c, s) && ProducerEnabled(c, s, p)
    requires s.producers[p].pc.Capture?
    ensures Inv(c, ProducerStep(c, s, p, weakFail))
  {
    var me := s.producers[p];
    var piece := me.pc.piece;
    QuietStep(c, s, p, me.(pc := Publish(piece, Cell(piece.batch, s.trackers[piece.batch].gen))));
  }

  // ----- slot 0: dirty, deadline, queue_start -----

  /** The tracker of a piece at slot 0 serves a lap whose slot 0 is this producer's own, unpublished row. */
  lemma SlotZeroIsMine(c: Config, s: State, p: nat)
    requires Inv(c, s) && p < |s.producers|
    requires s.producers[p].pc.MarkDirty? || s.producers[p].pc.SetDeadline? || s.producers[p].pc.SetQueueStart?
    ensures s.producers[p].pc.piece.batch < |s.trackers|
    ensures var tr := s.trackers[s.producers[p].pc.piece.batch];
            && tr.lap in s.owner && s.owner[tr.lap].producer == p
            && s.owner[tr.lap].index == s.producers[p].pc.piece.pos
            && tr.lap !in s.published
            && tr.stage < FULL
  {
    var me := s.producers[p];
    var tr := s.trackers[me.pc.piece.batch];
    assert tr.lap == me.first + me.pc.piece.pos;
    assert OwnsItsRows(p, me, s.owner);
    assert ProgressOk(tr.lap, s.owner[tr.lap], s.producers, s.published);
    assert LapFull(c.geometry, tr, s.owner, s.published);
  }

  lemma MarkDirtyKeeps(c: Config, s: State, p: nat, weakFail: bool)
    requires Inv(c, s) && ProducerEnabled(c, s, p)
    requires s.producers[p].pc.MarkDirty?
    ensures Inv(c, ProducerStep(c, s, p, weakFail))
  {
    var me := s.producers[p];
    var b := me.pc.piece.batch;
    hide Inv;
    OwnParts(c, s, p);
    QuietStep(c, s, p, me.(pc := SetDeadline(me.pc.piece)));
    DirtyStep(c, SetProducer(s, p, SetDeadline(me.pc.piece)), b);
  }

  lemma DirtyStep(c: Config, s: State, b: nat)
    requires Inv(c, s) && b < |s.trackers|
    ensures Inv(c, SetTracker(s, b, s.trackers[b].(dirty := 1)))
  {
    TrackerStep(c, s, b, s.trackers[b].(dirty := 1));
  }

  /** The `expect` on deadline and queue_start cannot fire. */
  lemma TimersUnset(c: Config, s: State, p: nat)
    requires Inv(c, s) && p < |s.producers|
    requires s.producers[p].pc.SetDeadline? || s.producers[p].pc.SetQueueStart?
    ensures s.producers[p].pc.piece.batch < |s.trackers|
    ensures s.producers[p].pc.SetDeadline? ==> !s.trackers[s.producers[p].pc.piece.batch].deadline
    ensures !s.trackers[s.producers[p].pc.piece.batch].queueStart
  {
    hide Inv, Timers;
    SlotZeroIsMine(c, s, p);
    TimersOf(c, s);
    TimersAt(s.trackers, s.owner, s.producers, s.producers[p].pc.piece.batch);
  }

  /** After its own step, the owner of slot 0 has passed the cell it is about to set. */
  lemma TimersMaySet(c: Config, s: State, p: nat, pc: ProducerPc, tr': Tracker)
    requires Inv(c, s) && p < |s.producers|
    requires s.producers[p].pc.SetDeadline? || s.producers[p].pc.SetQueueStart?
    requires s.producers[p].pc.piece.batch < |s.trackers|
    requires var me := s.producers[p]; var tr := s.trackers[me.pc.piece.batch];
             || (me.pc.SetDeadline? && pc == SetQueueStart(me.pc.piece) && tr' == tr.(deadline := true))
             || (me.pc.SetQueueStart? && pc == Capture(me.pc.piece) && tr' == tr.(queueStart := true))
    ensures LapTimers(tr', s.owner, s.producers[p := s.producers[p].(pc := pc)])
  {
    hide Inv, Timers;
    SlotZeroIsMine(c, s, p);
    TimersOf(c, s);
    QuietTimers(s.trackers, s.owner, s.producers, p, s.producers[p].(pc := pc));
    TimersAt(s.trackers, s.owner, s.producers[p := s.producers[p].(pc := pc)], s.producers[p].pc.piece.batch);
  }

  lemma TimersOf(c: Config, s: State)
    requires Inv(c, s)
    ensures Timers(s.trackers, s.owner, s.producers)
  {
  }

  lemma TimersAt(trackers: seq<Tracker>, owner: map<nat, Slot>, producers: seq<Producer>, b: nat)
    requires Timers(trackers, owner, producers) && b < |trackers|
    ensures LapTimers(trackers[b], owner, producers)
  {
  }

  lemma SetDeadlineKeeps(c: Config, s: State, p: nat, weakFail: bool)
    requires Inv(c, s) && ProducerEnabled(c, s, p)
    requires s.producers[p].pc.SetDeadline?
    ensures Inv(c, ProducerStep(c, s, p, weakFail))
  {
    TimersUnset(c, s, p);
    var me := s.producers[p];
    var b := me.pc.piece.batch;
    TimersMaySet(c, s, p, SetQueueStart(me.pc.piece), s.trackers[b].(deadline := true));
    TimerStep(c, s, p, SetQueueStart(me.pc.piece), s.trackers[b].(deadline := true));
  }

  lemma SetQueueStartKeeps(c: Config, s: State, p: nat, weakFail: bool)
    requires Inv(c, s) && ProducerEnabled(c, s, p)
    requires s.producers[p].pc.SetQueueStart?
    ensures Inv(c, ProducerStep(c, s, p, weakFail))
  {
    TimersUnset(c, s, p);
    var me := s.producers[p];
    var b := me.pc.piece.batch;
    TimersMaySet(c, s, p, Capture(me.pc.piece), s.trackers[b].(queueStart := true));
    TimerStep(c, s, p, Capture(me.pc.piece), s.trackers[b].(queueStart := true));
  }

  lemma TimerStep(c: Config, s: State, p: nat, pc: ProducerPc, tr': Tracker)
    requires Inv(c, s) && p < |s.producers|
    requires s.producers[p].pc.SetDeadline? || s.producers[p].pc.SetQueueStart?
    requires s.producers[p].pc.piece.batch < |s.trackers|
    requires Writing(pc) && !pc.Copy? && !pc.Publish? && !pc.MarkDirty? && pc.piece == s.producers[p].pc.piece
    requires s.producers[p].pc.SetQueueStart? ==> pc.Capture?
    requires s.producers[p].pc.SetDeadline? ==> pc.SetQueueStart?
    requires var tr := s.trackers[s.producers[p].pc.piece.batch];
             tr' == tr.(deadline := tr'.deadline, queueStart := tr'.queueStart)
    requires LapTimers(tr', s.owner, s.producers[p := s.producers[p].(pc := pc)])
    ensures Inv(c, SetTracker(SetProducer(s, p, pc), s.producers[p].pc.piece.batch, tr'))
  {
    hide Inv, LapTimers, LapWritten, LapCells;
    var me := s.producers[p];
    OwnParts(c, s, p);
    QuietStep(c, s, p, me.(pc := pc));
    var b := me.pc.piece.batch;
    LapKept(c, s, b, tr');
    TrackerStep(c, SetProducer(s, p, pc), b, tr');
  }

  lemma LapKept(c: Config, s: State, b: nat, tr': Tracker)
    requires b < |s.trackers| && Inv(c, s)
    requires tr' == s.trackers[b].(deadline := tr'.deadline, queueStart := tr'.queueStart)
    ensures LapWritten(c.geometry, tr', s.published)
    ensures LapCells(b, tr', s.outputs)
  {
    assert LapWritten(c.geometry, s.trackers[b], s.published);
    assert LapCells(b, s.trackers[b], s.outputs);
  }

  // ----- copying rows -----

  /** A producer that has not published its piece works in a lap that no executor has filled. */
  lemma WriterBeforeFull(c: Config, s: State, p: nat)
    requires Inv(c, s) && p < |s.producers| && Writing(s.producers[p].pc)
    ensures s.producers[p].pc.piece.batch < |s.trackers| == |s.buffers| == c.geometry.capacity
    ensures var piece := s.producers[p].pc.piece; var tr := s.trackers[piece.batch];
            && tr.lap == piece.base && tr.stage < FULL
            && |s.buffers[piece.batch]| == c.geometry.batchSize
    ensures var piece := s.producers[p].pc.piece;
            PieceShape(c, s.producers[p], piece)
    ensures var piece := s.producers[p].pc.piece;
            forall a | s.producers[p].first + piece.pos <= a < s.producers[p].first + piece.pos + piece.len ::
              a in s.owner && s.owner[a].producer == p && s.owner[a].index == a - s.producers[p].first
              && a !in s.published
  {
    var me := s.producers[p];
    var piece := me.pc.piece;
    assert PieceHere(me, s.trackers[piece.batch]);
    assert ProducerShape(c, me);
    assert OwnsItsRows(p, me, s.owner);
    forall a | me.first + piece.pos <= a < me.first + piece.pos + piece.len
      ensures a in s.owner && s.owner[a].producer == p && s.owner[a].index == a - me.first && a !in s.published
    {
      assert ProgressOk(a, s.owner[a], s.producers, s.published);
    }
    var a := me.first + piece.pos;
    assert a in s.owner && a !in s.published;
    assert LapFull(c.geometry, s.trackers[piece.batch], s.owner, s.published);
  }

  lemma WriteLaps(g: Geometry, trackers: seq<Tracker>, buffers: seq<seq<Row>>, owner: map<nat, Slot>,
                  published: set<nat>, b: nat, a: nat, row: Row)
    requires b < |trackers| && BufferRows(g, trackers, buffers, owner, published)
    requires trackers[b].lap <= a < trackers[b].lap + |buffers[b]| && a !in published
    ensures BufferRows(g, trackers, buffers[b := buffers[b][a - trackers[b].lap := row]], owner, published)
  {
  }

  lemma WriteMissesCopy(p: nat, q: nat, you: Producer, owner: map<nat, Slot>, buffer: seq<Row>, a: nat, row: Row)
    requires Writing(you.pc) && Copied(you, you.pc.piece, DoneRows(you.pc), buffer)
    requires OwnsItsRows(q, you, owner) && a in owner && owner[a].producer == p
    requires q == p ==> you.pc.piece.pos + DoneRows(you.pc) <= a - you.first
    requires you.pc.piece.base <= a < you.pc.piece.base + |buffer|
    ensures Copied(you, you.pc.piece, DoneRows(you.pc), buffer[a - you.pc.piece.base := row])
  {
  }

  lemma WriteCopies(producers: seq<Producer>, trackers: seq<Tracker>, buffers: seq<seq<Row>>, owner: map<nat, Slot>,
                    p: nat, b: nat, a: nat, row: Row)
    requires Owning(producers, owner) && Pieces(producers, trackers) && Copies(producers, buffers)
    requires p < |producers| && Writing(producers[p].pc)
    requires b == producers[p].pc.piece.batch < |trackers| && b < |buffers|
    requires trackers[b].lap <= a < trackers[b].lap + |buffers[b]|
    requires producers[p].pc.piece.pos + DoneRows(producers[p].pc) <= a - producers[p].first
    requires a in owner && owner[a].producer == p
    ensures Copies(producers, buffers[b := buffers[b][a - trackers[b].lap := row]])
  {
    var buffers' := buffers[b := buffers[b][a - trackers[b].lap := row]];
    forall q | 0 <= q < |producers| && Writing(producers[q].pc)
      ensures producers[q].pc.piece.batch < |buffers'|
      ensures Copied(producers[q], producers[q].pc.piece, DoneRows(producers[q].pc),
                     buffers'[producers[q].pc.piece.batch])
    {
      var you := producers[q];
      if you.pc.piece.batch == b {
        assert PieceHere(you, trackers[b]);
        WriteMissesCopy(p, q, you, owner, buffers[b], a, row);
      }
    }
  }

  lemma WriteReaders(c: Config, s: State, b: nat, slot: nat, row: Row)
    requires Holders(c, s.executors, s.trackers) && Readers(c, s.executors, s.buffers)
    requires b < |s.trackers| && b < |s.buffers| && s.trackers[b].stage < FULL && slot < |s.buffers[b]|
    ensures Readers(c, s.executors, s.buffers[b := s.buffers[b][slot := row]])
  {
    forall e | 0 <= e < |s.executors| && Holding(s.executors[e])
      ensures s.executors[e].batch < |s.buffers|
      ensures ReadOk(c, s.executors[e], s.buffers[b := s.buffers[b][slot := row]][s.executors[e].batch])
    {
      assert HoldingOk(c, e, s.executors[e], s.trackers[s.executors[e].batch]);
      assert ReadOk(c, s.executors[e], s.buffers[s.executors[e].batch]);
    }
  }

  lemma BuffersKeep(c: Config, s: State, buffers': seq<seq<Row>>)
    requires Inv(c, s)
    requires Sized(c.geometry, s.trackers, buffers')
    requires BufferRows(c.geometry, s.trackers, buffers', s.owner, s.published)
    requires Copies(s.producers, buffers')
    requires Readers(c, s.executors, buffers')
    ensures Inv(c, s.(buffers := buffers'))
  {
  }

  lemma WriteSized(g: Geometry, trackers: seq<Tracker>, buffers: seq<seq<Row>>, b: nat, slot: nat, row: Row)
    requires Sized(g, trackers, buffers) && b < |buffers| && slot < |buffers[b]|
    ensures Sized(g, trackers, buffers[b := buffers[b][slot := row]])
  {
  }

  lemma WriteRowKeeps(c: Config, s: State, p: nat, b: nat, a: nat, row: Row)
    requires Inv(c, s) && p < |s.producers| && Writing(s.producers[p].pc)
    requires b == s.producers[p].pc.piece.batch < |s.trackers| == |s.buffers|
    requires s.trackers[b].stage < FULL
    requires s.trackers[b].lap <= a < s.trackers[b].lap + |s.buffers[b]|
    requires s.producers[p].pc.piece.pos + DoneRows(s.producers[p].pc) <= a - s.producers[p].first
    requires a in s.owner && s.owner[a].producer == p && a !in s.published
    ensures Inv(c, s.(buffers := s.buffers[b := s.buffers[b][a - s.trackers[b].lap := row]]))
  {
    hide *;
    Parts(c, s);
    WriteLaps(c.geometry, s.trackers, s.buffers, s.owner, s.published, b, a, row);
    WriteCopies(s.producers, s.trackers, s.buffers, s.owner, p, b, a, row);
    WriteReaders(c, s, b, a - s.trackers[b].lap, row);
    WriteSized(c.geometry, s.trackers, s.buffers, b, a - s.trackers[b].lap, row);
    BuffersKeep(c, s, s.buffers[b := s.buffers[b][a - s.trackers[b].lap := row]]);
  }

  lemma CopyRowIs(s: State, p: nat, a: nat, row: Row)
    requires p < |s.producers| && s.producers[p].pc.Copy?
    requires var me := s.producers[p]; var piece := me.pc.piece;
             && me.pc.done < piece.len && piece.pos + piece.len <= |me.rows|
             && piece.batch < |s.buffers| && me.first + piece.pos >= piece.base
             && me.first + piece.pos + piece.len - piece.base <= |s.buffers[piece.batch]|
             && a == me.first + piece.pos + me.pc.done && row == me.rows[piece.pos + me.pc.done]
    ensures var me := s.producers[p]; var piece := me.pc.piece;
            CopyRow(s, p) ==
              SetProducer(s.(buffers := s.buffers[piece.batch := s.buffers[piece.batch][a - piece.base := row]]),
                                         p, Copy(piece, me.pc.done + 1))
  {
  }

  lemma CopyRowKeeps(c: Config, s: State, p: nat)
    requires Inv(c, s) && ProducerEnabled(c, s, p)
    requires s.producers[p].pc.Copy? && s.producers[p].pc.done < s.producers[p].pc.piece.len
    ensures Inv(c, CopyRow(s, p))
  {
    hide Inv, ProducerShape, CollectOk, OwnsItsRows, CopyRow, SetProducer, PieceHere;
    var me := s.producers[p];
    var piece := me.pc.piece;
    WriterBeforeFull(c, s, p);
    OwnParts(c, s, p);
    var a := me.first + piece.pos + me.pc.done;
    var row := me.rows[piece.pos + me.pc.done];
    WriteRowKeeps(c, s, p, piece.batch, a, row);
    var s1 := s.(buffers := s.buffers[piece.batch := s.buffers[piece.batch][a - piece.base := row]]);
    MoreCopied(me, piece, me.pc.done, s.buffers[piece.batch]);
    CountCopied(c, s1, p);
    CopyRowIs(s, p, a, row);
  }

  lemma CountCopied(c: Config, s: State, p: nat)
    requires Inv(c, s) && p < |s.producers| && s.producers[p].pc.Copy?
    requires s.producers[p].pc.done < s.producers[p].pc.piece.len
    requires s.producers[p].pc.piece.batch < |s.buffers|
    requires var me := s.producers[p];
             Copied(me, me.pc.piece, me.pc.done + 1, s.buffers[me.pc.piece.batch])
    ensures Inv(c, SetProducer(s, p, Copy(s.producers[p].pc.piece, s.producers[p].pc.done + 1)))
  {
    hide Inv;
    OwnParts(c, s, p);
    var me := s.producers[p];
    QuietStep(c, s, p, me.(pc := Copy(me.pc.piece, me.pc.done + 1)));
  }

  lemma MoreCopied(me: Producer, piece: Piece, done: nat, buffer: seq<Row>)
    requires Copied(me, piece, done, buffer) && done < piece.len
    ensures Copied(me, piece, done + 1,
                   buffer[me.first + piece.pos + done - piece.base := me.rows[piece.pos + done]])
  {
  }

  // ----- the next piece -----

  lemma PieceAtShape(c: Config, me: Producer, pos: nat)
    requires c.geometry.Valid() && pos < |me.rows|
    requires pos == 0 || Multiple(c.geometry.batchSize, me.first + pos)
    ensures PieceShape(c, me, PieceAt(c.geometry, me.first, pos, |me.rows|))
    ensures PieceAt(c.geometry, me.first, pos, |me.rows|).pos == pos
  {
    LowerBoundFacts(c.geometry, me.first + pos);
    BatchIdFacts(c.geometry, me.first + pos);
    if pos != 0 {
      LowerBoundIs(c.geometry, me.first + pos, me.first + pos);
    }
  }

  /** The facts a producer needs when it turns to the piece at its first unpublished row. */
  lemma NextPiece(c: Config, s: State, p: nat, me': Producer, pos: nat)
    requires Inv(c, s) && p < |s.producers| && Granted(s.producers[p].pc)
    requires me'.rows == s.producers[p].rows && me'.first == s.producers[p].first
    requires Written(s.producers[p]) <= pos < |me'.rows|
    requires pos == 0 || Multiple(c.geometry.batchSize, me'.first + pos)
    requires me'.pc == Copy(PieceAt(c.geometry, me'.first, pos, |me'.rows|), 0)
    ensures PieceShape(c, me', me'.pc.piece) && me'.pc.piece.pos == pos
    ensures me'.pc.piece.batch < |s.trackers| == |s.buffers|
    ensures PieceHere(me', s.trackers[me'.pc.piece.batch])
    ensures Copied(me', me'.pc.piece, 0, s.buffers[me'.pc.piece.batch])
  {
    hide *;
    Parts(c, s);
    PieceAtShape(c, me', pos);
    var a := me'.first + pos;
    OwnSlot(c, s, p, a);
    UnpublishedIsInWindow(c, s, a);
    PieceIsHere(c, s, me', pos);
  }

  lemma PieceIsHere(c: Config, s: State, me': Producer, pos: nat)
    requires c.geometry.Valid() && pos < |me'.rows|
    requires Sized(c.geometry, s.trackers, s.buffers)
    requires me'.pc == Copy(PieceAt(c.geometry, me'.first, pos, |me'.rows|), 0)
    requires PieceShape(c, me', me'.pc.piece)
    requires BatchId(c.geometry, me'.first + pos) < |s.trackers|
    requires s.trackers[BatchId(c.geometry, me'.first + pos)].lap == LowerBound(c.geometry, me'.first + pos)
    ensures me'.pc.piece.batch < |s.trackers| == |s.buffers|
    ensures PieceHere(me', s.trackers[me'.pc.piece.batch])
    ensures Copied(me', me'.pc.piece, 0, s.buffers[me'.pc.piece.batch])
  {
    hide LowerBound, BatchId;
    assert |s.buffers[me'.pc.piece.batch]| == c.geometry.batchSize;
  }

  lemma OwnSlot(c: Config, s: State, p: nat, a: nat)
    requires Inv(c, s) && p < |s.producers| && Granted(s.producers[p].pc)
    requires s.producers[p].first + Written(s.producers[p]) <= a < s.producers[p].first + |s.producers[p].rows|
    ensures a in s.owner && a !in s.published && |s.trackers| == |s.buffers|
  {
    assert OwnsItsRows(p, s.producers[p], s.owner);
    assert ProgressOk(a, s.owner[a], s.producers, s.published);
  }

  // ----- publishing a piece -----

  ghost predicate Published(c: Config, me: Producer, me': Producer) {
    && me.pc.Publish? && SlotOf(me, me.pc.piece) >= 0
    && me'.rows == me.rows && me'.first == me.first
    && me'.response == me.response + [ReservationOf(me)]
    && Granted(me'.pc)
    && Written(me') == me.pc.piece.pos + me.pc.piece.len
  }

  lemma PublishOwners(c: Config, owner: map<nat, Slot>, producers: seq<Producer>, p: nat, me': Producer)
    requires p < |producers| && Published(c, producers[p], me')
    requires Owners(c, owner, producers)
    ensures Owners(c, owner, producers[p := me'])
  {
  }

  lemma SlotProgress(c: Config, a: nat, slot: Slot, producers: seq<Producer>, published: set<nat>, p: nat,
                     me': Producer)
    requires p < |producers| && Published(c, producers[p], me')
    requires OwnerOk(c, a, slot, producers) && ProgressOk(a, slot, producers, published)
    requires var me := producers[p];
             me.first + me.pc.piece.pos <= a < me.first + me.pc.piece.pos + me.pc.piece.len ==> slot.producer == p
    ensures var me := producers[p]; var piece := me.pc.piece;
            ProgressOk(a, slot, producers[p := me'],
                       published + Range(me.first + piece.pos, me.first + piece.pos + piece.len))
  {
  }

  lemma PublishedOwns(c: Config, p: nat, me: Producer, me': Producer, owner: map<nat, Slot>)
    requires Published(c, me, me') && OwnsItsRows(p, me, owner)
    ensures forall a | me.first <= a < me.first + |me.rows| :: a in owner && owner[a].producer == p
  {
  }

  lemma PublishProgress(c: Config, owner: map<nat, Slot>, producers: seq<Producer>, published: set<nat>, p: nat,
                        me': Producer,
                        lo: nat, hi: nat)
    requires p < |producers| && Published(c, producers[p], me') && producers[p].pc.Publish?
    requires Owners(c, owner, producers) && Progress(owner, producers, published)
    requires OwnsItsRows(p, producers[p], owner)
    requires producers[p].pc.piece.pos + producers[p].pc.piece.len <= |producers[p].rows|
    requires lo == producers[p].first + producers[p].pc.piece.pos
    requires hi == producers[p].first + producers[p].pc.piece.pos + producers[p].pc.piece.len
    ensures Progress(owner, producers[p := me'], published + Range(lo, hi))
  {
    hide OwnerOk, ProgressOk, Range, Published, OwnsItsRows;
    assert forall a | producers[p].first <= a < producers[p].first + |producers[p].rows| ::
        a in owner && owner[a].producer == p by {
      PublishedOwns(c, p, producers[p], me', owner);
    }
    forall a | a in owner ensures ProgressOk(a, owner[a], producers[p := me'], published + Range(lo, hi)) {
      SlotProgress(c, a, owner[a], producers, published, p, me');
    }
  }

  lemma PublishTimers(c: Config, trackers: seq<Tracker>, owner: map<nat, Slot>, producers: seq<Producer>, p: nat,
                      me': Producer)
    requires p < |producers| && Published(c, producers[p], me') && producers[p].pc.piece.len > 0
    requires Timers(trackers, owner, producers)
    ensures Timers(trackers, owner, producers[p := me'])
  {
  }

  /** written_slots of the piece's tracker grows by exactly the newly published slots. */
  lemma PublishCount(g: Geometry, published: set<nat>, lap: nat, lo: nat, hi: nat)
    requires lo <= hi && forall a | lo <= a < hi :: a !in published
    ensures lap <= lo && hi <= lap + g.batchSize ==>
              |PublishedIn(g, published + Range(lo, hi), lap)| == |PublishedIn(g, published, lap)| + (hi - lo)
    ensures hi <= lap || lap + g.batchSize <= lo ==>
              PublishedIn(g, published + Range(lo, hi), lap) == PublishedIn(g, published, lap)
  {
    if lap <= lo && hi <= lap + g.batchSize {
      assert PublishedIn(g, published + Range(lo, hi), lap) == PublishedIn(g, published, lap) + Range(lo, hi);
    }
  }

  lemma PublishLaps(g: Geometry, trackers: seq<Tracker>, published: set<nat>, b: nat, lo: nat, hi: nat,
                    executorHead: nat, tail: nat)
    requires g.Valid() && |trackers| == g.capacity && Windows(g, trackers, executorHead, tail)
    requires Writtens(g, trackers, published)
    requires b < |trackers| && trackers[b].lap <= lo <= hi <= trackers[b].lap + g.batchSize
    requires trackers[b].stage < FULL
    requires forall a | lo <= a < hi :: a !in published
    ensures Writtens(g, trackers[b := trackers[b].(writtenSlots := trackers[b].writtenSlots + (hi - lo))],
                     published + Range(lo, hi))
  {
    var trackers' := trackers[b := trackers[b].(writtenSlots := trackers[b].writtenSlots + (hi - lo))];
    forall d | 0 <= d < |trackers'|
      ensures LapWritten(g, trackers'[d], published + Range(lo, hi))
    {
      PublishCount(g, published, trackers[d].lap, lo, hi);
      assert LapWritten(g, trackers[d], published);
      if d != b {
        LapsDisjoint(g, trackers, executorHead, tail, b, d);
      }
    }
  }

  /** The slots [lo, hi) of a lap hold their owners' rows. */
  ghost predicate OwnedRows(lap: nat, buffer: seq<Row>, owner: map<nat, Slot>, lo: nat, hi: nat) {
    forall a | lo <= a < hi :: a in owner && 0 <= a - lap < |buffer| && buffer[a - lap] == owner[a].row
  }

  lemma RowsGrow(g: Geometry, tr: Tracker, buffer: seq<Row>, owner: map<nat, Slot>, published: set<nat>, lo: nat,
                 hi: nat)
    requires LapRows(g, tr, buffer, owner, published)
    requires hi <= tr.lap || tr.lap + g.batchSize <= lo || OwnedRows(tr.lap, buffer, owner, lo, hi)
    ensures LapRows(g, tr, buffer, owner, published + Range(lo, hi))
  {
    hide Range;
    forall a | tr.lap <= a < tr.lap + g.batchSize && a in published + Range(lo, hi)
      ensures a in owner && a - tr.lap < |buffer| && buffer[a - tr.lap] == owner[a].row
    {
      assert a in published || lo <= a < hi;
    }
  }

  lemma PublishRows(g: Geometry, trackers: seq<Tracker>, buffers: seq<seq<Row>>, owner: map<nat, Slot>,
                    published: set<nat>,
                    b: nat, lo: nat, hi: nat, executorHead: nat, tail: nat)
    requires g.Valid() && |trackers| == g.capacity && Windows(g, trackers, executorHead, tail)
    requires BufferRows(g, trackers, buffers, owner, published)
    requires b < |trackers| && trackers[b].lap <= lo <= hi <= trackers[b].lap + g.batchSize
    requires b < |buffers| && OwnedRows(trackers[b].lap, buffers[b], owner, lo, hi)
    ensures BufferRows(g, trackers, buffers, owner, published + Range(lo, hi))
  {
    hide LapRows, Windows, OwnedRows;
    forall d | 0 <= d < |trackers|
      ensures LapRows(g, trackers[d], buffers[d], owner, published + Range(lo, hi))
    {
      if d != b {
        LapsDisjoint(g, trackers, executorHead, tail, b, d);
      }
      RowsGrow(g, trackers[d], buffers[d], owner, published, lo, hi);
    }
  }

  /** What the copied rows are, in terms of the owners of their slots. */
  lemma CopiedAreOwned(c: Config, p: nat, me: Producer, owner: map<nat, Slot>, producers: seq<Producer>,
                       buffer: seq<Row>)
    requires p < |producers| && me == producers[p] && me.pc.Publish?
    requires Copied(me, me.pc.piece, me.pc.piece.len, buffer)
    requires OwnsItsRows(p, me, owner) && Owners(c, owner, producers)
    ensures OwnedRows(me.pc.piece.base, buffer, owner,
                      me.first + me.pc.piece.pos, me.first + me.pc.piece.pos + me.pc.piece.len)
  {
    forall a | me.first + me.pc.piece.pos <= a < me.first + me.pc.piece.pos + me.pc.piece.len
      ensures a in owner && 0 <= a - me.pc.piece.base < |buffer| && buffer[a - me.pc.piece.base] == owner[a].row
    {
      assert OwnerOk(c, a, owner[a], producers);
      assert buffer[me.first + (a - me.first) - me.pc.piece.base] == me.rows[a - me.first];
    }
  }

  lemma PublishResponse(c: Config, me: Producer, me': Producer, tr: Tracker)
    requires ResponseOk(c, me) && Published(c, me, me')
    requires PieceShape(c, me, me.pc.piece) && PieceHere(me, tr)
    requires LapOf(c.geometry, me.pc.piece.batch, tr.gen) == tr.lap
    ensures ResponseOk(c, me')
  {
    assert ReservationOk(c, me', ReservationOf(me));
    forall j | 0 <= j < |me.response| ensures ReservationOk(c, me', me.response[j]) {
      assert ReservationOk(c, me, me.response[j]);
    }
  }

  /** One producer's record is replaced by one that satisfies its own part of the invariant. */
  lemma MoveProducer(c: Config, s: State, p: nat, me': Producer)
    requires p < |s.producers|
    requires ProducersInv(c, s) && OwnFacts(c, s, me') && OwnsItsRows(p, me', s.owner)
    ensures ProducersInv(c, s.(producers := s.producers[p := me']))
  {
  }

  lemma CountLaps(c: Config, s: State, b: nat, n: nat, published': set<nat>)
    requires b < |s.trackers| && s.published <= published'
    requires Sized(c.geometry, s.trackers, s.buffers)
    requires Windows(c.geometry, s.trackers, s.executorHead, s.tail)
    requires Slots(c, s.trackers, s.owner, s.head)
    requires Fulls(c.geometry, s.trackers, s.owner, s.published)
    requires Cells(s.trackers, s.outputs)
    ensures var trackers' := s.trackers[b := s.trackers[b].(writtenSlots := n)];
            && Sized(c.geometry, trackers', s.buffers)
            && Windows(c.geometry, trackers', s.executorHead, s.tail)
            && Slots(c, trackers', s.owner, s.head)
            && Fulls(c.geometry, trackers', s.owner, published')
            && Cells(trackers', s.outputs)
  {
  }

  lemma CountTimers(s: State, b: nat, n: nat, buffers: seq<seq<Row>>, published: set<nat>, g: Geometry,
                    producers: seq<Producer>)
    requires b < |s.trackers|
    requires Timers(s.trackers, s.owner, producers) && BufferRows(g, s.trackers, buffers, s.owner, published)
    ensures Timers(s.trackers[b := s.trackers[b].(writtenSlots := n)], s.owner, producers)
    ensures BufferRows(g, s.trackers[b := s.trackers[b].(writtenSlots := n)], buffers, s.owner, published)
  {
  }

  lemma BoundsGrow(c: Config, owner: map<nat, Slot>, published: set<nat>, more: set<nat>, head: nat, tail: nat)
    requires Bounds(c, owner, published, head, tail)
    ensures Bounds(c, owner, published + more, head, tail)
  {
  }

  lemma PublishedFacts(c: Config, s: State, p: nat)
    requires Inv(c, s) && c.geometry.Valid() && p < |s.producers| && s.producers[p].pc.Publish?
    requires var me := s.producers[p]; me.pc.piece.batch < |s.trackers| && SlotOf(me, me.pc.piece) >= 0
    ensures Published(c, s.producers[p], AfterPublish(c, s.producers[p]))
    ensures OwnFacts(c, s, AfterPublish(c, s.producers[p]))
    ensures OwnsItsRows(p, AfterPublish(c, s.producers[p]), s.owner)
  {
    hide Inv, PieceAt;
    var me := s.producers[p];
    var me' := AfterPublish(c, me);
    var piece := me.pc.piece;
    OwnParts(c, s, p);
    LapOfWriter(c, s, p);
    PublishResponse(c, me, me', s.trackers[piece.batch]);
  }

  lemma BoundaryIsAligned(c: Config, me: Producer, piece: Piece)
    requires c.geometry.Valid() && PieceShape(c, me, piece) && piece.pos + piece.len < |me.rows|
    ensures Multiple(c.geometry.batchSize, me.first + (piece.pos + piece.len))
  {
    Sum(c.geometry.batchSize, c.geometry.batchSize, piece.base);
  }

  lemma LapOfWriter(c: Config, s: State, p: nat)
    requires Inv(c, s) && p < |s.producers| && Writing(s.producers[p].pc)
    ensures c.geometry.Valid()
    ensures var piece := s.producers[p].pc.piece;
            && piece.batch < |s.trackers|
            && LapOf(c.geometry, piece.batch, s.trackers[piece.batch].gen) == s.trackers[piece.batch].lap
  {
    hide Inv;
    WriterBeforeFull(c, s, p);
    WindowOf(c, s, s.producers[p].pc.piece.batch);
  }

  lemma WindowOf(c: Config, s: State, b: nat)
    requires Inv(c, s) && b < |s.trackers|
    ensures LapWindow(c.geometry, b, s.trackers[b], s.executorHead, s.tail) && c.geometry.Valid()
  {
  }

  /** The step as a whole: tracker b counts the slots [lo, hi) of producer p's piece. */
  lemma PublishInv(c: Config, s: State, p: nat, me': Producer, b: nat, n: nat, lo: nat, hi: nat)
    requires Inv(c, s) && p < |s.producers| && s.producers[p].pc.Publish?
    requires Published(c, s.producers[p], me')
    requires OwnFacts(c, s, me') && OwnsItsRows(p, me', s.owner)
    requires b == s.producers[p].pc.piece.batch < |s.trackers|
    requires lo == s.producers[p].first + s.producers[p].pc.piece.pos
    requires hi == s.producers[p].first + s.producers[p].pc.piece.pos + s.producers[p].pc.piece.len
    requires n == s.trackers[b].writtenSlots + s.producers[p].pc.piece.len
    ensures Inv(c, s.(trackers := s.trackers[b := s.trackers[b].(writtenSlots := n)],
                      producers := s.producers[p := me'],
                      published := s.published + Range(lo, hi)))
  {
    hide *;
    Parts(c, s);
    WriterFacts(c, s, p);
    PublishSlotParts(c, s, p, me', lo, hi);
    PublishLapParts(c, s, p, me', b, n, lo, hi);
    PublishThreads(c, s, p, me', b, n);
    Whole(c, s.(trackers := s.trackers[b := s.trackers[b].(writtenSlots := n)],
                producers := s.producers[p := me'],
                published := s.published + Range(lo, hi)));
  }

  lemma PieceFits(c: Config, s: State, p: nat)
    requires Inv(c, s) && p < |s.producers| && s.producers[p].pc.Publish?
    ensures OwnsItsRows(p, s.producers[p], s.owner)
    ensures s.producers[p].pc.piece.pos + s.producers[p].pc.piece.len <= |s.producers[p].rows|
  {
    hide Inv;
    OwnParts(c, s, p);
  }

  lemma PublishSlotParts(c: Config, s: State, p: nat, me': Producer, lo: nat, hi: nat)
    requires Inv(c, s) && p < |s.producers| && s.producers[p].pc.Publish?
    requires Published(c, s.producers[p], me') && s.producers[p].pc.piece.batch < |s.trackers|
    requires lo == s.producers[p].first + s.producers[p].pc.piece.pos
    requires hi == s.producers[p].first + s.producers[p].pc.piece.pos + s.producers[p].pc.piece.len
    ensures Owners(c, s.owner, s.producers[p := me'])
    ensures Progress(s.owner, s.producers[p := me'], s.published + Range(lo, hi))
    ensures Bounds(c, s.owner, s.published + Range(lo, hi), s.head, s.tail)
  {
    hide *;
    Parts(c, s);
    PieceFits(c, s, p);
    PublishOwners(c, s.owner, s.producers, p, me');
    PublishProgress(c, s.owner, s.producers, s.published, p, me', lo, hi);
    BoundsGrow(c, s.owner, s.published, Range(lo, hi), s.head, s.tail);
  }

  lemma PublishLapParts(c: Config, s: State, p: nat, me': Producer, b: nat, n: nat, lo: nat, hi: nat)
    requires Inv(c, s) && p < |s.producers| && s.producers[p].pc.Publish?
    requires Published(c, s.producers[p], me')
    requires b == s.producers[p].pc.piece.batch < |s.trackers|
    requires lo == s.producers[p].first + s.producers[p].pc.piece.pos
    requires hi == s.producers[p].first + s.producers[p].pc.piece.pos + s.producers[p].pc.piece.len
    requires n == s.trackers[b].writtenSlots + s.producers[p].pc.piece.len
    ensures var trackers' := s.trackers[b := s.trackers[b].(writtenSlots := n)];
            var published' := s.published + Range(lo, hi);
            && Sized(c.geometry, trackers', s.buffers)
            && Windows(c.geometry, trackers', s.executorHead, s.tail)
            && Slots(c, trackers', s.owner, s.head)
            && Fulls(c.geometry, trackers', s.owner, published')
            && Writtens(c.geometry, trackers', published')
            && Timers(trackers', s.owner, s.producers[p := me'])
            && Cells(trackers', s.outputs)
            && BufferRows(c.geometry, trackers', s.buffers, s.owner, published')
  {
    hide *;
    Parts(c, s);
    WriterFacts(c, s, p);
    CountLaps(c, s, b, n, s.published + Range(lo, hi));
    PublishLaps(c.geometry, s.trackers, s.published, b, lo, hi, s.executorHead, s.tail);
    PublishTimers(c, s.trackers, s.owner, s.producers, p, me');
    PublishRows(c.geometry, s.trackers, s.buffers, s.owner, s.published, b, lo, hi, s.executorHead, s.tail);
    CountTimers(s, b, n, s.buffers, s.published + Range(lo, hi), c.geometry, s.producers[p := me']);
  }

  lemma OwnersOf(c: Config, s: State)
    requires Inv(c, s)
    ensures Owners(c, s.owner, s.producers)
  {
  }

  lemma WriterFacts(c: Config, s: State, p: nat)
    requires Inv(c, s) && p < |s.producers| && s.producers[p].pc.Publish?
    requires s.producers[p].pc.piece.batch < |s.trackers|
    ensures OwnsItsRows(p, s.producers[p], s.owner)
    ensures var me := s.producers[p]; var piece := me.pc.piece; var tr := s.trackers[piece.batch];
            && tr.stage < FULL && piece.len > 0
            && |s.trackers| == |s.buffers| == c.geometry.capacity
            && piece.pos + piece.len <= |me.rows|
            && tr.lap <= me.first + piece.pos && me.first + piece.pos + piece.len <= tr.lap + c.geometry.batchSize
            && OwnedRows(tr.lap, s.buffers[piece.batch], s.owner,
                         me.first + piece.pos, me.first + piece.pos + piece.len)
            && (forall a | me.first + piece.pos <= a < me.first + piece.pos + piece.len :: a !in s.published)
  {
    hide Inv, Owners, ProducerShape, CollectOk, OwnedRows;
    OwnersOf(c, s);
    WriterBeforeFull(c, s, p);
    OwnParts(c, s, p);
    var me := s.producers[p];
    CopiedAreOwned(c, p, me, s.owner, s.producers, s.buffers[me.pc.piece.batch]);
  }

  lemma PublishThreads(c: Config, s: State, p: nat, me': Producer, b: nat, n: nat)
    requires Inv(c, s) && p < |s.producers| && b < |s.trackers|
    requires OwnFacts(c, s, me') && OwnsItsRows(p, me', s.owner)
    ensures var trackers' := s.trackers[b := s.trackers[b].(writtenSlots := n)];
            var producers' := s.producers[p := me'];
            && Shapes(c, producers') && Admitted(producers', s.tail + c.geometry.ring) && Owning(producers', s.owner)
            && Pieces(producers', trackers') && Copies(producers', s.buffers) && Collects(c, producers', s.outputs)
            && LapLedgers(c, trackers', s.claims, s.runs, s.resets)
            && Holders(c, s.executors, trackers') && Passes(s.executors, s.tail, trackers')
  {
    MoveProducer(c, s, p, me');
    TrackerThreads(c, s.(producers := s.producers[p := me']), b, s.trackers[b].(writtenSlots := n));
  }

  lemma PublishKeeps(c: Config, s: State, p: nat)
    requires Inv(c, s) && c.geometry.Valid() && p < |s.producers| && s.producers[p].pc.Publish?
    requires var me := s.producers[p]; me.pc.piece.batch < |s.trackers| && SlotOf(me, me.pc.piece) >= 0
    ensures Inv(c, PublishPiece(c, s, p))
  {
    hide Inv, AfterPublish, Range, SlotOf;
    var me := s.producers[p];
    var b := me.pc.piece.batch;
    var lo := me.first + me.pc.piece.pos;
    PublishedFacts(c, s, p);
    PublishInv(c, s, p, AfterPublish(c, me), b, s.trackers[b].writtenSlots + me.pc.piece.len, lo, lo + me.pc.piece.len);
  }

  // ----- notifying the executor -----

  /** The step after a piece, once it is published and its notify is sent. */
  lemma AfterNotifyFacts(c: Config, s: State, p: nat)
    requires Inv(c, s) && c.geometry.Valid() && p < |s.producers| && s.producers[p].pc.Notify?
    ensures var me := s.producers[p];
            var me' := me.(pc := AfterPiece(c, me, me.pc.piece));
            Quiet(me, me') && OwnFacts(c, s, me')
  {
    hide Inv, PieceAt;
    var me := s.producers[p];
    var piece := me.pc.piece;
    OwnParts(c, s, p);
    if piece.pos + piece.len < |me.rows| {
      BoundaryIsAligned(c, me, piece);
      NextPiece(c, s, p, me.(pc := AfterPiece(c, me, piece)), piece.pos + piece.len);
    }
  }

  lemma AfterNotifyKeeps(c: Config, s: State, p: nat)
    requires Inv(c, s) && c.geometry.Valid() && p < |s.producers| && s.producers[p].pc.Notify?
    ensures Inv(c, SetProducer(s, p, AfterPiece(c, s.producers[p], s.producers[p].pc.piece)))
  {
    hide Inv, AfterPiece, Quiet, OwnFacts;
    var me := s.producers[p];
    AfterNotifyFacts(c, s, p);
    QuietStep(c, s, p, me.(pc := AfterPiece(c, me, me.pc.piece)));
  }

  lemma PermitKeeps(c: Config, s: State, cell: Cell)
    requires Inv(c, s) && cell.batch < c.geometry.capacity
    ensures Inv(c, s.(permits := s.permits + {cell}))
  {
  }

  lemma NotifyKeeps(c: Config, s: State, p: nat)
    requires Inv(c, s) && c.geometry.Valid() && p < |s.producers| && s.producers[p].pc.Notify?
    requires s.producers[p].pc.piece.batch < |s.trackers|
    ensures Inv(c, NotifyExecutor(c, s, p))
  {
    hide Inv, AfterPiece, LapOf;
    AfterNotifyKeeps(c, s, p);
    NotifierInRange(c, s, p);
    var b := s.producers[p].pc.piece.batch;
    PermitKeeps(c, SetProducer(s, p, AfterPiece(c, s.producers[p], s.producers[p].pc.piece)), Cell(b,
                s.trackers[b].gen));
  }

  lemma NotifierInRange(c: Config, s: State, p: nat)
    requires Inv(c, s) && p < |s.producers| && s.producers[p].pc.Notify?
    ensures s.producers[p].pc.piece.batch < c.geometry.capacity
  {
    hide Inv;
    OwnParts(c, s, p);
  }

  // ----- a granted reservation -----

  lemma GrantedOwner(c: Config, a: nat, slot: Slot, producers: seq<Producer>, p: nat, me': Producer,
                     published: set<nat>)
    requires p < |producers| && !Granted(producers[p].pc)
    requires OwnerOk(c, a, slot, producers) && ProgressOk(a, slot, producers, published)
    ensures OwnerOk(c, a, slot, producers[p := me']) && ProgressOk(a, slot, producers[p := me'], published)
  {
  }

  lemma GrantOwners(c: Config, owner: map<nat, Slot>, producers: seq<Producer>, published: set<nat>, p: nat,
                    me': Producer,
                    head: nat, tail: nat)
    requires p < |producers| && !Granted(producers[p].pc)
    requires me'.rows == producers[p].rows && me'.first == head && Granted(me'.pc) && Written(me') == 0
    requires Owners(c, owner, producers) && Progress(owner, producers, published)
    requires Bounds(c, owner, published, head, tail)
    ensures var owner' := WithSlots(owner, p, me'.rows, head);
            Owners(c, owner', producers[p := me']) && Progress(owner', producers[p := me'], published)
  {
    hide WithSlots, Granted, Written;
    var owner' := WithSlots(owner, p, me'.rows, head);
    forall a | a in owner'
      ensures OwnerOk(c, a, owner'[a], producers[p := me'])
      ensures ProgressOk(a, owner'[a], producers[p := me'], published)
    {
      if !(head <= a < head + |me'.rows|) {
        GrantedOwner(c, a, owner[a], producers, p, me', published);
      }
    }
  }

  lemma GrantBoundsKept(c: Config, owner: map<nat, Slot>, published: set<nat>, p: nat, rows: seq<Row>, head: nat,
                        tail: nat)
    requires Bounds(c, owner, published, head, tail) && tail <= head && c.start <= head
    ensures Bounds(c, WithSlots(owner, p, rows, head), published, head + |rows|, tail)
  {
    hide WithSlots;
    var owner' := WithSlots(owner, p, rows, head);
    forall a | a in owner' ensures c.start <= a < head + |rows| && (a < tail ==> a in published) {
    }
  }

  /** New slots lie at or beyond head, outside every sealed lap and every finished result. */
  ghost predicate Extends(owner: map<nat, Slot>, owner': map<nat, Slot>, head: nat, head': nat) {
    && head <= head'
    && (forall a | a in owner :: a in owner' && owner'[a] == owner[a])
    && (forall a | a in owner' && a !in owner :: head <= a < head')
    && (forall a | head <= a < head' :: a in owner')
  }

  lemma GrantExtends(owner: map<nat, Slot>, p: nat, rows: seq<Row>, head: nat, c: Config, published: set<nat>,
                     tail: nat)
    requires Bounds(c, owner, published, head, tail)
    ensures Extends(owner, WithSlots(owner, p, rows, head), head, head + |rows|)
  {
  }

  lemma GrantLaps(c: Config, trackers: seq<Tracker>, owner: map<nat, Slot>, owner': map<nat, Slot>, published: set<nat>,
                  head: nat, head': nat, tail: nat)
    requires Extends(owner, owner', head, head') && Bounds(c, owner, published, head, tail)
    requires Slots(c, trackers, owner, head) && Fulls(c.geometry, trackers, owner, published)
    ensures Slots(c, trackers, owner', head') && Fulls(c.geometry, trackers, owner', published)
  {
    forall b | 0 <= b < |trackers| ensures LapSlots(c, trackers[b], owner', head') {
      assert LapSlots(c, trackers[b], owner, head);
    }
    forall b | 0 <= b < |trackers| ensures LapFull(c.geometry, trackers[b], owner', published) {
      assert LapSlots(c, trackers[b], owner, head);
      assert LapFull(c.geometry, trackers[b], owner, published);
    }
  }

  lemma GrantTimers(c: Config, trackers: seq<Tracker>, owner: map<nat, Slot>, owner': map<nat, Slot>,
                    producers: seq<Producer>,
                    p: nat, me': Producer, head: nat, head': nat)
    requires p < |producers| && !Granted(producers[p].pc)
    requires Extends(owner, owner', head, head') && Owners(c, owner, producers)
    requires Timers(trackers, owner, producers)
    ensures Timers(trackers, owner', producers[p := me'])
  {
    forall b | 0 <= b < |trackers| ensures LapTimers(trackers[b], owner', producers[p := me']) {
      assert LapTimers(trackers[b], owner, producers);
      if trackers[b].lap in owner {
        assert OwnerOk(c, trackers[b].lap, owner[trackers[b].lap], producers);
      }
    }
  }

  lemma GrantRows(g: Geometry, trackers: seq<Tracker>, buffers: seq<seq<Row>>, owner: map<nat, Slot>,
                  owner': map<nat, Slot>,
                  published: set<nat>, head: nat, head': nat)
    requires Extends(owner, owner', head, head') && BufferRows(g, trackers, buffers, owner, published)
    ensures BufferRows(g, trackers, buffers, owner', published)
  {
  }

  lemma ExtendResults(c: Config, outputs: map<Cell, BatchResult>, items: map<nat, nat>, permits: set<Cell>,
                     owner: map<nat, Slot>, owner': map<nat, Slot>, head: nat, head': nat)
    requires Extends(owner, owner', head, head')
    requires Results(c, outputs, owner, head) && Items(c.geometry, items, owner, head)
    ensures Results(c, outputs, owner', head') && Items(c.geometry, items, owner', head')
  {
    forall u | u in items ensures ItemsOk(c.geometry, u, items[u], owner', head') {
      assert ItemsOk(c.geometry, u, items[u], owner, head);
      assert ReservedIn(c.geometry, owner', u) == ReservedIn(c.geometry, owner, u);
    }
    forall cell | cell in outputs ensures OutputOk(c, cell, outputs[cell], owner', head') {
      assert OutputOk(c, cell, outputs[cell], owner, head);
    }
  }

  lemma GrantOwning(producers: seq<Producer>, owner: map<nat, Slot>, owner': map<nat, Slot>, p: nat, me': Producer,
                    head: nat, head': nat)
    requires p < |producers| && Owning(producers, owner) && Extends(owner, owner', head, head')
    requires OwnsItsRows(p, me', owner')
    ensures Owning(producers[p := me'], owner')
  {
  }

  lemma GrantedOwns(p: nat, me: Producer, owner: map<nat, Slot>, head: nat)
    requires me.first == head
    ensures OwnsItsRows(p, me, WithSlots(owner, p, me.rows, head))
  {
  }

  ghost predicate OthersFacts(c: Config, s: State, me': Producer) {
    && ProducerShape(c, me')
    && !me'.pc.Reserve?
    && (Writing(me'.pc) ==>
          && me'.pc.piece.batch < |s.trackers| && PieceHere(me', s.trackers[me'.pc.piece.batch])
          && me'.pc.piece.batch < |s.buffers|
          && Copied(me', me'.pc.piece, DoneRows(me'.pc), s.buffers[me'.pc.piece.batch]))
    && CollectOk(c, me', s.outputs)
  }

  lemma GrantThreads(c: Config, s: State, p: nat, me': Producer, head': nat)
    requires p < |s.producers| && head' >= s.head
    requires ProducersInv(c, s) && ExecutorsInv(c, s) && OthersFacts(c, s, me')
    ensures var producers' := s.producers[p := me'];
            && Shapes(c, producers') && Admitted(producers', s.tail + c.geometry.ring)
            && Pieces(producers', s.trackers) && Copies(producers', s.buffers) && Collects(c, producers', s.outputs)
            && Sealers(c.geometry, s.executors, head') && Tails(c.geometry, s.executors, head', s.tail)
  {
  }

  lemma GrantCounters(c: Config, s: State, n: nat)
    requires Inv(c, s) && s.head + n <= s.tail + c.geometry.ring
    ensures Counters(c, s.head + n, s.executorHead, s.tail)
    ensures s.tail <= s.head && c.start <= s.head
  {
  }

  lemma GrantInv(c: Config, s: State, p: nat, me': Producer, n: nat)
    requires Inv(c, s) && p < |s.producers| && !Granted(s.producers[p].pc)
    requires me'.rows == s.producers[p].rows && me'.first == s.head && n == |me'.rows|
    requires Granted(me'.pc) && Written(me') == 0
    requires OthersFacts(c, s, me')
    requires s.head + n <= s.tail + c.geometry.ring
    ensures Inv(c, s.(head := s.head + n, producers := s.producers[p := me'],
                      owner := WithSlots(s.owner, p, me'.rows, s.head)))
  {
    hide *;
    Parts(c, s);
    var owner' := WithSlots(s.owner, p, me'.rows, s.head);
    GrantCounters(c, s, n);
    GrantExtends(s.owner, p, me'.rows, s.head, c, s.published, s.tail);
    GrantOwners(c, s.owner, s.producers, s.published, p, me', s.head, s.tail);
    GrantBoundsKept(c, s.owner, s.published, p, me'.rows, s.head, s.tail);
    GrantLaps(c, s.trackers, s.owner, owner', s.published, s.head, s.head + n, s.tail);
    GrantTimers(c, s.trackers, s.owner, owner', s.producers, p, me', s.head, s.head + n);
    GrantRows(c.geometry, s.trackers, s.buffers, s.owner, owner', s.published, s.head, s.head + n);
    ExtendResults(c, s.outputs, s.items, s.permits, s.owner, owner', s.head, s.head + n);
    GrantedOwns(p, me', s.owner, s.head);
    GrantOwning(s.producers, s.owner, owner', p, me', s.head, s.head + n);
    GrantThreads(c, s, p, me', s.head + n);
    Whole(c, s.(head := s.head + n, producers := s.producers[p := me'],
                owner := WithSlots(s.owner, p, me'.rows, s.head)));
  }

  lemma NoResponseYet(c: Config, me: Producer)
    requires ProducerShape(c, me)
    ensures Written(me) == 0 ==> me.response == []
  {
    if me.response != [] {
      var last := me.response[|me.response| - 1];
      assert ReservationOk(c, me, last);
    }
  }

  lemma GrantedFacts(c: Config, s: State, p: nat)
    requires Inv(c, s) && c.geometry.Valid() && p < |s.producers| && s.producers[p].pc.Reserve?
    requires |s.producers[p].rows| >= 1
    requires s.head < s.tail + c.geometry.ring
    ensures var me := s.producers[p];
            OthersFacts(c, s, me.(first := s.head, pc := Copy(PieceAt(c.geometry, s.head, 0, |me.rows|), 0)))
  {
    hide Inv, PieceAt;
    var me := s.producers[p];
    var me' := me.(first := s.head, pc := Copy(PieceAt(c.geometry, s.head, 0, |me.rows|), 0));
    OwnParts(c, s, p);
    NoResponseYet(c, me);
    PieceAtShape(c, me', 0);
    HeadIsInWindow(c, s);
    PieceIsHere(c, s, me', 0);
  }

  lemma HeadIsInWindow(c: Config, s: State)
    requires Inv(c, s) && c.geometry.Valid() && s.head < s.tail + c.geometry.ring
    ensures Sized(c.geometry, s.trackers, s.buffers)
    ensures BatchId(c.geometry, s.head) < |s.trackers|
    ensures s.trackers[BatchId(c.geometry, s.head)].lap == LowerBound(c.geometry, s.head)
  {
    hide *;
    Parts(c, s);
    GrantBounds(c, s.head, s.executorHead, s.tail);
    SizedParts(c.geometry, s.trackers, s.buffers);
    BatchOfWindow(c.geometry, s.trackers, s.executorHead, s.tail, s.head);
  }

  lemma GrantBounds(c: Config, head: nat, executorHead: nat, tail: nat)
    requires Counters(c, head, executorHead, tail)
    ensures tail <= head && Multiple(c.geometry.batchSize, tail)
  {
  }

  lemma GrantKeeps(c: Config, s: State, p: nat)
    requires Inv(c, s) && c.geometry.Valid() && p < |s.producers| && s.producers[p].pc.Reserve?
    requires |s.producers[p].rows| >= 1
    requires s.head + |s.producers[p].rows| <= s.tail + c.geometry.ring
    ensures Inv(c, Grant(c, s, p))
  {
    hide Inv, PieceAt, OthersFacts, WithSlots;
    var me := s.producers[p];
    GrantedFacts(c, s, p);
    PieceAtPos(c, s.head, |me.rows|);
    GrantInv(c, s, p, me.(first := s.head, pc := Copy(PieceAt(c.geometry, s.head, 0, |me.rows|), 0)), |me.rows|);
  }

  lemma PieceAtPos(c: Config, first: nat, n: nat)
    requires c.geometry.Valid() && n > 0
    ensures PieceAt(c.geometry, first, 0, n).pos == 0
  {
  }

  // ----- collecting the results -----

  /** One more reservation's slice: exactly the model's elements for the next rows of the request. */
  lemma ExtendData(c: Config, p: nat, me: Producer, producers: seq<Producer>, owner: map<nat, Slot>, head: nat,
                   r: Reservation, result: BatchResult, data: seq<seq<Element>>)
    requires p < |producers| && me == producers[p]
    requires Owners(c, owner, producers) && OwnsItsRows(p, me, owner) && Granted(me.pc)
    requires ReservationOk(c, me, r)
    requires result.Ok? && OutputOk(c, r.cell, result, owner, head)
    requires if r.pos == 0 then data == [] else DataOk(c, me.rows, r.pos, data)
    ensures SliceFits(result.value, data, r.first, r.end)
    ensures DataOk(c, me.rows, r.pos + (r.end - r.first), Extend(data, result.value, r.first, r.end))
  {
    var values := result.value;
    var data' := Extend(data, values, r.first, r.end);
    forall o | 0 <= o < c.outputs
      ensures |data'[o]| == r.pos + (r.end - r.first)
      ensures forall i | 0 <= i < r.pos + (r.end - r.first) ::
                o < |c.model(me.rows[i])| && data'[o][i] == c.model(me.rows[i])[o]
    {
      forall i | 0 <= i < r.pos + (r.end - r.first)
        ensures o < |c.model(me.rows[i])| && data'[o][i] == c.model(me.rows[i])[o]
      {
        if r.pos <= i {
          SliceElement(c, p, me, producers, owner, head, r, result, o, i);
        }
      }
    }
  }

  lemma SliceElement(c: Config, p: nat, me: Producer, producers: seq<Producer>, owner: map<nat, Slot>, head: nat,
                     r: Reservation, result: BatchResult, o: nat, i: nat)
    requires p < |producers| && me == producers[p]
    requires Owners(c, owner, producers) && OwnsItsRows(p, me, owner) && Granted(me.pc)
    requires ReservationOk(c, me, r)
    requires result.Ok? && OutputOk(c, r.cell, result, owner, head)
    requires o < c.outputs && r.pos <= i < r.pos + (r.end - r.first)
    ensures |result.value| == c.outputs && |result.value[o]| == c.geometry.batchSize
    ensures r.first + (i - r.pos) < |result.value[o]|
    ensures o < |c.model(me.rows[i])| && result.value[o][r.first + (i - r.pos)] == c.model(me.rows[i])[o]
  {
    var a := me.first + i;
    assert a in owner;
    assert OwnerOk(c, a, owner[a], producers);
    assert owner[a].row == me.rows[i];
    assert a - r.base == r.first + (i - r.pos);
  }

  /** Where the next reservation begins is where this one ends. */
  lemma NextPos(c: Config, me: Producer, j: nat)
    requires ResponseOk(c, me) && j < |me.response|
    ensures PosAt(me.response, j) == me.response[j].pos
    ensures PosAt(me.response, j + 1) == me.response[j].pos + (me.response[j].end - me.response[j].first)
    ensures me.response[j].pos == 0 <==> j == 0
  {
    assert ReservationOk(c, me, me.response[j]);
    if j > 0 {
      assert ReservationOk(c, me, me.response[j - 1]);
    }
  }

  lemma ResultOf(c: Config, s: State, cell: Cell)
    requires Inv(c, s) && cell in s.outputs
    ensures OutputOk(c, cell, s.outputs[cell], s.owner, s.head)
  {
  }

  lemma CollectNextFacts(c: Config, s: State, p: nat)
    requires Inv(c, s) && p < |s.producers| && s.producers[p].pc.Collect?
    requires s.producers[p].pc.next < |s.producers[p].response|
    requires s.producers[p].response[s.producers[p].pc.next].cell in s.outputs
    requires s.outputs[s.producers[p].response[s.producers[p].pc.next].cell].Ok?
    ensures var me := s.producers[p]; var r := me.response[me.pc.next]; var values := s.outputs[r.cell].value;
            && SliceFits(values, me.pc.data, r.first, r.end)
            && DataOk(c, me.rows, PosAt(me.response, me.pc.next + 1), Extend(me.pc.data, values, r.first, r.end))
  {
    hide Inv, Owners, OwnsItsRows, OutputOk, PosAt, DataOk, SliceFits;
    var me := s.producers[p];
    var r := me.response[me.pc.next];
    OwnersOf(c, s);
    OwnParts(c, s, p);
    ResultOf(c, s, r.cell);
    NextPos(c, me, me.pc.next);
    ExtendData(c, p, me, s.producers, s.owner, s.head, r, s.outputs[r.cell], me.pc.data);
  }

  lemma CollectedKeeps(c: Config, s: State, p: nat, data': seq<seq<Element>>)
    requires Inv(c, s) && p < |s.producers| && s.producers[p].pc.Collect?
    requires s.producers[p].pc.next < |s.producers[p].response|
    requires s.producers[p].response[s.producers[p].pc.next].cell in s.outputs
    requires s.outputs[s.producers[p].response[s.producers[p].pc.next].cell].Ok?
    requires DataOk(c, s.producers[p].rows, PosAt(s.producers[p].response, s.producers[p].pc.next + 1), data')
    ensures Inv(c, SetProducer(s, p, Collect(s.producers[p].pc.next + 1, data')))
  {
    hide Inv, PosAt, DataOk;
    OwnParts(c, s, p);
    QuietStep(c, s, p, s.producers[p].(pc := Collect(s.producers[p].pc.next + 1, data')));
  }

  lemma FailedKeeps(c: Config, s: State, p: nat, error: InferError)
    requires Inv(c, s) && p < |s.producers| && s.producers[p].pc.Collect?
    requires s.producers[p].pc.next < |s.producers[p].response|
    requires s.producers[p].response[s.producers[p].pc.next].cell in s.outputs
    requires s.outputs[s.producers[p].response[s.producers[p].pc.next].cell] == Err(error)
    ensures Inv(c, SetProducer(s, p, Answered(Err(error))))
  {
    hide Inv, PosAt, DataOk;
    OwnParts(c, s, p);
    assert FirstError(s.producers[p].response, s.outputs, error);
    QuietStep(c, s, p, s.producers[p].(pc := Answered(Err(error))));
  }

  lemma CollectNextKeeps(c: Config, s: State, p: nat)
    requires Inv(c, s) && p < |s.producers| && s.producers[p].pc.Collect?
    requires s.producers[p].pc.next < |s.producers[p].response|
    requires s.producers[p].response[s.producers[p].pc.next].cell in s.outputs
    ensures Inv(c, CollectNext(s, p))
  {
    hide Inv, PosAt, DataOk, Extend;
    var me := s.producers[p];
    var r := me.response[me.pc.next];
    match s.outputs[r.cell] {
      case Err(error) =>
        FailedKeeps(c, s, p, error);
      case Ok(values) =>
        CollectNextFacts(c, s, p);
        CollectedKeeps(c, s, p, Extend(me.pc.data, values, r.first, r.end));
    }
  }

  lemma FinishKeeps(c: Config, s: State, p: nat)
    requires Inv(c, s) && p < |s.producers| && s.producers[p].pc.Collect?
    requires s.producers[p].pc.next >= |s.producers[p].response|
    ensures s.producers[p].pc.next > 0
    ensures Inv(c, SetProducer(s, p, Answered(Ok(s.producers[p].pc.data))))
  {
    hide Inv, DataOk;
    var me := s.producers[p];
    OwnParts(c, s, p);
    QuietStep(c, s, p, me.(pc := Answered(Ok(me.pc.data))));
  }

  lemma ArriveKeeps(c: Config, s: State, rows: seq<Row>)
    requires Inv(c, s) && |rows| >= 1
    ensures Inv(c, s.(producers := s.producers + [Producer(rows, 0, LoadHead, [])]))
  {
    hide *;
    Parts(c, s);
    ArriveSlots(c, s.owner, s.producers, s.published, Producer(rows, 0, LoadHead, []));
    ArriveTimers(s.trackers, s.owner, s.producers, Producer(rows, 0, LoadHead, []));
    ArriveProducers(c, s, Producer(rows, 0, LoadHead, []));
    Whole(c, s.(producers := s.producers + [Producer(rows, 0, LoadHead, [])]));
  }

  lemma ArriveSlots(c: Config, owner: map<nat, Slot>, producers: seq<Producer>, published: set<nat>, me: Producer)
    requires Owners(c, owner, producers) && Progress(owner, producers, published)
    ensures Owners(c, owner, producers + [me]) && Progress(owner, producers + [me], published)
  {
    forall a | a in owner
      ensures OwnerOk(c, a, owner[a], producers + [me]) && ProgressOk(a, owner[a], producers + [me], published)
    {
      assert OwnerOk(c, a, owner[a], producers);
      assert ProgressOk(a, owner[a], producers, published);
    }
  }

  lemma ArriveTimers(trackers: seq<Tracker>, owner: map<nat, Slot>, producers: seq<Producer>, me: Producer)
    requires Timers(trackers, owner, producers)
    ensures Timers(trackers, owner, producers + [me])
  {
  }

  lemma ArriveProducers(c: Config, s: State, me: Producer)
    requires Shapes(c, s.producers) && Admitted(s.producers, s.tail + c.geometry.ring) && Owning(s.producers, s.owner)
    requires Pieces(s.producers, s.trackers) && Copies(s.producers, s.buffers) && Collects(c, s.producers, s.outputs)
    requires me.pc.LoadHead? && me.response == [] && |me.rows| >= 1
    ensures var producers' := s.producers + [me];
            && Shapes(c, producers') && Admitted(producers', s.tail + c.geometry.ring) && Owning(producers', s.owner)
            && Pieces(producers', s.trackers) && Copies(producers', s.buffers) && Collects(c, producers', s.outputs)
  {
  }

  // ----- all producer steps -----

  lemma ProducerStepKeeps(c: Config, s: State, p: nat, weakFail: bool)
    requires Inv(c, s) && ProducerEnabled(c, s, p)
    requires GrantFits(c, s, Produce(p, weakFail))
    ensures Inv(c, ProducerStep(c, s, p, weakFail))
  {
    hide Inv, Grant, CopyRow, PublishPiece, NotifyExecutor, CollectNext, LapOf;
    var me := s.producers[p];
    match me.pc {
      case LoadHead => LoadKeeps(c, s, p, weakFail);
      case LoadTail(_) => LoadKeeps(c, s, p, weakFail);
      case Reserve(h, _) =>
        if s.head == h && !weakFail {
          GrantKeeps(c, s, p);
        } else {
          RetryKeeps(c, s, p);
        }
      case Copy(piece, done) =>
        if done < piece.len {
          CopyRowKeeps(c, s, p);
        } else {
          CopyDoneKeeps(c, s, p, weakFail);
        }
      case MarkDirty(_) => MarkDirtyKeeps(c, s, p, weakFail);
      case SetDeadline(_) => SetDeadlineKeeps(c, s, p, weakFail);
      case SetQueueStart(_) => SetQueueStartKeeps(c, s, p, weakFail);
      case Capture(_) => CaptureKeeps(c, s, p, weakFail);
      case Publish(_, _) => PublishKeeps(c, s, p);
      case Notify(_) => NotifyKeeps(c, s, p);
      case Collect(next, _) =>
        if next < |me.response| {
          CollectNextKeeps(c, s, p);
        } else {
          FinishKeeps(c, s, p);
        }
    }
  }
}
