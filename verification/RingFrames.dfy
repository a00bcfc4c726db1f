/** What stays when one tracker changes within its lap. */
module RingFrames {
  import opened RingModel
  import opened RingSteps
  import opened RingEffects
  import opened RingInvariant

  lemma TrackerLaps(c: Config, s: State, b: nat, tr': Tracker)
    requires b < |s.trackers| && SameLap(s.trackers[b], tr')
    requires LapsInv(c, s)
    requires LapWritten(c.geometry, tr', s.published)
    requires LapTimers(tr', s.owner, s.producers)
    requires LapCells(b, tr', s.outputs)
    ensures LapsInv(c, SetTracker(s, b, tr'))
  {
  }

  lemma TrackerThreads(c: Config, s: State, b: nat, tr': Tracker)
    requires b < |s.trackers| && SameLap(s.trackers[b], tr')
    requires LedgerInv(c, s) && ProducersInv(c, s) && ExecutorsInv(c, s)
    requires tr'.dirty == 2 ==> s.trackers[b].dirty == 2
    ensures LedgerInv(c, SetTracker(s, b, tr'))
    ensures ProducersInv(c, SetTracker(s, b, tr'))
    ensures ExecutorsInv(c, SetTracker(s, b, tr'))
  {
  }

  lemma TrackerStep(c: Config, s: State, b: nat, tr': Tracker)
    requires b < |s.trackers| && SameLap(s.trackers[b], tr')
    requires Inv(c, s)
    requires LapWritten(c.geometry, tr', s.published)
    requires LapTimers(tr', s.owner, s.producers)
    requires LapCells(b, tr', s.outputs)
    requires tr'.dirty == 2 ==> s.trackers[b].dirty == 2
    ensures Inv(c, SetTracker(s, b, tr'))
  {
    TrackerLaps(c, s, b, tr');
    TrackerThreads(c, s, b, tr');
  }
}
