/**
 The plugin's own test vectors (plugins/inputs/systemctl/systemctl_test.go),
 restated about the model: the intervals each batch segments into and the
 totals the fold leaves, starting from an empty aggregate map. They are stated
 for any distinct state names standing for "active", "inactive" and "failed";
 `ActiveKeys` ties the key names to the literal ones the tests read.
 */
module TestVectors {
  import opened Types
  import opened Keys
  import opened Segmenter
  import opened Aggregation

  function Fresh(name: string, duration: nat): Totals {
    Totals(map[], name, duration)
  }

  function SteadyPairBatch(active: string): seq<Sample> {
    [Sample(active, 0), Sample(active, 2)]
  }

  function SteadyTripleBatch(active: string): seq<Sample> {
    [Sample(active, 0), Sample(active, 2), Sample(active, 4)]
  }

  function LastSampleTransitionBatch(active: string, failed: string): seq<Sample> {
    [Sample(active, 0), Sample(failed, 2)]
  }

  function RepeatedVisitsBatch(active: string, inactive: string, failed: string): seq<Sample> {
    [Sample(active, 0), Sample(active, 2), Sample(inactive, 4),
     Sample(active, 6), Sample(failed, 8), Sample(inactive, 10)]
  }

  function TransitionEverySampleBatch(active: string, inactive: string, failed: string): seq<Sample> {
    [Sample(active, 0), Sample(inactive, 2), Sample(failed, 4),
     Sample(active, 6), Sample(inactive, 8), Sample(failed, 10)]
  }

  /** The field names the tests read. */
  lemma ActiveKeys()
    ensures DurKey("active") == "active_dur" && CountKey("active") == "active_count"
  {
  }

  /** Two samples in one state extend the open interval: prior 10 gives 12. */
  lemma SteadyPair(active: string)
    ensures Chronological(SteadyPairBatch(active))
    ensures Segment(SteadyPairBatch(active)) == Success([State(active, 2)])
    ensures AggregateStates(Fresh(active, 10), [State(active, 2)], 10)
            == Totals(map[DurKey(active) := 12, CountKey(active) := 1], active, 12)
  {
    var samples := SteadyPairBatch(active);
    assert RunsUpTo(samples, 1) == [State(active, 0)];
    assert RunsUpTo(samples, 2) == [State(active, 2)] by {
      RunsStepSame(samples, 1, [], active, 0);
    }
    assert Runs(samples) == [State(active, 2)];
  }

  /** The first two samples of the steady-triple batch. */
  lemma SteadyTriplePrefix2(active: string)
    ensures Chronological(SteadyTripleBatch(active))
    ensures RunsUpTo(SteadyTripleBatch(active), 2) == [State(active, 2)]
  {
    var samples := SteadyTripleBatch(active);
    assert RunsUpTo(samples, 1) == [State(active, 0)];
    RunsStepSame(samples, 1, [], active, 0);
  }

  /** Three samples in one state: prior 10 gives 14, and the count stays one. */
  lemma SteadyTriple(active: string)
    ensures Chronological(SteadyTripleBatch(active))
    ensures Segment(SteadyTripleBatch(active)) == Success([State(active, 4)])
    ensures AggregateStates(Fresh(active, 10), [State(active, 4)], 10)
            == Totals(map[DurKey(active) := 14, CountKey(active) := 1], active, 14)
  {
    var samples := SteadyTripleBatch(active);
    SteadyTriplePrefix2(active);
    RunsStepSame(samples, 2, [], active, 0);
    assert Runs(samples) == [State(active, 4)];
  }

  /** A transition on the last sample: the new state opens with duration zero. */
  lemma LastSampleTransition(active: string, failed: string)
    requires active != failed
    ensures Chronological(LastSampleTransitionBatch(active, failed))
    ensures Segment(LastSampleTransitionBatch(active, failed)) == Success([State(active, 2), State(failed, 0)])
    ensures var t := AggregateStates(Fresh(active, 8), [State(active, 2), State(failed, 0)], 8);
      && Lookup(t.aggState, DurKey(active)) == 2 && Lookup(t.aggState, CountKey(active)) == 1
      && Lookup(t.aggState, DurKey(failed)) == 0 && Lookup(t.aggState, CountKey(failed)) == 1
      && t.currentState == failed && t.currentStateDuration == 0
  {
    var samples := LastSampleTransitionBatch(active, failed);
    assert RunsUpTo(samples, 1) == [State(active, 0)];
    assert RunsUpTo(samples, 2) == [State(active, 2), State(failed, 0)] by {
      RunsStepChange(samples, 1, [], active, 0);
    }
    assert Runs(samples) == [State(active, 2), State(failed, 0)];
    var s1 := [] + [State(active, 2)];
    var s2 := s1 + [State(failed, 0)];
    OccurrencesSnoc([], State(active, 2));
    OccurrencesSnoc(s1, State(failed, 0));
    assert s2 == [State(active, 2), State(failed, 0)];
    AggregateStatesMulti(Fresh(active, 8), s2, 8);
  }

  /** The first 2 samples of the repeated-visits batch. */
  lemma RepeatedVisitsPrefix2(active: string, inactive: string, failed: string)
    requires active != inactive && active != failed && inactive != failed
    ensures Chronological(RepeatedVisitsBatch(active, inactive, failed))
    ensures RunsUpTo(RepeatedVisitsBatch(active, inactive, failed), 2) == [State(active, 2)]
  {
    var samples := RepeatedVisitsBatch(active, inactive, failed);
    assert RunsUpTo(samples, 1) == [State(active, 0)];
    RunsStepSame(samples, 1, [], active, 0);
  }

  /** The first 3 samples of the repeated-visits batch. */
  lemma RepeatedVisitsPrefix3(active: string, inactive: string, failed: string)
    requires active != inactive && active != failed && inactive != failed
    ensures Chronological(RepeatedVisitsBatch(active, inactive, failed))
    ensures RunsUpTo(RepeatedVisitsBatch(active, inactive, failed), 3) == [State(active, 4), State(inactive, 0)]
  {
    var samples := RepeatedVisitsBatch(active, inactive, failed);
    RepeatedVisitsPrefix2(active, inactive, failed);
    RunsStepChange(samples, 2, [], active, 0);
  }

  /** The first 4 samples of the repeated-visits batch. */
  lemma RepeatedVisitsPrefix4(active: string, inactive: string, failed: string)
    requires active != inactive && active != failed && inactive != failed
    ensures Chronological(RepeatedVisitsBatch(active, inactive, failed))
    ensures RunsUpTo(RepeatedVisitsBatch(active, inactive, failed), 4) == [State(active, 4), State(inactive, 2), State(active, 0)]
  {
    var samples := RepeatedVisitsBatch(active, inactive, failed);
    RepeatedVisitsPrefix3(active, inactive, failed);
    RunsStepChange(samples, 3, [State(active, 4)], inactive, 4);
  }

  /** The first 5 samples of the repeated-visits batch. */
  lemma RepeatedVisitsPrefix5(active: string, inactive: string, failed: string)
    requires active != inactive && active != failed && inactive != failed
    ensures Chronological(RepeatedVisitsBatch(active, inactive, failed))
    ensures RunsUpTo(RepeatedVisitsBatch(active, inactive, failed), 5) == [State(active, 4), State(inactive, 2), State(active, 2), State(failed, 0)]
  {
    var samples := RepeatedVisitsBatch(active, inactive, failed);
    RepeatedVisitsPrefix4(active, inactive, failed);
    RunsStepChange(samples, 4, [State(active, 4), State(inactive, 2)], active, 6);
  }

  /** Several transitions, with repeated visits to the same states: the intervals. */
  lemma RepeatedVisitsSegment(active: string, inactive: string, failed: string)
    requires active != inactive && active != failed && inactive != failed
    ensures Chronological(RepeatedVisitsBatch(active, inactive, failed))
    ensures Segment(RepeatedVisitsBatch(active, inactive, failed))
            == Success([State(active, 4), State(inactive, 2), State(active, 2), State(failed, 2), State(inactive, 0)])
  {
    var samples := RepeatedVisitsBatch(active, inactive, failed);
    RepeatedVisitsPrefix5(active, inactive, failed);
    RunsStepChange(samples, 5, [State(active, 4), State(inactive, 2), State(active, 2)], failed, 8);
    assert Runs(samples) == [State(active, 4), State(inactive, 2), State(active, 2), State(failed, 2), State(inactive, 0)];
  }

  /** Several transitions, with repeated visits to the same states: the totals (prior duration 2 is dropped). */
  lemma RepeatedVisitsFold(active: string, inactive: string, failed: string)
    requires active != inactive && active != failed && inactive != failed
    ensures var t := AggregateStates(Fresh(active, 2), [State(active, 4), State(inactive, 2), State(active, 2),
                                                        State(failed, 2), State(inactive, 0)], 2);
      && Lookup(t.aggState, DurKey(active)) == 6 && Lookup(t.aggState, CountKey(active)) == 2
      && Lookup(t.aggState, DurKey(inactive)) == 2 && Lookup(t.aggState, CountKey(inactive)) == 2
      && Lookup(t.aggState, DurKey(failed)) == 2 && Lookup(t.aggState, CountKey(failed)) == 1
      && t.currentState == inactive && t.currentStateDuration == 0
  {
    var s1 := [] + [State(active, 4)];
    var s2 := s1 + [State(inactive, 2)];
    var s3 := s2 + [State(active, 2)];
    var s4 := s3 + [State(failed, 2)];
    var s5 := s4 + [State(inactive, 0)];
    OccurrencesSnoc([], State(active, 4));
    OccurrencesSnoc(s1, State(inactive, 2));
    OccurrencesSnoc(s2, State(active, 2));
    OccurrencesSnoc(s3, State(failed, 2));
    OccurrencesSnoc(s4, State(inactive, 0));
    assert s5 == [State(active, 4), State(inactive, 2), State(active, 2), State(failed, 2), State(inactive, 0)];
    AggregateStatesMulti(Fresh(active, 2), s5, 2);
  }

  /** The first 2 samples of the transition-on-every-sample batch. */
  lemma TransitionEverySamplePrefix2(active: string, inactive: string, failed: string)
    requires active != inactive && active != failed && inactive != failed
    ensures Chronological(TransitionEverySampleBatch(active, inactive, failed))
    ensures RunsUpTo(TransitionEverySampleBatch(active, inactive, failed), 2) == [State(active, 2), State(inactive, 0)]
  {
    var samples := TransitionEverySampleBatch(active, inactive, failed);
    assert RunsUpTo(samples, 1) == [State(active, 0)];
    RunsStepChange(samples, 1, [], active, 0);
  }

  /** The first 3 samples of the transition-on-every-sample batch. */
  lemma TransitionEverySamplePrefix3(active: string, inactive: string, failed: string)
    requires active != inactive && active != failed && inactive != failed
    ensures Chronological(TransitionEverySampleBatch(active, inactive, failed))
    ensures RunsUpTo(TransitionEverySampleBatch(active, inactive, failed), 3) == [State(active, 2), State(inactive, 2), State(failed, 0)]
  {
    var samples := TransitionEverySampleBatch(active, inactive, failed);
    TransitionEverySamplePrefix2(active, inactive, failed);
    RunsStepChange(samples, 2, [State(active, 2)], inactive, 2);
  }

  /** The first 4 samples of the transition-on-every-sample batch. */
  lemma TransitionEverySamplePrefix4(active: string, inactive: string, failed: string)
    requires active != inactive && active != failed && inactive != failed
    ensures Chronological(TransitionEverySampleBatch(active, inactive, failed))
    ensures RunsUpTo(TransitionEverySampleBatch(active, inactive, failed), 4) == [State(active, 2), State(inactive, 2), State(failed, 2), State(active, 0)]
  {
    var samples := TransitionEverySampleBatch(active, inactive, failed);
    TransitionEverySamplePrefix3(active, inactive, failed);
    RunsStepChange(samples, 3, [State(active, 2), State(inactive, 2)], failed, 4);
  }

  /** The first 5 samples of the transition-on-every-sample batch. */
  lemma TransitionEverySamplePrefix5(active: string, inactive: string, failed: string)
    requires active != inactive && active != failed && inactive != failed
    ensures Chronological(TransitionEverySampleBatch(active, inactive, failed))
    ensures RunsUpTo(TransitionEverySampleBatch(active, inactive, failed), 5) == [State(active, 2), State(inactive, 2), State(failed, 2), State(active, 2), State(inactive, 0)]
  {
    var samples := TransitionEverySampleBatch(active, inactive, failed);
    TransitionEverySamplePrefix4(active, inactive, failed);
    RunsStepChange(samples, 4, [State(active, 2), State(inactive, 2), State(failed, 2)], active, 6);
  }

  /** A transition on every sample: the intervals. */
  lemma TransitionEverySampleSegment(active: string, inactive: string, failed: string)
    requires active != inactive && active != failed && inactive != failed
    ensures Chronological(TransitionEverySampleBatch(active, inactive, failed))
    ensures Segment(TransitionEverySampleBatch(active, inactive, failed))
            == Success([State(active, 2), State(inactive, 2), State(failed, 2),
                        State(active, 2), State(inactive, 2), State(failed, 0)])
  {
    var samples := TransitionEverySampleBatch(active, inactive, failed);
    TransitionEverySamplePrefix5(active, inactive, failed);
    RunsStepChange(samples, 5, [State(active, 2), State(inactive, 2), State(failed, 2), State(active, 2)],
                   inactive, 8);
    assert Runs(samples) == [State(active, 2), State(inactive, 2), State(failed, 2),
                             State(active, 2), State(inactive, 2), State(failed, 0)];
  }

  /** A transition on every sample: the totals (prior duration 4 is dropped). */
  lemma TransitionEverySampleFold(active: string, inactive: string, failed: string)
    requires active != inactive && active != failed && inactive != failed
    ensures var t := AggregateStates(Fresh(active, 4), [State(active, 2), State(inactive, 2), State(failed, 2),
                                                        State(active, 2), State(inactive, 2), State(failed, 0)], 4);
      && Lookup(t.aggState, DurKey(active)) == 4 && Lookup(t.aggState, CountKey(active)) == 2
      && Lookup(t.aggState, DurKey(inactive)) == 4 && Lookup(t.aggState, CountKey(inactive)) == 2
      && Lookup(t.aggState, DurKey(failed)) == 2 && Lookup(t.aggState, CountKey(failed)) == 2
      && t.currentState == failed && t.currentStateDuration == 0
  {
    var s1 := [] + [State(active, 2)];
    var s2 := s1 + [State(inactive, 2)];
    var s3 := s2 + [State(failed, 2)];
    var s4 := s3 + [State(active, 2)];
    var s5 := s4 + [State(inactive, 2)];
    var s6 := s5 + [State(failed, 0)];
    OccurrencesSnoc([], State(active, 2));
    OccurrencesSnoc(s1, State(inactive, 2));
    OccurrencesSnoc(s2, State(failed, 2));
    OccurrencesSnoc(s3, State(active, 2));
    OccurrencesSnoc(s4, State(inactive, 2));
    OccurrencesSnoc(s5, State(failed, 0));
    assert s6 == [State(active, 2), State(inactive, 2), State(failed, 2),
                  State(active, 2), State(inactive, 2), State(failed, 0)];
    AggregateStatesMulti(Fresh(active, 4), s6, 4);
  }

  /** One sample cannot bound an interval. */
  lemma SingleSampleFails(s: Sample)
    ensures Segment([s]) == Failure(InsufficientSamples)
  {
  }
}
