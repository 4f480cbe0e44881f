/**
 What the fold does across consecutive collection cycles of one sampling
 session. The batch of each cycle starts with the sample carried over from the
 previous one, and the fold counts every interval of a batch with a change as
 a visit. Two consequences follow, both stated here as the code behaves:
 a stay that spans a cycle boundary is counted as two visits, and time spent
 in an already recorded state during cycles without a change never reaches
 its `_dur` entry.
 */
module Cycles {
  import opened Types
  import opened Keys
  import opened Segmenter
  import opened Aggregation
  import opened Collection

  /** Two samples in different states: the first state lasts the gap, the second opens at zero. */
  lemma TwoStateBatch(a: string, b: string, x: nat)
    requires a != b
    ensures Chronological([Sample(a, x), Sample(b, x + 2)])
    ensures Runs([Sample(a, x), Sample(b, x + 2)]) == [State(a, 2), State(b, 0)]
  {
    var samples := [Sample(a, x), Sample(b, x + 2)];
    assert RunsUpTo(samples, 1) == [State(a, 0)];
    RunsStepChange(samples, 1, [], a, x);
  }

  /** Folding two intervals of different states: each gets one more visit and its duration. */
  lemma FoldTwo(t: Totals, a: string, b: string, da: nat, db: nat, d: nat)
    requires a != b && Paired(t.aggState)
    ensures var r := AggregateStates(t, [State(a, da), State(b, db)], d);
      && r.currentState == b && r.currentStateDuration == db
      && Lookup(r.aggState, CountKey(a)) == Lookup(t.aggState, CountKey(a)) + 1
      && Lookup(r.aggState, DurKey(a)) == Lookup(t.aggState, DurKey(a)) + da
      && Lookup(r.aggState, CountKey(b)) == Lookup(t.aggState, CountKey(b)) + 1
      && Lookup(r.aggState, DurKey(b)) == Lookup(t.aggState, DurKey(b)) + db
      && DurKey(b) in r.aggState
      && Paired(r.aggState)
  {
    var s1 := [] + [State(a, da)];
    var s2 := s1 + [State(b, db)];
    OccurrencesSnoc([], State(a, da));
    OccurrencesSnoc(s1, State(b, db));
    assert s2 == [State(a, da), State(b, db)];
    AggregateStatesMulti(t, s2, d);
    AggregateStatesPreserves(t, s2, d);
  }

  /**
   A stay that spans a cycle boundary is counted twice. The stay in `b` from
   time 2 to time 4 opens as the last interval of the first batch, where it is
   counted, and is counted again when the next batch, which starts with the
   carried sample, closes it.
   */
  lemma BoundaryStayCountedTwice(a: string, b: string)
    requires a != b
    ensures Chronological([Sample(a, 0), Sample(b, 2)]) && Chronological([Sample(b, 2), Sample(a, 4)])
    ensures var g1 := Gather(Totals(map[], a, 0), [Sample(a, 0), Sample(b, 2)]);
      var g2 := Gather(g1.totals, [Sample(b, 2), Sample(a, 4)]);
      && g1.result.Success? && g2.result.Success?
      && Lookup(g2.totals.aggState, CountKey(b)) == 2
      && Lookup(g2.totals.aggState, DurKey(b)) == 2
  {
    TwoStateBatch(a, b, 0);
    TwoStateBatch(b, a, 2);
    var t0 := Totals(map[], a, 0);
    FoldTwo(t0, a, b, 2, 0, 0);
    var t1 := AggregateStates(t0, [State(a, 2), State(b, 0)], 0);
    FoldTwo(t1, b, a, 2, 0, t1.currentStateDuration);
  }

  /** The first cycle of both scenarios: `a` closes after 2 and `b` opens, each counted once. */
  lemma FirstCycle(a: string, b: string)
    requires a != b
    ensures Chronological([Sample(a, 0), Sample(b, 2)])
    ensures var g1 := Gather(Totals(map[], a, 0), [Sample(a, 0), Sample(b, 2)]);
      && g1.result.Success? && Paired(g1.totals.aggState)
      && g1.totals.currentState == b && g1.totals.currentStateDuration == 0
      && DurKey(b) in g1.totals.aggState
      && Lookup(g1.totals.aggState, DurKey(b)) == 0 && Lookup(g1.totals.aggState, CountKey(b)) == 1
      && Lookup(g1.totals.aggState, DurKey(a)) == 2 && Lookup(g1.totals.aggState, CountKey(a)) == 1
  {
    TwoStateBatch(a, b, 0);
    FoldTwo(Totals(map[], a, 0), a, b, 2, 0, 0);
  }

  /** A cycle that sees only `b`, already recorded, extends the open duration and leaves the map alone. */
  lemma SecondCycle(t: Totals, b: string)
    requires t.currentState == b && t.currentStateDuration == 0 && DurKey(b) in t.aggState
    ensures Chronological([Sample(b, 2), Sample(b, 4)])
    ensures var g2 := Gather(t, [Sample(b, 2), Sample(b, 4)]);
      && g2.result.Success? && g2.totals.aggState == t.aggState
      && g2.totals.currentState == b && g2.totals.currentStateDuration == 2
  {
    var middle := [Sample(b, 2), Sample(b, 4)];
    assert Chronological(middle);
    CarriedDurationCreditedToBatchState(t, middle);
  }

  /**
   Time in a state that is already recorded is lost when a cycle sees only
   that state. The stay in `b` lasts from time 2 to time 6. The middle cycle
   adds its 2 to the open duration only, and the last cycle replaces the open
   duration with that of its final interval. So `b_dur` ends at 2, not 4.
   */
  lemma ContinuedStayTimeLost(a: string, b: string)
    requires a != b
    ensures Chronological([Sample(a, 0), Sample(b, 2)]) && Chronological([Sample(b, 2), Sample(b, 4)])
            && Chronological([Sample(b, 4), Sample(a, 6)])
    ensures var g1 := Gather(Totals(map[], a, 0), [Sample(a, 0), Sample(b, 2)]);
      var g2 := Gather(g1.totals, [Sample(b, 2), Sample(b, 4)]);
      var g3 := Gather(g2.totals, [Sample(b, 4), Sample(a, 6)]);
      && g1.result.Success? && g2.result.Success? && g3.result.Success?
      && g2.totals.currentState == b && g2.totals.currentStateDuration == 2
      && Lookup(g3.totals.aggState, DurKey(b)) == 2
      && Lookup(g3.totals.aggState, CountKey(b)) == 2
      && g3.totals.currentState == a && g3.totals.currentStateDuration == 0
  {
    FirstCycle(a, b);
    var t1 := Gather(Totals(map[], a, 0), [Sample(a, 0), Sample(b, 2)]).totals;
    SecondCycle(t1, b);
    var t2 := Gather(t1, [Sample(b, 2), Sample(b, 4)]).totals;
    TwoStateBatch(b, a, 4);
    FoldTwo(t2, b, a, 2, 0, t2.currentStateDuration);
  }
}
