/**
 The interval segmenter: turns an ordered batch of samples into the ordered
 list of named intervals the accumulator folds.

 `RunsUpTo` is the reference definition, built one sample at a time: the open
 (last) run is extended up to each new sample's timestamp, and a sample whose
 name differs from its predecessor opens a new run of duration zero.
 `AggregateSamples` is the plugin's scanning loop, proved to compute it.
 */
module Segmenter {
  import opened Types

  /** Timestamps never go backwards within a batch. */
  predicate Chronological(samples: seq<Sample>) {
    forall i :: 0 < i < |samples| ==> samples[i - 1].timestamp <= samples[i].timestamp
  }

  /** Sample `i` names a different state than the sample before it. */
  predicate IsTransition(samples: seq<Sample>, i: int)
    requires 0 < i < |samples|
  {
    samples[i].name != samples[i - 1].name
  }

  /** The runs of the first `n` samples of a chronological batch. */
  function RunsUpTo(samples: seq<Sample>, n: nat): (r: seq<State>)
    requires Chronological(samples) && 1 <= n <= |samples|
    ensures |r| >= 1
    ensures r[0].name == samples[0].name
    ensures Last(r).name == samples[n - 1].name
  {
    if n == 1 then [State(samples[0].name, 0)]
    else
      var prev := RunsUpTo(samples, n - 1);
      var open := Last(prev);
      var gap := samples[n - 1].timestamp - samples[n - 2].timestamp;
      var extended := prev[..|prev| - 1] + [State(open.name, open.duration + gap)];
      if IsTransition(samples, n - 1) then extended + [State(samples[n - 1].name, 0)] else extended
  }

  /** The runs of a whole non-empty chronological batch. */
  function Runs(samples: seq<Sample>): seq<State>
    requires Chronological(samples) && |samples| >= 1
  {
    RunsUpTo(samples, |samples|)
  }

  /** The segmenter's contract: fewer than two samples is an error, otherwise the runs. */
  function Segment(samples: seq<Sample>): (r: Result<seq<State>, Error>)
    requires Chronological(samples)
    ensures r.Failure? <==> |samples| < 2
    ensures r.Success? ==> |r.value| >= 1 && r.value[0].name == samples[0].name
                           && Last(r.value).name == Last(samples).name
  {
    if |samples| < 2 then Failure(InsufficientSamples) else Success(Runs(samples))
  }

  /**
   One scanning step in terms of the reference: if the runs of the first `i`
   samples are `closed` followed by the open run of `current` started at
   `start`, then a sample `i` in the same state extends that open run...
   */
  lemma RunsStepSame(samples: seq<Sample>, i: nat, closed: seq<State>, current: string, start: nat)
    requires Chronological(samples) && 1 <= i < |samples|
    requires current == samples[i - 1].name == samples[i].name && start <= samples[i - 1].timestamp
    requires closed + [State(current, samples[i - 1].timestamp - start)] == RunsUpTo(samples, i)
    ensures start <= samples[i].timestamp
    ensures RunsUpTo(samples, i + 1) == closed + [State(current, samples[i].timestamp - start)]
  {
    var prev := closed + [State(current, samples[i - 1].timestamp - start)];
    assert prev[..|prev| - 1] == closed;
  }

  /** ... and a sample `i` in another state closes it and opens a run of duration zero. */
  lemma RunsStepChange(samples: seq<Sample>, i: nat, closed: seq<State>, current: string, start: nat)
    requires Chronological(samples) && 1 <= i < |samples|
    requires current == samples[i - 1].name != samples[i].name && start <= samples[i - 1].timestamp
    requires closed + [State(current, samples[i - 1].timestamp - start)] == RunsUpTo(samples, i)
    ensures start <= samples[i].timestamp
    ensures RunsUpTo(samples, i + 1) == (closed + [State(current, samples[i].timestamp - start)]) + [State(samples[i].name, 0)]
  {
    var prev := closed + [State(current, samples[i - 1].timestamp - start)];
    assert prev[..|prev| - 1] == closed;
    var extended := closed + [State(current, samples[i].timestamp - start)];
    assert IsTransition(samples, i);
    assert RunsUpTo(samples, i + 1) == extended + [State(samples[i].name, 0)];
  }

  /**
   The scan the plugin's loop performs, as a tail-recursive definition: the
   runs closed so far, the open run's state and start time, and the index of
   the next sample. The last sample closes the open run.
   */
  function Scan(samples: seq<Sample>, i: nat, states: seq<State>, current: string, start: nat): seq<State>
    requires Chronological(samples) && 1 <= i <= |samples| && start <= samples[i - 1].timestamp
    decreases |samples| - i
  {
    if i == |samples| then states + [State(current, samples[i - 1].timestamp - start)]
    else if samples[i].name != current then
      Scan(samples, i + 1, states + [State(current, samples[i].timestamp - start)], samples[i].name, samples[i].timestamp)
    else Scan(samples, i + 1, states, current, start)
  }

  /** Resuming the scan from a point that agrees with the reference yields the reference runs. */
  lemma {:induction false} ScanMatchesRuns(samples: seq<Sample>, i: nat, states: seq<State>, current: string, start: nat)
    requires Chronological(samples) && 1 <= i <= |samples|
    requires current == samples[i - 1].name && start <= samples[i - 1].timestamp
    requires states + [State(current, samples[i - 1].timestamp - start)] == RunsUpTo(samples, i)
    ensures Scan(samples, i, states, current, start) == Runs(samples)
    decreases |samples| - i
  {
    if i < |samples| {
      var t := samples[i].timestamp;
      if samples[i].name != current {
        var closed := states + [State(current, t - start)];
        assert closed + [State(samples[i].name, t - t)] == RunsUpTo(samples, i + 1) by {
          RunsStepChange(samples, i, states, current, start);
        }
        ScanMatchesRuns(samples, i + 1, closed, samples[i].name, t);
      } else {
        assert start <= t && states + [State(current, t - start)] == RunsUpTo(samples, i + 1) by {
          RunsStepSame(samples, i, states, current, start);
        }
        ScanMatchesRuns(samples, i + 1, states, current, start);
      }
    }
  }

  /**
   The plugin's segmentation loop. The second test of the sample's name on
   the last iteration can never succeed, because the first test has just
   made `currentState` equal to that name; the dead branch is proved so.
   */
  method AggregateSamples(samples: seq<Sample>) returns (r: Result<seq<State>, Error>)
    requires Chronological(samples)
    ensures r.Failure? <==> |samples| < 2
    ensures r.Success? ==> r.value == Runs(samples)
  {
    var sampleCount := |samples|;
    if sampleCount < 2 {
      return Failure(InsufficientSamples);
    }
    var states: seq<State> := [];
    var currentState := samples[0].name;
    var stateStartTime: nat := samples[0].timestamp;
    var lastIndex := sampleCount - 1;
    ScanMatchesRuns(samples, 1, states, currentState, stateStartTime);
    var i := 1;
    while i < sampleCount
      invariant 1 <= i <= sampleCount
      invariant i < sampleCount ==> stateStartTime <= samples[i - 1].timestamp
      invariant i < sampleCount ==> Scan(samples, i, states, currentState, stateStartTime) == Runs(samples)
      invariant i == sampleCount ==> states == Runs(samples)
    {
      if currentState != samples[i].name {
        var stateTime := samples[i].timestamp - stateStartTime;
        states := states + [State(currentState, stateTime)];
        stateStartTime := stateStartTime + stateTime;
        currentState := samples[i].name;
      }
      if i == lastIndex {
        if currentState != samples[i].name {
          assert false;
        } else {
          var stateTime := samples[i].timestamp - stateStartTime;
          states := states + [State(currentState, stateTime)];
        }
      }
      i := i + 1;
    }
    return Success(states);
  }
}
