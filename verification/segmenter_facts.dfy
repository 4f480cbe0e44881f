/**
 What the segmenter's output means: how many intervals there are, how their
 names alternate, how their durations add up, and an index-level description
 of every interval in terms of the samples at which the state changed.
 */
module SegmenterFacts {
  import opened Types
  import opened Segmenter

  /** Number of adjacent name changes among the first `n` samples. */
  function Changes(samples: seq<Sample>, n: nat): nat
    requires 1 <= n <= |samples|
  {
    if n == 1 then 0
    else Changes(samples, n - 1) + (if IsTransition(samples, n - 1) then 1 else 0)
  }

  /** Total time covered by a list of intervals. */
  function TotalDuration(states: seq<State>): nat {
    if |states| == 0 then 0 else TotalDuration(states[..|states| - 1]) + Last(states).duration
  }

  /** Neighbouring intervals always name different states. */
  predicate Alternating(states: seq<State>) {
    forall k :: 0 < k < |states| ==> states[k - 1].name != states[k].name
  }

  /** One interval per run: one more than the number of name changes. */
  lemma {:induction false} RunsCount(samples: seq<Sample>, n: nat)
    requires Chronological(samples) && 1 <= n <= |samples|
    ensures |RunsUpTo(samples, n)| == 1 + Changes(samples, n)
  {
    if n > 1 {
      RunsCount(samples, n - 1);
    }
  }

  /** A run never follows a run of the same state. */
  lemma {:induction false} RunsAlternate(samples: seq<Sample>, n: nat)
    requires Chronological(samples) && 1 <= n <= |samples|
    ensures Alternating(RunsUpTo(samples, n))
  {
    if n > 1 {
      RunsAlternate(samples, n - 1);
      var prev := RunsUpTo(samples, n - 1);
      var r := RunsUpTo(samples, n);
      forall k | 0 < k < |r|
        ensures r[k - 1].name != r[k].name
      {
        if k < |prev| {
          assert r[k - 1].name == prev[k - 1].name && r[k].name == prev[k].name;
        }
      }
    }
  }

  lemma TotalDurationAppend(states: seq<State>, s: State)
    ensures TotalDuration(states + [s]) == TotalDuration(states) + s.duration
  {
    assert (states + [s])[..|states|] == states;
  }

  /** Each new sample adds exactly its gap to the previous sample to the total. */
  lemma RunsTotalStep(samples: seq<Sample>, n: nat)
    requires Chronological(samples) && 2 <= n <= |samples|
    ensures TotalDuration(RunsUpTo(samples, n))
            == TotalDuration(RunsUpTo(samples, n - 1)) + (samples[n - 1].timestamp - samples[n - 2].timestamp)
  {
    var prev := RunsUpTo(samples, n - 1);
    var open := Last(prev);
    var closed := prev[..|prev| - 1];
    var extended := closed + [State(open.name, open.duration + (samples[n - 1].timestamp - samples[n - 2].timestamp))];
    assert prev == closed + [open];
    TotalDurationAppend(closed, open);
    TotalDurationAppend(closed, Last(extended));
    if IsTransition(samples, n - 1) {
      TotalDurationAppend(extended, State(samples[n - 1].name, 0));
    }
  }

  /** With timestamps non-decreasing, the runs exactly cover the batch's time span. */
  lemma {:induction false} RunsTotal(samples: seq<Sample>, n: nat)
    requires Chronological(samples) && 1 <= n <= |samples|
    ensures samples[0].timestamp <= samples[n - 1].timestamp
    ensures TotalDuration(RunsUpTo(samples, n)) == samples[n - 1].timestamp - samples[0].timestamp
  {
    if n > 1 {
      RunsTotal(samples, n - 1);
      RunsTotalStep(samples, n);
    }
  }

  /** A transition on the last sample yields a final interval of duration zero. */
  lemma TrailingTransition(samples: seq<Sample>)
    requires Chronological(samples) && |samples| >= 2 && IsTransition(samples, |samples| - 1)
    ensures Last(Runs(samples)) == State(Last(samples).name, 0)
  {
  }

  /**
   The indices at which a run begins among the first `n` samples: the first
   sample and every sample whose name differs from its predecessor, in order.
   */
  function Starts(samples: seq<Sample>, n: nat): (r: seq<nat>)
    requires 1 <= n <= |samples|
    ensures |r| >= 1 && r[0] == 0
    ensures forall k :: 0 <= k < |r| ==> r[k] < n
    ensures forall k :: 0 < k < |r| ==> r[k - 1] < r[k]
    ensures forall i :: 0 < i < n ==> (i in r <==> IsTransition(samples, i))
  {
    if n == 1 then [0]
    else Starts(samples, n - 1) + (if IsTransition(samples, n - 1) then [n - 1] else [])
  }

  /** Where the `k`-th run ends: where the next one starts, or at the last sample. */
  function RunEnd(samples: seq<Sample>, n: nat, starts: seq<nat>, k: nat): nat
    requires 1 <= n <= |samples| && k < |starts|
    requires forall j :: 0 <= j < |starts| ==> starts[j] < n
  {
    if k + 1 < |starts| then samples[starts[k + 1]].timestamp else samples[n - 1].timestamp
  }

  /**
   Every run, described by indices: the `k`-th run is named after the sample
   at the `k`-th start and lasts from that sample's timestamp until the next
   start's timestamp (the last run: until the last sample's timestamp).
   */
  lemma {:induction false} RunsMatchStarts(samples: seq<Sample>, n: nat)
    requires Chronological(samples) && 1 <= n <= |samples|
    ensures |RunsUpTo(samples, n)| == |Starts(samples, n)|
    ensures forall k :: 0 <= k < |Starts(samples, n)| ==>
      && RunsUpTo(samples, n)[k].name == samples[Starts(samples, n)[k]].name
      && RunsUpTo(samples, n)[k].duration
         == RunEnd(samples, n, Starts(samples, n), k) - samples[Starts(samples, n)[k]].timestamp
  {
    if n > 1 {
      RunsMatchStarts(samples, n - 1);
      var prev := RunsUpTo(samples, n - 1);
      var ps := Starts(samples, n - 1);
      var r := RunsUpTo(samples, n);
      var rs := Starts(samples, n);
      var m := |prev|;
      forall k | 0 <= k < |rs|
        ensures r[k].name == samples[rs[k]].name
        ensures r[k].duration == RunEnd(samples, n, rs, k) - samples[rs[k]].timestamp
      {
        if k < m - 1 {
          assert r[k] == prev[k] && rs[k] == ps[k] && rs[k + 1] == ps[k + 1];
        } else if k == m - 1 {
          assert rs[k] == ps[k];
        } else {
          assert rs[k] == n - 1;
        }
      }
    }
  }

  /** A batch whose samples all name the first sample's state has no name changes. */
  lemma {:induction false} NoChanges(samples: seq<Sample>, n: nat)
    requires 1 <= n <= |samples|
    requires forall i :: 0 <= i < |samples| ==> samples[i].name == samples[0].name
    ensures Changes(samples, n) == 0
  {
    if n > 1 {
      NoChanges(samples, n - 1);
      assert !IsTransition(samples, n - 1);
    }
  }

  /** A batch that never changes state is a single interval spanning the whole batch. */
  lemma SingleStateRuns(samples: seq<Sample>)
    requires Chronological(samples) && |samples| >= 1
    requires forall i :: 0 <= i < |samples| ==> samples[i].name == samples[0].name
    ensures samples[0].timestamp <= Last(samples).timestamp
    ensures Runs(samples) == [State(samples[0].name, Last(samples).timestamp - samples[0].timestamp)]
  {
    var n := |samples|;
    NoChanges(samples, n);
    RunsCount(samples, n);
    RunsTotal(samples, n);
    var r := RunsUpTo(samples, n);
    assert r[..0] == [];
    assert TotalDuration(r) == r[0].duration;
  }
}

