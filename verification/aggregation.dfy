/**
 The accumulator: folds a batch's intervals into the cumulative per-state
 map (`<name>_dur` and `<name>_count` entries) and tracks the currently open
 interval across collection cycles.
 */
module Aggregation {
  import opened Types
  import opened Keys

  /** The plugin's cumulative statistics and the interval still open. */
  datatype Totals = Totals(aggState: map<string, nat>, currentState: string, currentStateDuration: nat)

  /** A map entry, reading an absent key as zero (the zero value of a missing map entry). */
  function Lookup(m: map<string, nat>, key: string): nat {
    if key in m then m[key] else 0
  }

  /** The duration and count keys of a state are present together or not at all. */
  ghost predicate Paired(m: map<string, nat>) {
    forall name :: DurKey(name) in m <==> CountKey(name) in m
  }

  /** Every key of the map is a duration key or a count key. */
  predicate WellFormed(m: map<string, nat>) {
    forall key :: key in m ==> IsAggregateKey(key)
  }

  /** Every key of `a` is still in `b`, with a value at least as large. */
  predicate Grows(a: map<string, nat>, b: map<string, nat>) {
    forall key :: key in a ==> key in b && a[key] <= b[key]
  }

  /** How many intervals of the batch are named `name`. */
  function Occurrences(states: seq<State>, name: string): nat {
    if |states| == 0 then 0
    else Occurrences(states[..|states| - 1], name) + (if Last(states).name == name then 1 else 0)
  }

  /** Total duration of the intervals of the batch named `name`. */
  function DurationIn(states: seq<State>, name: string): nat {
    if |states| == 0 then 0
    else DurationIn(states[..|states| - 1], name) + (if Last(states).name == name then Last(states).duration else 0)
  }

  /** Adding an interval at the end adds one occurrence and its duration to its own state only. */
  lemma OccurrencesSnoc(states: seq<State>, st: State)
    ensures forall name ::
      && Occurrences(states + [st], name) == Occurrences(states, name) + (if st.name == name then 1 else 0)
      && DurationIn(states + [st], name) == DurationIn(states, name) + (if st.name == name then st.duration else 0)
  {
    assert (states + [st])[..|states|] == states;
  }

  /** The keys a batch can touch. */
  function BatchKeys(states: seq<State>): set<string> {
    if |states| == 0 then {}
    else BatchKeys(states[..|states| - 1]) + {DurKey(Last(states).name), CountKey(Last(states).name)}
  }

  /**
   Folds one interval as a visit: a state seen for the first time gets count
   one and the interval's duration; otherwise its count goes up by one and
   the interval's duration is added.
   */
  function Visit(m: map<string, nat>, st: State): map<string, nat> {
    var stateDurKey := GetKeyName(st.name, DurFieldSuffix);
    var stateCountKey := GetKeyName(st.name, CountFieldSuffix);
    if stateDurKey !in m then m[stateCountKey := 1][stateDurKey := st.duration]
    else m[stateCountKey := Lookup(m, stateCountKey) + 1][stateDurKey := m[stateDurKey] + st.duration]
  }

  /** Folds every interval of the batch, in order. */
  function VisitAll(m: map<string, nat>, states: seq<State>): map<string, nat> {
    if |states| == 0 then m else Visit(VisitAll(m, states[..|states| - 1]), Last(states))
  }

  /**
   The plugin's fold of one batch. A batch of exactly one interval extends the
   open interval: the carried duration grows and the state's entries are only
   created if absent, never incremented. A longer batch counts every interval
   as a visit and the open interval becomes the last one, with its own duration.
   */
  function AggregateStates(t: Totals, states: seq<State>, currentStateDuration: nat): Totals
    requires |states| >= 1
  {
    var initialState := states[0].name;
    var stateCount := |states|;
    var currentState := states[stateCount - 1].name;
    if initialState == currentState && stateCount == 1 then
      var duration := currentStateDuration + states[stateCount - 1].duration;
      var stateDurKey := GetKeyName(currentState, DurFieldSuffix);
      var stateCountKey := GetKeyName(currentState, CountFieldSuffix);
      var agg := if stateDurKey !in t.aggState then t.aggState[stateDurKey := duration][stateCountKey := 1] else t.aggState;
      Totals(agg, currentState, duration)
    else
      Totals(VisitAll(t.aggState, states), currentState, states[stateCount - 1].duration)
  }

  /** The distinct-key facts every map argument below relies on. */
  lemma KeyFacts(a: string, b: string)
    ensures DurKey(a) == DurKey(b) <==> a == b
    ensures CountKey(a) == CountKey(b) <==> a == b
    ensures DurKey(a) != CountKey(b) && CountKey(a) != DurKey(b)
  {
    GetKeyNameInjective(a, b, DurFieldSuffix);
    GetKeyNameInjective(a, b, CountFieldSuffix);
    DurCountDisjoint(a, b);
    DurCountDisjoint(b, a);
  }

  /** One visit adds one to its state's count and its duration to the state's total, and touches nothing else. */
  lemma VisitEffect(m: map<string, nat>, st: State)
    requires Paired(m)
    ensures Paired(Visit(m, st)) && Grows(m, Visit(m, st))
    ensures WellFormed(m) ==> WellFormed(Visit(m, st))
    ensures forall name ::
      && Lookup(Visit(m, st), CountKey(name)) == Lookup(m, CountKey(name)) + (if name == st.name then 1 else 0)
      && Lookup(Visit(m, st), DurKey(name)) == Lookup(m, DurKey(name)) + (if name == st.name then st.duration else 0)
      && (DurKey(name) in Visit(m, st) <==> DurKey(name) in m || name == st.name)
    ensures forall key :: key != DurKey(st.name) && key != CountKey(st.name) ==>
      (key in Visit(m, st) <==> key in m) && (key in m ==> Visit(m, st)[key] == m[key])
  {
    var r := Visit(m, st);
    KeysAreAggregateKeys(st.name);
    forall name
      ensures DurKey(name) in r <==> CountKey(name) in r
      ensures Lookup(r, CountKey(name)) == Lookup(m, CountKey(name)) + (if name == st.name then 1 else 0)
      ensures Lookup(r, DurKey(name)) == Lookup(m, DurKey(name)) + (if name == st.name then st.duration else 0)
      ensures DurKey(name) in r <==> DurKey(name) in m || name == st.name
    {
      KeyFacts(name, st.name);
    }
  }

  /** Folding a batch keeps the keys paired and well formed, and never removes a key or lowers a value. */
  lemma {:induction false} VisitAllPreserves(m: map<string, nat>, states: seq<State>)
    requires Paired(m)
    ensures Paired(VisitAll(m, states)) && Grows(m, VisitAll(m, states))
    ensures WellFormed(m) ==> WellFormed(VisitAll(m, states))
  {
    if |states| > 0 {
      var front := states[..|states| - 1];
      VisitAllPreserves(m, front);
      VisitEffect(VisitAll(m, front), Last(states));
    }
  }

  /**
   Folding a batch into a map whose keys are paired: every state's count grows
   by the number of its intervals and its total by their durations, absent
   entries counting as zero.
   */
  lemma {:induction false} VisitAllCounts(m: map<string, nat>, states: seq<State>)
    requires Paired(m)
    ensures forall name ::
      && Lookup(VisitAll(m, states), CountKey(name)) == Lookup(m, CountKey(name)) + Occurrences(states, name)
      && Lookup(VisitAll(m, states), DurKey(name)) == Lookup(m, DurKey(name)) + DurationIn(states, name)
      && (DurKey(name) in VisitAll(m, states) <==> DurKey(name) in m || Occurrences(states, name) > 0)
  {
    if |states| > 0 {
      var front := states[..|states| - 1];
      VisitAllCounts(m, front);
      VisitAllPreserves(m, front);
      VisitEffect(VisitAll(m, front), Last(states));
    }
  }

  /** Keys that no interval of the batch names are left exactly as they were. */
  lemma {:induction false} VisitAllUntouched(m: map<string, nat>, states: seq<State>)
    requires Paired(m)
    ensures forall key :: key !in BatchKeys(states) ==>
      (key in VisitAll(m, states) <==> key in m) && (key in m ==> VisitAll(m, states)[key] == m[key])
  {
    if |states| > 0 {
      var front := states[..|states| - 1];
      var st := Last(states);
      VisitAllUntouched(m, front);
      VisitAllPreserves(m, front);
      VisitEffect(VisitAll(m, front), st);
    }
  }

  /**
   The fold never reads the state that was open before the batch: totals
   that differ only in their open state fold every batch to the same result.
   */
  lemma FoldIgnoresOpenState(t: Totals, other: string, states: seq<State>, currentStateDuration: nat)
    requires |states| >= 1
    ensures AggregateStates(t, states, currentStateDuration)
            == AggregateStates(t.(currentState := other), states, currentStateDuration)
  {
  }

  /**
   A one-interval batch extends the open interval by its duration and names
   it after the interval, whatever state was open before. A state seen for
   the first time gets exactly its two entries, duration and a count of one;
   a state already recorded leaves the map entirely unchanged.
   */
  lemma AggregateStatesSingle(t: Totals, states: seq<State>, currentStateDuration: nat)
    requires |states| == 1
    ensures AggregateStates(t, states, currentStateDuration).currentState == states[0].name
    ensures AggregateStates(t, states, currentStateDuration).currentStateDuration
            == currentStateDuration + states[0].duration
    ensures DurKey(states[0].name) in t.aggState ==>
      AggregateStates(t, states, currentStateDuration).aggState == t.aggState
    ensures DurKey(states[0].name) !in t.aggState ==>
      var r := AggregateStates(t, states, currentStateDuration).aggState;
      && r.Keys == t.aggState.Keys + {DurKey(states[0].name), CountKey(states[0].name)}
      && r[DurKey(states[0].name)] == currentStateDuration + states[0].duration
      && r[CountKey(states[0].name)] == 1
      && forall key :: key in t.aggState && key != CountKey(states[0].name) ==> r[key] == t.aggState[key]
  {
  }

  /**
   A batch of several intervals: the open interval becomes the last one with
   its own duration (the carried duration is dropped), and every state's
   count and total grow by its number of intervals and their durations.
   */
  lemma AggregateStatesMulti(t: Totals, states: seq<State>, currentStateDuration: nat)
    requires |states| >= 2 && Paired(t.aggState)
    ensures AggregateStates(t, states, currentStateDuration).currentState == Last(states).name
    ensures AggregateStates(t, states, currentStateDuration).currentStateDuration == Last(states).duration
    ensures forall name ::
      var r := AggregateStates(t, states, currentStateDuration).aggState;
      && Lookup(r, CountKey(name)) == Lookup(t.aggState, CountKey(name)) + Occurrences(states, name)
      && Lookup(r, DurKey(name)) == Lookup(t.aggState, DurKey(name)) + DurationIn(states, name)
      && (DurKey(name) in r <==> DurKey(name) in t.aggState || Occurrences(states, name) > 0)
    ensures forall key :: key !in BatchKeys(states) ==>
      var r := AggregateStates(t, states, currentStateDuration).aggState;
      (key in r <==> key in t.aggState) && (key in t.aggState ==> r[key] == t.aggState[key])
  {
    VisitAllCounts(t.aggState, states);
    VisitAllUntouched(t.aggState, states);
  }

  /**
   Neither branch removes a key or lowers a value, and both keep the
   duration and count keys of every state paired and every key well formed.
   */
  lemma AggregateStatesPreserves(t: Totals, states: seq<State>, currentStateDuration: nat)
    requires |states| >= 1 && Paired(t.aggState)
    ensures Paired(AggregateStates(t, states, currentStateDuration).aggState)
    ensures Grows(t.aggState, AggregateStates(t, states, currentStateDuration).aggState)
    ensures WellFormed(t.aggState) ==> WellFormed(AggregateStates(t, states, currentStateDuration).aggState)
  {
    if |states| == 1 {
      var name := states[0].name;
      var r := AggregateStates(t, states, currentStateDuration).aggState;
      KeysAreAggregateKeys(name);
      forall other
        ensures DurKey(other) in r <==> CountKey(other) in r
      {
        KeyFacts(other, name);
      }
      if DurKey(name) !in t.aggState {
        assert CountKey(name) !in t.aggState;
      }
    } else {
      VisitAllPreserves(t.aggState, states);
    }
  }
}
