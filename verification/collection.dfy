/**
 One collection cycle ("gather"): segment the batch handed over by the
 sampling loop, fold it into the totals, and build the flat field map
 emitted for the service.
 */
module Collection {
  import opened Types
  import opened Keys
  import opened Segmenter
  import opened SegmenterFacts
  import opened Aggregation

  /** A field value: the open state's name, or a duration or count. */
  datatype FieldValue = Text(text: string) | Number(number: nat)

  /** The outcome of a cycle and the totals it leaves behind. */
  datatype GatherOutcome = GatherOutcome(result: Result<map<string, FieldValue>, Error>, totals: Totals)

  /**
   The emitted fields: the open state and its duration under two fixed
   names, then every entry of the aggregate map. Because aggregate keys end
   in a suffix neither fixed name has, they never overwrite the fixed entries.
   */
  function Fields(t: Totals): (fields: map<string, FieldValue>)
    ensures fields.Keys == t.aggState.Keys + {CurrentStateField, CurrentStateTimeField}
    ensures forall key :: key in t.aggState ==> fields[key] == Number(t.aggState[key])
    ensures WellFormed(t.aggState) ==>
      fields[CurrentStateField] == Text(t.currentState)
      && fields[CurrentStateTimeField] == Number(t.currentStateDuration)
  {
    FixedFieldsAreNotAggregateKeys();
    var fixed := map[CurrentStateTimeField := Number(t.currentStateDuration), CurrentStateField := Text(t.currentState)];
    fixed + map key | key in t.aggState :: Number(t.aggState[key])
  }

  /**
   A batch too short to segment fails the cycle: nothing is emitted and the
   totals are left as they were. Otherwise the intervals are folded, with
   the open interval's duration carried in, and the fields are built.
   */
  function Gather(t: Totals, samples: seq<Sample>): (g: GatherOutcome)
    requires Chronological(samples)
    ensures g.result.Failure? <==> |samples| < 2
    ensures g.result.Failure? ==> g.result.error == InsufficientSamples && g.totals == t
    ensures g.result.Success? ==> g.totals.currentState == Last(samples).name
  {
    match Segment(samples)
    case Failure(e) => GatherOutcome(Failure(e), t)
    case Success(states) =>
      var next := AggregateStates(t, states, t.currentStateDuration);
      GatherOutcome(Success(Fields(next)), next)
  }

  /** A cycle keeps the aggregate map paired and well formed and never lowers it. */
  lemma GatherPreserves(t: Totals, samples: seq<Sample>)
    requires Chronological(samples) && Paired(t.aggState) && WellFormed(t.aggState)
    ensures Paired(Gather(t, samples).totals.aggState) && WellFormed(Gather(t, samples).totals.aggState)
    ensures Grows(t.aggState, Gather(t, samples).totals.aggState)
  {
    if |samples| >= 2 {
      AggregateStatesPreserves(t, Runs(samples), t.currentStateDuration);
    }
  }

  /** A successful cycle emits every aggregate entry it leaves behind, with its value, and the fixed fields. */
  lemma GatherEmits(t: Totals, samples: seq<Sample>)
    requires Chronological(samples) && Paired(t.aggState) && WellFormed(t.aggState) && |samples| >= 2
    ensures var g := Gather(t, samples);
      && g.result.Success?
      && g.result.value.Keys == g.totals.aggState.Keys + {CurrentStateField, CurrentStateTimeField}
      && g.result.value[CurrentStateField] == Text(g.totals.currentState)
      && g.result.value[CurrentStateTimeField] == Number(g.totals.currentStateDuration)
      && forall key :: key in g.totals.aggState ==> g.result.value[key] == Number(g.totals.aggState[key])
  {
    GatherPreserves(t, samples);
  }

  /**
   A cycle whose batch never changes state extends the carried duration by
   the batch's span and makes the batch's state the open one, whichever state
   the totals called open before. A state seen for the first time is recorded
   with that whole extended duration and a count of one; a state already
   recorded leaves the map as it was.
   */
  lemma CarriedDurationCreditedToBatchState(t: Totals, samples: seq<Sample>)
    requires Chronological(samples) && |samples| >= 2
    requires forall i :: 0 <= i < |samples| ==> samples[i].name == samples[0].name
    ensures var g := Gather(t, samples);
      var a := samples[0].name;
      var d := t.currentStateDuration + (Last(samples).timestamp - samples[0].timestamp);
      && g.result.Success?
      && g.totals.currentState == a
      && g.totals.currentStateDuration == d
      && (DurKey(a) !in t.aggState ==> g.totals.aggState == t.aggState[DurKey(a) := d][CountKey(a) := 1])
      && (DurKey(a) in t.aggState ==> g.totals.aggState == t.aggState)
  {
    SingleStateRuns(samples);
  }
}
