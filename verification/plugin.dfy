/**
 The plugin as one sequential state machine: the running flag that guards
 Start and Stop, the sampling loop's buffer (a tick appends one sample, a
 collect hands the whole buffer over and keeps only its last sample), and the
 collection cycle that runs a collect followed by a gather.
 */
module Plugin {
  import opened Types
  import opened Segmenter
  import opened Aggregation
  import opened Collection

  /** The plugin's state; `buffer` is the sampling loop's buffer while it runs. */
  datatype Systemctl = Systemctl(totals: Totals, running: bool, buffer: seq<Sample>)

  /** A freshly registered plugin: no totals, open state "unknown", not sampling. */
  function Init(): Systemctl {
    Systemctl(Totals(map[], "unknown", 0), false, [])
  }

  /** Starting a running plugin does nothing; otherwise a loop with an empty buffer begins. */
  function Start(p: Systemctl): (r: Systemctl)
    ensures p.running ==> r == p
    ensures !p.running ==> r.running && r.buffer == [] && r.totals == p.totals
  {
    if p.running then p else p.(running := true, buffer := [])
  }

  /** Stopping a stopped plugin does nothing; otherwise the loop ends and its buffer is gone. */
  function Stop(p: Systemctl): (r: Systemctl)
    ensures !p.running ==> r == p
    ensures p.running ==> !r.running && r.buffer == [] && r.totals == p.totals
  {
    if !p.running then p else p.(running := false, buffer := [])
  }

  /** The sampling loop's default step: one observed sample joins the buffer. */
  function Tick(p: Systemctl, sample: Sample): (r: Systemctl)
    requires p.running
    ensures r.running && r.totals == p.totals
    ensures |r.buffer| == |p.buffer| + 1 && r.buffer[..|p.buffer|] == p.buffer && Last(r.buffer) == sample
  {
    p.(buffer := p.buffer + [sample])
  }

  /** A run of ticks, one per observed sample, in order. */
  function Ticks(p: Systemctl, samples: seq<Sample>): Systemctl
    requires p.running
  {
    if |samples| == 0 then p else Tick(Ticks(p, samples[..|samples| - 1]), Last(samples))
  }

  /**
   The loop's collect step: the whole buffer is handed over and the buffer
   restarts from its last sample, so consecutive batches share a boundary sample.
   */
  function Collect(p: Systemctl): (r: (seq<Sample>, Systemctl))
    requires p.running && |p.buffer| >= 1
    ensures r.0 == p.buffer
    ensures r.1.buffer == [Last(r.0)] && r.1.running && r.1.totals == p.totals
  {
    (p.buffer, p.(buffer := [Last(p.buffer)]))
  }

  /** A collection cycle: collect the batch, then gather it into the totals. */
  function GatherCycle(p: Systemctl): (r: (Result<map<string, FieldValue>, Error>, Systemctl))
    requires p.running && |p.buffer| >= 1 && Chronological(p.buffer)
    ensures r.1.running && r.1.buffer == [Last(p.buffer)]
    ensures r.0.Failure? <==> |p.buffer| < 2
    ensures r.0.Failure? ==> r.1.totals == p.totals
  {
    var (batch, collected) := Collect(p);
    var g := Gather(collected.totals, batch);
    (g.result, collected.(totals := g.totals))
  }

  /** What the plugin keeps true between steps. */
  ghost predicate Valid(p: Systemctl) {
    && Paired(p.totals.aggState)
    && WellFormed(p.totals.aggState)
    && Chronological(p.buffer)
    && (!p.running ==> p.buffer == [])
  }

  /** The steps of the machine; a tick carries the sample the observer returned. */
  datatype Event = StartEvent | StopEvent | TickEvent(sample: Sample) | GatherEvent

  /**
   When a step can happen: ticks and collects only while the loop runs, a
   tick's timestamp never earlier than the buffer's last, and a collect only
   on a non-empty buffer.
   */
  predicate Enabled(p: Systemctl, e: Event) {
    match e
    case StartEvent => true
    case StopEvent => true
    case TickEvent(s) => p.running && (|p.buffer| == 0 || Last(p.buffer).timestamp <= s.timestamp)
    case GatherEvent => p.running && |p.buffer| >= 1 && Chronological(p.buffer)
  }

  function Step(p: Systemctl, e: Event): Systemctl
    requires Enabled(p, e)
  {
    match e
    case StartEvent => Start(p)
    case StopEvent => Stop(p)
    case TickEvent(s) => Tick(p, s)
    case GatherEvent => GatherCycle(p).1
  }

  /** Runs a sequence of events; `None` when some event is not enabled when it comes. */
  function Run(p: Systemctl, events: seq<Event>): Option<Systemctl>
    decreases |events|
  {
    if |events| == 0 then Some(p)
    else if !Enabled(p, events[0]) then None
    else Run(Step(p, events[0]), events[1..])
  }

  lemma InitValid()
    ensures Valid(Init())
  {
  }

  /** Every enabled step keeps the plugin valid and never lowers the aggregate map. */
  lemma StepPreserves(p: Systemctl, e: Event)
    requires Valid(p) && Enabled(p, e)
    ensures Valid(Step(p, e))
    ensures Grows(p.totals.aggState, Step(p, e).totals.aggState)
  {
    match e
    case TickEvent(s) =>
      var r := Tick(p, s);
      assert r.buffer == p.buffer + [s];
    case GatherEvent =>
      GatherPreserves(p.totals, p.buffer);
    case _ =>
  }

  lemma GrowsTransitive(a: map<string, nat>, b: map<string, nat>, c: map<string, nat>)
    requires Grows(a, b) && Grows(b, c)
    ensures Grows(a, c)
  {
  }

  /**
   Across any sequence of steps the plugin stays valid, the duration and count
   keys stay paired, and no aggregate entry ever disappears or decreases.
   */
  lemma {:induction false} RunPreserves(p: Systemctl, events: seq<Event>)
    requires Valid(p) && Run(p, events).Some?
    ensures Valid(Run(p, events).value)
    ensures Grows(p.totals.aggState, Run(p, events).value.totals.aggState)
    decreases |events|
  {
    if |events| > 0 {
      var q := Step(p, events[0]);
      StepPreserves(p, events[0]);
      RunPreserves(q, events[1..]);
      GrowsTransitive(p.totals.aggState, q.totals.aggState, Run(p, events).value.totals.aggState);
    }
  }

  /** Ticks append their samples to the buffer in order and change nothing else. */
  lemma {:induction false} TicksAppend(p: Systemctl, samples: seq<Sample>)
    requires p.running
    ensures Ticks(p, samples) == p.(buffer := p.buffer + samples)
  {
    if |samples| > 0 {
      var front := samples[..|samples| - 1];
      TicksAppend(p, front);
      assert p.buffer + samples == (p.buffer + front) + [Last(samples)];
    }
  }

  /**
   Boundary carry-over: after a collect and any number of ticks, the next
   batch begins with the previous batch's last sample, followed by exactly
   the samples ticked in between.
   */
  lemma CarryOver(p: Systemctl, samples: seq<Sample>)
    requires p.running && |p.buffer| >= 1
    ensures var (first, after) := Collect(p);
      var (second, _) := Collect(Ticks(after, samples));
      second == [Last(first)] + samples && second[0] == Last(first)
  {
    TicksAppend(Collect(p).1, samples);
  }

  /**
   After a successful cycle the sample carried into the next batch is in the
   state the totals now call open, so the next one-interval batch extends
   that same state.
   */
  lemma CarriedSampleIsOpenState(p: Systemctl)
    requires p.running && |p.buffer| >= 2 && Chronological(p.buffer)
    ensures GatherCycle(p).1.buffer[0].name == GatherCycle(p).1.totals.currentState
  {
  }

  /**
   Within one sampling session the next batch starts in the state the totals
   call open: after a successful cycle and any number of ticks, the first
   sample of the buffer is still the carried one.
   */
  lemma NextBatchStartsInOpenState(p: Systemctl, samples: seq<Sample>)
    requires p.running && |p.buffer| >= 2 && Chronological(p.buffer)
    ensures Ticks(GatherCycle(p).1, samples).buffer[0].name == Ticks(GatherCycle(p).1, samples).totals.currentState
  {
    TicksAppend(GatherCycle(p).1, samples);
  }

  /**
   A restart keeps the totals, open state included, but the new session's
   buffer starts empty, so its first batch need not begin in the open state.
   */
  lemma RestartKeepsOpenState(p: Systemctl)
    ensures Start(Stop(p)).running && Start(Stop(p)).buffer == []
    ensures Start(Stop(p)).totals == p.totals
  {
  }
}
