# systemctl state engine

This project models the state-tracking core of the telegraf `systemctl` input
plugin and proves properties of it in Dafny. The plugin samples a service's
state (`active`, `inactive`, `failed`, …) with timestamps and keeps the
samples in a buffer. On each collection cycle ("gather") it does three things:

- It segments the buffered batch into named intervals (`AggregateSamples`).
- It folds the intervals into a cumulative map of `<state>_dur` and
  `<state>_count` entries (`AggregateStates`). It also tracks the state that is
  still open and how long it has lasted.
- It emits that map together with `current_state` and `current_state_time`.

The sampling loop's collect step carries the last sample over into the next
batch, so consecutive batches of one session share a boundary sample and
together cover the session's time without gaps.

Modules:

- `Types`: samples, intervals (`State`), the `InsufficientSamples` error, and
  `Option`/`Result`.
- `Segmenter`:
  - `RunsUpTo`/`Runs`, a prefix-recursive reference definition of the intervals
    of a batch.
  - `Scan`, the same computation in the loop's tail-recursive shape.
  - `AggregateSamples`, the plugin's loop. It is proved to compute `Runs`, and
    the dead branch in its last iteration is proved unreachable.
- `SegmenterFacts`: what the intervals mean. This covers how many there are,
  that neighbouring intervals name different states, that the durations add up
  to the batch's time span, and a description by index built from the
  positions where the state changes.
- `Keys`: the key builder, its suffixes, and the fact that keys never collide.
- `Aggregation`: the fold with its two branches exactly as written, and the
  invariants it keeps.
- `Collection`: one gather cycle and the emitted field map.
- `Cycles`: what the fold does across consecutive collection cycles.
- `Plugin`: the running flag, the sampling buffer and the collection cycle as
  a single sequential state machine. It proves the invariants every step
  preserves and the boundary carry-over.
- `TestVectors`: the plugin's unit-test batches, restated and proved about the
  model.

The comment above the fold's first branch (systemctl.go:161) speaks of "no
change in state", which suggests a continuation check. The condition on the next line
only compares the batch's first interval with its last one and never reads the
open state held in the totals. So the branch is taken for every batch of exactly
one interval, whatever state was open before. The model follows the code
(`Aggregation.FoldIgnoresOpenState`, `Aggregation.AggregateStatesSingle`).

Before the first successful cycle of a fresh plugin the open state is the
registered `"unknown"` (systemctl.go:261-262), so the readings differ there, but
harmlessly: the carried duration is zero. From the first successful cycle of a
session on, the two readings agree. The collect step carries the last sample over, so after a successful cycle and any number of ticks, the
next batch begins in the state the totals call open
(`Plugin.CarriedSampleIsOpenState`, `Plugin.NextBatchStartsInOpenState`).
They diverge in the first cycle after a restart. `Start` begins with an empty
buffer but keeps the totals and their open state (`Plugin.RestartKeepsOpenState`).
A one-interval batch in another state then extends the old open duration and
credits it to the new state (`Collection.CarriedDurationCreditedToBatchState`).

The fold counts every interval of a batch that has more than one interval as a visit
(systemctl.go:176-189), and the carried sample makes the open interval of one
batch the first interval of the next. The comments describe `_count` as "the
number of transitions" (systemctl.go:166), start it at "a single transition"
(systemctl.go:177), and describe its increment as one more "number of times in
the state" (systemctl.go:185). Across cycles,
however, the code as written behaves as follows.

- A stay that spans a cycle boundary is counted twice: once when it opens as
  the last interval of a batch, and again when the next batch with a change
  closes it (`Cycles.BoundaryStayCountedTwice`).
- Once a state has a `_dur` entry, a cycle that sees only that state adds
  its time to the open duration alone (systemctl.go:163, 168). The next batch
  with a change replaces the open duration with its last interval's
  (systemctl.go:174). So that time never reaches `_dur`
  (`Cycles.ContinuedStayTimeLost`).

The model reproduces both effects as written.

## Model

| member | source | states |
|---|---|---|
| Segmenter.AggregateSamples | plugins/inputs/systemctl/systemctl.go:101-138 | fails exactly when fewer than two samples are given; otherwise returns the reference runs of the batch, and the zero-duration branch for a transition on the last sample can never be reached |
| Segmenter.RunsUpTo | plugins/inputs/systemctl/systemctl.go:112-136 | the runs of a batch prefix are non-empty, begin with the first sample's state and end with the state of the prefix's last sample |
| Segmenter.Segment | plugins/inputs/systemctl/systemctl.go:102-106 | the segmenter fails with InsufficientSamples if and only if the batch has fewer than two samples; on success the intervals are non-empty and the first and last are named after the first and last samples |
| Segmenter.RunsStepSame | plugins/inputs/systemctl/systemctl.go:115-116 | a sample in the same state as the open interval extends that interval up to its timestamp and opens nothing new |
| Segmenter.RunsStepChange | plugins/inputs/systemctl/systemctl.go:116-122 | a sample in a different state closes the open interval at its timestamp and opens a new interval of duration zero at that timestamp |
| Segmenter.ScanMatchesRuns | plugins/inputs/systemctl/systemctl.go:115-136 | resuming the loop from any point that agrees with the reference gives exactly the reference runs |
| Segmenter.Scan | plugins/inputs/systemctl/systemctl.go:112-136 | the loop in tail-recursive form; its contract, that it yields exactly the reference runs, is carried by Segmenter.ScanMatchesRuns |
| SegmenterFacts.RunsCount | plugins/inputs/systemctl/systemctl.go:116-119 | the number of intervals is one more than the number of adjacent name changes in the batch |
| SegmenterFacts.RunsAlternate | plugins/inputs/systemctl/systemctl.go:116-122 | two neighbouring intervals never name the same state |
| SegmenterFacts.RunsTotal | plugins/inputs/systemctl/systemctl.go:118-133 | for a chronological batch the interval durations sum to the last timestamp minus the first |
| SegmenterFacts.TrailingTransition | plugins/inputs/systemctl/systemctl.go:125-133 | a transition on the last sample yields a final interval in the new state with duration zero |
| SegmenterFacts.Starts | plugins/inputs/systemctl/systemctl.go:112-122 | the interval start indices are strictly increasing, begin at zero, and contain a later index exactly when that sample changes the state |
| SegmenterFacts.RunsMatchStarts | plugins/inputs/systemctl/systemctl.go:112-136 | the k-th interval is named after the sample at the k-th start and lasts from that timestamp to the next start's timestamp, or to the last sample's for the final interval |
| SegmenterFacts.NoChanges | plugins/inputs/systemctl/systemctl.go:116 | a batch whose samples all name one state has no name changes |
| SegmenterFacts.SingleStateRuns | plugins/inputs/systemctl/systemctl.go:112-136 | a chronological batch that never changes state segments into exactly one interval, named after that state and spanning the last timestamp minus the first |
| Keys.GetKeyName | plugins/inputs/systemctl/systemctl.go:141-148 | a key is exactly the state name followed by the suffix |
| Keys.GetKeyNameInjective | plugins/inputs/systemctl/systemctl.go:141-148 | for a fixed suffix two names give the same key if and only if they are the same name |
| Keys.DurCountDisjoint | plugins/inputs/systemctl/systemctl.go:14-18 | no `_dur` key equals any `_count` key |
| Keys.KeysAreAggregateKeys | plugins/inputs/systemctl/systemctl.go:164-165 | every built key ends in one of the two suffixes |
| Keys.FixedFieldsAreNotAggregateKeys | plugins/inputs/systemctl/systemctl.go:86-89 | neither `current_state` nor `current_state_time` ends in an aggregate suffix |
| Aggregation.OccurrencesSnoc | plugins/inputs/systemctl/systemctl.go:176-189 | appending an interval adds one occurrence and its duration to its own state and to no other |
| Aggregation.KeyFacts | plugins/inputs/systemctl/systemctl.go:178-179 | duration keys and count keys are each injective in the name and never equal one another |
| Aggregation.Visit | plugins/inputs/systemctl/systemctl.go:178-189 | one iteration of the multi-interval loop; its contract (one more visit and the interval's duration for its state, nothing else changed) is carried by Aggregation.VisitEffect |
| Aggregation.VisitAll | plugins/inputs/systemctl/systemctl.go:176-190 | the multi-interval loop; its contract is carried by Aggregation.VisitAllCounts, Aggregation.VisitAllUntouched and Aggregation.VisitAllPreserves |
| Aggregation.AggregateStates | plugins/inputs/systemctl/systemctl.go:151-195 | the fold with both branches; its contract is carried by Aggregation.AggregateStatesSingle, Aggregation.AggregateStatesMulti, Aggregation.AggregateStatesPreserves and Aggregation.FoldIgnoresOpenState |
| Aggregation.VisitEffect | plugins/inputs/systemctl/systemctl.go:178-189 | folding one interval adds one to its state's count and its duration to the state's total, reading an absent entry as zero, and changes no other key |
| Aggregation.VisitAllPreserves | plugins/inputs/systemctl/systemctl.go:176-190 | folding a batch keeps duration and count keys paired and well formed and never removes a key or lowers a value |
| Aggregation.VisitAllCounts | plugins/inputs/systemctl/systemctl.go:176-190 | after the fold every state's count has grown by its number of intervals and its total by their summed durations |
| Aggregation.VisitAllUntouched | plugins/inputs/systemctl/systemctl.go:176-190 | keys of states that no interval names keep their presence and value |
| Aggregation.FoldIgnoresOpenState | plugins/inputs/systemctl/systemctl.go:157-171 | the fold never reads the previously open state: totals that differ only in their open state fold every batch to the same result, so the single-interval branch is chosen by the batch alone |
| Aggregation.AggregateStatesSingle | plugins/inputs/systemctl/systemctl.go:162-171 | a one-interval batch names the open state after the interval and extends the carried duration by it; a new state gets exactly its two entries (duration, count one), an already recorded state leaves the map unchanged |
| Aggregation.AggregateStatesMulti | plugins/inputs/systemctl/systemctl.go:172-194 | a longer batch makes the last interval the open state with its own duration, dropping the carried one; every state's count and total grow by its occurrences and durations; keys of other states are untouched |
| Aggregation.AggregateStatesPreserves | plugins/inputs/systemctl/systemctl.go:162-190 | both branches keep keys paired and well formed and never remove a key or lower a value |
| Collection.Fields | plugins/inputs/systemctl/systemctl.go:86-92 | the emitted keys are the aggregate keys plus the two fixed fields; each aggregate entry is emitted as is, and no aggregate key replaces the fixed fields |
| Collection.Gather | plugins/inputs/systemctl/systemctl.go:79-84 | a cycle fails if and only if the batch has fewer than two samples, and a failed cycle reports InsufficientSamples and leaves the totals untouched; a successful one leaves the last sample's state open |
| Collection.GatherPreserves | plugins/inputs/systemctl/systemctl.go:79-84 | a cycle keeps the aggregate map paired and well formed and never lowers it |
| Collection.GatherEmits | plugins/inputs/systemctl/systemctl.go:84-92 | a successful cycle emits exactly the totals it leaves behind: every aggregate entry with its value, plus the fixed fields holding the open state and its duration, and no other key |
| Collection.CarriedDurationCreditedToBatchState | plugins/inputs/systemctl/systemctl.go:162-171 | a cycle whose chronological batch of two or more samples never changes state makes that state open and extends the carried duration by the batch's span, whichever state was open before; if the state has no `_dur` entry it is recorded with that whole duration and a count of one, otherwise the map is left unchanged |
| Cycles.TwoStateBatch | plugins/inputs/systemctl/systemctl.go:115-135 | two samples two time units apart in different states give the first state for 2 and the second opened at 0 |
| Cycles.FoldTwo | plugins/inputs/systemctl/systemctl.go:172-194 | folding two intervals of different states gives each one more visit and its duration, and leaves the second open with its own duration |
| Cycles.FirstCycle | plugins/inputs/systemctl/systemctl.go:79-84 | a first cycle with a change from `a` to `b` records each state once, `a` with duration 2 and `b` with duration zero, and leaves `b` open with duration zero |
| Cycles.SecondCycle | plugins/inputs/systemctl/systemctl.go:162-171 | a cycle that sees only the open, already recorded state extends the open duration and leaves the map unchanged |
| Cycles.BoundaryStayCountedTwice | plugins/inputs/systemctl/systemctl.go:176-189 | across two consecutive cycles one stay in `b` spanning the boundary ends with `b_count` 2 |
| Cycles.ContinuedStayTimeLost | plugins/inputs/systemctl/systemctl.go:162-189 | across three consecutive cycles a stay of 4 time units in `b`, the middle cycle seeing only `b`, ends with `b_dur` 2 and `b_count` 2 |
| Plugin.Start | plugins/inputs/systemctl/systemctl.go:198-207 | starting a running plugin changes nothing; otherwise it starts sampling with an empty buffer and the totals unchanged |
| Plugin.Stop | plugins/inputs/systemctl/systemctl.go:233-242 | stopping a stopped plugin changes nothing; otherwise sampling ends, its buffer is gone and the totals are unchanged |
| Plugin.Tick | plugins/inputs/systemctl/systemctl.go:214-217 | a tick appends exactly the observed sample to the buffer and changes nothing else |
| Plugin.TicksAppend | plugins/inputs/systemctl/systemctl.go:214-217 | a run of ticks appends its samples to the buffer in order and changes nothing else |
| Plugin.Collect | plugins/inputs/systemctl/systemctl.go:219-224 | a collect hands over the whole buffer and leaves only its last sample in it |
| Plugin.GatherCycle | plugins/inputs/systemctl/systemctl.go:75-84 | a cycle leaves the buffer holding the batch's last sample, fails exactly on a batch shorter than two samples, and then leaves the totals as they were |
| Plugin.CarryOver | plugins/inputs/systemctl/systemctl.go:219-224 | the next batch starts with the previous batch's last sample, followed by exactly the samples ticked in between |
| Plugin.CarriedSampleIsOpenState | plugins/inputs/systemctl/systemctl.go:84 | after a successful cycle the carried sample is in the state the totals call open |
| Plugin.NextBatchStartsInOpenState | plugins/inputs/systemctl/systemctl.go:216-224 | after a successful cycle and any number of ticks, the next batch begins in the state the totals call open |
| Plugin.RestartKeepsOpenState | plugins/inputs/systemctl/systemctl.go:198-242 | stopping and starting again keeps the totals with their open state but begins an empty buffer |
| Plugin.InitValid | plugins/inputs/systemctl/systemctl.go:255-269 | the registered plugin (empty map, state "unknown", duration zero, not running) satisfies the plugin invariant |
| Plugin.Init | plugins/inputs/systemctl/systemctl.go:257-268 | the registered initial values; its contract, that they satisfy the plugin invariant, is carried by Plugin.InitValid |
| Plugin.Step | plugins/inputs/systemctl/systemctl.go:198-242 | one start, stop, tick or collection cycle; its contract is carried by Plugin.StepPreserves |
| Plugin.StepPreserves | plugins/inputs/systemctl/systemctl.go:198-242 | every enabled step keeps the plugin invariant and never lowers the aggregate map |
| Plugin.GrowsTransitive | plugins/inputs/systemctl/systemctl.go:168-189 | "never removes a key or lowers a value" composes across steps |
| Plugin.RunPreserves | plugins/inputs/systemctl/systemctl.go:198-242 | along any sequence of enabled steps the invariant holds and no aggregate entry disappears or decreases |
| TestVectors.ActiveKeys | plugins/inputs/systemctl/systemctl_test.go:31 | the keys built for `active` are `active_dur` and `active_count` |
| TestVectors.SteadyPair | plugins/inputs/systemctl/systemctl_test.go:23-32 | two `active` samples give one interval of duration 2; with prior duration 10 the fold gives `active_dur` 12 and `active_count` 1 |
| TestVectors.SteadyTriple | plugins/inputs/systemctl/systemctl_test.go:34-43 | three `active` samples give one interval of duration 4; with prior duration 10 the fold gives `active_dur` 14 and `active_count` 1 |
| TestVectors.LastSampleTransition | plugins/inputs/systemctl/systemctl_test.go:45-54 | `active` then `failed` gives intervals of duration 2 and 0, each counted once, with `failed` open for duration 0 |
| TestVectors.RepeatedVisitsSegment | plugins/inputs/systemctl/systemctl_test.go:56-70 | the six-sample batch with repeated visits segments into the five expected intervals with their durations |
| TestVectors.RepeatedVisitsFold | plugins/inputs/systemctl/systemctl_test.go:64-73 | folding those intervals gives `active` 6 over 2 visits, `inactive` 2 over 2, `failed` 2 over 1, with `inactive` open for duration 0 |
| TestVectors.TransitionEverySampleSegment | plugins/inputs/systemctl/systemctl_test.go:75-90 | a batch with a transition on every sample gives one interval per sample, the last of duration 0 |
| TestVectors.TransitionEverySampleFold | plugins/inputs/systemctl/systemctl_test.go:83-93 | folding those intervals gives each state 2 visits, with totals 4, 4 and 2, and `failed` open for duration 0 |
| TestVectors.SingleSampleFails | plugins/inputs/systemctl/systemctl.go:104-106 | a one-sample batch is rejected with InsufficientSamples |

## Left out

- The sampling goroutine, the `done`/`collect`/`out` channels, `select` scheduling, `time.Sleep` and the mutex are left out. They are concurrency plumbing; ticks, collects, gathers, starts and stops are modelled as steps of one sequential state machine (`Plugin.Step`).
- The state observer (`MyStateSampler`, `TestStateSampler`) is left out. It reads the wall clock, so each tick takes the observed sample as a parameter.
- A tick is enabled only when its timestamp is not earlier than the buffer's last sample. This stands in for a clock that never goes backwards.
- The `fmt.Printf` logging, the `acc.AddFields` call with its `resource` tag, `SampleConfig`, `Description` and the plugin registration are left out, as I/O and framework glue. `Plugin.Init` keeps only the registered initial values of the totals.
- Segmenter.Segment: durations and timestamps are unbounded naturals, and the batch must be chronological. `uint64` subtraction wrap-around for a timestamp that goes backwards is not modelled.
- Segmenter.AggregateSamples: requires a chronological batch, for the same reason.
- Aggregation.AggregateStatesPreserves: `uint64` overflow of a `_dur` or `_count` entry is not modelled, so "never lowers a value" holds only for unbounded counters.
- `AggregateStates` on an empty interval list panics in the code. The model makes this a precondition (at least one interval); the segmenter never produces an empty list.
- Plugin.Collect: requires a non-empty buffer, because the code panics on an empty one when it reads the last sample. `Plugin.GatherCycle` inherits the requirement.
- Plugin.GatherCycle: requires the plugin to be running. In the code a gather on a stopped plugin blocks forever on the channel handshake, which has no result to model.
- `TestOnePeriodCollection` is left out. It depends on real sleeps and wall-clock timestamps.
- The `dcos/systemctl` variant is a stub that returns fixed values and is not part of this model.
- After a restart the first batch's state need not be the open state, and its carried duration is then credited to another state. The model reproduces this as written (`Collection.CarriedDurationCreditedToBatchState`) and promises agreement between batch head and open state only within one sampling session.
- The model does not promise that `_count` counts distinct stays or that `_dur` holds all the time spent in a state. Across cycles the code does neither, and the model reproduces that as written (`Cycles.BoundaryStayCountedTwice`, `Cycles.ContinuedStayTimeLost`).
- Observation failures are left out. The observer has no error path in the code.
