/**
 The values that flow through the state engine: raw samples taken from the
 observed service, the named intervals derived from them, and the small
 failure-compatible wrappers used for the engine's error paths.
 */
module Types {

  /** One timestamped observation of the service's named state. */
  datatype Sample = Sample(name: string, timestamp: nat)

  /** A named span of time spent continuously in one state. */
  datatype State = State(name: string, duration: nat)

  /** The one error the engine reports: a batch too short to bound an interval. */
  datatype Error = InsufficientSamples

  datatype Option<+T> = None | Some(value: T)

  datatype Result<+T, +E> = Success(value: T) | Failure(error: E)

  function Last<T>(s: seq<T>): T
    requires |s| > 0
  {
    s[|s| - 1]
  }
}
