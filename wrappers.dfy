/** Helper datatypes used by both strategies. */
module Wrappers {

  /** An optional value: the host-persisted `state.trend` may be absent. */
  datatype Option<+T> = None | Some(value: T)

  /** The outcome of validating a settings object against its schema. */
  datatype Result<+R, +E> = Success(value: R) | Failure(error: E)
}
