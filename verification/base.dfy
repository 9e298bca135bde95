/** Failure-carrying wrappers used by every module of the model. */
module Wrappers {

  /** A value that may be absent (`undefined` / `null` in the service code). */
  datatype Option<+T> = None | Some(value: T)

  /** The outcome of an operation that may throw: its value, or what it threw. */
  datatype Result<+T, +E> = Success(value: T) | Failure(error: E)
}

/** What every stored document carries: an identifier and timestamps. */
module Documents {

  /** Document identifiers; the store hands them out as fresh naturals. */
  type ObjectId = nat

  /** A point in time, in milliseconds since the epoch. */
  type Time = int

  /** Milliseconds in one day. */
  const DayMs: int := 86_400_000
}
