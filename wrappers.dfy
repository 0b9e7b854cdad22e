/** Failure-compatible helper types: `Option` stands for a Java reference that may be `null`,
    `Outcome` for a step that either completes or throws, `Result` for a constructor that
    either returns an object or throws. */
module Wrappers {

  datatype Option<+T> = None | Some(value: T)

  datatype Outcome<+E> = Pass | Fail(error: E)

  datatype Result<+R, +E> = Success(value: R) | Failure(error: E)
}
