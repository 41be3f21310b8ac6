/** Datatypes standing for Java's null references and thrown exceptions. */
module Wrappers {

  /** A possibly-null Java reference: `None` stands for `null`. */
  datatype Option<+T> = None | Some(value: T)

  /** A value-returning call that either returns normally or throws `error`. */
  datatype Result<+R, +E> = Success(value: R) | Failure(error: E)

  /** A `void` call that either returns normally or throws `error`. */
  datatype Outcome<+E> = Pass | Fail(error: E)
}
