/** Failure-carrying values used across the model: a JavaScript value that may
    be `undefined`, a call that returns a value or throws, a step that succeeds
    or throws, and the `Remote` wrapper the store keeps fetched data in. */
module Outcomes {

  /** A value that may be missing (`undefined` in the source). */
  datatype Option<+T> = None | Some(value: T)

  /** A call that either returns a value or throws an error whose text is `error`. */
  datatype Result<+T> = Success(value: T) | Failure(error: string)

  /** A step that either completes or throws an error whose text is `error`. */
  datatype Outcome = Pass | Fail(error: string)

  /** The remote-data wrapper the store keeps a fetched list in. */
  datatype Remote<+T> = NotAsked | Loading | Failed(reason: string) | Loaded(data: T)

  /** JavaScript truthiness of an optional string: `undefined` and `''` are falsy. */
  predicate Truthy(s: Option<string>) {
    s.Some? && s.value != ""
  }
}
