/** Kotlin's nullable values and the success-or-exception shape of a provider call. */
module Wrappers {

  /** A nullable value: `None` stands for Kotlin's `null`. */
  datatype Option<+T> = None | Some(value: T) {

    /** Kotlin's elvis operator `this ?: default`. */
    function GetOr(default: T): T {
      match this
      case Some(v) => v
      case None => default
    }

    /** Kotlin's chained elvis `this ?: other`, keeping the result nullable. */
    function OrElse(other: Option<T>): Option<T> {
      if Some? then this else other
    }
  }

  /** The outcome of one remote call: the decoded body, or any exception (network, HTTP, decoding). */
  datatype Outcome<+T> = Success(body: T) | Failure
}
