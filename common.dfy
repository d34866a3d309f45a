/**
 * Small shared vocabulary: an optional value (Kotlin's and Java's nullable
 * references) and the outcome of a platform call that may throw.
 */
module Common {

  datatype Option<+T> = None | Some(value: T)

  /** The outcome of a platform call: it returns, or it throws an exception
      whose message may be absent (`Throwable.message` is nullable). */
  datatype Step = Succeeds | Throws(message: Option<string>)
}
