/** Option and Result, the failure-compatible wrappers the rest of the model uses
    in place of Java's null references and checked exceptions. */
module Wrappers {

  /** A value that may be absent: Java's `null` / `Optional.empty()` is `None`. */
  datatype Option<+T> = None | Some(value: T) {
    function GetOr(default: T): T {
      match this
      case Some(v) => v
      case None => default
    }
  }

  /** The outcome of an operation that may throw: `Failure` carries the exception. */
  datatype Result<+R, +E> = Success(value: R) | Failure(error: E)

  /** What Jackson's `readValue(text, type)` yields: a value, null (the text is the JSON
      literal `null`), or a JsonProcessingException. */
  datatype Parsed<+T> = Item(value: T) | JsonNull | Malformed
}
