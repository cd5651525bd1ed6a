/** Option and Result: the nullable references and thrown diagnostics of the
    source, made explicit. */
module Wrappers {

  /** `None` stands for a C# `null` reference. */
  datatype Option<+T> = None | Some(value: T) {
    function GetOr(default: T): T {
      match this
      case Some(v) => v
      case None => default
    }
  }

  /** `Failure` stands for an exception the source throws. */
  datatype Result<+T, +E> = Success(value: T) | Failure(error: E)
}
