/** The optional value the C# code expresses with `null`. */
module Wrappers {

  datatype Option<+T> = None | Some(value: T) {

    /** The value, or `default` when there is none (C#'s `??`). */
    function GetOr(default: T): T {
      match this
      case Some(v) => v
      case None => default
    }
  }

  /** One collaborator call's outcome: a value, or an exception and its message. */
  datatype Reply<T> = Returns(value: T) | Throws(message: string)
}
