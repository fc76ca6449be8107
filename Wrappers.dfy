/** Result wrappers shared by the other modules: Option for Java's
    nullable references and Optional values, Outcome for a void method that
    either returns normally or throws. */
module Wrappers {

  /** A Java reference that may be null, or a java.util.Optional. */
  datatype Option<+T> = None | Some(value: T) {

    /** The wrapped value, or `default` when absent (Map.getOrDefault, Optional.orElse). */
    function GetOr(default: T): T {
      match this
      case Some(v) => v
      case None => default
    }
  }

  /** A void method that returns normally (Pass) or throws `error` (Fail). */
  datatype Outcome<+E> = Pass | Fail(error: E)
}
