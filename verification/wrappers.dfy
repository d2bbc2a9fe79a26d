/** Presence-carrying and failure-carrying wrappers shared by every module.

    `Option` stands for the nil-able `*T` fields the service uses for optional
    values (nil is `None`), `Result` for a value-or-error return and
    `Outcome` for an error-only return (Go's bare `error`).
 */
module Wrappers {

  datatype Option<+T> = None | Some(value: T) {

    /** The wrapped value, or `default` when absent. */
    function GetOr(default: T): T {
      match this
      case Some(v) => v
      case None => default
    }
  }

  datatype Result<+R, +E> = Ok(value: R) | Err(error: E)

  datatype Outcome<+E> = Pass | Fail(error: E)
}
