/** The plugin's error kinds and its result type. */
module Errors {

  /**
   * The variants of `NetworkError`, plus two that the rest of the code relies on:
   * `NotInitialized` (returned by every state wrapper when no manager is held) and
   * `Dbus`, a failure reported by the bus library and passed through unchanged.
   */
  datatype NetworkError =
    | Io(message: string)
    | InitializationError
    | OperationError(message: string)
    | NoConnection
    | ConnectionFailed(message: string)
    | LockError
    | TaskError
    | PermissionDenied
    | NotInitialized
    | Dbus(message: string)

  datatype Result<+T> = Ok(value: T) | Err(error: NetworkError)
}
