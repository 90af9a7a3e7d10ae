/** Optional values and success/failure results shared by the other modules.

    `Option` stands for a C pointer that may be NULL (a keymap's parent, a
    settings string that was never assigned); `Result` stands for the 0/1
    return code of the plugin's entry point together with what it built.
 */
module Results {

  /** A value that may be absent, as a nullable pointer is in C. */
  datatype Option<+T> = None | Some(value: T)

  /** The outcome of an operation that either builds a value or reports an error. */
  datatype Result<+R, +E> = Success(value: R) | Failure(error: E)
}
