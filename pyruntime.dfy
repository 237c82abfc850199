/**
 * The few pieces of the Python runtime that the template's logging and
 * exception code relies on, stated as values: an optional value, a raised
 * exception, what `sys.exc_info()` reports, how a call ends, and `pathlib`
 * paths.
 */
module PyRuntime {

  datatype Option<+T> = None | Some(value: T)

  /** An exception object: its class name and the message it was built with. */
  datatype PyException = PyException(className: string, message: string)

  /**
   * What `sys.exc_info()` returns: the exception currently being handled, or
   * `(None, None, None)` when no `except` block is active. Tracebacks are not
   * represented.
   */
  datatype ExcInfo = NoActiveException | Active(exc: PyException)

  /** How a call that may raise ends: it returns normally, or an exception leaves it. */
  datatype Outcome = Completed | Raised(exc: PyException)

  /** A call that returns a value unless an exception leaves it. */
  datatype Result<+T> = Ok(value: T) | Failed(exc: PyException)

  /**
   * A `pathlib.Path`: the repository root, a path built from another by the
   * `/` operator, or any other path a caller passes in (a temporary
   * directory, say), named by its text. The root itself depends on how the
   * program was started (frozen executable or source checkout), so it is
   * left symbolic.
   */
  datatype Path = Root | Join(parent: Path, part: string) | Elsewhere(text: string)

  /** `ROOT / "log" / "app.log"`, the default log file of the template. */
  const DEFAULT_LOG_FILE: Path := Join(Join(Root, "log"), "app.log")
}
