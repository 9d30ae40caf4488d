/** Types shared by the modelled core: the framework's error codes and Java's `null`. */
module Framework {
  /** The error codes of FrameworkErrorCode that the modelled core raises. */
  datatype ErrorCode =
    | ArgumentError     // a caller passed an invalid argument, e.g. a negative column index
    | PluginInitError   // plugin discovery failed: a duplicate plugin or a wanted plugin not found

  /** How a void operation that may throw ends: normally, or with a framework error. */
  datatype Outcome = Done | Fail(code: ErrorCode)

  /** A value that Java may leave `null`. */
  datatype Option<T> = None | Some(value: T)
}
