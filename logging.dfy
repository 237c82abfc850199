/**
 * The part of Python's `logging` and `logging.handlers` that the template
 * configures: numeric levels, handlers with a level and a formatter, and
 * loggers with a `propagate` flag and a list of handlers. Formatting,
 * filtering at emit time and the actual writing to streams and files belong
 * to the library and are not represented; a formatter is represented by its
 * format string.
 */
module Logging {
  import opened PyRuntime

  // Python's standard level constants.
  const NOTSET: nat := 0
  const DEBUG: nat := 10
  const INFO: nat := 20
  const WARNING: nat := 30
  const ERROR: nat := 40
  const CRITICAL: nat := 50

  /** The constructor a handler was made with, and the arguments it was given. */
  datatype HandlerKind =
    | Stream
    | File(path: Path, mode: string)
    | RotatingFile(path: Path, mode: string, maxBytes: nat, backupCount: nat)

  /** A record handed to a logger: its level, its message and the `exc_info` passed with it, if any. */
  datatype LogRecord = LogRecord(level: nat, msg: string, excInfo: Option<ExcInfo>)

  /** A `logging.Handler`: reconfigured in place by `setLevel` and `setFormatter`. */
  class Handler {
    const kind: HandlerKind
    var level: nat
    var formatter: Option<string>

    /** A new handler starts at level NOTSET and without a formatter. */
    constructor (kind: HandlerKind)
      ensures this.kind == kind && level == NOTSET && formatter == None
    {
      this.kind := kind;
      level := NOTSET;
      formatter := None;
    }

    method SetLevel(level: nat)
      modifies this
      ensures this.level == level && formatter == old(formatter)
    {
      this.level := level;
    }

    method SetFormatter(format: string)
      modifies this
      ensures formatter == Some(format) && level == old(level)
    {
      formatter := Some(format);
    }
  }

  /**
   * The name of the logger `logging.getLogger(name)` returns: the empty name
   * asks for the root logger, which is called "root"; any other name is kept.
   */
  function GetLoggerName(requested: string): (name: string)
    ensures name != ""
    ensures name == "root" <==> requested == "" || requested == "root"
    ensures requested != "" ==> name == requested
  {
    if requested == "" then "root" else requested
  }

  /** A `logging.Logger`, as returned by `logging.getLogger(name)`. */
  class StdLogger {
    const name: string
    var propagate: bool
    var handlers: seq<Handler>

    /** A logger the library has just created: it propagates and has no handlers. */
    constructor (name: string)
      ensures this.name == name && propagate && handlers == []
    {
      this.name := name;
      propagate := true;
      handlers := [];
    }

    /** `Logger.addHandler` appends a handler only if it is not attached already. */
    method AddHandler(h: Handler)
      modifies this
      ensures handlers == if h in old(handlers) then old(handlers) else old(handlers) + [h]
      ensures propagate == old(propagate)
    {
      if h !in handlers {
        handlers := handlers + [h];
      }
    }
  }
}
