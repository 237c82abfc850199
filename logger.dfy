/**
 * `Logger`: the older internal logger wrapper. Unlike `IntlLogger` it keeps
 * no registry of names, never touches `propagate`, and its verbosity rule
 * ignores the logger's name and has no default branch. Its file handler is a
 * plain `FileHandler` that opens the file for writing.
 *
 * The verbose and quiet command-line flags are passed in by the caller.
 */
module LegacyLogger {
  import opened PyRuntime
  import opened Logging
  import IntlLogging
  import Log

  /** The format an instance uses unless given another: the level name is not padded. */
  const DEFAULT_FORMAT: string := "%(asctime)s [%(levelname)s] %(name)s: %(message)s"

  const STR_PREFIX: string := "This is the internal logger: '"
  const STR_SUFFIX: string := "'."

  /**
   * The level `set_verbosity` leaves a handler at: verbose gives DEBUG, else
   * quiet gives ERROR, and with neither flag the handler keeps the level it
   * had.
   */
  function Verbosity(cliVerbose: bool, cliQuiet: bool, current: nat): (level: nat)
    ensures cliVerbose ==> level == DEBUG
    ensures !cliVerbose && cliQuiet ==> level == ERROR
    ensures !cliVerbose && !cliQuiet ==> level == current
  {
    if cliVerbose then DEBUG else if cliQuiet then ERROR else current
  }

  /**
   * How the two verbosity rules compare: on "root" they agree whenever a flag
   * is set; with no flag a fresh handler stays at NOTSET here but gets WARNING
   * from `IntlLogger`; and any other name follows the flags here but not there.
   */
  lemma VerbosityRulesCompared(name: string, cliVerbose: bool, cliQuiet: bool, current: nat)
    ensures cliVerbose || cliQuiet ==>
      Verbosity(cliVerbose, cliQuiet, current) == IntlLogging.Verbosity("root", cliVerbose, cliQuiet)
    ensures Verbosity(false, false, NOTSET) == NOTSET != IntlLogging.Verbosity(name, false, false)
    ensures name != "root" && cliVerbose ==>
      Verbosity(cliVerbose, cliQuiet, current) == DEBUG != IntlLogging.Verbosity(name, cliVerbose, cliQuiet)
    ensures name != "root" && !cliVerbose && cliQuiet ==>
      Verbosity(cliVerbose, cliQuiet, current) == ERROR != IntlLogging.Verbosity(name, cliVerbose, cliQuiet)
  {
  }

  /**
   * `IntlLogger` and `configure_logger` default to the same basic format;
   * this older wrapper's default differs from it in the padding of the level name.
   */
  lemma DefaultFormatsCompared()
    ensures IntlLogging.DEFAULT_FORMAT == Log.GetBasicFormat()
    ensures DEFAULT_FORMAT != Log.GetBasicFormat()
    ensures |Log.GetBasicFormat()| == |DEFAULT_FORMAT| + 2
  {
  }

  class Logger {
    const name: string
    const logger: StdLogger
    /** Set by `__init__` and never read: the level comes from the command-line flags. */
    var verbose: bool
    var quiet: bool
    const format: string

    /** `__init__`: no registry, so any name, taken or not, is accepted. `logger` stands for `logging.getLogger(logger_name)`. */
    constructor (logger: StdLogger, loggerName: string := "", format: string := DEFAULT_FORMAT)
      requires logger.name == GetLoggerName(loggerName)
      ensures name == loggerName && this.logger == logger && this.format == format
      ensures !verbose && !quiet
    {
      name := loggerName;
      this.logger := logger;
      verbose := false;
      quiet := false;
      this.format := format;
    }

    /** `__str__`: the fixed text around the quoted name, from which the name can be read back. */
    function ToString(): (s: string)
      ensures |s| == |STR_PREFIX| + |name| + |STR_SUFFIX|
      ensures s[..|STR_PREFIX|] == STR_PREFIX && s[|s| - |STR_SUFFIX|..] == STR_SUFFIX
      ensures s[|STR_PREFIX|..|s| - |STR_SUFFIX|] == name
    {
      STR_PREFIX + name + STR_SUFFIX
    }

    /** `set_verbosity`: the new level depends on the flags and the old level only, never on the name. */
    method SetVerbosity(handler: Handler, cliVerbose: bool, cliQuiet: bool)
      modifies handler
      ensures handler.level == Verbosity(cliVerbose, cliQuiet, old(handler.level))
      ensures handler.formatter == old(handler.formatter)
    {
      if cliVerbose {
        handler.SetLevel(DEBUG);
      } else if cliQuiet {
        handler.SetLevel(ERROR);
      }
    }

    /**
     * `configure_and_add_handler`: the handler gets the verbosity level and
     * this instance's format and is attached after the handlers already there;
     * `propagate` is left as it was.
     */
    method ConfigureAndAddHandler(handler: Handler, cliVerbose: bool, cliQuiet: bool)
      modifies logger, handler
      ensures logger.propagate == old(logger.propagate)
      ensures logger.handlers == old(logger.handlers) + if handler in old(logger.handlers) then [] else [handler]
      ensures handler.level == Verbosity(cliVerbose, cliQuiet, old(handler.level))
      ensures handler.formatter == Some(format)
    {
      SetVerbosity(handler, cliVerbose, cliQuiet);
      handler.SetFormatter(format);
      logger.AddHandler(handler);
    }

    /** `add_stream_handler`: exactly one new console handler at the end, still at NOTSET when no flag is set. */
    method AddStreamHandler(cliVerbose: bool, cliQuiet: bool)
      modifies logger
      ensures logger.propagate == old(logger.propagate)
      ensures |logger.handlers| == |old(logger.handlers)| + 1
      ensures logger.handlers[..|old(logger.handlers)|] == old(logger.handlers)
      ensures var h := logger.handlers[|old(logger.handlers)|];
        && fresh(h) && h.kind == Stream
        && h.level == Verbosity(cliVerbose, cliQuiet, NOTSET) && h.formatter == Some(format)
    {
      var h := new Handler(Stream);
      ConfigureAndAddHandler(h, cliVerbose, cliQuiet);
    }

    /** `add_file_handler`: exactly one new handler at the end, writing `file` in mode "w". */
    method AddFileHandler(cliVerbose: bool, cliQuiet: bool, file: Path := DEFAULT_LOG_FILE)
      modifies logger
      ensures logger.propagate == old(logger.propagate)
      ensures |logger.handlers| == |old(logger.handlers)| + 1
      ensures logger.handlers[..|old(logger.handlers)|] == old(logger.handlers)
      ensures var h := logger.handlers[|old(logger.handlers)|];
        && fresh(h) && h.kind == File(file, "w")
        && h.level == Verbosity(cliVerbose, cliQuiet, NOTSET) && h.formatter == Some(format)
    {
      var h := new Handler(File(file, "w"));
      ConfigureAndAddHandler(h, cliVerbose, cliQuiet);
    }
  }
}
