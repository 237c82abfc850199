/**
 * `IntlLogger`: the internal logger wrapper. Each instance wraps the library
 * logger of its name; names are registered class-wide and a second instance
 * with a name already registered is refused through `raise_exception`.
 * Handlers get a level from the verbosity rule and the instance's format,
 * and every file handler added is one rotating handler shared by the class.
 *
 * The class-level attributes (`logger_names`, `log_file_path`,
 * `rotating_file_handler`) are the state of one `IntlLoggerClass` object.
 * The verbose and quiet command-line flags are passed in by the caller.
 */
module IntlLogging {
  import opened PyRuntime
  import opened Logging
  import opened ExceptionHandling

  /** The format an instance uses unless given another. */
  const DEFAULT_FORMAT: string := "%(asctime)s [%(levelname)-8s] %(name)s: %(message)s"

  /** The shared rotating handler rolls over at 100 MiB and keeps five backups. */
  const SHARED_MAX_BYTES: nat := 100 * 1024 * 1024
  const SHARED_BACKUP_COUNT: nat := 5

  const STR_PREFIX: string := "This is the internal IntlLogger: '"
  const STR_SUFFIX: string := "'."

  predicate NoDuplicates(names: seq<string>)
  {
    forall i, j :: 0 <= i < j < |names| ==> names[i] != names[j]
  }

  /** `sub` occurs somewhere in `s`. */
  predicate Contains(s: string, sub: string)
  {
    exists k :: 0 <= k <= |s| && sub <= s[k..]
  }

  lemma ContainsEnd(s: string, sub: string)
    ensures Contains(s + sub, sub)
  {
    assert sub <= (s + sub)[|s|..];
  }

  lemma ContainsGrow(s: string, sub: string, more: string)
    requires Contains(s, sub)
    ensures Contains(s + more, sub)
  {
    var k :| 0 <= k <= |s| && sub <= s[k..];
    assert sub <= (s + more)[k..];
  }

  /**
   * The level `set_verbosity` gives a handler: only the "root" logger listens
   * to the flags, verbose (DEBUG) before quiet (ERROR); everything else gets
   * WARNING.
   */
  function Verbosity(name: string, verbose: bool, quiet: bool): (level: nat)
    ensures level == DEBUG <==> name == "root" && verbose
    ensures level == ERROR <==> name == "root" && !verbose && quiet
    ensures level == WARNING <==> name != "root" || (!verbose && !quiet)
  {
    if name == "root" && verbose then DEBUG
    else if name == "root" && quiet then ERROR
    else WARNING
  }

  /** The message `__new__` raises with when a name is taken. */
  function DuplicateNameMessage(name: string): (msg: string)
    ensures Contains(msg, "'" + name + "' has already been instantiated and configured")
    ensures Contains(msg, "instances must have unique names")
    ensures Contains(msg, "Access the existing logger of")
  {
    var quoted := "'" + name + "' has already been instantiated and configured";
    var unique := "instances must have unique names";
    var access := "Access the existing logger of";
    var tail := " IntlLogger via `logging.getLogger(\"" + name + "\")`.";
    var s1 := "IntlLogger " + quoted;
    var s2 := s1 + " before. IntlLogger ";
    var s3 := s2 + unique;
    var s4 := s3 + ". ";
    var s5 := s4 + access;
    var msg := s5 + tail;
    ContainsEnd("IntlLogger ", quoted);
    ContainsGrow(s1, quoted, " before. IntlLogger "); ContainsGrow(s2, quoted, unique);
    ContainsGrow(s3, quoted, ". "); ContainsGrow(s4, quoted, access); ContainsGrow(s5, quoted, tail);
    ContainsEnd(s2, unique);
    ContainsGrow(s3, unique, ". "); ContainsGrow(s4, unique, access); ContainsGrow(s5, unique, tail);
    ContainsEnd(s4, access);
    ContainsGrow(s5, access, tail);
    msg
  }

  /**
   * The registry after one construction attempt: a new name is added at the
   * end, a taken name leaves it as it was. It never gains a duplicate.
   */
  function Registered(names: seq<string>, name: string): (r: seq<string>)
    ensures forall n :: n in r <==> n in names || n == name
    ensures |names| <= |r| <= |names| + 1 && r[..|names|] == names
    ensures NoDuplicates(names) ==> NoDuplicates(r)
  {
    if name in names then names else names + [name]
  }

  /** The registry after a series of construction attempts, in order. */
  function RegisteredAll(names: seq<string>, requests: seq<string>): (r: seq<string>)
    ensures |names| <= |r| <= |names| + |requests|
    decreases |requests|
  {
    if requests == [] then names else RegisteredAll(Registered(names, requests[0]), requests[1..])
  }

  /** However many instances are attempted, the registry never holds a name twice. */
  lemma {:induction false} RegisteredAllUnique(names: seq<string>, requests: seq<string>)
    requires NoDuplicates(names)
    ensures NoDuplicates(RegisteredAll(names, requests))
    decreases |requests|
  {
    if requests != [] {
      RegisteredAllUnique(Registered(names, requests[0]), requests[1..]);
    }
  }

  /** The registry only grows: what was registered before a series of attempts stays, in place. */
  lemma {:induction false} RegisteredAllExtends(names: seq<string>, requests: seq<string>)
    ensures |names| <= |RegisteredAll(names, requests)|
    ensures RegisteredAll(names, requests)[..|names|] == names
    decreases |requests|
  {
    if requests != [] {
      var next := Registered(names, requests[0]);
      RegisteredAllExtends(next, requests[1..]);
      var r := RegisteredAll(names, requests);
      assert r[..|names|] == r[..|next|][..|names|];
    }
  }

  /** When a name is attempted a second time, it is already registered, so that attempt is refused. */
  lemma RepeatedNameIsRefused(names: seq<string>, requests: seq<string>, i: nat, j: nat)
    requires i < j < |requests| && requests[i] == requests[j]
    ensures requests[j] in RegisteredAll(names, requests[..j])
  {
    RegisteredAllMembers(names, requests[..j]);
    assert requests[..j][i] == requests[j];
  }

  /** After a series of attempts, the registered names are the earlier ones and the attempted ones, nothing else. */
  lemma {:induction false} RegisteredAllMembers(names: seq<string>, requests: seq<string>)
    ensures forall n :: n in RegisteredAll(names, requests) <==> n in names || n in requests
    decreases |requests|
  {
    if requests != [] {
      RegisteredAllMembers(Registered(names, requests[0]), requests[1..]);
      assert requests == [requests[0]] + requests[1..];
    }
  }

  /** The class-level state of `IntlLogger`. */
  class IntlLoggerClass {
    /** `logger_names`: the names of the instances built so far, in order. */
    var loggerNames: seq<string>
    /** `log_file_path`: `ROOT / "log" / "app.log"`. */
    const logFilePath: Path
    /** `rotating_file_handler`: the one handler every `add_file_handler` attaches. */
    const rotatingFileHandler: Handler

    predicate Valid()
      reads this
    {
      NoDuplicates(loggerNames)
    }

    /** The shared handler writes to the class's log file in append mode. */
    predicate SharedHandlerWritesLogFile()
    {
      rotatingFileHandler.kind == RotatingFile(logFilePath, "a", SHARED_MAX_BYTES, SHARED_BACKUP_COUNT)
    }

    /** The class body: no names yet, and one rotating handler created for the whole class. */
    constructor ()
      ensures Valid() && SharedHandlerWritesLogFile()
      ensures loggerNames == [] && logFilePath == DEFAULT_LOG_FILE
      ensures fresh(rotatingFileHandler)
      ensures rotatingFileHandler.level == NOTSET && rotatingFileHandler.formatter == None
    {
      loggerNames := [];
      logFilePath := DEFAULT_LOG_FILE;
      rotatingFileHandler := new Handler(RotatingFile(DEFAULT_LOG_FILE, "a", SHARED_MAX_BYTES, SHARED_BACKUP_COUNT));
    }

    /**
     * `IntlLogger(logger_name, format)`: `__new__` refuses a taken name via
     * `raise_exception` (one more ledger entry, registry unchanged); otherwise
     * `__init__` registers the name at the end. `logger` stands for
     * `logging.getLogger(logger_name)`.
     */
    method Instantiate(
      ledger: ExceptionLedger,
      logger: StdLogger,
      loggerName: string := "root",
      format: string := DEFAULT_FORMAT
    ) returns (r: Result<IntlLogger>)
      requires Valid()
      requires logger.name == GetLoggerName(loggerName)
      modifies this, ledger
      ensures Valid()
      ensures loggerNames == Registered(old(loggerNames), loggerName)
      ensures r.Failed? <==> loggerName in old(loggerNames)
      ensures r.Failed? ==>
        var raised := PyException("Exception", DuplicateNameMessage(loggerName));
        var entry := Entry(RAISED_PREFIX + raised.message, Active(raised));
        && r.exc == raised
        && ledger.exc == old(ledger.exc) + [entry]
        && ledger.emitted == old(ledger.emitted) + [ExcRecord(entry)]
      ensures r.Ok? ==>
        && fresh(r.value)
        && r.value.cls == this && r.value.name == loggerName
        && r.value.logger == logger && r.value.format == format
        && ledger.exc == old(ledger.exc) && ledger.emitted == old(ledger.emitted)
    {
      if loggerName in loggerNames {
        var o := ledger.RaiseException(DuplicateNameMessage(loggerName));
        r := Failed(o.exc);
        return;
      }
      var instance := new IntlLogger(this, logger, loggerName, format);
      r := Ok(instance);
    }
  }

  class IntlLogger {
    const cls: IntlLoggerClass
    const name: string
    const logger: StdLogger
    const format: string

    /**
     * `__init__`: records the name in the class registry, at the end. Python
     * reaches it only after `__new__` has accepted the name, so the name is
     * not yet registered and the registry stays free of duplicates.
     */
    constructor (cls: IntlLoggerClass, logger: StdLogger, loggerName: string := "root", format: string := DEFAULT_FORMAT)
      requires cls.Valid() && loggerName !in cls.loggerNames
      requires logger.name == GetLoggerName(loggerName)
      modifies cls
      ensures this.cls == cls && name == loggerName && this.logger == logger && this.format == format
      ensures cls.loggerNames == old(cls.loggerNames) + [loggerName]
      ensures cls.Valid()
    {
      this.cls := cls;
      name := loggerName;
      this.logger := logger;
      this.format := format;
      new;
      cls.loggerNames := cls.loggerNames + [loggerName];
    }

    /** `__str__`: the fixed text around the quoted name, from which the name can be read back. */
    function ToString(): (s: string)
      ensures |s| == |STR_PREFIX| + |name| + |STR_SUFFIX|
      ensures s[..|STR_PREFIX|] == STR_PREFIX && s[|s| - |STR_SUFFIX|..] == STR_SUFFIX
      ensures s[|STR_PREFIX|..|s| - |STR_SUFFIX|] == name
    {
      STR_PREFIX + name + STR_SUFFIX
    }

    /** `set_verbosity`: the handler's level becomes the one the verbosity rule gives; its formatter is kept. */
    method SetVerbosity(manager: Handler, verbose: bool, quiet: bool)
      modifies manager
      ensures manager.level == Verbosity(name, verbose, quiet)
      ensures manager.formatter == old(manager.formatter)
    {
      if name == "root" {
        if verbose {
          manager.SetLevel(DEBUG);
          return;
        } else if quiet {
          manager.SetLevel(ERROR);
          return;
        }
      }
      manager.SetLevel(WARNING);
    }

    /**
     * `_configure_and_add_handler`: the logger stops propagating, the handler
     * gets the verbosity level and this instance's format and is attached
     * after the handlers already there (the library attaches a handler once).
     */
    method ConfigureAndAddHandler(handler: Handler, verbose: bool, quiet: bool)
      modifies logger, handler
      ensures !logger.propagate
      ensures logger.handlers == old(logger.handlers) + if handler in old(logger.handlers) then [] else [handler]
      ensures handler.level == Verbosity(name, verbose, quiet)
      ensures handler.formatter == Some(format)
    {
      logger.propagate := false;
      SetVerbosity(handler, verbose, quiet);
      handler.SetFormatter(format);
      logger.AddHandler(handler);
    }

    /** `add_stream_handler`: exactly one new console handler, configured, at the end. */
    method AddStreamHandler(verbose: bool, quiet: bool)
      modifies logger
      ensures !logger.propagate
      ensures |logger.handlers| == |old(logger.handlers)| + 1
      ensures logger.handlers[..|old(logger.handlers)|] == old(logger.handlers)
      ensures var h := logger.handlers[|old(logger.handlers)|];
        && fresh(h) && h.kind == Stream
        && h.level == Verbosity(name, verbose, quiet) && h.formatter == Some(format)
    {
      var h := new Handler(Stream);
      ConfigureAndAddHandler(h, verbose, quiet);
    }

    /**
     * `add_file_handler`: attaches the class's shared rotating handler,
     * which writes to the class's log file, reconfigured with this
     * instance's level and format.
     */
    method AddFileHandler(verbose: bool, quiet: bool)
      requires cls.SharedHandlerWritesLogFile()
      modifies logger, cls.rotatingFileHandler
      ensures !logger.propagate
      ensures var shared := cls.rotatingFileHandler;
        && logger.handlers == old(logger.handlers) + (if shared in old(logger.handlers) then [] else [shared])
        && shared.kind == RotatingFile(cls.logFilePath, "a", SHARED_MAX_BYTES, SHARED_BACKUP_COUNT)
        && shared.level == Verbosity(name, verbose, quiet) && shared.formatter == Some(format)
    {
      ConfigureAndAddHandler(cls.rotatingFileHandler, verbose, quiet);
    }
  }

  /** Two instances of different names describe themselves differently. */
  lemma ToStringTellsNamesApart(a: IntlLogger, b: IntlLogger)
    requires a.name != b.name
    ensures a.ToString() != b.ToString()
  {
  }
}
