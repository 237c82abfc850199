# Logging and exception roundup of a Python project template

This project models, in Dafny, the small stateful core of a Python command-line
template: its exception ledger with the end-of-program roundup, its two
internal logger wrappers, its logger configurator and its record of
command-line flags. Python's `logging` library is abstracted: a handler is an
object with a kind, a level and a formatter (represented by its format string),
and a library logger is an object with a name, a `propagate` flag and a list
of handlers. `Logger.addHandler` is modelled as the library defines it: a
handler already attached is not attached twice.

Files and modules:

- `pyruntime.dfy` (`PyRuntime`): optional values, exceptions, what
  `sys.exc_info()` reports, how a call ends (`Outcome`, `Result`), and `pathlib`
  paths (below a symbolic repository root, or given by the caller).
- `logging.dfy` (`Logging`): the level constants (DEBUG=10 … CRITICAL=50), log
  records, and the `Handler` and `StdLogger` classes.
- `pretty_print.dfy` (`PrettyPrint`): the 40-character `=` separator
  (src/vars/pretty_print.py).
- `exception_handling.dfy` (`ExceptionHandling`): the ledger `EXC` and the
  module's logger as one `ExceptionLedger` object; the framed text of
  `log_exc`, its inverse, and the records `program_end` emits
  (src/utils/exception_handling.py).
- `log.dfy` (`Log`): `_get_basic_format`, `_get_configured_handler`,
  `configure_logger` (src/log/log.py).
- `intl_logger.dfy` (`IntlLogging`): `IntlLogger` with its class-level registry
  of names and its shared rotating file handler, the "root"-only verbosity
  rule, and lemmas about any series of constructions
  (src/utils/intl_logger.py).
- `logger.dfy` (`LegacyLogger`): the older `Logger` wrapper, whose verbosity
  rule ignores the name and has no default branch (src/utils/logger.py).
- `cli_input_args.dfy` (`CliInputArgs`): the five flags and their setter
  (src/utils/cli_input_args.py).
- `scenarios.dfy` (`Scenarios`): client methods with assertions only, set up
  like the unit tests (a duplicate `IntlLogger` name, two instances sharing the
  rotating handler, a roundup after three captures, two old-style loggers of one
  name, resetting the flags). They use nothing but the contracts above.

Module-level and class-level globals (`EXC`, `logger_names`,
`rotating_file_handler`, the `CLI` flags) are fields of explicitly constructed
objects. The verbose and quiet flags that both verbosity rules read are
parameters: `intl_logger.py` and `logger.py` import `CliInputArgs` and read
`verbose` and `quiet`, but `cli_input_args.py` defines a class `CLI` with the
fields `v`, `V`, `q`, `Q` and `hello`, and no mapping between the two exists in
the code. Likewise `logging.getLogger(name)` and `sys.exc_info()` are
parameters: a library logger named as `logging.getLogger` names it (the
requested name, or "root" for the empty name), and an `ExcInfo` value.

## Model

| member | source | states |
|---|---|---|
| PrettyPrint.SeparatorShape | src/vars/pretty_print.py:5 | the separator is exactly forty `=` characters and holds no line break |
| ExceptionHandling.FramedMessage | src/utils/exception_handling.py:34-40 | the `log_exc` text is the message between two separator lines above and two below; it is 165 characters longer than the message |
| ExceptionHandling.FramedMessageLayout | src/utils/exception_handling.py:34-40 | the `log_exc` text is a line break, two separator lines, the message, two separator lines; its length is the message's plus 165 |
| ExceptionHandling.Unframe | src/utils/exception_handling.py:35-40 | reading the message back out of a framed text; a result is always 165 characters shorter than the text |
| ExceptionHandling.UnframeFramed | src/utils/exception_handling.py:35-40 | framing is lossless: the message is read back from its framed text, and a text that unframes to a message is that message's framed text |
| ExceptionHandling.ExcRecord | src/utils/exception_handling.py:34-42 | `logger.exception` logs at ERROR and passes the entry's exc_info |
| ExceptionHandling.Replay | src/utils/exception_handling.py:82-83 | the replay loop yields exactly one record per ledger entry, the i-th record being the i-th entry's framed record |
| ExceptionHandling.ReplaySnoc | src/utils/exception_handling.py:82-83 | replaying one more entry appends exactly its record at the end |
| ExceptionHandling.ProgramEndRecords | src/utils/exception_handling.py:72-83 | one record for an empty ledger, otherwise two more than there are entries; first the WARNING banner, then the WARNING roundup header when the ledger is not empty |
| ExceptionHandling.ProgramEndWithoutExceptions | src/utils/exception_handling.py:75-79 | with an empty ledger exactly one WARNING record is emitted and its text ends with "Program ends.." |
| ExceptionHandling.RoundupHoldsEveryCapture | src/utils/exception_handling.py:80-83 | the i-th entry is replayed at position i+2 at ERROR, with its exc_info, and its message can be read back from the record |
| ExceptionHandling.ExceptionLedger.constructor | src/utils/exception_handling.py:13-17 | importing the module: an empty ledger, nothing emitted, the module logger configured by `configure_logger` with its defaults: no propagation, the old handlers kept, then a fresh console handler and a fresh rotating handler on ROOT/log/app.log (mode "a", 100 MiB, 10 backups), both at WARNING with the basic format |
| ExceptionHandling.ExceptionLedger.ClearCatchedExceptions | src/utils/exception_handling.py:21-25 | the ledger is empty afterwards whatever it held; nothing is logged |
| ExceptionHandling.ExceptionLedger.LogExc | src/utils/exception_handling.py:27-42 | exactly one framed ERROR record is emitted; the ledger is unchanged |
| ExceptionHandling.ExceptionLedger.ProcessExc | src/utils/exception_handling.py:44-53 | exactly one entry (message, exc_info) is appended after the earlier ones and exactly one ERROR record is emitted; the message defaults to "EXCEPTION occured" |
| ExceptionHandling.ExceptionLedger.RaiseException | src/utils/exception_handling.py:55-70 | always ends with `Exception(msg)` raised; the ledger grows by one entry "EXCEPTION raised: " + msg carrying that exception |
| ExceptionHandling.ExceptionLedger.ProgramEnd | src/utils/exception_handling.py:72-84 | the ledger is not changed; the records emitted are exactly the banner, and for a non-empty ledger the header and every entry in ledger order |
| ExceptionHandling.ExceptionLedger.ReplayLedger | src/utils/exception_handling.py:82-83 | the loop of `program_end`: emits the replay of the whole ledger, in ledger order, and keeps the ledger |
| Log.GetBasicFormat | src/log/log.py:11-17 | the basic format is 51 characters, starts with the timestamp field, ends with the message field, and pads the bracketed level name to eight |
| Log.GetConfiguredHandler | src/log/log.py:20-28 | returns the very handler it was given, now with the given level and formatter |
| Log.ConfigureLogger | src/log/log.py:32-71 | returns the logger it was given; `propagate` becomes the argument (default False); exactly two new handlers follow the old ones: a console handler with the console level and format, then a rotating handler on the given path with mode "a", 100 MiB and 10 backups; defaults WARNING, the basic format and ROOT/log/app.log |
| LegacyLogger.DefaultFormatsCompared | src/log/log.py:17 | the basic format equals `IntlLogger`'s default format and differs from the older wrapper's default |
| IntlLogging.Verbosity | src/utils/intl_logger.py:86-106 | DEBUG exactly for "root" with verbose; ERROR exactly for "root" with quiet and not verbose; WARNING exactly otherwise |
| IntlLogging.DuplicateNameMessage | src/utils/intl_logger.py:57-61 | the refusal message quotes the name as "'<name>' has already been instantiated and configured" and says "instances must have unique names" and "Access the existing logger of" |
| IntlLogging.Registered | src/utils/intl_logger.py:56-77 | one construction attempt adds at most the attempted name, at the end, keeps every earlier name in place, and never creates a duplicate |
| IntlLogging.RegisteredAll | src/utils/intl_logger.py:56-77 | a series of construction attempts adds at most one name per attempt |
| IntlLogging.RegisteredAllUnique | src/utils/intl_logger.py:56-77 | after any series of construction attempts the registry holds no name twice |
| IntlLogging.RegisteredAllExtends | src/utils/intl_logger.py:77 | the registry only grows at its end over any series of attempts |
| IntlLogging.RegisteredAllMembers | src/utils/intl_logger.py:56-77 | after a series of attempts the registry holds exactly the earlier names and the attempted ones |
| IntlLogging.RepeatedNameIsRefused | src/utils/intl_logger.py:56-61 | a name attempted a second time is already registered at that point, so that attempt is refused |
| IntlLogging.IntlLoggerClass.constructor | src/utils/intl_logger.py:27-38 | no names registered; one fresh rotating handler on ROOT/log/app.log, mode "a", 100 MiB, 5 backups, shared by the class |
| IntlLogging.IntlLoggerClass.Instantiate | src/utils/intl_logger.py:41-79 | fails exactly when the name is taken, then through `raise_exception` (one ledger entry and one ERROR record) with the registry unchanged; otherwise a fresh instance of that name, logger and format, the name appended and the ledger untouched; the registry stays free of duplicates; any name is accepted, the library logger being the one `logging.getLogger` returns for it |
| IntlLogging.IntlLogger.constructor | src/utils/intl_logger.py:65-79 | `__init__`, reached once `__new__` has accepted the name, appends exactly that name to the registry, which stays free of duplicates, and keeps name, logger and format |
| IntlLogging.IntlLogger.ToString | src/utils/intl_logger.py:82-83 | "This is the internal IntlLogger: '" + name + "'.", with the name readable between the fixed parts |
| IntlLogging.ToStringTellsNamesApart | src/utils/intl_logger.py:82-83 | instances with different names have different descriptions |
| IntlLogging.IntlLogger.SetVerbosity | src/utils/intl_logger.py:86-106 | the handler's level becomes the verbosity rule's level; its formatter is kept |
| IntlLogging.IntlLogger.ConfigureAndAddHandler | src/utils/intl_logger.py:109-125 | `propagate` becomes False; the handler is attached after the existing ones (once) with the rule's level and this instance's format |
| IntlLogging.IntlLogger.AddStreamHandler | src/utils/intl_logger.py:128-131 | exactly one fresh console handler is appended, configured as above |
| IntlLogging.IntlLogger.AddFileHandler | src/utils/intl_logger.py:134-137 | the class's one shared rotating handler, on the class's log file, is attached (once) and reconfigured with this instance's level and format |
| LegacyLogger.Verbosity | src/utils/logger.py:25-32 | verbose gives DEBUG; quiet without verbose gives ERROR; with neither flag the old level is kept |
| LegacyLogger.VerbosityRulesCompared | src/utils/logger.py:29-32 | on "root" both rules agree whenever a flag is set; with no flag a fresh handler stays at NOTSET here but gets WARNING from `IntlLogger`; for other names verbose gives DEBUG and quiet alone ERROR here, but WARNING there |
| Logging.GetLoggerName | src/utils/logger.py:17 | `logging.getLogger` returns the root logger, named "root", for the empty name (the default of `Logger()`), and the logger of that name otherwise |
| LegacyLogger.Logger.constructor | src/utils/logger.py:11-20 | any name is accepted (no registry), including the default "", whose library logger is the root logger; the unused `verbose` and `quiet` fields start False |
| LegacyLogger.Logger.ToString | src/utils/logger.py:22-23 | "This is the internal logger: '" + name + "'.", with the name readable between the fixed parts |
| LegacyLogger.Logger.SetVerbosity | src/utils/logger.py:25-32 | the new level depends only on the flags and the old level, never on the name; the formatter is kept |
| LegacyLogger.Logger.ConfigureAndAddHandler | src/utils/logger.py:34-47 | the handler is attached after the existing ones (once) with the rule's level and this instance's format; `propagate` is untouched |
| LegacyLogger.Logger.AddStreamHandler | src/utils/logger.py:49-52 | exactly one fresh console handler appended; at NOTSET when no flag is set |
| LegacyLogger.Logger.AddFileHandler | src/utils/logger.py:54-61 | exactly one fresh file handler on the given path (default ROOT/log/app.log) in mode "w" appended |
| CliInputArgs.Cli.constructor | src/utils/cli_input_args.py:1-8 | all five flags start False |
| CliInputArgs.Cli.SetCliInputArgs | src/utils/cli_input_args.py:10-32 | every flag equals its argument, independent of the previous state (so a repeated call changes nothing and a call without arguments resets all flags); any combination is stored |

Points where the code behaves differently from what one might expect:

- src/log/log.py has no store of a default log level; the defaults of
  `configure_logger` are fixed (WARNING, the basic format, ROOT/log/app.log).
- The shared rotating handler of `IntlLogger` keeps 5 backups
  (src/utils/intl_logger.py:37), the one of `configure_logger` keeps 10
  (src/log/log.py:66).
- The docstring of the older `Logger.set_verbosity` says the level defaults to
  WARNING, but the code has no else branch: with neither flag the handler keeps
  its level, which for a new handler is NOTSET. The model follows the code
  (`LegacyLogger.VerbosityRulesCompared` states the difference).
- `add_file_handler` of `IntlLogger` attaches one class-wide handler object.
  Because the library attaches a handler only once per logger, a second call on
  the same logger appends nothing; it only reconfigures the shared handler,
  and every logger holding it sees the new level and format.

## Left out

- The log-level store (reading and rewriting `log_level: <NAME>`) and the forced
  rollover of rotating handlers: no such code is in the modelled source files.
- File and console output: rollover by size, the writing of records, the
  handlers' streams. Handlers are records of their configuration only.
- Inside the library: filtering records by level when they are emitted, the
  interpolation of `%(asctime)s` and the other fields, formatter objects
  (a formatter is its format string, so the default formatter objects that
  `configure_logger` shares between calls are not distinguished), tracebacks
  in `exc_info`, and the registry behind `logging.getLogger`.
- `IntlLogger.set_verbosity` on a `logging.Logger` argument: the code accepts one,
  and the only call that passes one is in main.py, which is not modelled; the
  model takes handlers, and library loggers carry no level.
- The root directory `ROOT` (src/vars/paths.py) depends on how the program was
  started; it stays symbolic.
- main.py (argument parsing with docopt and the wiring of the parts), the
  hello-world command and `log_exec_start_msg`.
- The test teardown that empties `IntlLogger.logger_names` again; it is not
  part of the source's operations.
