/**
 * Client code that uses only the contracts of the model, in the shape of the
 * situations the repository's unit tests set up.
 */
module Scenarios {
  import opened PyRuntime
  import opened Logging
  import opened ExceptionHandling
  import opened IntlLogging
  import LegacyLogger
  import CliInputArgs

  /** A second `IntlLogger` named like the first is refused and leaves one ledger entry behind. */
  method DuplicateIntlLoggerName() {
    var cls := new IntlLoggerClass();
    var excLogger := new StdLogger("src.utils.exception_handling");
    var ledger := new ExceptionLedger(excLogger);
    var lib := new StdLogger("test-logger");

    var first := cls.Instantiate(ledger, lib, "test-logger");
    assert first.Ok? && cls.loggerNames == ["test-logger"];
    var second := cls.Instantiate(ledger, lib, "test-logger");
    assert second.Failed? && cls.loggerNames == ["test-logger"];
    assert |ledger.exc| == 1 && |ledger.emitted| == 1 && ledger.emitted[0].level == ERROR;
    assert Contains(second.exc.message, "instances must have unique names");
  }

  /** Two `IntlLogger`s that add a file handler share one handler object, configured by the later call. */
  method SharedRotatingFileHandler() {
    var cls := new IntlLoggerClass();
    var excLogger := new StdLogger("src.utils.exception_handling");
    var ledger := new ExceptionLedger(excLogger);
    var libA := new StdLogger("a");
    var libB := new StdLogger("b");
    var rA := cls.Instantiate(ledger, libA, "a", "%(message)s");
    assert rA.Ok?;
    var a := rA.value;
    var rB := cls.Instantiate(ledger, libB, "b", "%(name)s");
    assert rB.Ok?;
    var b := rB.value;
    assert a.logger.handlers == [] && b.logger.handlers == [];

    a.AddFileHandler(false, false);
    b.AddFileHandler(false, false);
    assert a.logger.handlers == [cls.rotatingFileHandler] == b.logger.handlers;
    assert cls.rotatingFileHandler.formatter == Some("%(name)s");
    assert cls.rotatingFileHandler.level == WARNING;
  }

  /** `program_end` after three captures: banner, header, then the three captures in order. */
  method RoundupInCaptureOrder(m1: string, m3: string, e: PyException) {
    var excLogger := new StdLogger("src.utils.exception_handling");
    var ledger := new ExceptionLedger(excLogger);
    ledger.ProcessExc(Active(e), m1);
    ledger.ProcessExc(NoActiveException);
    var o := ledger.RaiseException(m3);
    assert ledger.exc == [Entry(m1, Active(e)), Entry(DEFAULT_EXC_MESSAGE, NoActiveException),
                          Entry(RAISED_PREFIX + m3, Active(PyException("Exception", m3)))];
    var before := ledger.emitted;
    ledger.ProgramEnd();
    assert ledger.emitted[|before|..] == ProgramEndRecords(ledger.exc);
    RoundupHoldsEveryCapture(ledger.exc, 0);
    RoundupHoldsEveryCapture(ledger.exc, 2);
    assert Unframe(ledger.emitted[|before| + 2].msg) == Some(m1);
    assert Unframe(ledger.emitted[|before| + 4].msg) == Some(RAISED_PREFIX + m3);

    ledger.ClearCatchedExceptions();
    assert ledger.exc == [];
  }

  /** Without a registry, two older `Logger`s may share a name. */
  method LegacyLoggersMayShareAName() {
    var lib := new StdLogger("x");
    var first := new LegacyLogger.Logger(lib, "x");
    var second := new LegacyLogger.Logger(lib, "x");
    assert first.name == second.name && first != second;
  }

  /** `Logger()` asks for the logger named "", which is the root logger that `IntlLogger()` wraps too. */
  method DefaultLoggersShareTheRootLogger() {
    var cls := new IntlLoggerClass();
    var excLogger := new StdLogger("src.utils.exception_handling");
    var ledger := new ExceptionLedger(excLogger);
    var root := new StdLogger("root");
    var r := cls.Instantiate(ledger, root);
    assert r.Ok?;
    var legacy := new LegacyLogger.Logger(root);
    assert r.value.logger == legacy.logger && r.value.name == "root" && legacy.name == "";
  }

  /** Setting the flags twice gives the same state as once, and a call without arguments resets them. */
  method CliFlagsReset() {
    var cli := new CliInputArgs.Cli();
    cli.SetCliInputArgs(v := true, q := true);
    assert cli.v && cli.q && !cli.V;
    cli.SetCliInputArgs(v := true, q := true);
    assert cli.v && cli.q && !cli.V && !cli.Q && !cli.hello;
    cli.SetCliInputArgs();
    assert !cli.v && !cli.V && !cli.q && !cli.Q && !cli.hello;
  }
}
