/**
 * `configure_logger`: gives a logger one console handler and one rotating
 * file handler, each with its own level and format, and sets whether the
 * logger propagates to its ancestors.
 */
module Log {
  import opened PyRuntime
  import opened Logging

  /** The rotating file handler of `configure_logger` rolls over at 100 MiB and keeps ten backups. */
  const ROTATING_MAX_BYTES: nat := 100 * 1024 * 1024
  const ROTATING_BACKUP_COUNT: nat := 10

  /** `_get_basic_format`: timestamp, level name padded to eight, logger name, message. */
  function GetBasicFormat(): (f: string)
    ensures |f| == 51
    ensures f[..11] == "%(asctime)s" && f[|f| - 11..] == "%(message)s"
    ensures "[%(levelname)-8s]" <= f[12..]
  {
    var time, level, rest := "%(asctime)s", " [%(levelname)-8s]", " %(name)s: %(message)s";
    assert (time + level + rest)[12..] == level[1..] + rest;
    time + level + rest
  }

  /** `_get_configured_handler`: sets level and formatter in place and hands back the same handler. */
  method GetConfiguredHandler(handler: Handler, level: nat, formatter: string) returns (r: Handler)
    modifies handler
    ensures r == handler
    ensures handler.level == level && handler.formatter == Some(formatter)
  {
    handler.SetLevel(level);
    handler.SetFormatter(formatter);
    r := handler;
  }

  /**
   * `configure_logger`: `propagate` is set as asked (by default to False, so
   * the logger stops passing records to its ancestors)
   * and exactly two new handlers follow the ones already attached: first a
   * console handler, then a rotating file handler.
   */
  method ConfigureLogger(
    logger: StdLogger,
    chLevel: nat := WARNING,
    chFormatter: string := GetBasicFormat(),
    fhLevel: nat := WARNING,
    fhFormatter: string := GetBasicFormat(),
    fhFilePath: Path := DEFAULT_LOG_FILE,
    propagate: bool := false
  ) returns (r: StdLogger)
    modifies logger
    ensures r == logger
    ensures logger.propagate == propagate
    ensures |logger.handlers| == |old(logger.handlers)| + 2
    ensures logger.handlers[..|old(logger.handlers)|] == old(logger.handlers)
    ensures var ch := logger.handlers[|old(logger.handlers)|];
      && fresh(ch) && ch.kind == Stream
      && ch.level == chLevel && ch.formatter == Some(chFormatter)
    ensures var fh := logger.handlers[|old(logger.handlers)| + 1];
      && fresh(fh) && fh.kind == RotatingFile(fhFilePath, "a", ROTATING_MAX_BYTES, ROTATING_BACKUP_COUNT)
      && fh.level == fhLevel && fh.formatter == Some(fhFormatter)
  {
    logger.propagate := propagate;

    var stream := new Handler(Stream);
    var ch := GetConfiguredHandler(stream, chLevel, chFormatter);
    logger.AddHandler(ch);

    var rotatingFh := new Handler(RotatingFile(fhFilePath, "a", ROTATING_MAX_BYTES, ROTATING_BACKUP_COUNT));
    var fh := GetConfiguredHandler(rotatingFh, fhLevel, fhFormatter);
    logger.AddHandler(fh);

    r := logger;
  }
}
