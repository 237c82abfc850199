/**
 * The exception ledger: every exception routed through `process_exc` or
 * `raise_exception` is logged at once and kept, in order, so that
 * `program_end` can replay all of them after its closing banner.
 *
 * The module-level list `EXC` and the module-level logger become the state
 * of one `ExceptionLedger` object; the records handed to that logger are kept
 * in `emitted`, oldest first.
 */
module ExceptionHandling {
  import opened PyRuntime
  import opened Logging
  import opened PrettyPrint
  import Log

  /** One captured exception: the message it was reported with and what `sys.exc_info()` said. */
  datatype Entry = Entry(message: string, info: ExcInfo)

  /** The message `process_exc` reports when its caller gives none. */
  const DEFAULT_EXC_MESSAGE: string := "EXCEPTION occured"

  /** What `raise_exception` puts in front of its caller's message. */
  const RAISED_PREFIX: string := "EXCEPTION raised: "

  /** The closing banner `program_end` always logs. */
  const PROGRAM_END_BANNER: string := "\n" + SEPARATOR + "\n" + SEPARATOR + "\n\nProgram ends.."

  /** The header `program_end` logs before replaying a non-empty ledger. */
  const ROUNDUP_HEADER: string := "Roundup of catched exceptions (ordered by time):\n"

  // The two separator lines above and below a framed message.
  const FRAME_HEAD: string := "\n" + SEPARATOR + "\n" + SEPARATOR + "\n"
  const FRAME_TAIL: string := "\n" + SEPARATOR + "\n" + SEPARATOR

  /** The text `log_exc` logs: the message between the two separator lines above and the two below. */
  function FramedMessage(msg: string): (text: string)
    ensures |text| == |msg| + 165
    ensures text[..83] == FRAME_HEAD && text[83..|text| - 82] == msg && text[|text| - 82..] == FRAME_TAIL
  {
    "\n" + SEPARATOR + "\n" + SEPARATOR + "\n" + msg + "\n" + SEPARATOR + "\n" + SEPARATOR
  }

  /**
   * The layout of that text: a line break, two separator lines, the message,
   * and two more separator lines, each separator on a line of its own.
   */
  lemma FramedMessageLayout(msg: string)
    ensures var text := FramedMessage(msg);
      && |text| == |msg| + 165
      && text[0] == '\n' && text[1..41] == SEPARATOR && text[41] == '\n'
      && text[42..82] == SEPARATOR && text[82] == '\n'
      && text[83..83 + |msg|] == msg
      && text[|msg| + 83] == '\n' && text[|msg| + 84..|msg| + 124] == SEPARATOR
      && text[|msg| + 124] == '\n' && text[|msg| + 125..] == SEPARATOR
  {
    SeparatorShape();
  }

  /** Reads the message back out of a framed text; None if the text is not framed. */
  function Unframe(text: string): (msg: Option<string>)
    ensures msg.Some? ==> |msg.value| + 165 == |text|
  {
    SeparatorShape();
    if |text| >= 165 && text[..83] == FRAME_HEAD && text[|text| - 82..] == FRAME_TAIL
    then Some(text[83..|text| - 82])
    else None
  }

  /** Framing loses nothing: the message comes back out of the framed text, and only a framed text unframes. */
  lemma UnframeFramed(msg: string, text: string)
    ensures Unframe(FramedMessage(msg)) == Some(msg)
    ensures Unframe(text) == Some(msg) ==> FramedMessage(msg) == text
  {
    SeparatorShape();
    FramedMessageLayout(msg);
    var t := FramedMessage(msg);
    assert t == FRAME_HEAD + msg + FRAME_TAIL;
    assert t[..83] == FRAME_HEAD;
    assert t[|t| - 82..] == FRAME_TAIL;
    if Unframe(text) == Some(msg) {
      assert text == text[..83] + text[83..|text| - 82] + text[|text| - 82..];
    }
  }

  /** The record `log_exc` hands to the logger: `logger.exception` logs at ERROR, with the entry's exc_info. */
  function ExcRecord(e: Entry): (r: LogRecord)
    ensures r.level == ERROR && r.excInfo == Some(e.info)
  {
    LogRecord(ERROR, FramedMessage(e.message), Some(e.info))
  }

  /** The records the replay loop of `program_end` emits: one per entry, in ledger order. */
  function Replay(entries: seq<Entry>): (rs: seq<LogRecord>)
    ensures |rs| == |entries|
    ensures forall i :: 0 <= i < |entries| ==> rs[i] == ExcRecord(entries[i])
  {
    if entries == [] then [] else [ExcRecord(entries[0])] + Replay(entries[1..])
  }

  /** All records `program_end` emits for a given ledger. */
  function ProgramEndRecords(entries: seq<Entry>): (rs: seq<LogRecord>)
    ensures |rs| == if entries == [] then 1 else |entries| + 2
    ensures rs[0] == LogRecord(WARNING, PROGRAM_END_BANNER, None)
    ensures entries != [] ==> rs[1] == LogRecord(WARNING, ROUNDUP_HEADER, None)
  {
    [LogRecord(WARNING, PROGRAM_END_BANNER, None)]
    + if entries == [] then [] else [LogRecord(WARNING, ROUNDUP_HEADER, None)] + Replay(entries)
  }

  /** With nothing captured, `program_end` emits one warning, and its text ends with "Program ends..". */
  lemma ProgramEndWithoutExceptions()
    ensures |ProgramEndRecords([])| == 1
    ensures ProgramEndRecords([])[0].level == WARNING
    ensures var m := ProgramEndRecords([])[0].msg; |m| >= 14 && m[|m| - 14..] == "Program ends.."
  {
    SeparatorShape();
  }

  /**
   * With captures, every captured message can be read back from the roundup,
   * at the position of its capture, and each replayed record carries the
   * captured exc_info.
   */
  lemma RoundupHoldsEveryCapture(entries: seq<Entry>, i: nat)
    requires i < |entries|
    ensures var rs := ProgramEndRecords(entries);
      && rs[i + 2].level == ERROR
      && Unframe(rs[i + 2].msg) == Some(entries[i].message)
      && rs[i + 2].excInfo == Some(entries[i].info)
  {
    var rs := ProgramEndRecords(entries);
    assert rs == [LogRecord(WARNING, PROGRAM_END_BANNER, None), LogRecord(WARNING, ROUNDUP_HEADER, None)] + Replay(entries);
    assert rs[i + 2] == ExcRecord(entries[i]);
    UnframeFramed(entries[i].message, "");
  }

  lemma {:induction false} ReplaySnoc(entries: seq<Entry>, e: Entry)
    ensures Replay(entries + [e]) == Replay(entries) + [ExcRecord(e)]
  {
    var l, r := Replay(entries + [e]), Replay(entries) + [ExcRecord(e)];
    assert |l| == |r|;
    forall i | 0 <= i < |l| ensures l[i] == r[i] {
      assert (entries + [e])[i] == if i < |entries| then entries[i] else e;
    }
  }

  class ExceptionLedger {
    /** The module's logger, configured by `configure_logger` when the module is imported. */
    const logger: StdLogger
    /** `EXC`: the captured exceptions, oldest first. */
    var exc: seq<Entry>
    /** The records handed to `logger`, oldest first. */
    var emitted: seq<LogRecord>

    /**
     * Importing the module: an empty ledger, and `configure_logger` with its
     * defaults on the module's logger: it stops propagating and gains a new
     * console handler and then a new rotating handler on ROOT/log/app.log,
     * both at WARNING with the basic format.
     */
    constructor (logger: StdLogger)
      modifies logger
      ensures this.logger == logger && exc == [] && emitted == []
      ensures !logger.propagate
      ensures |logger.handlers| == |old(logger.handlers)| + 2
      ensures logger.handlers[..|old(logger.handlers)|] == old(logger.handlers)
      ensures var ch := logger.handlers[|old(logger.handlers)|];
        && fresh(ch) && ch.kind == Stream
        && ch.level == WARNING && ch.formatter == Some(Log.GetBasicFormat())
      ensures var fh := logger.handlers[|old(logger.handlers)| + 1];
        && fresh(fh) && fh.kind == RotatingFile(DEFAULT_LOG_FILE, "a", Log.ROTATING_MAX_BYTES, Log.ROTATING_BACKUP_COUNT)
        && fh.level == WARNING && fh.formatter == Some(Log.GetBasicFormat())
    {
      this.logger := logger;
      exc := [];
      emitted := [];
      new;
      var configured := Log.ConfigureLogger(logger);
    }

    /** `clear_catched_exceptions`: the ledger is empty afterwards, whatever it held. */
    method ClearCatchedExceptions()
      modifies this
      ensures exc == [] && emitted == old(emitted)
    {
      exc := [];
    }

    /** `log_exc`: logs one framed ERROR record and does not touch the ledger. */
    method LogExc(msg: string, info: ExcInfo)
      modifies this
      ensures emitted == old(emitted) + [ExcRecord(Entry(msg, info))]
      ensures exc == old(exc)
    {
      emitted := emitted + [ExcRecord(Entry(msg, info))];
    }

    /**
     * `process_exc`: appends exactly one entry at the end of the ledger and
     * logs it once. `info` stands for what `sys.exc_info()` reports at the call.
     */
    method ProcessExc(info: ExcInfo, msg: string := DEFAULT_EXC_MESSAGE)
      modifies this
      ensures exc == old(exc) + [Entry(msg, info)]
      ensures emitted == old(emitted) + [ExcRecord(Entry(msg, info))]
    {
      exc := exc + [Entry(msg, info)];
      LogExc(msg, info);
    }

    /**
     * `raise_exception`: raises `Exception(msg)`, captures it under the
     * message "EXCEPTION raised: " + msg, and lets it leave the call again.
     */
    method RaiseException(msg: string) returns (o: Outcome)
      modifies this
      ensures o == Raised(PyException("Exception", msg))
      ensures exc == old(exc) + [Entry(RAISED_PREFIX + msg, Active(PyException("Exception", msg)))]
      ensures emitted == old(emitted) + [ExcRecord(Entry(RAISED_PREFIX + msg, Active(PyException("Exception", msg))))]
    {
      var raised := PyException("Exception", msg);
      ProcessExc(Active(raised), RAISED_PREFIX + msg);
      o := Raised(raised);
    }

    /** `program_end`: the banner, then, if anything was captured, the header and every capture in order. */
    method ProgramEnd()
      modifies this
      ensures exc == old(exc)
      ensures emitted == old(emitted) + ProgramEndRecords(exc)
    {
      emitted := emitted + [LogRecord(WARNING, PROGRAM_END_BANNER, None)];
      if exc != [] {
        emitted := emitted + [LogRecord(WARNING, ROUNDUP_HEADER, None)];
        ReplayLedger();
      }
    }

    /** The loop of `program_end`: `log_exc` once per entry, oldest first. */
    method ReplayLedger()
      modifies this
      ensures exc == old(exc)
      ensures emitted == old(emitted) + Replay(exc)
    {
      var i := 0;
      while i < |exc|
        invariant 0 <= i <= |exc| && exc == old(exc)
        invariant emitted == old(emitted) + Replay(exc[..i])
      {
        ReplaySnoc(exc[..i], exc[i]);
        assert exc[..i + 1] == exc[..i] + [exc[i]];
        LogExc(exc[i].message, exc[i].info);
        i := i + 1;
      }
      assert exc[..i] == exc;
    }
  }
}
