/** The process-wide logger: a fixed table of level ranks, a threshold chosen
    once from the configured level, a filter that decides whether a message is
    written, and the choice of console stream.  Console output is modelled as
    the event the logger would emit; the clock reading that stamps each line
    is a parameter. */
module Logger {
  import opened Common

  /** The console method a line is written with. */
  datatype Stream = ConsoleError | ConsoleWarn | ConsoleLog

  /** Fields of the JSON object written outside development mode. */
  datatype LogRecord = LogRecord(timestamp: string, level: string, message: string, meta: Option<map<string, string>>)

  /** A formatted line: the JSON document's fields, or the human-readable text
      used in development. */
  datatype Formatted = JsonLine(record: LogRecord) | DevLine(text: string)

  datatype Emission = Emission(stream: Stream, line: Formatted)

  /** A constructed logger: its threshold rank and whether the configuration
      said "development". */
  datatype LoggerState = LoggerState(currentLevel: int, isDevelopment: bool)

  /** The `levels` table: error 0, warn 1, info 2, debug 3; any other name has
      no rank. */
  function Rank(level: string): (r: Option<int>)
    ensures r.Some? <==> level in {"error", "warn", "info", "debug"}
    ensures level == "error" ==> r == Some(0)
    ensures level == "warn" ==> r == Some(1)
    ensures level == "info" ==> r == Some(2)
    ensures level == "debug" ==> r == Some(3)
  {
    if level == "error" then Some(0)
    else if level == "warn" then Some(1)
    else if level == "info" then Some(2)
    else if level == "debug" then Some(3)
    else None
  }

  const InfoRank: int := 2

  /** `levels[configured] || levels.info` as written: a missing rank and the
      falsy rank 0 of "error" both fall back to info. */
  function CurrentLevel(configured: string): (r: int)
    ensures configured in {"warn", "info", "debug"} ==> Some(r) == Rank(configured)
    ensures configured !in {"warn", "info", "debug"} ==> r == InfoRank
    ensures 1 <= r <= 3
  {
    match Rank(configured)
    case Some(v) => if v != 0 then v else InfoRank
    case None => InfoRank
  }

  /** The threshold the table evidently means: the configured rank, info only
      when the name has no rank. */
  function IntendedCurrentLevel(configured: string): (r: int)
    ensures Rank(configured).Some? ==> Some(r) == Rank(configured)
    ensures Rank(configured).None? ==> r == InfoRank
  {
    match Rank(configured)
    case Some(v) => v
    case None => InfoRank
  }

  /** A configured "error" behaves as "info" in the code as written, so info
      messages still appear; the intended threshold would hide them. */
  lemma ErrorLevelBecomesInfo()
    ensures CurrentLevel("error") == InfoRank
    ensures IntendedCurrentLevel("error") == 0
    ensures Log(NewLogger("error", false), "info", "m", map[], "t", "{}").Some?
    ensures Log(LoggerState(IntendedCurrentLevel("error"), false), "info", "m", map[], "t", "{}").None?
  {
  }

  /** The two thresholds agree on every configured name except "error". */
  lemma CurrentLevelsAgreeExceptError(configured: string)
    requires configured != "error"
    ensures CurrentLevel(configured) == IntendedCurrentLevel(configured)
  {
  }

  /** The constructor: the threshold is fixed once from the configuration. */
  function NewLogger(configuredLevel: string, isDevelopment: bool): (l: LoggerState)
    ensures l.currentLevel == CurrentLevel(configuredLevel)
    ensures l.isDevelopment == isDevelopment
  {
    LoggerState(CurrentLevel(configuredLevel), isDevelopment)
  }

  /** `formatMessage`: the meta object is attached (JSON) or printed
      (development) only when it has at least one key.  `metaJson` is the
      pretty-printed JSON text of `meta`, which JSON.stringify would produce. */
  function FormatMessage(level: string, message: string, meta: map<string, string>, timestamp: string,
                         isDevelopment: bool, metaJson: string): (f: Formatted)
    ensures isDevelopment <==> f.DevLine?
    ensures f.JsonLine? ==> f.record.level == ToUpper(level) && f.record.message == message && f.record.timestamp == timestamp
    ensures f.JsonLine? ==> (f.record.meta.Some? <==> |meta| > 0)
    ensures f.JsonLine? && f.record.meta.Some? ==> f.record.meta.value == meta
    ensures f.DevLine? ==> f.text == "[" + timestamp + "] " + ToUpper(level) + ": " + message + " " + (if |meta| > 0 then metaJson else "")
  {
    if isDevelopment then
      DevLine("[" + timestamp + "] " + ToUpper(level) + ": " + message + " " + (if |meta| > 0 then metaJson else ""))
    else
      JsonLine(LogRecord(timestamp, ToUpper(level), message, if |meta| > 0 then Some(meta) else None))
  }

  /** `log`: a line is emitted iff the level has a rank not above the
      threshold; "error" goes to console.error, "warn" to console.warn and
      everything else to console.log. */
  function Log(logger: LoggerState, level: string, message: string, meta: map<string, string>,
               timestamp: string, metaJson: string): (e: Option<Emission>)
    ensures e.Some? <==> Rank(level).Some? && Rank(level).value <= logger.currentLevel
    ensures e.Some? ==> e.value.stream == (if level == "error" then ConsoleError else if level == "warn" then ConsoleWarn else ConsoleLog)
    ensures e.Some? ==> e.value.line == FormatMessage(level, message, meta, timestamp, logger.isDevelopment, metaJson)
  {
    match Rank(level)
    case None => None
    case Some(r) =>
      if r <= logger.currentLevel then
        var stream := if level == "error" then ConsoleError else if level == "warn" then ConsoleWarn else ConsoleLog;
        Some(Emission(stream, FormatMessage(level, message, meta, timestamp, logger.isDevelopment, metaJson)))
      else None
  }

  /** The filter is a threshold: whenever a level is written, every level of
      lower rank is written too. */
  lemma FilterIsThreshold(logger: LoggerState, a: string, b: string, message: string, meta: map<string, string>, ts: string, mj: string)
    requires Rank(a).Some? && Rank(b).Some? && Rank(a).value <= Rank(b).value
    requires Log(logger, b, message, meta, ts, mj).Some?
    ensures Log(logger, a, message, meta, ts, mj).Some?
  {
  }

  /** Whatever is configured, a logger built by the code as written never
      suppresses errors and warnings, and it writes debug lines only when
      the configuration says "debug". */
  lemma ConstructedLoggerWritesErrorsAndWarnings(configured: string, dev: bool, message: string, meta: map<string, string>, ts: string, mj: string)
    ensures Log(NewLogger(configured, dev), "error", message, meta, ts, mj).Some?
    ensures Log(NewLogger(configured, dev), "warn", message, meta, ts, mj).Some?
    ensures Log(NewLogger(configured, dev), "debug", message, meta, ts, mj).Some? <==> configured == "debug"
  {
  }
}
