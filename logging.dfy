/**
 * The structured logger: choosing its maximum level, mapping `log` levels
 * to Google Cloud Logging severities, the `enabled` test, and the entry
 * `log` builds for a record. Timestamps, JSON output and the process-wide
 * registration are outside this module.
 */
module Logging {
  import opened Wrappers
  import opened Decimal

  /** `log::Level`, most severe first. */
  datatype Level = Error | Warn | Info | Debug | Trace

  /** `log::LevelFilter`: `Off` lets nothing through, `Trace` everything. */
  datatype LevelFilter = Off | Error | Warn | Info | Debug | Trace

  /** Google Cloud Logging's `LogSeverity`. */
  datatype Severity = Default | Debug | Info | Notice | Warning | Error | Critical | Alert | Emergency

  /** The discriminant of a level: Error = 1 up to Trace = 5. */
  function LevelRank(l: Level): (r: nat) {
    match l
    case Error => 1
    case Warn => 2
    case Info => 3
    case Debug => 4
    case Trace => 5
  }

  /** The discriminant of a filter: Off = 0 up to Trace = 5. */
  function FilterRank(f: LevelFilter): (r: nat) {
    match f
    case Off => 0
    case Error => 1
    case Warn => 2
    case Info => 3
    case Debug => 4
    case Trace => 5
  }

  /** The numeric value Cloud Logging gives each severity. */
  function SeverityCode(s: Severity): (r: nat) {
    match s
    case Default => 0
    case Debug => 100
    case Info => 200
    case Notice => 300
    case Warning => 400
    case Error => 500
    case Critical => 600
    case Alert => 700
    case Emergency => 800
  }

  /** `Level::to_level_filter`: the filter that lets through exactly this level and the more severe ones. */
  function ToLevelFilter(l: Level): (f: LevelFilter)
    ensures FilterRank(f) == LevelRank(l)
    ensures f != LevelFilter.Off
  {
    match l
    case Error => LevelFilter.Error
    case Warn => LevelFilter.Warn
    case Info => LevelFilter.Info
    case Debug => LevelFilter.Debug
    case Trace => LevelFilter.Trace
  }

  const ProducerName := "reddit-save-bot"
  const ErrorReportType := "type.googleapis.com/google.devtools.clouderrorreporting.v1beta1.ReportedErrorEvent"

  /** The logger's configuration; nothing in it changes after construction. */
  datatype Logger = Logger(operationProducer: string, errorReportType: string, maxLogLevel: LevelFilter)

  /**
   * `Logger::new`: an explicit level wins; without one, silent mode means
   * Error and anything else means Trace. `version` is the crate version
   * compiled into the producer name.
   */
  function NewLogger(maxLogLevel: Option<Level>, silent: Option<bool>, version: string): (r: Logger)
    ensures r.operationProducer == ProducerName + ":" + version
    ensures r.errorReportType == ErrorReportType
  {
    var filter := match maxLogLevel
      case Some(level) => ToLevelFilter(level)
      case None => if silent == Some(true) then LevelFilter.Error else LevelFilter.Trace;
    Logger(ProducerName + ":" + version, ErrorReportType, filter)
  }

  /** `log_level_to_gc_severity`. */
  function GcSeverity(l: Level): (s: Severity)
    ensures s in {Severity.Error, Severity.Warning, Severity.Info, Severity.Debug}
    ensures s == Severity.Error <==> l == Level.Error
  {
    match l
    case Error => Severity.Error
    case Warn => Severity.Warning
    case Info => Severity.Info
    case Debug => Severity.Debug
    case Trace => Severity.Debug
  }

  /** `Log::enabled`: a level passes when it is at least as severe as the maximum level. */
  predicate Enabled(logger: Logger, l: Level)
    ensures logger.maxLogLevel == LevelFilter.Off ==> !Enabled(logger, l)
    ensures logger.maxLogLevel == LevelFilter.Trace ==> Enabled(logger, l)
    ensures l == Level.Error ==> (Enabled(logger, l) <==> logger.maxLogLevel != LevelFilter.Off)
  {
    LevelRank(l) <= FilterRank(logger.maxLogLevel)
  }

  /** A `log::Record`: level, target, formatted arguments, and the call site when known. */
  datatype Record = Record(level: Level, target: string, args: string, file: Option<string>, line: Option<U32>)

  datatype Operation = Operation(id: Option<string>, producer: Option<string>)

  datatype SourceLocation = SourceLocation(file: Option<string>, line: Option<string>)

  /** The fields of the Cloud Logging entry that `log` sets, except the timestamp. */
  datatype Entry = Entry(
    severity: Option<Severity>,
    message: Option<string>,
    reportType: Option<string>,
    operation: Option<Operation>,
    sourceLocation: Option<SourceLocation>,
    trace: Option<string>)

  /** The entry `Log::log` prints for `record`, or None when the record is filtered out. */
  function LogEntry(logger: Logger, record: Record): (r: Option<Entry>)
    ensures r.Some? <==> Enabled(logger, record.level)
    ensures r.Some? ==> r.value.severity == Some(GcSeverity(record.level))
    ensures r.Some? ==> r.value.message == Some(record.args)
    ensures r.Some? ==> (r.value.reportType.Some? <==> record.level == Level.Error)
    ensures r.Some? && r.value.reportType.Some? ==> r.value.reportType.value == logger.errorReportType
    ensures r.Some? ==> r.value.operation == Some(Operation(Some(record.target), Some(logger.operationProducer)))
    ensures r.Some? ==> r.value.trace == Some(record.target)
    ensures r.Some? ==> r.value.sourceLocation.Some?
    ensures r.Some? ==> r.value.sourceLocation.value.file == Some(record.file.UnwrapOr(""))
    ensures r.Some? && record.line.None? ==> r.value.sourceLocation.value.line == Some("0")
  {
    if !Enabled(logger, record.level) then None
    else
      var severity := GcSeverity(record.level);
      var operationId := record.target;
      Some(Entry(
        Some(severity),
        Some(record.args),
        if severity == Severity.Error then Some(logger.errorReportType) else None,
        Some(Operation(Some(operationId), Some(logger.operationProducer))),
        Some(SourceLocation(Some(record.file.UnwrapOr("")), Some(NatToString(record.line.UnwrapOr(0))))),
        Some(operationId)))
  }

  // ---------------------------------------------------------------------
  // Properties
  // ---------------------------------------------------------------------

  /** The level filter `new` picks, for every combination of its arguments. */
  lemma NewLoggerFilter(maxLogLevel: Option<Level>, silent: Option<bool>, version: string)
    ensures var f := NewLogger(maxLogLevel, silent, version).maxLogLevel;
      && (maxLogLevel.Some? ==> FilterRank(f) == LevelRank(maxLogLevel.value))
      && (maxLogLevel.None? && silent == Some(true) ==> f == LevelFilter.Error)
      && (maxLogLevel.None? && silent != Some(true) ==> f == LevelFilter.Trace)
  {
  }

  /** A logger built by `new` never filters everything out: Error always passes. */
  lemma NewLoggerEnablesError(maxLogLevel: Option<Level>, silent: Option<bool>, version: string)
    ensures NewLogger(maxLogLevel, silent, version).maxLogLevel != LevelFilter.Off
    ensures Enabled(NewLogger(maxLogLevel, silent, version), Level.Error)
  {
  }

  /** With an explicit level, exactly that level and the more severe ones pass. */
  lemma ExplicitLevelEnables(max: Level, silent: Option<bool>, version: string, l: Level)
    ensures Enabled(NewLogger(Some(max), silent, version), l) <==> LevelRank(l) <= LevelRank(max)
  {
  }

  /** `enabled` is monotone: if a level passes, every more severe level passes too. */
  lemma EnabledMonotone(logger: Logger, l: Level, moreSevere: Level)
    requires Enabled(logger, l) && LevelRank(moreSevere) <= LevelRank(l)
    ensures Enabled(logger, moreSevere)
  {
  }

  /** A stricter filter enables fewer levels. */
  lemma StricterFilterEnablesLess(a: Logger, b: Logger, l: Level)
    requires FilterRank(a.maxLogLevel) <= FilterRank(b.maxLogLevel)
    ensures Enabled(a, l) ==> Enabled(b, l)
  {
  }

  /** The severity map keeps the order of levels (a more severe level never maps lower). */
  lemma GcSeverityMonotone(a: Level, b: Level)
    requires LevelRank(a) <= LevelRank(b)
    ensures SeverityCode(GcSeverity(a)) >= SeverityCode(GcSeverity(b))
  {
  }

  /** The severity map is not injective: Debug and Trace both become Debug, and only they collide. */
  lemma GcSeverityCollision(a: Level, b: Level)
    ensures GcSeverity(a) == GcSeverity(b) <==> a == b || {a, b} == {Level.Debug, Level.Trace}
  {
  }

  /** The line in an entry is the decimal text of the record's line, 0 when it is unknown. */
  lemma LoggedLineDenotesRecordLine(logger: Logger, record: Record)
    requires Enabled(logger, record.level)
    ensures var line := LogEntry(logger, record).value.sourceLocation.value.line.value;
      AllDigits(line) && ParseNat(line) == record.line.UnwrapOr(0)
  {
    ParseNatToString(record.line.UnwrapOr(0));
  }

  /** Two records that differ in their line never produce the same source location. */
  lemma LoggedLinesDistinguishRecords(logger: Logger, r1: Record, r2: Record)
    requires Enabled(logger, r1.level) && Enabled(logger, r2.level)
    requires r1.line.UnwrapOr(0) != r2.line.UnwrapOr(0)
    ensures LogEntry(logger, r1).value.sourceLocation != LogEntry(logger, r2).value.sourceLocation
  {
    LoggedLineDenotesRecordLine(logger, r1);
    LoggedLineDenotesRecordLine(logger, r2);
  }
}
