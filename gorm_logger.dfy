/** gormleaf's SlogLogger: gorm's logger.Interface written on log/slog, and
    the builder that sets it up. The slog logger itself is library code: it
    is modelled by the lowest level it is enabled at, and a record it would
    write is returned rather than written. */
module GormLogger {
  import opened Wrappers

  // gorm's log levels (logger.LogLevel).
  const LogSilent := 1
  const LogError := 2
  const LogWarn := 3
  const LogInfo := 4

  // slog's levels.
  const LevelDebug := -4
  const LevelInfo := 0
  const LevelWarn := 4
  const LevelError := 8

  /** A slog logger, by the lowest level it is enabled at. */
  datatype Sink = Sink(id: nat, minLevel: int)

  predicate Enabled(s: Sink, level: int) {
    level >= s.minLevel
  }

  /** The logger the builder starts with: a JSON handler on standard output
      enabled from the debug level. */
  const DefaultSink := Sink(0, LevelDebug)

  /** A slog attribute. Durations are in nanoseconds. */
  datatype Attr = Elapsed(ns: int) | Sql(text: string) | Rows(n: int) | ErrorText(text: string)

  /** A message: a fixed text, or the slow-query warning for a threshold
      (whose duration formatting is library code). */
  datatype Msg = Text(text: string) | SlowSql(threshold: int)

  datatype Record = Record(level: int, msg: Msg, attrs: seq<Attr>)

  /** The error Trace is given: its text, and whether errors.Is finds
      gorm's ErrRecordNotFound in it. */
  datatype DbError = DbError(text: string, recordNotFound: bool)

  /** logger.Config; shared by pointer, so LogMode changes it for every
      holder. */
  class LoggerConfig {
    var slowThreshold: int
    var logLevel: int
    var ignoreRecordNotFoundError: bool
    var colorful: bool

    constructor (slowThreshold: int, logLevel: int, ignoreRecordNotFoundError: bool, colorful: bool)
      ensures this.slowThreshold == slowThreshold && this.logLevel == logLevel
      ensures this.ignoreRecordNotFoundError == ignoreRecordNotFoundError && this.colorful == colorful
    {
      this.slowThreshold := slowThreshold;
      this.logLevel := logLevel;
      this.ignoreRecordNotFoundError := ignoreRecordNotFoundError;
      this.colorful := colorful;
    }
  }

  /** The configuration values Trace looks at. */
  datatype Settings = Settings(logLevel: int, slowThreshold: int, ignoreRecordNotFoundError: bool)

  /** The attributes of a trace record before its error: the elapsed time,
      the SQL, and the rows unless they are -1. */
  function TraceAttrs(elapsed: int, sql: string, rows: int): seq<Attr> {
    [Elapsed(elapsed), Sql(sql)] + (if rows != -1 then [Rows(rows)] else [])
  }

  predicate ReportsError(s: Settings, err: Option<DbError>) {
    s.logLevel >= LogError && err.Some? && (!err.value.recordNotFound || !s.ignoreRecordNotFoundError)
  }

  predicate IsSlow(s: Settings, elapsed: int) {
    s.logLevel >= LogWarn && s.slowThreshold != 0 && elapsed > s.slowThreshold
  }

  /** The record Trace writes, if any. */
  function TraceRecord(s: Settings, elapsed: int, sql: string, rows: int, err: Option<DbError>): Option<Record> {
    if s.logLevel <= LogSilent then None
    else if ReportsError(s, err) then Some(Record(LevelError, Text("gorm: error"), TraceAttrs(elapsed, sql, rows) + [ErrorText(err.value.text)]))
    else if IsSlow(s, elapsed) then Some(Record(LevelWarn, SlowSql(s.slowThreshold), TraceAttrs(elapsed, sql, rows)))
    else if s.logLevel >= LogInfo then Some(Record(LevelInfo, Text("gorm: info"), TraceAttrs(elapsed, sql, rows)))
    else None
  }

  class SlogLogger {
    var logger: Sink
    var config: LoggerConfig

    constructor (logger: Sink, config: LoggerConfig)
      ensures this.logger == logger && this.config == config
    {
      this.logger := logger;
      this.config := config;
    }

    function Current(): Settings
      reads this, config
    {
      Settings(config.logLevel, config.slowThreshold, config.ignoreRecordNotFoundError)
    }

    /** Sets the level in the shared configuration and returns this logger. */
    method LogMode(level: int) returns (r: SlogLogger)
      modifies config
      ensures r == this
      ensures config.logLevel == level
      ensures config.slowThreshold == old(config.slowThreshold)
      ensures config.ignoreRecordNotFoundError == old(config.ignoreRecordNotFoundError)
      ensures config.colorful == old(config.colorful)
    {
      config.logLevel := level;
      r := this;
    }

    /** Info, Warn and Error: `msg` is the message already formatted. */
    method InfoMsg(msg: string) returns (rec: Option<Record>)
      ensures rec.Some? <==> config.logLevel >= LogInfo
      ensures rec.Some? ==> rec.value == Record(LevelInfo, Text(msg), [])
    {
      rec := None;
      if config.logLevel >= LogInfo {
        rec := Some(Record(LevelInfo, Text(msg), []));
      }
    }

    method WarnMsg(msg: string) returns (rec: Option<Record>)
      ensures rec.Some? <==> config.logLevel >= LogWarn
      ensures rec.Some? ==> rec.value == Record(LevelWarn, Text(msg), [])
    {
      rec := None;
      if config.logLevel >= LogWarn {
        rec := Some(Record(LevelWarn, Text(msg), []));
      }
    }

    method ErrorMsg(msg: string) returns (rec: Option<Record>)
      ensures rec.Some? <==> config.logLevel >= LogError
      ensures rec.Some? ==> rec.value == Record(LevelError, Text(msg), [])
    {
      rec := None;
      if config.logLevel >= LogError {
        rec := Some(Record(LevelError, Text(msg), []));
      }
    }

    /** Trace for a statement that took `elapsed` nanoseconds. fc is the
        callback giving the SQL and the rows affected: `sql` and `rows` are
        what it returns, and `calledFc` whether it was called. */
    method Trace(elapsed: int, sql: string, rows: int, err: Option<DbError>)
      returns (rec: Option<Record>, calledFc: bool)
      ensures calledFc <==> config.logLevel > LogSilent
      ensures rec == TraceRecord(Current(), elapsed, sql, rows, err)
    {
      if config.logLevel <= LogSilent {
        return None, false;
      }
      var attrs: seq<Attr> := [];
      attrs := attrs + [Elapsed(elapsed)];
      calledFc := true;
      attrs := attrs + [Sql(sql)];
      if rows != -1 {
        attrs := attrs + [Rows(rows)];
      }
      assert attrs == TraceAttrs(elapsed, sql, rows);
      var level, msg;
      if config.logLevel >= LogError && err.Some? && (!err.value.recordNotFound || !config.ignoreRecordNotFoundError) {
        level := LevelError;
        msg := Text("gorm: error");
        attrs := attrs + [ErrorText(err.value.text)];
      } else if config.logLevel >= LogWarn && config.slowThreshold != 0 && elapsed > config.slowThreshold {
        level := LevelWarn;
        msg := SlowSql(config.slowThreshold);
      } else if config.logLevel >= LogInfo {
        level := LevelInfo;
        msg := Text("gorm: info");
      } else {
        return None, true;
      }
      rec := Some(Record(level, msg, attrs));
    }
  }

  class SlogLoggerBuilder {
    /** The logger under construction; Build hands out this very object. */
    const data: SlogLogger

    /** NewSlogLoggerBuilder: the default logger, a 200ms slow threshold,
        level Warn, record-not-found errors reported, colours on. */
    constructor ()
      ensures fresh(data) && fresh(data.config)
      ensures data.logger == DefaultSink
      ensures data.config.slowThreshold == 200 * 1000000 && data.config.logLevel == LogWarn
      ensures !data.config.ignoreRecordNotFoundError && data.config.colorful
    {
      var config := new LoggerConfig(200 * 1000000, LogWarn, false, true);
      data := new SlogLogger(DefaultSink, config);
    }

    /** Sets the slog logger. `ok` false stands for the panic on a logger
        that is not enabled at the debug level; nothing is set then. */
    method Logger(logger: Sink) returns (ok: bool)
      modifies data
      ensures ok <==> Enabled(logger, LevelDebug)
      ensures data.logger == (if ok then logger else old(data.logger))
      ensures data.config == old(data.config)
    {
      if !Enabled(logger, LevelDebug) {
        return false;
      }
      data.logger := logger;
      return true;
    }

    /** Sets the configuration, by pointer. */
    method Config(config: LoggerConfig)
      modifies data
      ensures data.config == config && data.logger == old(data.logger)
    {
      data.config := config;
    }

    method Build() returns (l: SlogLogger)
      ensures l == data
    {
      l := data;
    }
  }

  // ---------------------------------------------------------------------------
  // Properties of Trace

  /** At level Silent or below nothing is written. */
  lemma SilentWritesNothing(s: Settings, elapsed: int, sql: string, rows: int, err: Option<DbError>)
    requires s.logLevel <= LogSilent
    ensures TraceRecord(s, elapsed, sql, rows, err).None?
  {
  }

  /** Which record Trace writes, stated level by level: an error record
      exactly when the error is to be reported; else a slow-query warning
      exactly when the query was slower than a non-zero threshold; else an
      info record exactly when the level is Info or above; else nothing. */
  lemma TraceDecision(s: Settings, elapsed: int, sql: string, rows: int, err: Option<DbError>)
    ensures var r := TraceRecord(s, elapsed, sql, rows, err);
      && (r.Some? && r.value.level == LevelError <==> ReportsError(s, err))
      && (r.Some? && r.value.level == LevelWarn <==> !ReportsError(s, err) && IsSlow(s, elapsed))
      && (r.Some? && r.value.level == LevelInfo <==> !ReportsError(s, err) && !IsSlow(s, elapsed) && s.logLevel >= LogInfo)
      && (r.None? <==> !ReportsError(s, err) && !IsSlow(s, elapsed) && s.logLevel < LogInfo)
  {
  }

  /** The ignore flag only hides record-not-found errors, and the slow check
      is strict: a query exactly at the threshold is not slow. */
  lemma TraceEdges(s: Settings, text: string)
    ensures s.logLevel >= LogError ==> ReportsError(s, Some(DbError(text, false)))
    ensures s.ignoreRecordNotFoundError ==> !ReportsError(s, Some(DbError(text, true)))
    ensures !IsSlow(s, s.slowThreshold)
    ensures s.slowThreshold == 0 ==> forall e :: !IsSlow(s, e)
  {
  }

  /** A written record's attributes: elapsed, then the SQL, then the rows
      exactly when they are not -1, then the error text exactly for an
      error record. */
  lemma TraceAttributes(s: Settings, elapsed: int, sql: string, rows: int, err: Option<DbError>)
    requires TraceRecord(s, elapsed, sql, rows, err).Some?
    ensures var a := TraceRecord(s, elapsed, sql, rows, err).value.attrs;
      && |a| >= 2 && a[0] == Elapsed(elapsed) && a[1] == Sql(sql)
      && (Rows(rows) in a <==> rows != -1)
      && (exists t :: ErrorText(t) in a) == (TraceRecord(s, elapsed, sql, rows, err).value.level == LevelError)
  {
    var r := TraceRecord(s, elapsed, sql, rows, err).value;
    if r.level == LevelError {
      assert ErrorText(err.value.text) == r.attrs[|r.attrs| - 1];
    }
  }

  /** A configuration handed to the builder is the one LogMode changes. */
  method LogModeChangesCallersConfig(config: LoggerConfig, level: int) returns (l: SlogLogger)
    modifies config
    ensures l.config == config && config.logLevel == level
  {
    var builder := new SlogLoggerBuilder();
    builder.Config(config);
    l := builder.Build();
    var _ := l.LogMode(level);
  }
}
