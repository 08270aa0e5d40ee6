/**
  Loggers and the package-level default (log/log.go with the constructors
  of log/std-out.go and log/json.go): a logger is one formatter per base
  level, and the package keeps a default logger whose four formatters are
  also exposed as `Info`, `Warn`, `Err` and `Debug`.
 */
module LogDefault {
  import opened Log
  import LogStdout
  import LogJson

  /** A `LogFormatter`: one of the package's two implementations. */
  datatype Formatter = ColorFmt(c: LogStdout.ColorLogFmt) | JsonFmt(j: LogJson.JsonLogFmt)

  /** `Logger`: the formatters for INFO, WARN, ERR and DEBUG. */
  datatype Logger = Logger(info: Formatter, warn: Formatter, err: Formatter, debug: Formatter)

  /** A colour formatter writing to `out` under `logLevel`, for `level`. */
  ghost predicate IsColorFmt(f: Formatter, out: Writer, logLevel: Level, level: Level, color: bool)
  {
    f.ColorFmt? && f.c.out == out && f.c.logLevel == logLevel && f.c.fmtLevel == level && f.c.color == color
  }

  /** A JSON formatter writing to `out` under `logLevel`, for `level`. */
  ghost predicate IsJsonFmt(f: Formatter, out: Writer, logLevel: Level, level: Level)
  {
    f.JsonFmt? && f.j.out == out && f.j.logLevel == logLevel && f.j.logLevelAllowed == level
  }

  /** `newLogger` (behind `NewColorLogger` and `NewLogger`): a colour formatter per base level. */
  method NewLogger(out: Writer, logLevel: Level, color: bool) returns (l: Logger)
    ensures IsColorFmt(l.info, out, logLevel, INFO, color)
    ensures IsColorFmt(l.warn, out, logLevel, WARN, color)
    ensures IsColorFmt(l.err, out, logLevel, ERR, color)
    ensures IsColorFmt(l.debug, out, logLevel, DEBUG, color)
  {
    var info := new LogStdout.ColorLogFmt(out, logLevel, INFO, color);
    var warn := new LogStdout.ColorLogFmt(out, logLevel, WARN, color);
    var err := new LogStdout.ColorLogFmt(out, logLevel, ERR, color);
    var debug := new LogStdout.ColorLogFmt(out, logLevel, DEBUG, color);
    l := Logger(ColorFmt(info), ColorFmt(warn), ColorFmt(err), ColorFmt(debug));
  }

  /** `NewJSONLogger`: a JSON formatter per base level. */
  method NewJSONLogger(out: Writer, logLevel: Level) returns (l: Logger)
    ensures IsJsonFmt(l.info, out, logLevel, INFO)
    ensures IsJsonFmt(l.warn, out, logLevel, WARN)
    ensures IsJsonFmt(l.err, out, logLevel, ERR)
    ensures IsJsonFmt(l.debug, out, logLevel, DEBUG)
  {
    var info := new LogJson.JsonLogFmt(out, logLevel, INFO);
    var warn := new LogJson.JsonLogFmt(out, logLevel, WARN);
    var err := new LogJson.JsonLogFmt(out, logLevel, ERR);
    var debug := new LogJson.JsonLogFmt(out, logLevel, DEBUG);
    l := Logger(JsonFmt(info), JsonFmt(warn), JsonFmt(err), JsonFmt(debug));
  }

  /** The package variables: the default logger and its four exposed formatters. */
  class Globals {
    var defaultLogger: Logger
    var info: Formatter
    var warn: Formatter
    var err: Formatter
    var debug: Formatter

    /** The exposed formatters are the default logger's. */
    ghost predicate Valid()
      reads this
    {
      info == defaultLogger.info && warn == defaultLogger.warn
      && err == defaultLogger.err && debug == defaultLogger.debug
    }

    /** Package initialisation: a colour logger on standard output, at the debug level. */
    constructor (stdout: Writer)
      ensures Valid()
      ensures IsColorFmt(info, stdout, LevelDbg, INFO, true) && IsColorFmt(warn, stdout, LevelDbg, WARN, true)
      ensures IsColorFmt(err, stdout, LevelDbg, ERR, true) && IsColorFmt(debug, stdout, LevelDbg, DEBUG, true)
    {
      var l := NewLogger(stdout, LevelDbg, true);
      defaultLogger := l;
      info, warn, err, debug := l.info, l.warn, l.err, l.debug;
    }

    /** `SetDefaultLogger`: the default and all four exposed formatters become the given logger's. */
    method SetDefaultLogger(l: Logger)
      modifies this
      ensures Valid()
      ensures defaultLogger == l
      ensures info == l.info && warn == l.warn && err == l.err && debug == l.debug
    {
      defaultLogger := l;
      info := defaultLogger.info;
      warn := defaultLogger.warn;
      err := defaultLogger.err;
      debug := defaultLogger.debug;
    }
  }
}
