/**
  The log levels of the logging package (log/log.go): one bit per base
  level, combinations as unions of bits, and the names the formatters print.
  A level is a Go `int`, modelled as a 64-bit vector so that `&` and `|`
  behave as on the platforms the package targets.
 */
module Log {
  import opened Text

  type Level = bv64

  const INFO: Level := 1
  const WARN: Level := 2
  const ERR: Level := 4
  const DEBUG: Level := 8

  const LevelNone: Level := 0
  const LevelStd: Level := INFO | WARN | ERR
  const LevelWarn: Level := WARN | ERR
  const LevelErr: Level := ERR
  const LevelDbg: Level := LevelStd | DEBUG

  /** `LogLevelMap`: the printed name of each base level. */
  const LogLevelMap: map<Level, Bytes> := map[
    INFO := Ascii("INFO"),
    WARN := Ascii("WARN"),
    ERR := Ascii("ERROR"),
    DEBUG := Ascii("DEBUG")]

  /** The name `LogLevelMap` gives a level; Go's zero value, the empty string, for a level it does not name. */
  function LevelName(level: Level): Bytes
  {
    if level in LogLevelMap then LogLevelMap[level] else []
  }

  /** A level with exactly one bit set. */
  predicate SingleBit(l: Level)
  {
    l != 0 && l & (l - 1) == 0
  }

  /** The base levels are four different single bits, and they are the levels that have names. */
  lemma BaseLevels()
    ensures SingleBit(INFO) && SingleBit(WARN) && SingleBit(ERR) && SingleBit(DEBUG)
    ensures INFO & WARN == 0 && INFO & ERR == 0 && INFO & DEBUG == 0
    ensures WARN & ERR == 0 && WARN & DEBUG == 0 && ERR & DEBUG == 0
    ensures LogLevelMap.Keys == {INFO, WARN, ERR, DEBUG}
  {
  }

  /**
    `canLog`, shared by both formatters: a formatter for `fmtLevel` writes
    under `logLevel` when every bit of `fmtLevel` is also set in `logLevel`.
   */
  function CanLog(logLevel: Level, fmtLevel: Level): (r: bool)
    ensures r <==> (logLevel | fmtLevel) == logLevel
  {
    logLevel & fmtLevel == fmtLevel
  }

  /** What each combined level lets through: Std all but debug, Warn warnings and errors, Err errors, Dbg everything, None nothing. */
  lemma CombinedLevels(b: Level)
    requires b in {INFO, WARN, ERR, DEBUG}
    ensures CanLog(LevelStd, b) <==> b != DEBUG
    ensures CanLog(LevelWarn, b) <==> b == WARN || b == ERR
    ensures CanLog(LevelErr, b) <==> b == ERR
    ensures CanLog(LevelDbg, b)
    ensures !CanLog(LevelNone, b)
  {
  }

  /** Raising the allowed level never silences a formatter: `canLog` is monotone in the allowed bits. */
  lemma CanLogMonotone(logLevel: Level, wider: Level, fmtLevel: Level)
    requires logLevel & wider == logLevel
    requires CanLog(logLevel, fmtLevel)
    ensures CanLog(wider, fmtLevel)
  {
  }

  /** An `io.Writer`, as the bytes written to it so far. */
  class Writer {
    var written: Bytes

    constructor ()
      ensures written == []
    {
      written := [];
    }

    method Write(p: Bytes)
      modifies this
      ensures written == old(written) + p
    {
      written := written + p;
    }
  }
}
