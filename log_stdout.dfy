/**
  The colour formatter of the logging package (log/std-out.go): one per
  level, each writing through Go's standard `log.Logger` with the level's
  name as prefix, optionally wrapped in ANSI colour codes.

  What the standard logger writes ahead of the message (date, time and, with
  the short-file flag, the caller's file and line) depends on the clock and
  the call stack; it is the parameter `header`. The message is passed
  already formatted: `Print`, `Printf` and `Println` differ only in how
  `fmt` renders their arguments.
 */
module LogStdout {
  import opened Wrappers
  import opened Text
  import opened Log

  const Escape: char := 27 as char
  const NewLine: byte := 10
  const Space: byte := 32

  /** An ANSI "select graphic rendition" sequence. */
  function Ansi(code: string): Bytes
  {
    Ascii([Escape] + "[" + code + "m")
  }

  /** The palette entries the formatters use. */
  const ColorNone: Bytes := Ansi("0")
  const ColorWhite: Bytes := Ansi("1;37")
  const ColorOrange: Bytes := Ansi("0;33")
  const ColorRed: Bytes := Ansi("0;31")
  const ColorLightBlue: Bytes := Ansi("1;34")

  /** `logColors`: white, orange, red and light blue for the base levels; nothing for any other. */
  function LogColor(level: Level): Bytes
  {
    if level == INFO then ColorWhite
    else if level == WARN then ColorOrange
    else if level == ERR then ColorRed
    else if level == DEBUG then ColorLightBlue
    else []
  }

  /** Flags of Go's `log` package. */
  const Ldate: bv64 := 1
  const Ltime: bv64 := 2
  const Lshortfile: bv64 := 16
  const LstdFlags: bv64 := Ldate | Ltime

  /**
    `padStr`: `s` followed by spaces up to `length` bytes; never shortened.
   */
  method PadStr(s: Bytes, length: int) returns (r: Bytes)
    ensures |r| == if |s| >= length then |s| else length
    ensures r[..|s|] == s
    ensures forall i :: |s| <= i < |r| ==> r[i] == Space
  {
    r := s;
    while true
      invariant |s| <= |r| && r[..|s|] == s
      invariant forall i :: |s| <= i < |r| ==> r[i] == Space
      invariant |r| == |s| || |r| <= length
      decreases length - |r|
    {
      if |r| >= length {
        return;
      }
      r := r + [Space];
    }
  }

  /** What `log.Logger.Output` writes: prefix, header, message, and a newline unless the message ends in one. */
  function Record(prefix: Bytes, header: Bytes, msg: Bytes): (r: Bytes)
    ensures |r| > 0 && r[|r| - 1] == NewLine
  {
    var line := prefix + header + msg;
    if msg != [] && msg[|msg| - 1] == NewLine then line else line + [NewLine]
  }

  /** The `pType` strings `doPrint` switches on. */
  datatype PrintKind = Print | Printf | Println | Fatal | Fatalf | Fatalln

  predicate IsFatal(k: PrintKind)
  {
    k == Fatal || k == Fatalf || k == Fatalln
  }

  class ColorLogFmt {
    const out: Writer
    const logLevel: Level
    const fmtLevel: Level
    const color: bool
    /** The standard logger's prefix and flags. */
    const prefix: Bytes
    const flags: bv64

    /**
      `newColorLogFmt`: the prefix is the level's name padded to six bytes;
      levels other than INFO also log the caller's file.
     */
    constructor (out: Writer, logLevel: Level, fmtLevel: Level, color: bool)
      ensures this.out == out && this.logLevel == logLevel && this.fmtLevel == fmtLevel && this.color == color
      ensures |prefix| == if |LevelName(fmtLevel)| >= 6 then |LevelName(fmtLevel)| else 6
      ensures prefix[..|LevelName(fmtLevel)|] == LevelName(fmtLevel)
      ensures forall i :: |LevelName(fmtLevel)| <= i < |prefix| ==> prefix[i] == Space
      ensures flags & Lshortfile != 0 <==> fmtLevel != INFO
      ensures flags & LstdFlags == LstdFlags
    {
      this.out := out;
      this.logLevel := logLevel;
      this.fmtLevel := fmtLevel;
      this.color := color;
      var lFlags := LstdFlags;
      if fmtLevel != INFO {
        lFlags := lFlags | Lshortfile;
      }
      flags := lFlags;
      var padded := PadStr(LevelName(fmtLevel), 6);
      prefix := padded;
    }

    /** The bytes one call writes around a record: the colour, the record, the reset — or the record alone without colour. */
    function Colored(c: Bytes, record: Bytes): Bytes
    {
      if color then c + record + ColorNone else record
    }

    /** `setColor`: writes the code only when colour is enabled. */
    method SetColor(c: Bytes)
      modifies out
      ensures out.written == old(out.written) + (if color then c else [])
    {
      if !color {
        return;
      }
      out.Write(c);
    }

    /** The writes `doPrint` makes for one record: colour on, the record, colour off. */
    method WriteColored(c: Bytes, record: Bytes)
      modifies out
      ensures out.written == old(out.written) + Colored(c, record)
    {
      SetColor(c);
      out.Write(record);
      SetColor(ColorNone);
      if color {
        assert out.written == old(out.written) + (c + record + ColorNone);
      } else {
        assert out.written == old(out.written) + record;
      }
    }

    /**
      `doPrint`: a fatal kind writes in the error colour whatever the level and
      then exits with status 1 (`exit`); a print kind writes in the level's
      colour, and only when `canLog` holds.
     */
    method DoPrint(kind: PrintKind, msg: Bytes, header: Bytes) returns (exit: Option<int>)
      modifies out
      ensures IsFatal(kind) ==>
                exit == Some(1) && out.written == old(out.written) + Colored(LogColor(ERR), Record(prefix, header, msg))
      ensures !IsFatal(kind) ==> exit == None
      ensures !IsFatal(kind) && !CanLog(logLevel, fmtLevel) ==> out.written == old(out.written)
      ensures !IsFatal(kind) && CanLog(logLevel, fmtLevel) ==>
                out.written == old(out.written) + Colored(LogColor(fmtLevel), Record(prefix, header, msg))
    {
      var c;
      if IsFatal(kind) {
        c, exit := LogColor(ERR), Some(1);
      } else if !CanLog(logLevel, fmtLevel) {
        return None;
      } else {
        c, exit := LogColor(fmtLevel), None;
      }
      WriteColored(c, Record(prefix, header, msg));
    }
  }
}
