/**
  The JSON formatter of the logging package (log/json.go): one JSON record
  per line. The clock and `runtime.Caller` are parameters (`now`, and
  `caller`, None when the caller is unknown); `encoding/json` is the
  parameter `marshal`, which yields the JSON or the error's text.
 */
module LogJson {
  import opened Wrappers
  import opened Text
  import opened Log

  const NewLine: byte := 10

  /** `jLog`: the fields of one record. */
  datatype JLog = JLog(timestamp: int, file: Bytes, line: int, level: Bytes, fatal: bool, msg: Bytes)

  /** `newJLog`: the record, with file `???` and line -1 when the caller cannot be found. */
  function NewJLog(msg: Bytes, level: Bytes, fatal: bool, now: int, caller: Option<(Bytes, int)>): (jl: JLog)
    ensures jl.msg == msg && jl.level == level && jl.fatal == fatal && jl.timestamp == now
    ensures caller.None? ==> jl.file == Ascii("???") && jl.line == -1
    ensures caller.Some? ==> jl.file == caller.value.0 && jl.line == caller.value.1
  {
    var jl := JLog(now, [], 0, level, fatal, msg);
    if caller.Some? then jl.(file := caller.value.0, line := caller.value.1)
    else jl.(file := Ascii("???"), line := -1)
  }

  /** `jLog.Marshal`: the JSON, or a hand-built object naming the error, the line and the file. */
  function Marshal(jl: JLog, marshal: JLog -> Result<Bytes, Bytes>): (r: Bytes)
    ensures marshal(jl).Ok? ==> r == marshal(jl).value
    ensures marshal(jl).Err? ==>
              r == Ascii("{\"Error\":\"") + marshal(jl).error + Ascii("\", \"Line\": ") + Ascii(Decimal(jl.line))
                   + Ascii(", \"File\":\"") + jl.file + Ascii("\"}")
  {
    match marshal(jl)
    case Ok(data) => data
    case Err(e) =>
      Ascii("{\"Error\":\"") + e + Ascii("\", \"Line\": ") + Ascii(Decimal(jl.line))
        + Ascii(", \"File\":\"") + jl.file + Ascii("\"}")
  }

  /** `strings.TrimRight(msg, "\n")`: every trailing newline removed, nothing else. */
  function TrimNewlines(s: Bytes): (r: Bytes)
    ensures |r| <= |s| && r == s[..|r|]
    ensures r == [] || r[|r| - 1] != NewLine
    ensures forall i :: |r| <= i < |s| ==> s[i] == NewLine
    decreases |s|
  {
    if |s| > 0 && s[|s| - 1] == NewLine then TrimNewlines(s[..|s| - 1]) else s
  }

  /** Trimming is idempotent. */
  lemma TrimNewlinesIdempotent(s: Bytes)
    ensures TrimNewlines(TrimNewlines(s)) == TrimNewlines(s)
  {
  }

  /** Any run of newlines appended to a message is trimmed away with the message's own. */
  lemma {:induction false} TrimNewlinesAppend(s: Bytes, n: nat)
    ensures TrimNewlines(s + seq(n, _ => NewLine)) == TrimNewlines(s)
    decreases n
  {
    if n > 0 {
      var t := s + seq(n, _ => NewLine);
      assert t[..|t| - 1] == s + seq(n - 1, _ => NewLine);
      TrimNewlinesAppend(s, n - 1);
    } else {
      assert s + seq(n, _ => NewLine) == s;
    }
  }

  /** A number written in decimal holds no newline. */
  lemma NoNewlineInDecimal(n: int)
    ensures NewLine !in Ascii(Decimal(n))
  {
    var d := Ascii(Decimal(n));
    forall i | 0 <= i < |d|
      ensures d[i] != NewLine
    {
      assert Decimal(n)[i] == '-' || '0' <= Decimal(n)[i] <= '9';
    }
  }

  /** The hand-built fallback object holds no newline when the error text and the file name hold none. */
  lemma FallbackOneLine(e: Bytes, line: int, file: Bytes)
    requires NewLine !in e && NewLine !in file
    ensures NewLine !in Ascii("{\"Error\":\"") + e + Ascii("\", \"Line\": ") + Ascii(Decimal(line))
                        + Ascii(", \"File\":\"") + file + Ascii("\"}")
  {
    NoNewlineInDecimal(line);
    assert NewLine !in Ascii("{\"Error\":\"");
    assert NewLine !in Ascii("\", \"Line\": ");
    assert NewLine !in Ascii(", \"File\":\"");
    assert NewLine !in Ascii("\"}");
  }

  class JsonLogFmt {
    const out: Writer
    const logLevel: Level
    const logLevelAllowed: Level

    constructor (out: Writer, logLevel: Level, logLevelAllowed: Level)
      ensures this.out == out && this.logLevel == logLevel && this.logLevelAllowed == logLevelAllowed
    {
      this.out := out;
      this.logLevel := logLevel;
      this.logLevelAllowed := logLevelAllowed;
    }

    /** The bytes one record takes: the marshalled record, then exactly one newline. */
    function Line(msg: Bytes, fatal: bool, now: int, caller: Option<(Bytes, int)>,
                  marshal: JLog -> Result<Bytes, Bytes>): (line: Bytes)
      ensures |line| > 0 && line[|line| - 1] == NewLine
    {
      Marshal(NewJLog(msg, LevelName(logLevelAllowed), fatal, now, caller), marshal) + [NewLine]
    }

    /**
      A record takes exactly one line, given that the JSON `encoding/json`
      produces holds no raw newline (it escapes them inside strings), nor
      does its error text or the caller's file name.
     */
    lemma LineIsOneLine(msg: Bytes, fatal: bool, now: int, caller: Option<(Bytes, int)>,
                        marshal: JLog -> Result<Bytes, Bytes>)
      requires var jl := NewJLog(msg, LevelName(logLevelAllowed), fatal, now, caller);
               && (marshal(jl).Ok? ==> NewLine !in marshal(jl).value)
               && (marshal(jl).Err? ==> NewLine !in marshal(jl).error)
               && (caller.Some? ==> NewLine !in caller.value.0)
      ensures var line := Line(msg, fatal, now, caller, marshal);
              line[|line| - 1] == NewLine && NewLine !in line[..|line| - 1]
    {
      var jl := NewJLog(msg, LevelName(logLevelAllowed), fatal, now, caller);
      var line := Line(msg, fatal, now, caller, marshal);
      assert line[..|line| - 1] == Marshal(jl, marshal);
      if marshal(jl).Err? {
        assert NewLine !in Ascii("???");
        FallbackOneLine(marshal(jl).error, jl.line, jl.file);
      }
    }

    /** `writeJLog`: one record, labelled with the formatter's level name. */
    method WriteJLog(msg: Bytes, fatal: bool, now: int, caller: Option<(Bytes, int)>,
                     marshal: JLog -> Result<Bytes, Bytes>)
      modifies out
      ensures out.written == old(out.written) + Line(msg, fatal, now, caller, marshal)
    {
      var jl := NewJLog(msg, LevelName(logLevelAllowed), fatal, now, caller);
      var data := Marshal(jl, marshal);
      out.Write(data + [NewLine]);
    }

    /**
      `Print`, `Printf`, `Println`: when `canLog` holds, one non-fatal record
      of the formatted message with its trailing newlines trimmed; otherwise
      nothing.
     */
    method Print(msg: Bytes, now: int, caller: Option<(Bytes, int)>, marshal: JLog -> Result<Bytes, Bytes>)
      modifies out
      ensures !CanLog(logLevel, logLevelAllowed) ==> out.written == old(out.written)
      ensures CanLog(logLevel, logLevelAllowed) ==>
                out.written == old(out.written) + Line(TrimNewlines(msg), false, now, caller, marshal)
    {
      if !CanLog(logLevel, logLevelAllowed) {
        return;
      }
      WriteJLog(TrimNewlines(msg), false, now, caller, marshal);
    }

    /**
      `Fatal`, `Fatalf`, `Fatalln`: whatever the level, one record marked
      fatal, then exit with status 1.
     */
    method Fatal(msg: Bytes, now: int, caller: Option<(Bytes, int)>, marshal: JLog -> Result<Bytes, Bytes>)
      returns (exitStatus: int)
      modifies out
      ensures exitStatus == 1
      ensures out.written == old(out.written) + Line(TrimNewlines(msg), true, now, caller, marshal)
    {
      WriteJLog(TrimNewlines(msg), true, now, caller, marshal);
      return 1;
    }
  }
}
