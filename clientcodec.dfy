/**
  The browser client's frame codec (sacrificial-socket.js): the decoders run
  by `ws.onmessage` for text and binary frames, and the frames `emit` builds.
 */
module ClientCodec {
  import opened Wrappers
  import opened Text
  import opened Seqs

  const HeaderStartCode: byte := 1
  const DataStartCode: byte := 2
  const HeaderStart: char := 1 as char
  const DataStart: char := 2 as char

  /** The JavaScript values the client handles. An object carries what `JSON.stringify` returns for it (None: it throws). */
  datatype JsValue =
    | JsString(s: string)
    | JsBuffer(bytes: Bytes)
    | JsObject(json: Option<string>)
    | JsNull
    | JsNumber(n: int)
    | JsBool(b: bool)
    | JsUndefined

  /** JavaScript truthiness (ToBoolean). */
  predicate Truthy(v: JsValue)
  {
    match v
    case JsString(s) => s != []
    case JsBuffer(_) => true
    case JsObject(_) => true
    case JsNull => false
    case JsNumber(n) => n != 0
    case JsBool(b) => b
    case JsUndefined => false
  }

  /** `String(v)`, the text a value becomes when concatenated to a string. */
  function ToJsString(v: JsValue): string
  {
    match v
    case JsString(s) => s
    case JsBuffer(_) => "[object ArrayBuffer]"
    case JsObject(_) => "[object Object]"
    case JsNull => "null"
    case JsNumber(n) => Decimal(n)
    case JsBool(b) => if b then "true" else "false"
    case JsUndefined => "undefined"
  }

  /** What `onmessage` extracts from a frame: the event name, the set of header flags, and the payload. */
  datatype Decoded = Decoded(eventName: string, headers: set<char>, data: JsValue)

  function Elems(s: string): set<char>
  {
    set c | c in s
  }

  /** The event name: the text before the first SOH or STX. */
  function TextName(m: string): string
  {
    var k := IndexOf(m, DataStart);
    var h := IndexOf(m, HeaderStart);
    m[..if h < k then h else k]
  }

  /** The header flags: the characters between the first SOH and the first STX, when SOH comes first. */
  function TextHeaders(m: string): set<char>
  {
    var k := IndexOf(m, DataStart);
    var h := IndexOf(m, HeaderStart);
    if h < k then Elems(m[h + 1..k]) else {}
  }

  /**
    The text payload: empty without STX; otherwise everything after the first
    STX, less the first SOH found there when none came before STX.
   */
  function TextData(m: string): string
  {
    var k := IndexOf(m, DataStart);
    var h := IndexOf(m, HeaderStart);
    if k == |m| then [] else if h < k then m[k + 1..] else RemoveFirst(m[k + 1..], HeaderStart)
  }

  /** What the text decoder yields for a whole message. */
  function DecodeTextSpec(m: string): Decoded
  {
    Decoded(TextName(m), TextHeaders(m), JsString(TextData(m)))
  }

  /** What the binary decoder yields: name and flags as for text, read one character per byte; the bytes after STX as a buffer. */
  function DecodeBinarySpec(m: Bytes): Decoded
  {
    var k := IndexOf(m, DataStartCode);
    Decoded(TextName(Chars(m)), TextHeaders(Chars(m)), if k < |m| then JsBuffer(m[k + 1..]) else JsString([]))
  }

  /** The name and the flags depend only on what comes before the first STX, at `k`. */
  lemma NameByHead(m: string, k: nat)
    requires k <= |m| && DataStart !in m[..k] && (k < |m| ==> m[k] == DataStart)
    ensures TextName(m) == TextName(m[..k]) && TextHeaders(m) == TextHeaders(m[..k])
  {
    var p := m[..k];
    IndexOfUnique(m, DataStart, k);
    IndexOfUnique(p, DataStart, k);
    var h := IndexOf(m, HeaderStart);
    if h < k {
      assert p[..h] == m[..h];
      IndexOfUnique(p, HeaderStart, h);
      assert p[h + 1..k] == m[h + 1..k];
    } else {
      assert HeaderStart !in p;
      IndexOfUnique(p, HeaderStart, k);
      assert p[..k] == p;
    }
  }

  /** Without STX the whole text is name and flags, and the payload is empty. */
  lemma NoDataParts(m: string)
    requires DataStart !in m
    ensures var h := IndexOf(m, HeaderStart);
            TextName(m) == m[..h] && TextData(m) == [] &&
            TextHeaders(m) == if h < |m| then Elems(m[h + 1..]) else {}
  {
    IndexOfUnique(m, DataStart, |m|);
    assert m[..|m|] == m;
  }

  /** Before the first STX: a character extends the name or, once SOH was seen, the flags. */
  lemma PrefixStep(m: string, c: char)
    requires DataStart !in m && c != DataStart
    ensures TextName(m + [c]) == if HeaderStart in m || c == HeaderStart then TextName(m) else TextName(m) + [c]
    ensures TextHeaders(m + [c]) == if HeaderStart in m then TextHeaders(m) + {c} else {}
    ensures TextData(m + [c]) == []
  {
    var t := m + [c];
    IndexOfSnoc(m, c, HeaderStart);
    NoDataParts(m);
    NoDataParts(t);
    if HeaderStart in m {
      SnocAt(m, c, IndexOf(m, HeaderStart));
    } else if c != HeaderStart {
      assert t[..|t|] == t;
      assert m[..|m|] == m;
    } else {
      assert t[..|m|] == m;
      assert m[..|m|] == m;
    }
  }

  /** The first STX ends the name and the flags; the payload starts empty. */
  lemma StopsAtData(m: string, rest: string)
    requires DataStart !in m
    ensures TextName(m + [DataStart] + rest) == TextName(m)
    ensures TextHeaders(m + [DataStart] + rest) == TextHeaders(m)
    ensures TextData(m + [DataStart]) == []
  {
    var t := m + [DataStart] + rest;
    Around(m, DataStart, rest);
    NameByHead(t, |m|);
    var u := m + [DataStart];
    Around(m, DataStart, []);
    assert u == m + [DataStart] + [];
    TextDataAfter(u, |m|);
  }

  /** After the first STX the name and the flags are settled. */
  lemma DataStepSettled(m: string, c: char)
    requires DataStart in m
    ensures TextName(m + [c]) == TextName(m) && TextHeaders(m + [c]) == TextHeaders(m)
  {
    var k := IndexOf(m, DataStart);
    SnocAt(m, c, k);
    NameByHead(m, k);
    NameByHead(m + [c], k);
  }

  /** The payload in terms of the first STX, at `k`: whether a SOH came before it decides what is removed. */
  lemma TextDataAfter(m: string, k: nat)
    requires k < |m| && m[k] == DataStart && DataStart !in m[..k]
    ensures TextData(m) == PayloadAfter(HeaderStart in m[..k], m[k + 1..])
  {
    IndexOfUnique(m, DataStart, k);
    InPrefix(m, HeaderStart, k);
  }

  /** The payload rule on its own: text after STX, with a first SOH removed unless one came before STX. */
  function PayloadAfter(sohBefore: bool, p: string): string
  {
    if sohBefore then p else RemoveFirst(p, HeaderStart)
  }

  /** One more character after STX extends the payload, unless it is the SOH the rule removes. */
  lemma PayloadAfterSnoc(sohBefore: bool, p: string, c: char)
    ensures PayloadAfter(sohBefore, p + [c]) ==
              if !sohBefore && HeaderStart !in p && c == HeaderStart then PayloadAfter(sohBefore, p)
              else PayloadAfter(sohBefore, p) + [c]
  {
    if !sohBefore {
      RemoveFirstSnoc(p, c, HeaderStart);
    }
  }

  /** After the first STX every character goes to the payload, except a first SOH when none came before STX. */
  lemma DataStepPayload(m: string, c: char)
    requires DataStart in m
    ensures TextData(m + [c]) == if HeaderStart !in m && c == HeaderStart then TextData(m) else TextData(m) + [c]
  {
    var k := IndexOf(m, DataStart);
    var t := m + [c];
    var pre, p := m[..k], m[k + 1..];
    SnocAt(m, c, k);
    SplitAt(m, k);
    TextDataAfter(m, k);
    TextDataAfter(t, k);
    PayloadAfterSnoc(HeaderStart in pre, p, c);
  }

  /** The text decoder's variables. */
  datatype TextScan = TextScan(eventName: string, headers: set<char>, data: string, dataStarted: bool, headerStarted: bool)

  /** One character read by the text loop, branch by branch. */
  ghost function NextText(st: TextScan, chr: char): TextScan
  {
    if !st.dataStarted && !st.headerStarted && chr != DataStart && chr != HeaderStart then
      st.(eventName := st.eventName + [chr])
    else if !st.headerStarted && chr == HeaderStart then st.(headerStarted := true)
    else if st.headerStarted && !st.dataStarted && chr != DataStart then st.(headers := st.headers + {chr})
    else if !st.dataStarted && chr == DataStart then st.(dataStarted := true)
    else st.(data := st.data + [chr])
  }

  /** The loop's variables after reading `m`, character by character. */
  ghost function FoldText(m: string): TextScan
  {
    if m == [] then TextScan([], {}, [], false, false)
    else NextText(FoldText(m[..|m| - 1]), m[|m| - 1])
  }

  /** Reading character by character yields the closed forms. */
  lemma {:induction false} FoldTextClosed(m: string)
    ensures FoldText(m) == TextScan(TextName(m), TextHeaders(m), TextData(m), DataStart in m, HeaderStart in m)
  {
    if m != [] {
      var p, c := m[..|m| - 1], m[|m| - 1];
      assert m == p + [c];
      FoldTextClosed(p);
      if DataStart !in p {
        if c == DataStart {
          StopsAtData(p, []);
          assert p + [DataStart] + [] == m;
        } else {
          PrefixStep(p, c);
        }
      } else {
        DataStepSettled(p, c);
        DataStepPayload(p, c);
      }
    }
  }

  /** The text branch of `onmessage`: one pass over the characters, tracking whether SOH and STX were seen. */
  method DecodeText(msg: string) returns (d: Decoded)
    ensures d == DecodeTextSpec(msg)
  {
    var eventName: string, headers: set<char>, data: string := [], {}, [];
    var dataStarted, headerStarted := false, false;
    for i := 0 to |msg|
      invariant FoldText(msg[..i]) == TextScan(eventName, headers, data, dataStarted, headerStarted)
    {
      var chr := msg[i];
      assert msg[..i + 1][..i] == msg[..i];
      if !dataStarted && !headerStarted && chr != DataStart && chr != HeaderStart {
        eventName := eventName + [chr];
      } else if !headerStarted && chr == HeaderStart {
        headerStarted := true;
      } else if headerStarted && !dataStarted && chr != DataStart {
        headers := headers + {chr};
      } else if !dataStarted && chr == DataStart {
        dataStarted := true;
      } else {
        data := data + [chr];
      }
    }
    assert msg[..|msg|] == msg;
    FoldTextClosed(msg);
    d := Decoded(eventName, headers, JsString(data));
  }

  /** The binary branch of `onmessage`: the same scan over bytes, stopping at the first STX. */
  method DecodeBinary(msg: Bytes) returns (d: Decoded)
    ensures d == DecodeBinarySpec(msg)
  {
    var eventName: string, headers: set<char> := [], {};
    var headersStarted := false;
    var i := 0;
    ghost var m: string := [];
    while i < |msg|
      invariant 0 <= i <= |msg| && m == Chars(msg[..i])
      invariant DataStartCode !in msg[..i] && DataStart !in m
      invariant headersStarted == (HeaderStart in m)
      invariant eventName == TextName(m) && headers == TextHeaders(m)
    {
      var chr := msg[i];
      assert msg[..i + 1] == msg[..i] + [chr];
      CharsAppend(msg[..i], [chr]);
      ghost var m' := m + [CharOf(chr)];
      assert Chars(msg[..i + 1]) == m';
      if chr != DataStartCode && chr != HeaderStartCode && !headersStarted {
        PrefixStep(m, CharOf(chr));
        eventName := eventName + [CharOf(chr)];
      } else if chr == HeaderStartCode && !headersStarted {
        PrefixStep(m, CharOf(chr));
        headersStarted := true;
      } else if headersStarted && chr != DataStartCode {
        PrefixStep(m, CharOf(chr));
        headers := headers + {CharOf(chr)};
      } else {
        assert chr == DataStartCode;
        BinaryStopsAtData(msg, i, m);
        return Decoded(eventName, headers, JsBuffer(msg[i + 1..]));
      }
      i := i + 1;
      m := m';
    }
    assert msg[..i] == msg;
    CharsIn(msg, DataStartCode);
    return Decoded(eventName, headers, JsString([]));
  }

  lemma BinaryStopsAtData(msg: Bytes, i: nat, m: string)
    requires i < |msg| && msg[i] == DataStartCode && DataStartCode !in msg[..i]
    requires m == Chars(msg[..i]) && DataStart !in m
    ensures DecodeBinarySpec(msg) == Decoded(TextName(m), TextHeaders(m), JsBuffer(msg[i + 1..]))
  {
    var rest := msg[i + 1..];
    assert Chars(msg) == m + [DataStart] + Chars(rest) by {
      assert msg == msg[..i] + [DataStartCode] + rest;
      CharsAppend(msg[..i] + [DataStartCode], rest);
      CharsAppend(msg[..i], [DataStartCode]);
    }
    assert IndexOf(msg, DataStartCode) == i by {
      IndexOfUnique(msg, DataStartCode, i);
    }
    StopsAtData(m, Chars(rest));
  }

  /** Frames a server writes (`name SOH flags STX payload`) decode to exactly those parts. */
  lemma DecodeTextHeaderFrame(name: string, flags: string, payload: string)
    requires HeaderStart !in name && DataStart !in name && DataStart !in flags
    ensures DecodeTextSpec(name + [HeaderStart] + flags + [DataStart] + payload)
            == Decoded(name, Elems(flags), JsString(payload))
  {
    var pre := name + [HeaderStart] + flags;
    var m := pre + [DataStart] + payload;
    Around(name, HeaderStart, flags);
    Around(pre, DataStart, payload);
    assert DataStart !in pre;
    NameByHead(m, |pre|);
    IndexOfUnique(pre, DataStart, |pre|);
    IndexOfUnique(pre, HeaderStart, |name|);
    assert pre[|name| + 1..|pre|] == flags;
    TextDataAfter(m, |pre|);
  }

  /** A frame without STX carries the empty string as its payload. */
  lemma DecodeTextNoData(m: string)
    requires DataStart !in m
    ensures DecodeTextSpec(m).data == JsString([])
  {
  }

  /**
    A frame without header section (`name STX payload`, as `emit` writes
    them) loses the first SOH of its payload: with no SOH before STX, the
    first one after it is taken as the start of a header and dropped.
   */
  lemma DecodeTextNoHeader(name: string, payload: string)
    requires HeaderStart !in name && DataStart !in name
    ensures DecodeTextSpec(name + [DataStart] + payload)
            == Decoded(name, {}, JsString(RemoveFirst(payload, HeaderStart)))
  {
    var m := name + [DataStart] + payload;
    IndexOfFirst(name, DataStart, payload);
    assert m[..|name| + 1] == name + [DataStart];
    assert IndexOf(m, HeaderStart) > |name|;
    assert m[..|name|] == name && m[|name| + 1..] == payload;
  }

  /** Binary frames from the server (`name SOH flags STX payload`) decode to the name and flags read byte by byte, and the payload bytes. */
  lemma DecodeBinaryHeaderFrame(name: Bytes, flags: Bytes, payload: Bytes)
    requires HeaderStartCode !in name && DataStartCode !in name && DataStartCode !in flags
    ensures DecodeBinarySpec(name + [HeaderStartCode] + flags + [DataStartCode] + payload)
            == Decoded(Chars(name), Elems(Chars(flags)), JsBuffer(payload))
  {
    var pre := name + [HeaderStartCode] + flags;
    CharsFrame(name, flags, payload);
    CharsIn(name, HeaderStartCode);
    CharsIn(name, DataStartCode);
    CharsIn(flags, DataStartCode);
    DecodeTextHeaderFrame(Chars(name), Chars(flags), Chars(payload));
    IndexOfFirst(pre, DataStartCode, payload);
    assert (pre + [DataStartCode] + payload)[|pre| + 1..] == payload;
  }

  lemma CharsFrame(name: Bytes, flags: Bytes, payload: Bytes)
    ensures Chars(name + [HeaderStartCode] + flags + [DataStartCode] + payload)
            == Chars(name) + [HeaderStart] + Chars(flags) + [DataStart] + Chars(payload)
  {
    var pre := name + [HeaderStartCode] + flags;
    CharsAppend(name, [HeaderStartCode]);
    CharsAppend(name + [HeaderStartCode], flags);
    CharsAppend(pre, [DataStartCode]);
    CharsAppend(pre + [DataStartCode], payload);
  }

  /** The frame `emit` sends: a binary frame for a buffer, text otherwise. None when `JSON.stringify` throws. */
  datatype ClientFrame = TextFrame(text: string) | BinaryFrame(bytes: Bytes)

  /**
    What `emit` sends for `data`: never a header section, only `name STX payload`.
    A buffer's name characters are truncated to their low byte; an object
    (or null) is sent as JSON, anything else as its string form.
   */
  function EmitFrame(eventName: string, data: JsValue): (r: Option<ClientFrame>)
    ensures r.None? <==> data == JsObject(None)
    ensures r.Some? ==> (r.value.BinaryFrame? <==> data.JsBuffer?)
    ensures r.Some? && r.value.TextFrame? ==>
              |r.value.text| > |eventName| && r.value.text[..|eventName| + 1] == eventName + [DataStart]
    ensures data.JsString? ==> r == Some(TextFrame(eventName + [DataStart] + data.s))
    ensures data.JsObject? && data.json.Some? ==> r == Some(TextFrame(eventName + [DataStart] + data.json.value))
  {
    match data
    case JsBuffer(b) => Some(BinaryFrame(Latin(eventName) + [DataStartCode] + b))
    case JsObject(json) => if json.Some? then Some(TextFrame(eventName + [DataStart] + json.value)) else None
    case JsNull => Some(TextFrame(eventName + [DataStart] + "null"))
    case _ => Some(TextFrame(eventName + [DataStart] + ToJsString(data)))
  }

  /** The buffer branch of `emit`: name bytes, STX, then the data bytes, written with `setUint8`. */
  method EncodeBinary(eventName: string, data: Bytes) returns (ab: array<byte>)
    ensures fresh(ab) && ab.Length == |data| + |eventName| + 1
    ensures BinaryFrame(ab[..]) == EmitFrame(eventName, JsBuffer(data)).value
  {
    ab := new byte[|data| + |eventName| + 1];
    var i := 0;
    while i < |eventName|
      invariant 0 <= i <= |eventName|
      invariant forall j :: 0 <= j < i ==> ab[j] == ByteOf(eventName[j])
    {
      ab[i] := ByteOf(eventName[i]);
      i := i + 1;
    }
    ab[i] := DataStartCode;
    i := i + 1;
    var x := 0;
    while x < |data|
      invariant 0 <= x <= |data| && i == |eventName| + 1 + x
      invariant forall j :: 0 <= j < |eventName| ==> ab[j] == ByteOf(eventName[j])
      invariant ab[|eventName|] == DataStartCode
      invariant forall j :: 0 <= j < x ==> ab[|eventName| + 1 + j] == data[j]
    {
      ab[i] := data[x];
      x, i := x + 1, i + 1;
    }
    assert ab[..] == Latin(eventName) + [DataStartCode] + data;
  }
}
