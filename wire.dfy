/**
  The sac-sock protocol end to end: frames written by one side and read by
  the other. Text frames travel as UTF-8 (section 5.6 of RFC 6455), binary
  frames byte for byte. The Go side names events with the UTF-8 bytes of
  their text.
 */
module Wire {
  import opened Wrappers
  import opened Text
  import opened Seqs
  import Utf8
  import opened GoData
  import Socket
  import Server
  import opened ClientCodec

  /** The flag character the client sees for the flag byte the server writes. */
  function FlagChar(data: GoValue): char
  {
    CharOf(Socket.FlagOf(data))
  }

  lemma FlagAscii(data: GoValue)
    ensures Utf8.EncodeChar(FlagChar(data)) == [Socket.FlagOf(data)]
  {
  }

  /**
    Server to client, text frames: a string or JSON payload whose bytes are
    the UTF-8 of `text` reaches the browser as the string
    `name SOH flag STX text`, which the client decodes to the name, the single
    flag (S or J) and the text.
   */
  lemma ServerTextFrameDecodes(name: string, data: GoValue, text: string)
    requires HeaderStart !in name && DataStart !in name
    requires !data.GoBytes? && Socket.PayloadOf(data) == Utf8.Encode(text)
    ensures var out := Socket.EmitData(Utf8.Encode(name), data);
            && out.msgType == Socket.TextMessage
            && Utf8.Decode(out.frame) == Some(name + [HeaderStart, FlagChar(data), DataStart] + text)
            && DecodeTextSpec(name + [HeaderStart, FlagChar(data), DataStart] + text)
               == Decoded(name, {FlagChar(data)}, JsString(text))
  {
    TextFrameArrives(name, data, text);
    SingleFlagDecodes(name, FlagChar(data), text);
  }

  lemma TextFrameArrives(name: string, data: GoValue, text: string)
    requires Socket.PayloadOf(data) == Utf8.Encode(text)
    ensures Utf8.Decode(Socket.EmitData(Utf8.Encode(name), data).frame)
            == Some(name + [HeaderStart, FlagChar(data), DataStart] + text)
  {
    var t := name + [HeaderStart, FlagChar(data), DataStart] + text;
    EncodeHeaderFrame(name, FlagChar(data), text);
    assert ByteOf(FlagChar(data)) == Socket.FlagOf(data);
    Utf8.DecodeEncode(t);
  }

  lemma SingleFlagDecodes(name: string, flag: char, text: string)
    requires HeaderStart !in name && DataStart !in name && flag != DataStart
    ensures DecodeTextSpec(name + [HeaderStart, flag, DataStart] + text) == Decoded(name, {flag}, JsString(text))
  {
    ThreeBetween(name, HeaderStart, flag, DataStart, text);
    DecodeTextHeaderFrame(name, [flag], text);
    assert Elems([flag]) == {flag};
  }

  /** The UTF-8 of a header frame is the UTF-8 of its parts around the three ASCII control and flag bytes. */
  lemma EncodeHeaderFrame(name: string, flag: char, text: string)
    requires flag as int < 0x80
    ensures Utf8.Encode(name + [HeaderStart, flag, DataStart] + text)
            == Utf8.Encode(name) + [Server.SOH, ByteOf(flag), Server.STX] + Utf8.Encode(text)
  {
    var head := [HeaderStart, flag, DataStart];
    Utf8.EncodeAppend(name + head, text);
    Utf8.EncodeAppend(name, head);
    EncodeHead(flag);
  }

  lemma EncodeHead(flag: char)
    requires flag as int < 0x80
    ensures Utf8.Encode([HeaderStart, flag, DataStart]) == [Server.SOH, ByteOf(flag), Server.STX]
  {
    var head := [HeaderStart, flag, DataStart];
    assert head[1..] == [flag, DataStart] && head[1..][1..] == [DataStart] && head[1..][1..][1..] == [];
    assert Utf8.Encode([DataStart]) == [Server.STX];
    assert Utf8.Encode([flag, DataStart]) == [ByteOf(flag)] + Utf8.Encode([DataStart]);
    assert Utf8.Encode(head) == [Server.SOH] + Utf8.Encode([flag, DataStart]);
  }

  /**
    Server to client, binary frames: the client reads the name one character
    per byte, the single flag B, and exactly the payload bytes as a buffer.
   */
  lemma ServerBinaryFrameDecodes(name: Bytes, payload: Bytes)
    requires Server.SOH !in name && Server.STX !in name
    ensures Socket.EmitData(name, GoBytes(payload)).msgType == Socket.BinaryMessage
    ensures DecodeBinarySpec(Socket.EmitData(name, GoBytes(payload)).frame)
            == Decoded(Chars(name), {'B'}, JsBuffer(payload))
  {
    BinaryFrameShape(name, payload);
    BinaryFlagDecodes(name, payload);
  }

  lemma BinaryFrameShape(name: Bytes, payload: Bytes)
    ensures Socket.EmitData(name, GoBytes(payload)).frame
            == name + [Server.SOH] + [Socket.TypeBin] + [Server.STX] + payload
  {
  }

  lemma BinaryFlagDecodes(name: Bytes, payload: Bytes)
    requires Server.SOH !in name && Server.STX !in name
    ensures DecodeBinarySpec(name + [Server.SOH] + [Socket.TypeBin] + [Server.STX] + payload)
            == Decoded(Chars(name), {'B'}, JsBuffer(payload))
  {
    var flags := [Socket.TypeBin];
    assert Chars(flags) == ['B'];
    assert Elems(Chars(flags)) == {'B'};
    var m := name + [Server.SOH] + [Socket.TypeBin] + [Server.STX] + payload;
    assert m == name + [HeaderStartCode] + flags + [DataStartCode] + payload;
    DecodeBinaryHeaderFrame(name, flags, payload);
  }

  /**
    Event names in binary frames are read as Latin-1, not UTF-8: a name with
    any character outside ASCII arrives differently in a binary and in a text
    frame ("é", UTF-8 bytes C3 A9, arrives as "Ã©"), so a callback registered
    under it is not found for binary payloads. ASCII names agree.
   */
  lemma BinaryNamesAreLatin1(name: string, i: nat)
    requires i < |name| && name[i] as int >= 0x80
    ensures Chars(Utf8.Encode(name)) != name
  {
    Utf8.EncodeLonger(name, i);
  }

  lemma AsciiNamesAgree(name: string)
    requires forall i :: 0 <= i < |name| ==> name[i] as int < 0x80
    ensures Chars(Utf8.Encode(name)) == name
  {
    Utf8.EncodeAscii(name);
    assert forall i | 0 <= i < |name| :: Chars(Latin(name))[i] == name[i];
  }

  /**
    Client to server, text frames: `emit` writes no header, so the server's
    parse recovers the UTF-8 of the name and of the payload text for any
    non-empty name without STX.
   */
  lemma ClientTextFrameParses(name: string, data: JsValue)
    requires name != [] && DataStart !in name
    requires EmitFrame(name, data).Some? && EmitFrame(name, data).value.TextFrame?
    ensures var text := EmitFrame(name, data).value.text;
            var payload := text[|name| + 1..];
            && text == name + [DataStart] + payload
            && Server.ParseFrame(Utf8.Encode(text)) == Some(Server.Frame(Utf8.Encode(name), Utf8.Encode(payload)))
  {
    var text := EmitFrame(name, data).value.text;
    var payload := text[|name| + 1..];
    assert text == name + [DataStart] + payload;
    Utf8.EncodeAppend(name + [DataStart], payload);
    Utf8.EncodeAppend(name, [DataStart]);
    assert Utf8.Encode([DataStart]) == [Server.STX];
    Utf8.AsciiInEncode(name, Server.STX);
    Server.ParseFrameInverse(Utf8.Encode(name), Utf8.Encode(payload));
  }

  /**
    Client to server, binary frames: the server recovers the truncated name
    bytes and exactly the data bytes, provided no name character truncates to
    STX.
   */
  lemma ClientBinaryFrameParses(name: string, data: Bytes)
    requires name != [] && forall i :: 0 <= i < |name| ==> ByteOf(name[i]) != Server.STX
    ensures Server.ParseFrame(EmitFrame(name, JsBuffer(data)).value.bytes) == Some(Server.Frame(Latin(name), data))
  {
    Server.ParseFrameInverse(Latin(name), data);
  }

  /**
    A name character whose low byte is 2 (U+0102 "Ă", say) is truncated to
    STX, and the server cuts the name there: when it is the first character
    the name is empty and the frame is dropped; otherwise the server
    dispatches the name's prefix, with the rest of the name, STX and the data
    as the payload.
   */
  lemma BinaryNameTruncatesToStx(name: string, data: Bytes)
    requires Server.STX in Latin(name)
    ensures var k := IndexOf(Latin(name), Server.STX);
            var bytes := EmitFrame(name, JsBuffer(data)).value.bytes;
            && (k == 0 ==> Server.ParseFrame(bytes).None?)
            && (k > 0 ==> Server.ParseFrame(bytes)
                          == Some(Server.Frame(Latin(name)[..k], Latin(name)[k + 1..] + [Server.STX] + data)))
  {
    IndexOfInPrefix(Latin(name), Server.STX, data, Server.STX);
  }
}
