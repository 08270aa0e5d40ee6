/**
  Bytes and the character/byte correspondence used where text crosses the wire.

  A Go `string` or `[]byte` whose contents reach a frame is modelled as `Bytes`.
  A JavaScript string is a `string` whose characters stand for UTF-16 code units.
  Where the browser client moves between the two itself (event names in
  binary frames) it does so one byte per character, as Latin-1; text frames
  are UTF-8, see module Utf8.
 */
module Text {

  newtype byte = b: int | 0 <= b < 256

  type Bytes = seq<byte>

  /** The character whose code is the byte (`String.fromCharCode(b)`). */
  function CharOf(b: byte): (c: char)
    ensures c as int == b as int
  {
    (b as int) as char
  }

  /** The low eight bits of a character code (what `DataView.setUint8` stores). */
  function ByteOf(c: char): (b: byte)
    ensures b as int == c as int % 256
  {
    ((c as int) % 256) as byte
  }

  /** Bytes read as text, one character per byte. */
  function Chars(bs: Bytes): (s: string)
    ensures |s| == |bs|
    ensures forall i :: 0 <= i < |bs| ==> s[i] == CharOf(bs[i])
  {
    seq(|bs|, i requires 0 <= i < |bs| => CharOf(bs[i]))
  }

  /** Text written as bytes, one byte per character. */
  function Latin(s: string): (bs: Bytes)
    ensures |bs| == |s|
    ensures forall i :: 0 <= i < |s| ==> bs[i] == ByteOf(s[i])
  {
    seq(|s|, i requires 0 <= i < |s| => ByteOf(s[i]))
  }

  /** An ASCII literal as bytes. */
  function Ascii(s: string): Bytes
  {
    Latin(s)
  }

  lemma CharsLatin(bs: Bytes)
    ensures Latin(Chars(bs)) == bs
  {
  }

  lemma CharsAppend(a: Bytes, b: Bytes)
    ensures Chars(a + b) == Chars(a) + Chars(b)
  {
  }

  lemma CharsIn(bs: Bytes, b: byte)
    ensures b in bs <==> CharOf(b) in Chars(bs)
  {
    if CharOf(b) in Chars(bs) {
      var i :| 0 <= i < |bs| && Chars(bs)[i] == CharOf(b);
      assert bs[i] == b;
    }
  }

  lemma LatinAppend(a: string, b: string)
    ensures Latin(a + b) == Latin(a) + Latin(b)
  {
  }

  function Digit(d: int): (c: char)
    requires 0 <= d < 10
    ensures '0' <= c <= '9'
  {
    ('0' as int + d) as char
  }

  /** Decimal notation of an integer, with a leading '-' when negative (`%d`, `String(n)`). */
  function Decimal(n: int): (s: string)
    ensures |s| >= 1
    ensures n >= 0 ==> forall i :: 0 <= i < |s| ==> '0' <= s[i] <= '9'
    ensures n < 0 <==> s[0] == '-'
    ensures forall i :: 0 <= i < |s| ==> s[i] == '-' || '0' <= s[i] <= '9'
    decreases if n < 0 then 1 - n else n
  {
    if n < 0 then "-" + Decimal(-n)
    else if n < 10 then [Digit(n)]
    else Decimal(n / 10) + [Digit(n % 10)]
  }
}
