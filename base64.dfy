/**
  Base64 with the standard alphabet and '=' padding (section 4 of RFC 4648),
  as Go's `base64.StdEncoding` encodes and decodes it. The decoder skips
  '\r' and '\n' anywhere in its input and ignores the unused low bits of the
  last character of a padded group, as that (non-strict) encoding does.
 */
module Base64 {
  import opened Wrappers
  import opened Text

  const Pad: char := '='

  /** The character for a six-bit value, in the order A-Z, a-z, 0-9, '+', '/'. */
  function EncodeDigit(n: int): (c: char)
    requires 0 <= n < 64
    ensures c != Pad && c != '\r' && c != '\n'
  {
    if n < 26 then ('A' as int + n) as char
    else if n < 52 then ('a' as int + (n - 26)) as char
    else if n < 62 then ('0' as int + (n - 52)) as char
    else if n == 62 then '+'
    else '/'
  }

  /** The six-bit value of an alphabet character; None for anything else, '=' included. */
  function DecodeDigit(c: char): (r: Option<int>)
    ensures r.Some? ==> 0 <= r.value < 64
  {
    if 'A' <= c <= 'Z' then Some(c as int - 'A' as int)
    else if 'a' <= c <= 'z' then Some(c as int - 'a' as int + 26)
    else if '0' <= c <= '9' then Some(c as int - '0' as int + 52)
    else if c == '+' then Some(62)
    else if c == '/' then Some(63)
    else None
  }

  /** Every alphabet character decodes back to its value. */
  lemma DigitRoundTrip(n: int)
    requires 0 <= n < 64
    ensures DecodeDigit(EncodeDigit(n)) == Some(n)
  {
  }

  /** The encoding: every three bytes become four characters; a final one or two bytes are padded. */
  function Encode(b: Bytes): (s: string)
    decreases |b|
  {
    if |b| == 0 then ""
    else
      var b0 := b[0] as int;
      var b1 := if |b| > 1 then b[1] as int else 0;
      var b2 := if |b| > 2 then b[2] as int else 0;
      var c0, c1 := EncodeDigit(b0 / 4), EncodeDigit(b0 % 4 * 16 + b1 / 16);
      if |b| == 1 then [c0, c1, Pad, Pad]
      else if |b| == 2 then [c0, c1, EncodeDigit(b1 % 16 * 4), Pad]
      else [c0, c1, EncodeDigit(b1 % 16 * 4 + b2 / 64), EncodeDigit(b2 % 64)] + Encode(b[3..])
  }

  /** The bytes a group of four six-bit values stands for: three, or the first `k` of them. */
  function Unpack(d0: int, d1: int, d2: int, d3: int, k: nat): (r: Bytes)
    requires 0 <= d0 < 64 && 0 <= d1 < 64 && 0 <= d2 < 64 && 0 <= d3 < 64 && 1 <= k <= 3
    ensures |r| == k
  {
    var all: Bytes := [(d0 * 4 + d1 / 16) as byte, (d1 % 16 * 16 + d2 / 4) as byte, (d2 % 4 * 64 + d3) as byte];
    all[..k]
  }

  /** A four-character group: full, or with one or two '=' when it is the last group. */
  function DecodeQuad(q: string, last: bool): (r: Option<Bytes>)
    requires |q| == 4
    ensures r.Some? ==> 1 <= |r.value| <= 3 && (!last ==> |r.value| == 3)
  {
    var d0, d1, d2, d3 := DecodeDigit(q[0]), DecodeDigit(q[1]), DecodeDigit(q[2]), DecodeDigit(q[3]);
    if d0.None? || d1.None? then None
    else if d2.Some? && d3.Some? then Some(Unpack(d0.value, d1.value, d2.value, d3.value, 3))
    else if last && d2.Some? && q[3] == Pad then Some(Unpack(d0.value, d1.value, d2.value, 0, 2))
    else if last && q[2] == Pad && q[3] == Pad then Some(Unpack(d0.value, d1.value, 0, 0, 1))
    else None
  }

  /** Decoding input that holds no line breaks: whole groups of four, padding only in the last. */
  function DecodeGroups(s: string): (r: Option<Bytes>)
    decreases |s|
  {
    if |s| == 0 then Some([])
    else if |s| < 4 then None
    else
      match DecodeQuad(s[..4], |s| == 4)
      case None => None
      case Some(g) =>
        match DecodeGroups(s[4..])
        case None => None
        case Some(rest) => Some(g + rest)
  }

  /** `s` without its '\r' and '\n' characters. */
  function DropLineBreaks(s: string): (r: string)
    ensures '\r' !in r && '\n' !in r
  {
    if |s| == 0 then ""
    else if s[0] == '\r' || s[0] == '\n' then DropLineBreaks(s[1..])
    else [s[0]] + DropLineBreaks(s[1..])
  }

  /** `DecodeString`: None stands for Go's `CorruptInputError`. */
  function Decode(s: string): Option<Bytes>
  {
    DecodeGroups(DropLineBreaks(s))
  }

  lemma MulSmall(x: int, d: int)
    requires d > 0 && -d < x * d < d
    ensures x == 0
  {
  }

  /** Quotient and remainder are unique. */
  lemma DivDecomp(n: int, d: int, q: int, r: int)
    requires 0 < d && n == q * d + r && 0 <= r < d
    ensures n / d == q && n % d == r
  {
    var q', r' := n / d, n % d;
    assert (q - q') * d == r' - r;
    MulSmall(q - q', d);
  }

  /** The digit arithmetic of one group undone: the high and low parts of each byte recombine. */
  lemma DigitArithmetic(x0: int, x1: int, x2: int)
    requires 0 <= x0 < 256 && 0 <= x1 < 256 && 0 <= x2 < 256
    ensures var d1, d2 := x0 % 4 * 16 + x1 / 16, x1 % 16 * 4 + x2 / 64;
            x0 / 4 * 4 + d1 / 16 == x0 && d1 % 16 * 16 + d2 / 4 == x1 && d2 % 4 * 64 + x2 % 64 == x2
  {
    var d1, d2 := x0 % 4 * 16 + x1 / 16, x1 % 16 * 4 + x2 / 64;
    DivDecomp(d1, 16, x0 % 4, x1 / 16);
    DivDecomp(d2, 4, x1 % 16, x2 / 64);
  }

  /** Three bytes spread over four digits come back whole. */
  lemma GroupRoundTrip(b0: byte, b1: byte, b2: byte, last: bool)
    ensures var x0, x1, x2 := b0 as int, b1 as int, b2 as int;
            DecodeQuad([EncodeDigit(x0 / 4), EncodeDigit(x0 % 4 * 16 + x1 / 16),
                        EncodeDigit(x1 % 16 * 4 + x2 / 64), EncodeDigit(x2 % 64)], last)
            == Some([b0, b1, b2])
  {
    var x0, x1, x2 := b0 as int, b1 as int, b2 as int;
    var d0, d1, d2, d3 := x0 / 4, x0 % 4 * 16 + x1 / 16, x1 % 16 * 4 + x2 / 64, x2 % 64;
    DigitRoundTrip(d0);
    DigitRoundTrip(d1);
    DigitRoundTrip(d2);
    DigitRoundTrip(d3);
    DigitArithmetic(x0, x1, x2);
    assert Unpack(d0, d1, d2, d3, 3) == [b0, b1, b2];
  }

  /** Two bytes and one '=' come back whole. */
  lemma PairRoundTrip(b0: byte, b1: byte)
    ensures var x0, x1 := b0 as int, b1 as int;
            DecodeQuad([EncodeDigit(x0 / 4), EncodeDigit(x0 % 4 * 16 + x1 / 16), EncodeDigit(x1 % 16 * 4), Pad], true)
            == Some([b0, b1])
  {
    var x0, x1 := b0 as int, b1 as int;
    var d0, d1, d2 := x0 / 4, x0 % 4 * 16 + x1 / 16, x1 % 16 * 4;
    DigitRoundTrip(d0);
    DigitRoundTrip(d1);
    DigitRoundTrip(d2);
    DigitArithmetic(x0, x1, 0);
    assert Unpack(d0, d1, d2, 0, 2) == [b0, b1];
  }

  /** One byte and two '=' come back whole. */
  lemma SingleRoundTrip(b0: byte)
    ensures var x0 := b0 as int;
            DecodeQuad([EncodeDigit(x0 / 4), EncodeDigit(x0 % 4 * 16), Pad, Pad], true) == Some([b0])
  {
    var x0 := b0 as int;
    var d0, d1 := x0 / 4, x0 % 4 * 16;
    DigitRoundTrip(d0);
    DigitRoundTrip(d1);
    DigitArithmetic(x0, 0, 0);
    assert Unpack(d0, d1, 0, 0, 1) == [b0];
  }

  /** Every three bytes take four characters, a partial group included. */
  lemma {:induction false} EncodeLength(b: Bytes)
    ensures |Encode(b)| == 4 * ((|b| + 2) / 3)
    decreases |b|
  {
    if |b| >= 3 {
      EncodeLength(b[3..]);
      var k := |b[3..]|;
      assert (k + 3 + 2) / 3 == (k + 2) / 3 + 1;
    }
  }

  /** Whole groups need no padding. */
  lemma {:induction false} EncodeUnpadded(b: Bytes)
    requires |b| % 3 == 0
    ensures Pad !in Encode(b)
    decreases |b|
  {
    if |b| >= 3 {
      EncodeUnpadded(b[3..]);
    }
  }

  /** The encoding never holds a line break, so the decoder's skipping leaves it alone. */
  lemma {:induction false} EncodeNoLineBreaks(b: Bytes)
    ensures '\r' !in Encode(b) && '\n' !in Encode(b)
    decreases |b|
  {
    if |b| >= 3 {
      EncodeNoLineBreaks(b[3..]);
    }
  }

  lemma {:induction false} DropLineBreaksId(s: string)
    requires '\r' !in s && '\n' !in s
    ensures DropLineBreaks(s) == s
  {
    if |s| > 0 {
      DropLineBreaksId(s[1..]);
      assert s == [s[0]] + s[1..];
    }
  }

  /** The four digits standing for three bytes. */
  function Quad(b0: byte, b1: byte, b2: byte): (q: string)
    ensures |q| == 4
  {
    var x0, x1, x2 := b0 as int, b1 as int, b2 as int;
    [EncodeDigit(x0 / 4), EncodeDigit(x0 % 4 * 16 + x1 / 16), EncodeDigit(x1 % 16 * 4 + x2 / 64), EncodeDigit(x2 % 64)]
  }

  lemma EncodeCons(b: Bytes)
    requires |b| >= 3
    ensures Encode(b) == Quad(b[0], b[1], b[2]) + Encode(b[3..])
  {
  }

  /** A decodable group followed by decodable groups decodes to the concatenation. */
  lemma DecodeGroupsCons(q: string, rest: string, g: Bytes, r: Bytes)
    requires |q| == 4 && DecodeQuad(q, rest == []) == Some(g) && DecodeGroups(rest) == Some(r)
    ensures DecodeGroups(q + rest) == Some(g + r)
  {
    assert (q + rest)[..4] == q && (q + rest)[4..] == rest;
  }

  /** A final group of one byte decodes back to it. */
  lemma DecodeGroupsSingle(b0: byte)
    ensures DecodeGroups(Encode([b0])) == Some([b0])
  {
    var x0 := b0 as int;
    var q := [EncodeDigit(x0 / 4), EncodeDigit(x0 % 4 * 16), Pad, Pad];
    assert Encode([b0]) == q;
    SingleRoundTrip(b0);
    DecodeGroupsCons(q, [], [b0], []);
    assert q + [] == q && [b0] + [] == [b0];
  }

  /** A final group of two bytes decodes back to them. */
  lemma DecodeGroupsPair(b0: byte, b1: byte)
    ensures DecodeGroups(Encode([b0, b1])) == Some([b0, b1])
  {
    var x0, x1 := b0 as int, b1 as int;
    var q := [EncodeDigit(x0 / 4), EncodeDigit(x0 % 4 * 16 + x1 / 16), EncodeDigit(x1 % 16 * 4), Pad];
    assert Encode([b0, b1]) == q;
    PairRoundTrip(b0, b1);
    DecodeGroupsCons(q, [], [b0, b1], []);
    assert q + [] == q && [b0, b1] + [] == [b0, b1];
  }

  lemma {:induction false} DecodeGroupsEncode(b: Bytes)
    ensures DecodeGroups(Encode(b)) == Some(b)
    decreases |b|
  {
    if |b| == 1 {
      DecodeGroupsSingle(b[0]);
      assert b == [b[0]];
    } else if |b| == 2 {
      DecodeGroupsPair(b[0], b[1]);
      assert b == [b[0], b[1]];
    } else if |b| >= 3 {
      var rest := Encode(b[3..]);
      DecodeGroupsEncode(b[3..]);
      EncodeCons(b);
      EncodeLength(b[3..]);
      GroupRoundTrip(b[0], b[1], b[2], rest == []);
      DecodeGroupsCons(Quad(b[0], b[1], b[2]), rest, [b[0], b[1], b[2]], b[3..]);
      assert [b[0], b[1], b[2]] + b[3..] == b;
    }
  }

  /** Round trip: `DecodeString(EncodeToString(b)) == b` for every byte string. */
  lemma DecodeEncode(b: Bytes)
    ensures Decode(Encode(b)) == Some(b)
  {
    EncodeNoLineBreaks(b);
    DropLineBreaksId(Encode(b));
    DecodeGroupsEncode(b);
  }

  /** Decodable text without line breaks comes in whole groups of four. */
  lemma {:induction false} DecodeGroupsLength(s: string)
    requires DecodeGroups(s).Some?
    ensures |s| % 4 == 0
    decreases |s|
  {
    if |s| > 0 {
      DecodeGroupsLength(s[4..]);
    }
  }
}
