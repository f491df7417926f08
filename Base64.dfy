/** Base64 as defined in section 4 of RFC 4648: every 3 bytes become 4 characters of
    the 64-character alphabet, and a final group of 1 or 2 bytes is padded with `=`.
    The decoder accepts exactly the canonical encodings: length a multiple of 4,
    padding only at the end, and zero pad bits (section 3.5 of RFC 4648). */
module Base64 {
  import opened Js

  type byte = x: int | 0 <= x < 256
  type sextet = x: int | 0 <= x < 64

  /** The character for a 6-bit value, Table 1 of RFC 4648. */
  function CharOf(v: sextet): (c: char)
    ensures c != '=' && c != ','
  {
    if v < 26 then ('A' as int + v) as char
    else if v < 52 then ('a' as int + (v - 26)) as char
    else if v < 62 then ('0' as int + (v - 52)) as char
    else if v == 62 then '+'
    else '/'
  }

  /** The 6-bit value of an alphabet character; `None` for any other character,
      the pad character `=` included. */
  function ValueOf(c: char): (r: Option<sextet>)
    ensures r.Some? ==> CharOf(r.value) == c
  {
    if 'A' <= c <= 'Z' then Some(c as int - 'A' as int)
    else if 'a' <= c <= 'z' then Some(c as int - 'a' as int + 26)
    else if '0' <= c <= '9' then Some(c as int - '0' as int + 52)
    else if c == '+' then Some(62)
    else if c == '/' then Some(63)
    else None
  }

  lemma ValueOfCharOf(v: sextet)
    ensures ValueOf(CharOf(v)) == Some(v)
  {
  }

  // The 6-bit values of a group of three bytes a, b, c (bits 7..2 of a; bits 1..0 of a
  // with bits 7..4 of b; bits 3..0 of b with bits 7..6 of c; bits 5..0 of c) and the
  // bytes of four 6-bit values q0..q3, the inverse split.

  function Sextet0(a: byte): sextet { a / 4 }
  function Sextet1(a: byte, b: byte): sextet { (a % 4) * 16 + b / 16 }
  function Sextet2(b: byte, c: byte): sextet { (b % 16) * 4 + c / 64 }
  function Sextet3(c: byte): sextet { c % 64 }

  function Byte0(q0: sextet, q1: sextet): byte { q0 * 4 + q1 / 16 }
  function Byte1(q1: sextet, q2: sextet): byte { (q1 % 16) * 16 + q2 / 4 }
  function Byte2(q2: sextet, q3: sextet): byte { (q2 % 4) * 64 + q3 }

  lemma BytesOfSextets(a: byte, b: byte, c: byte)
    ensures Byte0(Sextet0(a), Sextet1(a, b)) == a
    ensures Byte1(Sextet1(a, b), Sextet2(b, c)) == b
    ensures Byte2(Sextet2(b, c), Sextet3(c)) == c
  {
  }

  lemma SextetsOfBytes(q0: sextet, q1: sextet, q2: sextet, q3: sextet)
    ensures Sextet0(Byte0(q0, q1)) == q0
    ensures Sextet1(Byte0(q0, q1), Byte1(q1, q2)) == q1
    ensures Sextet2(Byte1(q1, q2), Byte2(q2, q3)) == q2
    ensures Sextet3(Byte2(q2, q3)) == q3
  {
  }

  /** The pad bits of a final group are zero, and they are the only bits dropped. */
  lemma PadBits(a: byte, b: byte, q0: sextet, q1: sextet, q2: sextet)
    ensures Sextet1(a, 0) % 16 == 0 && Sextet2(b, 0) % 4 == 0
    ensures q1 % 16 == 0 ==> Sextet1(Byte0(q0, q1), 0) == q1
    ensures q2 % 4 == 0 ==> Sextet2(Byte1(q1, q2), 0) == q2
  {
  }

  /** Three bytes as four characters. */
  function EncodeGroup(a: byte, b: byte, c: byte): (s: string)
    ensures |s| == 4
  {
    [CharOf(Sextet0(a)), CharOf(Sextet1(a, b)), CharOf(Sextet2(b, c)), CharOf(Sextet3(c))]
  }

  /** A final group of one byte: two characters and two pad characters. */
  function EncodeOne(a: byte): (s: string)
    ensures |s| == 4
  {
    [CharOf(Sextet0(a)), CharOf(Sextet1(a, 0)), '=', '=']
  }

  /** A final group of two bytes: three characters and one pad character. */
  function EncodeTwo(a: byte, b: byte): (s: string)
    ensures |s| == 4
  {
    [CharOf(Sextet0(a)), CharOf(Sextet1(a, b)), CharOf(Sextet2(b, 0)), '=']
  }

  function Encode(b: seq<byte>): (s: string)
    ensures |s| == (|b| + 2) / 3 * 4
    decreases |b|
  {
    if |b| == 0 then ""
    else if |b| == 1 then EncodeOne(b[0])
    else if |b| == 2 then EncodeTwo(b[0], b[1])
    else EncodeGroup(b[0], b[1], b[2]) + Encode(b[3..])
  }

  /** Four alphabet characters as three bytes. */
  function DecodeGroup(s: string): (r: Option<seq<byte>>)
    requires |s| == 4
    ensures r.Some? ==> |r.value| == 3
  {
    var v0, v1, v2, v3 := ValueOf(s[0]), ValueOf(s[1]), ValueOf(s[2]), ValueOf(s[3]);
    if v0.Some? && v1.Some? && v2.Some? && v3.Some? then
      Some([Byte0(v0.value, v1.value), Byte1(v1.value, v2.value), Byte2(v2.value, v3.value)])
    else None
  }

  /** Two alphabet characters followed by `==` as one byte; the low four bits of the
      second character are pad bits and must be zero. */
  function DecodeOne(s: string): (r: Option<seq<byte>>)
    requires |s| == 4
    ensures r.Some? ==> |r.value| == 1
  {
    var v0, v1 := ValueOf(s[0]), ValueOf(s[1]);
    if v0.Some? && v1.Some? && v1.value % 16 == 0 then Some([Byte0(v0.value, v1.value)])
    else None
  }

  /** Three alphabet characters followed by `=` as two bytes; the low two bits of the
      third character are pad bits and must be zero. */
  function DecodeTwo(s: string): (r: Option<seq<byte>>)
    requires |s| == 4
    ensures r.Some? ==> |r.value| == 2
  {
    var v0, v1, v2 := ValueOf(s[0]), ValueOf(s[1]), ValueOf(s[2]);
    if v0.Some? && v1.Some? && v2.Some? && v2.value % 4 == 0 then
      Some([Byte0(v0.value, v1.value), Byte1(v1.value, v2.value)])
    else None
  }

  /** The last four characters, which may end in one or two pad characters. */
  function DecodeLast(s: string): (r: Option<seq<byte>>)
    requires |s| == 4
    ensures r.Some? ==> 1 <= |r.value| <= 3
  {
    if s[2] == '=' && s[3] == '=' then DecodeOne(s)
    else if s[3] == '=' then DecodeTwo(s)
    else DecodeGroup(s)
  }

  /** The bytes a canonical base64 text stands for, `None` for any other text. */
  function Decode(s: string): (r: Option<seq<byte>>)
    decreases |s|
  {
    if |s| == 0 then Some([])
    else if |s| < 4 then None
    else if |s| == 4 then DecodeLast(s)
    else
      match DecodeGroup(s[..4])
      case None => None
      case Some(g) =>
        match Decode(s[4..])
        case None => None
        case Some(rest) => Some(g + rest)
  }

  // ----- decoding four characters whose 6-bit values are known -----

  lemma DecodeGroupOf(c0: char, c1: char, c2: char, c3: char, q0: sextet, q1: sextet, q2: sextet, q3: sextet)
    requires ValueOf(c0) == Some(q0) && ValueOf(c1) == Some(q1)
    requires ValueOf(c2) == Some(q2) && ValueOf(c3) == Some(q3)
    ensures DecodeLast([c0, c1, c2, c3]) == DecodeGroup([c0, c1, c2, c3])
    ensures DecodeGroup([c0, c1, c2, c3]) == Some([Byte0(q0, q1), Byte1(q1, q2), Byte2(q2, q3)])
  {
  }

  lemma DecodeOneOf(c0: char, c1: char, q0: sextet, q1: sextet)
    requires ValueOf(c0) == Some(q0) && ValueOf(c1) == Some(q1) && q1 % 16 == 0
    ensures DecodeLast([c0, c1, '=', '=']) == Some([Byte0(q0, q1)])
  {
  }

  lemma DecodeTwoOf(c0: char, c1: char, c2: char, q0: sextet, q1: sextet, q2: sextet)
    requires ValueOf(c0) == Some(q0) && ValueOf(c1) == Some(q1) && ValueOf(c2) == Some(q2)
    requires q2 % 4 == 0
    ensures DecodeLast([c0, c1, c2, '=']) == Some([Byte0(q0, q1), Byte1(q1, q2)])
  {
  }

  // ----- round trip, bytes to text and back -----

  lemma DecodeGroupOfEncodeBytes(a: byte, b: byte, c: byte)
    ensures DecodeLast(EncodeGroup(a, b, c)) == DecodeGroup(EncodeGroup(a, b, c))
    ensures DecodeGroup(EncodeGroup(a, b, c)) == Some([Byte0(Sextet0(a), Sextet1(a, b)),
      Byte1(Sextet1(a, b), Sextet2(b, c)), Byte2(Sextet2(b, c), Sextet3(c))])
  {
    var q0, q1, q2, q3 := Sextet0(a), Sextet1(a, b), Sextet2(b, c), Sextet3(c);
    ValueOfCharOf(q0);
    ValueOfCharOf(q1);
    ValueOfCharOf(q2);
    ValueOfCharOf(q3);
    DecodeGroupOf(CharOf(q0), CharOf(q1), CharOf(q2), CharOf(q3), q0, q1, q2, q3);
  }

  lemma DecodeGroupOfEncode(a: byte, b: byte, c: byte)
    ensures DecodeLast(EncodeGroup(a, b, c)) == Some([a, b, c])
    ensures DecodeGroup(EncodeGroup(a, b, c)) == Some([a, b, c])
  {
    DecodeGroupOfEncodeBytes(a, b, c);
    BytesOfSextets(a, b, c);
  }

  lemma DecodeOneOfEncodeBytes(a: byte)
    ensures DecodeLast(EncodeOne(a)) == Some([Byte0(Sextet0(a), Sextet1(a, 0))])
  {
    var q0, q1 := Sextet0(a), Sextet1(a, 0);
    ValueOfCharOf(q0);
    ValueOfCharOf(q1);
    PadBits(a, 0, 0, 0, 0);
    DecodeOneOf(CharOf(q0), CharOf(q1), q0, q1);
  }

  lemma DecodeTwoOfEncodeBytes(a: byte, b: byte)
    ensures DecodeLast(EncodeTwo(a, b)) == Some([Byte0(Sextet0(a), Sextet1(a, b)), Byte1(Sextet1(a, b), Sextet2(b, 0))])
  {
    var q0, q1, q2 := Sextet0(a), Sextet1(a, b), Sextet2(b, 0);
    ValueOfCharOf(q0);
    ValueOfCharOf(q1);
    ValueOfCharOf(q2);
    PadBits(a, b, 0, 0, 0);
    DecodeTwoOf(CharOf(q0), CharOf(q1), CharOf(q2), q0, q1, q2);
  }

  lemma DecodeOneOfEncode(a: byte)
    ensures DecodeLast(EncodeOne(a)) == Some([a])
  {
    DecodeOneOfEncodeBytes(a);
    BytesOfSextets(a, 0, 0);
  }

  lemma DecodeTwoOfEncode(a: byte, b: byte)
    ensures DecodeLast(EncodeTwo(a, b)) == Some([a, b])
  {
    DecodeTwoOfEncodeBytes(a, b);
    BytesOfSextets(a, b, 0);
  }

  lemma DecodeLastOfEncode(b: seq<byte>)
    requires 1 <= |b| <= 3
    ensures DecodeLast(Encode(b)) == Some(b)
  {
    if |b| == 1 {
      DecodeLastOfEncodeOne(b);
    } else if |b| == 2 {
      DecodeLastOfEncodeTwo(b);
    } else {
      DecodeLastOfEncodeThree(b);
    }
  }

  lemma DecodeLastOfEncodeOne(b: seq<byte>)
    requires |b| == 1
    ensures DecodeLast(Encode(b)) == Some(b)
  {
    assert b == [b[0]];
    assert Encode(b) == EncodeOne(b[0]);
    DecodeOneOfEncode(b[0]);
  }

  lemma DecodeLastOfEncodeTwo(b: seq<byte>)
    requires |b| == 2
    ensures DecodeLast(Encode(b)) == Some(b)
  {
    assert b == [b[0], b[1]];
    assert Encode(b) == EncodeTwo(b[0], b[1]);
    DecodeTwoOfEncode(b[0], b[1]);
  }

  lemma DecodeLastOfEncodeThree(b: seq<byte>)
    requires |b| == 3
    ensures DecodeLast(Encode(b)) == Some(b)
  {
    assert b == [b[0], b[1], b[2]];
    assert Encode(b) == EncodeGroup(b[0], b[1], b[2]) by {
      assert Encode(b[3..]) == "";
    }
    DecodeGroupOfEncode(b[0], b[1], b[2]);
  }

  /** Every character of an encoding is an alphabet character or `=`, so never a comma. */
  lemma {:induction false} EncodeHasNoComma(b: seq<byte>)
    ensures ',' !in Encode(b)
    decreases |b|
  {
    if |b| > 2 {
      EncodeHasNoComma(b[3..]);
    }
  }

  /** A full group in front of a non-empty decodable rest decodes to the group's bytes
      followed by the rest's. */
  lemma DecodeCons(head: string, tail: string, g: seq<byte>, rest: seq<byte>)
    requires |head| == 4 && |tail| > 0
    requires DecodeGroup(head) == Some(g) && Decode(tail) == Some(rest)
    ensures Decode(head + tail) == Some(g + rest)
  {
    var s := head + tail;
    assert s[..4] == head;
    assert s[4..] == tail;
  }

  /** Decoding the encoding of any bytes gives those bytes back. */
  lemma {:induction false} DecodeEncode(b: seq<byte>)
    ensures Decode(Encode(b)) == Some(b)
    decreases |b|
  {
    if 1 <= |b| <= 3 {
      DecodeLastOfEncode(b);
    } else if |b| > 3 {
      DecodeEncode(b[3..]);
      DecodeEncodeStep(b);
    }
  }

  lemma FirstThree(b: seq<byte>)
    requires |b| >= 3
    ensures b == [b[0], b[1], b[2]] + b[3..]
  {
  }

  /** The inductive step of DecodeEncode: a leading full group decodes back to its bytes. */
  lemma DecodeEncodeStep(b: seq<byte>)
    requires |b| > 3 && Decode(Encode(b[3..])) == Some(b[3..])
    ensures Decode(Encode(b)) == Some(b)
  {
    var g := [b[0], b[1], b[2]];
    FirstThree(b);
    var head := EncodeGroup(b[0], b[1], b[2]);
    assert Encode(b) == head + Encode(b[3..]);
    DecodeGroupOfEncode(b[0], b[1], b[2]);
    DecodeCons(head, Encode(b[3..]), g, b[3..]);
  }

  // ----- round trip, text to bytes and back: the decoder accepts only canonical text -----

  lemma EncodeGroupOfBytes(q0: sextet, q1: sextet, q2: sextet, q3: sextet)
    ensures EncodeGroup(Byte0(q0, q1), Byte1(q1, q2), Byte2(q2, q3)) == [CharOf(q0), CharOf(q1), CharOf(q2), CharOf(q3)]
  {
    SextetsOfBytes(q0, q1, q2, q3);
  }

  lemma EncodeOneOfBytes(q0: sextet, q1: sextet)
    requires q1 % 16 == 0
    ensures EncodeOne(Byte0(q0, q1)) == [CharOf(q0), CharOf(q1), '=', '=']
  {
    var a := Byte0(q0, q1);
    assert Sextet0(a) == q0 by {
      SextetsOfBytes(q0, q1, 0, 0);
    }
    assert Sextet1(a, 0) == q1 by {
      PadBits(0, 0, q0, q1, 0);
    }
  }

  lemma EncodeTwoOfBytes(q0: sextet, q1: sextet, q2: sextet)
    requires q2 % 4 == 0
    ensures EncodeTwo(Byte0(q0, q1), Byte1(q1, q2)) == [CharOf(q0), CharOf(q1), CharOf(q2), '=']
  {
    SextetsOfBytes(q0, q1, q2, 0);
    PadBits(0, 0, q0, q1, q2);
  }

  lemma EncodeOfDecodeGroup(s: string)
    requires |s| == 4 && DecodeGroup(s).Some?
    ensures var g := DecodeGroup(s).value; EncodeGroup(g[0], g[1], g[2]) == s
  {
    var q0, q1, q2, q3 := ValueOf(s[0]).value, ValueOf(s[1]).value, ValueOf(s[2]).value, ValueOf(s[3]).value;
    assert s == [s[0], s[1], s[2], s[3]];
    DecodeGroupOf(s[0], s[1], s[2], s[3], q0, q1, q2, q3);
    EncodeGroupOfBytes(q0, q1, q2, q3);
  }

  lemma EncodeOfDecodeLast(s: string)
    requires |s| == 4 && DecodeLast(s).Some?
    ensures Encode(DecodeLast(s).value) == s
  {
    var g := DecodeLast(s).value;
    assert s == [s[0], s[1], s[2], s[3]];
    if s[2] == '=' && s[3] == '=' {
      var q0, q1 := ValueOf(s[0]).value, ValueOf(s[1]).value;
      DecodeOneOf(s[0], s[1], q0, q1);
      EncodeOneOfBytes(q0, q1);
    } else if s[3] == '=' {
      var q0, q1, q2 := ValueOf(s[0]).value, ValueOf(s[1]).value, ValueOf(s[2]).value;
      DecodeTwoOf(s[0], s[1], s[2], q0, q1, q2);
      EncodeTwoOfBytes(q0, q1, q2);
    } else {
      EncodeOfDecodeGroup(s);
      assert Encode(g) == EncodeGroup(g[0], g[1], g[2]) + Encode(g[3..]);
    }
  }

  /** Whatever text the decoder accepts is the encoding of the bytes it returns. */
  lemma {:induction false} EncodeDecode(s: string)
    requires Decode(s).Some?
    ensures Encode(Decode(s).value) == s
    decreases |s|
  {
    var b := Decode(s).value;
    if |s| == 4 {
      EncodeOfDecodeLast(s);
    } else if |s| > 4 {
      var g := DecodeGroup(s[..4]).value;
      EncodeOfDecodeGroup(s[..4]);
      EncodeDecode(s[4..]);
      var rest := Decode(s[4..]).value;
      assert b == g + rest;
      assert |rest| > 0 by {
        assert |Encode(rest)| == |s| - 4;
      }
      assert b[3..] == rest;
      assert s == s[..4] + s[4..];
    }
  }

  /** The decoder and the encoder are inverse: a text decodes to `b` exactly when it
      is the encoding of `b`. */
  lemma DecodeIffEncode(s: string, b: seq<byte>)
    ensures Decode(s) == Some(b) <==> s == Encode(b)
  {
    if Decode(s) == Some(b) {
      EncodeDecode(s);
    }
    if s == Encode(b) {
      DecodeEncode(b);
    }
  }
}
