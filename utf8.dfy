/**
 * UTF-8 as defined by RFC 3629: the encoding Python's `str.encode('utf-8')`
 * produces and the strict decoding `bytes.decode('utf-8')` accepts.
 * A Dafny `char` is a Unicode scalar value, so every string can be encoded.
 */
module Utf8 {
  import opened Wrappers

  type byte = x: int | 0 <= x < 256

  /** A continuation byte 10xxxxxx. */
  predicate IsContinuation(b: byte) { 0x80 <= b < 0xC0 }

  /** The six payload bits of a continuation byte. */
  function Payload(b: byte): int { b as int - 0x80 }

  /** The one to four bytes that encode one scalar value (section 3 of RFC 3629). */
  function EncodeChar(c: char): (r: seq<byte>)
    ensures 1 <= |r| <= 4
  {
    var cp := c as int;
    if cp < 0x80 then [cp]
    else if cp < 0x800 then [0xC0 + cp / 64, 0x80 + cp % 64]
    else if cp < 0x1_0000 then [0xE0 + cp / 4096, 0x80 + (cp / 64) % 64, 0x80 + cp % 64]
    else [0xF0 + cp / 262144, 0x80 + (cp / 4096) % 64, 0x80 + (cp / 64) % 64, 0x80 + cp % 64]
  }

  /** `s.encode('utf-8')`; the producer's `key_serializer`. */
  function Encode(s: string): (r: seq<byte>)
    ensures |r| >= |s|
    ensures |r| == 0 <==> s == ""
  {
    if s == "" then [] else EncodeChar(s[0]) + Encode(s[1..])
  }

  /**
   * Decodes the first scalar value of `b` and says how many bytes it took,
   * or None when `b` does not start with a well-formed sequence: a stray
   * continuation byte, a truncated sequence, an overlong form, a surrogate
   * or a value above U+10FFFF (the well-formed sequences of section 4 of RFC 3629).
   */
  function DecodeFirst(b: seq<byte>): (r: Option<(char, nat)>)
    requires |b| > 0
    ensures r.Some? ==> 1 <= r.value.1 <= |b| && r.value.1 <= 4
  {
    var b0 := b[0] as int;
    if b0 < 0x80 then Some((b0 as char, 1))
    else if 0xC2 <= b0 < 0xE0 then
      if |b| >= 2 && IsContinuation(b[1]) then
        Some((((b0 - 0xC0) * 64 + Payload(b[1])) as char, 2))
      else None
    else if 0xE0 <= b0 < 0xF0 then
      if |b| >= 3 && IsContinuation(b[1]) && IsContinuation(b[2]) then
        var cp := (b0 - 0xE0) * 4096 + Payload(b[1]) * 64 + Payload(b[2]);
        if cp < 0x800 || 0xD800 <= cp < 0xE000 then None else Some((cp as char, 3))
      else None
    else if 0xF0 <= b0 < 0xF5 then
      if |b| >= 4 && IsContinuation(b[1]) && IsContinuation(b[2]) && IsContinuation(b[3]) then
        var cp := (b0 - 0xF0) * 262144 + Payload(b[1]) * 4096 + Payload(b[2]) * 64 + Payload(b[3]);
        if cp < 0x1_0000 || cp >= 0x11_0000 then None else Some((cp as char, 4))
      else None
    else None
  }

  /** `b.decode('utf-8')` with strict error handling: None stands for UnicodeDecodeError. */
  function Decode(b: seq<byte>): (r: Option<string>)
    ensures r.Some? ==> |r.value| <= |b|
    ensures b == [] ==> r == Some("")
    decreases |b|
  {
    if b == [] then Some("")
    else match DecodeFirst(b)
      case None => None
      case Some((c, n)) =>
        match Decode(b[n..])
        case None => None
        case Some(rest) => Some([c] + rest)
  }

  /** The decoder reads back exactly the character the encoder wrote, whatever follows it. */
  lemma DecodeFirstOfEncodeChar(c: char, rest: seq<byte>)
    ensures DecodeFirst(EncodeChar(c) + rest) == Some((c, |EncodeChar(c)|))
  {
    var cp := c as int;
    var b := EncodeChar(c) + rest;
    if cp < 0x80 {
    } else if cp < 0x800 {
      assert b[0] as int == 0xC0 + cp / 64 && Payload(b[1]) == cp % 64;
    } else if cp < 0x1_0000 {
      var q := cp / 64;
      assert q / 64 == cp / 4096;
      assert b[0] as int == 0xE0 + cp / 4096 && Payload(b[1]) == q % 64 && Payload(b[2]) == cp % 64;
    } else {
      var q := cp / 64;
      var q2 := cp / 4096;
      assert q2 == q / 64;
      assert q2 / 64 == cp / 262144;
      assert b[0] as int == 0xF0 + cp / 262144;
      assert Payload(b[1]) == q2 % 64 && Payload(b[2]) == q % 64 && Payload(b[3]) == cp % 64;
    }
  }

  /** Round trip: decoding the encoding of any string gives the string back. */
  lemma {:induction false} DecodeEncode(s: string)
    ensures Decode(Encode(s)) == Some(s)
  {
    if s != "" {
      var e := EncodeChar(s[0]);
      var tail := Encode(s[1..]);
      DecodeFirstOfEncodeChar(s[0], tail);
      assert (e + tail)[|e|..] == tail;
      DecodeEncode(s[1..]);
      assert [s[0]] + s[1..] == s;
    }
  }

  lemma EncodeTwo(c: char, b0: int, p1: int)
    requires 0xC2 <= b0 < 0xE0 && 0 <= p1 < 64
    requires c as int == (b0 - 0xC0) * 64 + p1
    ensures EncodeChar(c) == [b0, 0x80 + p1]
  {
    var cp := c as int;
    assert cp / 64 == b0 - 0xC0 && cp % 64 == p1;
  }

  lemma EncodeThree(c: char, b0: int, p1: int, p2: int)
    requires 0xE0 <= b0 < 0xF0 && 0 <= p1 < 64 && 0 <= p2 < 64
    requires c as int == (b0 - 0xE0) * 4096 + p1 * 64 + p2
    requires c as int >= 0x800
    ensures EncodeChar(c) == [b0, 0x80 + p1, 0x80 + p2]
  {
    var cp := c as int;
    var q := (b0 - 0xE0) * 64 + p1;
    assert cp == q * 64 + p2;
    assert cp / 64 == q && cp % 64 == p2;
    assert q / 64 == b0 - 0xE0 && q % 64 == p1;
    assert cp / 4096 == b0 - 0xE0;
  }

  lemma EncodeFour(c: char, b0: int, p1: int, p2: int, p3: int)
    requires 0xF0 <= b0 < 0xF5 && 0 <= p1 < 64 && 0 <= p2 < 64 && 0 <= p3 < 64
    requires c as int == (b0 - 0xF0) * 262144 + p1 * 4096 + p2 * 64 + p3
    requires c as int >= 0x1_0000
    ensures EncodeChar(c) == [b0, 0x80 + p1, 0x80 + p2, 0x80 + p3]
  {
    var cp := c as int;
    var q2 := (b0 - 0xF0) * 64 + p1;
    var q := q2 * 64 + p2;
    assert cp == q * 64 + p3;
    assert cp / 64 == q && cp % 64 == p3;
    assert q / 64 == q2 && q % 64 == p2;
    assert q2 / 64 == b0 - 0xF0 && q2 % 64 == p1;
    assert cp / 4096 == q2;
    assert cp / 262144 == b0 - 0xF0;
  }

  /** Whatever the decoder accepts as one character is exactly that character's encoding. */
  lemma EncodeCharOfDecodeFirst(b: seq<byte>)
    requires |b| > 0 && DecodeFirst(b).Some?
    ensures EncodeChar(DecodeFirst(b).value.0) == b[..DecodeFirst(b).value.1]
  {
    var b0 := b[0] as int;
    var c := DecodeFirst(b).value.0;
    if b0 < 0x80 {
    } else if b0 < 0xE0 {
      EncodeTwo(c, b0, Payload(b[1]));
    } else if b0 < 0xF0 {
      EncodeThree(c, b0, Payload(b[1]), Payload(b[2]));
    } else {
      EncodeFour(c, b0, Payload(b[1]), Payload(b[2]), Payload(b[3]));
    }
  }

  /** An accepted non-empty byte string is one accepted character followed by an accepted rest. */
  lemma DecodeStep(b: seq<byte>)
    requires b != [] && Decode(b).Some?
    ensures DecodeFirst(b).Some?
    ensures Decode(b[DecodeFirst(b).value.1..]).Some?
    ensures Decode(b).value == [DecodeFirst(b).value.0] + Decode(b[DecodeFirst(b).value.1..]).value
  {
  }

  /** The other direction: a byte string the decoder accepts is the encoding of what it decodes to. */
  lemma {:induction false} EncodeDecode(b: seq<byte>)
    requires Decode(b).Some?
    ensures Encode(Decode(b).value) == b
    decreases |b|
  {
    if b != [] {
      DecodeStep(b);
      var n := DecodeFirst(b).value.1;
      var s := Decode(b).value;
      EncodeCharOfDecodeFirst(b);
      EncodeDecode(b[n..]);
      assert s[0] == DecodeFirst(b).value.0 && s[1..] == Decode(b[n..]).value;
      assert b == b[..n] + b[n..];
    }
  }
}
