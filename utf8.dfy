/** Strict UTF-8 decoding as defined by RFC 3629 (section 3 for the bit
    layout, section 4 for the byte-sequence syntax that excludes overlong
    forms, surrogates and code points above U+10FFFF), an encoder, and the
    ISO/IEC 8859-1 (Latin-1) decoding that maps each byte to one character. */
module Utf8 {
  import opened Common

  type Byte = x: int | 0 <= x < 256

  predicate IsTail(x: Byte) {
    0x80 <= x <= 0xBF
  }

  /** Lowest and highest allowed second byte after a three-byte lead
      (RFC 3629, section 4: E0 needs A0..BF, ED needs 80..9F). */
  function ThreeByteLow(lead: Byte): Byte { if lead == 0xE0 then 0xA0 else 0x80 }
  function ThreeByteHigh(lead: Byte): Byte { if lead == 0xED then 0x9F else 0xBF }

  /** Same for a four-byte lead (F0 needs 90..BF, F4 needs 80..8F). */
  function FourByteLow(lead: Byte): Byte { if lead == 0xF0 then 0x90 else 0x80 }
  function FourByteHigh(lead: Byte): Byte { if lead == 0xF4 then 0x8F else 0xBF }

  /** Decodes the first character of a non-empty byte sequence: the
      character and the number of bytes it occupies, or None when the bytes
      do not start with a well-formed UTF-8 sequence. */
  function DecodeFirst(b: seq<Byte>): (r: Option<(char, nat)>)
    requires |b| > 0
    ensures r.Some? ==> 1 <= r.value.1 <= 4 && r.value.1 <= |b|
  {
    var b0 := b[0];
    if b0 < 0x80 then
      Some((b0 as char, 1))
    else if 0xC2 <= b0 <= 0xDF then
      if |b| >= 2 && IsTail(b[1]) then
        Some((((b0 as int - 0xC0) * 64 + (b[1] as int - 0x80)) as char, 2))
      else None
    else if 0xE0 <= b0 <= 0xEF then
      if |b| >= 3 && ThreeByteLow(b0) <= b[1] <= ThreeByteHigh(b0) && IsTail(b[2]) then
        Some((((b0 as int - 0xE0) * 4096 + (b[1] as int - 0x80) * 64 + (b[2] as int - 0x80)) as char, 3))
      else None
    else if 0xF0 <= b0 <= 0xF4 then
      if |b| >= 4 && FourByteLow(b0) <= b[1] <= FourByteHigh(b0) && IsTail(b[2]) && IsTail(b[3]) then
        Some((((b0 as int - 0xF0) * 262144 + (b[1] as int - 0x80) * 4096 + (b[2] as int - 0x80) * 64 + (b[3] as int - 0x80)) as char, 4))
      else None
    else None
  }

  /** `bytes.decode('utf-8')`: None stands for UnicodeDecodeError. */
  function Decode(b: seq<Byte>): Option<string>
    decreases |b|
  {
    if b == [] then Some([])
    else
      match DecodeFirst(b)
      case None => None
      case Some((c, n)) =>
        match Decode(b[n..])
        case None => None
        case Some(rest) => Some([c] + rest)
  }

  /** The UTF-8 encoding of one character (RFC 3629, section 3). */
  function EncodeChar(c: char): (r: seq<Byte>)
    ensures 1 <= |r| <= 4
  {
    var cp := c as int;
    if cp < 0x80 then [cp]
    else if cp < 0x800 then [0xC0 + cp / 64, 0x80 + cp % 64]
    else if cp < 0x10000 then [0xE0 + cp / 4096, 0x80 + (cp / 64) % 64, 0x80 + cp % 64]
    else [0xF0 + cp / 262144, 0x80 + (cp / 4096) % 64, 0x80 + (cp / 64) % 64, 0x80 + cp % 64]
  }

  function Encode(s: string): seq<Byte> {
    if s == [] then [] else EncodeChar(s[0]) + Encode(s[1..])
  }

  /** `bytes.decode('latin-1')`: one character per byte, with that code. */
  function Latin1(b: seq<Byte>): (r: string)
    ensures |r| == |b|
    ensures forall i :: 0 <= i < |b| ==> r[i] as int == b[i]
  {
    seq(|b|, i requires 0 <= i < |b| => b[i] as char)
  }

  /** Arithmetic facts about the two-, three- and four-byte layouts:
      encoding a code point yields a valid lead and tail bytes, and the
      decoding formula gives back the code point. */
  lemma TwoByteLayout(cp: int)
    requires 0x80 <= cp < 0x800
    ensures 0xC2 <= 0xC0 + cp / 64 <= 0xDF && 0 <= cp % 64 < 64
    ensures (cp / 64) * 64 + cp % 64 == cp
  {
  }

  lemma ThreeByteLayout(cp: int)
    requires 0x800 <= cp < 0x10000
    ensures 0xE0 <= 0xE0 + cp / 4096 <= 0xEF && 0 <= (cp / 64) % 64 < 64 && 0 <= cp % 64 < 64
    ensures cp / 4096 * 4096 + (cp / 64) % 64 * 64 + cp % 64 == cp
    ensures cp / 4096 == 0 ==> (cp / 64) % 64 >= 0x20
    ensures cp / 4096 == 0xD && !(0xD800 <= cp < 0xE000) ==> (cp / 64) % 64 < 0x20
  {
    assert cp / 64 == (cp / 4096) * 64 + (cp / 64) % 64;
  }

  lemma FourByteLayout(cp: int)
    requires 0x10000 <= cp < 0x110000
    ensures 0xF0 <= 0xF0 + cp / 262144 <= 0xF4
    ensures 0 <= (cp / 4096) % 64 < 64 && 0 <= (cp / 64) % 64 < 64 && 0 <= cp % 64 < 64
    ensures cp / 262144 * 262144 + (cp / 4096) % 64 * 4096 + (cp / 64) % 64 * 64 + cp % 64 == cp
    ensures cp / 262144 == 0 ==> (cp / 4096) % 64 >= 0x10
    ensures cp / 262144 == 4 ==> (cp / 4096) % 64 < 0x10
  {
    assert cp / 64 == (cp / 4096) * 64 + (cp / 64) % 64;
    assert cp / 4096 == (cp / 262144) * 64 + (cp / 4096) % 64;
  }

  lemma DecodeFirstEncodeChar2(c: char, rest: seq<Byte>)
    requires 0x80 <= c as int < 0x800
    ensures DecodeFirst(EncodeChar(c) + rest) == Some((c, 2))
  {
    var cp := c as int;
    TwoByteLayout(cp);
    var b := EncodeChar(c) + rest;
    assert b[0] == 0xC0 + cp / 64 && b[1] == 0x80 + cp % 64;
  }

  lemma DecodeFirstEncodeChar3(c: char, rest: seq<Byte>)
    requires 0x800 <= c as int < 0x10000
    ensures DecodeFirst(EncodeChar(c) + rest) == Some((c, 3))
  {
    var cp := c as int;
    ThreeByteLayout(cp);
    var b := EncodeChar(c) + rest;
    assert b[0] == 0xE0 + cp / 4096 && b[1] == 0x80 + (cp / 64) % 64 && b[2] == 0x80 + cp % 64;
  }

  lemma DecodeFirstEncodeChar4(c: char, rest: seq<Byte>)
    requires 0x10000 <= c as int
    ensures DecodeFirst(EncodeChar(c) + rest) == Some((c, 4))
  {
    var cp := c as int;
    FourByteLayout(cp);
    var b := EncodeChar(c) + rest;
    assert b[0] == 0xF0 + cp / 262144;
    assert b[1] == 0x80 + (cp / 4096) % 64 && b[2] == 0x80 + (cp / 64) % 64 && b[3] == 0x80 + cp % 64;
  }

  /** Decoding the encoding of one character, followed by anything, yields
      that character and consumes exactly its encoding. */
  lemma DecodeFirstEncodeChar(c: char, rest: seq<Byte>)
    ensures DecodeFirst(EncodeChar(c) + rest) == Some((c, |EncodeChar(c)|))
  {
    var cp := c as int;
    if cp < 0x80 {
    } else if cp < 0x800 {
      DecodeFirstEncodeChar2(c, rest);
    } else if cp < 0x10000 {
      DecodeFirstEncodeChar3(c, rest);
    } else {
      DecodeFirstEncodeChar4(c, rest);
    }
  }

  /** Every string survives a UTF-8 round trip. */
  lemma {:induction false} DecodeEncode(s: string)
    ensures Decode(Encode(s)) == Some(s)
    decreases |s|
  {
    if s != [] {
      var e := EncodeChar(s[0]);
      DecodeFirstEncodeChar(s[0], Encode(s[1..]));
      assert (e + Encode(s[1..]))[|e|..] == Encode(s[1..]);
      DecodeEncode(s[1..]);
      assert [s[0]] + s[1..] == s;
    }
  }

  lemma TwoByteDecodeLayout(x0: int, x1: int)
    requires 0 <= x0 < 32 && 0 <= x1 < 64
    ensures (x0 * 64 + x1) / 64 == x0 && (x0 * 64 + x1) % 64 == x1
  {
  }

  lemma ThreeByteDecodeLayout(x0: int, x1: int, x2: int)
    requires 0 <= x0 < 16 && 0 <= x1 < 64 && 0 <= x2 < 64
    ensures var cp := x0 * 4096 + x1 * 64 + x2;
      cp / 4096 == x0 && (cp / 64) % 64 == x1 && cp % 64 == x2
  {
    var cp := x0 * 4096 + x1 * 64 + x2;
    assert cp / 64 == x0 * 64 + x1;
  }

  lemma FourByteDecodeLayout(x0: int, x1: int, x2: int, x3: int)
    requires 0 <= x0 < 8 && 0 <= x1 < 64 && 0 <= x2 < 64 && 0 <= x3 < 64
    ensures var cp := x0 * 262144 + x1 * 4096 + x2 * 64 + x3;
      cp / 262144 == x0 && (cp / 4096) % 64 == x1 && (cp / 64) % 64 == x2 && cp % 64 == x3
  {
    var cp := x0 * 262144 + x1 * 4096 + x2 * 64 + x3;
    assert cp / 64 == x0 * 4096 + x1 * 64 + x2;
    assert cp / 4096 == x0 * 64 + x1;
  }

  /** The first character decoded from well-formed bytes re-encodes to
      exactly the bytes it was decoded from. */
  lemma EncodeCharDecodeFirst(b: seq<Byte>)
    requires |b| > 0 && DecodeFirst(b).Some?
    ensures EncodeChar(DecodeFirst(b).value.0) == b[..DecodeFirst(b).value.1]
  {
    var b0 := b[0];
    if b0 < 0x80 {
    } else if 0xC2 <= b0 <= 0xDF {
      TwoByteDecodeLayout(b0 - 0xC0, b[1] - 0x80);
    } else if 0xE0 <= b0 <= 0xEF {
      ThreeByteDecodeLayout(b0 - 0xE0, b[1] - 0x80, b[2] - 0x80);
    } else {
      FourByteDecodeLayout(b0 - 0xF0, b[1] - 0x80, b[2] - 0x80, b[3] - 0x80);
    }
  }

  /** Well-formed UTF-8 has one decoding only: re-encoding the decoded
      text gives back the original bytes. */
  lemma {:induction false} EncodeDecode(b: seq<Byte>)
    requires Decode(b).Some?
    ensures Encode(Decode(b).value) == b
    decreases |b|
  {
    if b != [] {
      var first := DecodeFirst(b).value;
      EncodeCharDecodeFirst(b);
      EncodeDecode(b[first.1..]);
      var s := Decode(b).value;
      assert s == [first.0] + Decode(b[first.1..]).value;
      assert s[1..] == Decode(b[first.1..]).value;
      assert b[..first.1] + b[first.1..] == b;
    }
  }
}
