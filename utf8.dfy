/**
 * `Buffer.from(string)` in Node encodes a string as UTF-8. Signature checking
 * compares such byte buffers, so the model needs the encoding and the fact
 * that distinct strings never encode to the same bytes.
 */
module Utf8 {

  type Byte = b: int | 0 <= b < 256

  /** The UTF-8 encoding of one Unicode scalar value (1 to 4 bytes). */
  function EncodeChar(c: char): (bs: seq<Byte>)
    ensures 1 <= |bs| <= 4
  {
    var n := c as int;
    if n < 0x80 then [n]
    else if n < 0x800 then [0xC0 + n / 64, 0x80 + n % 64]
    else if n < 0x10000 then [0xE0 + n / 4096, 0x80 + (n / 64) % 64, 0x80 + n % 64]
    else [0xF0 + n / 262144, 0x80 + (n / 4096) % 64, 0x80 + (n / 64) % 64, 0x80 + n % 64]
  }

  /** The UTF-8 encoding of a string. */
  function Encode(s: string): (bs: seq<Byte>)
    ensures |bs| >= |s|
  {
    if s == [] then [] else EncodeChar(s[0]) + Encode(s[1..])
  }

  /** How many bytes a sequence starting with lead byte `b` occupies. */
  function SequenceLength(b: Byte): nat {
    if b < 0x80 then 1
    else if b < 0xE0 then 2
    else if b < 0xF0 then 3
    else 4
  }

  /** The scalar value back from a well-formed encoding of one character. */
  function DecodeChar(bs: seq<Byte>): int
    requires 1 <= |bs| <= 4
  {
    var b: seq<int> := bs;
    if |b| == 1 then b[0]
    else if |b| == 2 then (b[0] - 0xC0) * 64 + (b[1] - 0x80)
    else if |b| == 3 then (b[0] - 0xE0) * 4096 + (b[1] - 0x80) * 64 + (b[2] - 0x80)
    else (b[0] - 0xF0) * 262144 + (b[1] - 0x80) * 4096 + (b[2] - 0x80) * 64 + (b[3] - 0x80)
  }

  /** The lead byte of a character's encoding announces the encoding's length. */
  lemma LeadAnnouncesLength(c: char)
    ensures SequenceLength(EncodeChar(c)[0]) == |EncodeChar(c)|
  {
  }

  /** Decoding inverts the encoding of a single character. */
  lemma DecodeEncodeChar(c: char)
    ensures DecodeChar(EncodeChar(c)) == c as int
  {
    var n := c as int;
    if n >= 0x800 && n < 0x10000 {
      assert n == (n / 4096) * 4096 + ((n / 64) % 64) * 64 + n % 64;
    } else if n >= 0x10000 {
      assert n == (n / 262144) * 262144 + ((n / 4096) % 64) * 4096 + ((n / 64) % 64) * 64 + n % 64;
    }
  }

  /** Distinct strings have distinct UTF-8 encodings. */
  lemma {:induction false} EncodeInjective(a: string, b: string)
    requires Encode(a) == Encode(b)
    ensures a == b
  {
    if a == [] || b == [] {
      // a non-empty string encodes to at least one byte
      assert |Encode(a)| == 0 || |Encode(b)| == 0;
    } else {
      var ea, eb := EncodeChar(a[0]), EncodeChar(b[0]);
      LeadAnnouncesLength(a[0]);
      LeadAnnouncesLength(b[0]);
      assert Encode(a)[0] == ea[0] && Encode(b)[0] == eb[0];
      assert |ea| == |eb|;
      assert Encode(a)[..|ea|] == ea;
      assert Encode(b)[..|eb|] == eb;
      DecodeEncodeChar(a[0]);
      DecodeEncodeChar(b[0]);
      assert a[0] == b[0];
      assert Encode(a)[|ea|..] == Encode(a[1..]);
      assert Encode(b)[|eb|..] == Encode(b[1..]);
      EncodeInjective(a[1..], b[1..]);
      assert a == [a[0]] + a[1..];
    }
  }
}
