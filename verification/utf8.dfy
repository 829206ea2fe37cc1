/** UTF-8, the encoding `Buffer.from(string)` applies before bytes are compared. */
module Utf8 {

  type byte = x: int | 0 <= x < 256

  /** Number of bytes in the encoding that starts with lead byte `b`. */
  function Width(b: byte): nat {
    if b < 0x80 then 1 else if b < 0xE0 then 2 else if b < 0xF0 then 3 else 4
  }

  /** Value of the bits a continuation byte carries. */
  function Continuation(b: byte): int {
    b - 0x80
  }

  /** The UTF-8 bytes of one Unicode scalar value. */
  function EncodeChar(c: char): (bs: seq<byte>)
    ensures 1 <= |bs| <= 4
    ensures |bs| == if c as int < 0x80 then 1 else if c as int < 0x800 then 2 else if c as int < 0x10000 then 3 else 4
    ensures Width(bs[0]) == |bs|
    ensures forall k :: 1 <= k < |bs| ==> 0x80 <= bs[k] < 0xC0
  {
    var cp := c as int;
    var q1, r1 := cp / 64, cp % 64;
    var q2, r2 := q1 / 64, q1 % 64;
    var q3, r3 := q2 / 64, q2 % 64;
    if cp < 0x80 then [cp]
    else if cp < 0x800 then [0xC0 + q1, 0x80 + r1]
    else if cp < 0x10000 then [0xE0 + q2, 0x80 + r2, 0x80 + r1]
    else [0xF0 + q3, 0x80 + r3, 0x80 + r2, 0x80 + r1]
  }

  /** The scalar value a single well-formed encoding stands for. */
  function DecodeChar(bs: seq<byte>): int
    requires 1 <= |bs| <= 4
  {
    if |bs| == 1 then bs[0]
    else if |bs| == 2 then (bs[0] - 0xC0) * 64 + Continuation(bs[1])
    else if |bs| == 3 then ((bs[0] - 0xE0) * 64 + Continuation(bs[1])) * 64 + Continuation(bs[2])
    else (((bs[0] - 0xF0) * 64 + Continuation(bs[1])) * 64 + Continuation(bs[2])) * 64 + Continuation(bs[3])
  }

  /** Decoding one character's bytes gives the character back. */
  lemma DecodeEncodeChar(c: char)
    ensures DecodeChar(EncodeChar(c)) == c as int
  {
  }

  /** The UTF-8 bytes of a string. */
  function Encode(s: string): (bs: seq<byte>)
    ensures |bs| >= |s|
    decreases |s|
  {
    if s == [] then [] else EncodeChar(s[0]) + Encode(s[1..])
  }

  /** Different strings have different encodings, so comparing the bytes of two strings
      compares the strings. */
  lemma {:induction false} EncodeInjective(s: string, t: string)
    requires Encode(s) == Encode(t)
    ensures s == t
    decreases |s|
  {
    if s != [] {
      assert t != [];
      var a, b := EncodeChar(s[0]), EncodeChar(t[0]);
      assert Encode(s)[0] == a[0] && Encode(t)[0] == b[0];
      assert |a| == |b|;
      assert a == Encode(s)[..|a|] && b == Encode(t)[..|b|];
      DecodeEncodeChar(s[0]);
      DecodeEncodeChar(t[0]);
      assert Encode(s)[|a|..] == Encode(s[1..]);
      assert Encode(t)[|b|..] == Encode(t[1..]);
      EncodeInjective(s[1..], t[1..]);
      assert s == [s[0]] + s[1..] && t == [t[0]] + t[1..];
    }
  }
}
