/**
 * The UTF-8 encoding of RFC 3629, section 3: how Node's `Buffer.byteLength`
 * measures a string and which bytes `res.end(text)` puts on the wire.
 * A Dafny `char` is a Unicode scalar value, so every string has an encoding.
 */
module Utf8 {

  /** Number of bytes UTF-8 spends on one scalar value. */
  function Width(c: char): (w: nat)
    ensures 1 <= w <= 4
    ensures w == 1 <==> c as int < 0x80
  {
    var n := c as int;
    if n < 0x80 then 1
    else if n < 0x800 then 2
    else if n < 0x1_0000 then 3
    else 4
  }

  /** True of the bytes 10xxxxxx that follow a lead byte. */
  predicate IsContinuation(b: bv8) {
    0x80 <= b as int < 0xC0
  }

  /** The continuation byte carrying the six payload bits `k`. */
  function Continuation(k: int): (b: bv8)
    requires 0 <= k < 0x40
    ensures IsContinuation(b)
  {
    (0x80 + k) as bv8
  }

  /** The lead byte `tag + k` of a multi-byte sequence. */
  function Lead(tag: int, k: int): (b: bv8)
    requires tag in {0xC0, 0xE0, 0xF0} && 0 <= k < 0x100 - tag
    ensures 0xC0 <= b as int
  {
    (tag + k) as bv8
  }

  /** The UTF-8 code units of one scalar value. */
  function EncodeChar(c: char): (r: seq<bv8>)
    ensures |r| == Width(c)
    ensures r[0] as int < 0x80 <==> |r| == 1
    ensures !IsContinuation(r[0])
    ensures forall i :: 1 <= i < |r| ==> IsContinuation(r[i])
  {
    var n := c as int;
    if n < 0x80 then [n as bv8]
    else if n < 0x800 then
      [Lead(0xC0, n / 0x40), Continuation(n % 0x40)]
    else if n < 0x1_0000 then
      [Lead(0xE0, n / 0x1000), Continuation((n / 0x40) % 0x40), Continuation(n % 0x40)]
    else
      [Lead(0xF0, n / 0x4_0000), Continuation((n / 0x1000) % 0x40),
       Continuation((n / 0x40) % 0x40), Continuation(n % 0x40)]
  }

  /** `Buffer.byteLength(s)` for a string `s` (encoding 'utf8', Node's default). */
  function ByteLength(s: string): (n: nat)
    ensures |s| <= n <= 4 * |s|
  {
    if s == [] then 0 else Width(s[0]) + ByteLength(s[1..])
  }

  /** The bytes `res.end(s)` writes for a string `s`. */
  function Encode(s: string): (r: seq<bv8>)
    ensures |r| == ByteLength(s)
  {
    if s == [] then [] else EncodeChar(s[0]) + Encode(s[1..])
  }

  /** Every character of `s` is in the ASCII range. */
  predicate IsAscii(s: string) {
    forall i :: 0 <= i < |s| ==> s[i] as int < 0x80
  }

  /** An ASCII string is measured by its number of characters and encoded one byte per character. */
  lemma {:induction false} AsciiEncoding(s: string)
    requires IsAscii(s)
    ensures ByteLength(s) == |s|
    ensures forall i :: 0 <= i < |s| ==> Encode(s)[i] == s[i] as int as bv8
  {
    if s != [] {
      assert IsAscii(s[1..]) by {
        forall i | 0 <= i < |s[1..]| ensures s[1..][i] as int < 0x80 {
          assert s[1..][i] == s[i + 1];
        }
      }
      AsciiEncoding(s[1..]);
      assert Encode(s) == [s[0] as int as bv8] + Encode(s[1..]);
      forall i | 1 <= i < |s| ensures Encode(s)[i] == s[i] as int as bv8 {
        assert Encode(s)[i] == Encode(s[1..])[i - 1];
        assert s[1..][i - 1] == s[i];
      }
    }
  }
}
