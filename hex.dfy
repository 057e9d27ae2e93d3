/** Bytes and their lower-case hexadecimal text form (Go's encoding/hex.EncodeToString). */
module Hex {

  newtype byte = b: int | 0 <= b < 256

  const HexDigits: string := "0123456789abcdef"

  /** A character that EncodeToString can produce. */
  predicate IsLowerHexDigit(c: char) {
    ('0' <= c <= '9') || ('a' <= c <= 'f')
  }

  function Digit(n: int): (c: char)
    requires 0 <= n < 16
    ensures IsLowerHexDigit(c)
  {
    HexDigits[n]
  }

  /** Two characters per byte, high nibble first, digits 0-9 and a-f. */
  function EncodeToString(bytes: seq<byte>): (s: string)
    ensures |s| == 2 * |bytes|
    ensures forall i :: 0 <= i < |s| ==> IsLowerHexDigit(s[i])
  {
    if bytes == [] then []
    else [Digit(bytes[0] as int / 16), Digit(bytes[0] as int % 16)] + EncodeToString(bytes[1..])
  }

  lemma DigitInjective(m: int, n: int)
    requires 0 <= m < 16 && 0 <= n < 16
    requires Digit(m) == Digit(n)
    ensures m == n
  {
  }

  /** Different byte strings never share a hex encoding, so comparing
      encodings is the same as comparing the bytes. */
  lemma {:induction false} EncodeInjective(a: seq<byte>, b: seq<byte>)
    requires EncodeToString(a) == EncodeToString(b)
    ensures a == b
  {
    if a != [] {
      assert |b| == |a|;
      var ea, eb := EncodeToString(a), EncodeToString(b);
      assert ea[0] == eb[0] && ea[1] == eb[1];
      DigitInjective(a[0] as int / 16, b[0] as int / 16);
      DigitInjective(a[0] as int % 16, b[0] as int % 16);
      assert a[0] == b[0];
      assert EncodeToString(a[1..]) == ea[2..] == eb[2..] == EncodeToString(b[1..]);
      EncodeInjective(a[1..], b[1..]);
    }
  }

  /** A string holding any character other than 0-9 and a-f (an upper-case
      digit, say) is the hex encoding of no byte string. */
  lemma NotAnEncoding(s: string, i: int, bytes: seq<byte>)
    requires 0 <= i < |s| && !IsLowerHexDigit(s[i])
    ensures EncodeToString(bytes) != s
  {
  }
}
