/** Lower-case hexadecimal text of a byte string, as `Buffer.toString('hex')`
    renders the random bytes of an invite token, and its decoding. */
module Hex {
  newtype byte = x: int | 0 <= x < 256

  const Digits: string := "0123456789abcdef"

  predicate IsHexDigit(c: char) {
    ('0' <= c <= '9') || ('a' <= c <= 'f')
  }

  function DigitOf(n: int): (c: char)
    requires 0 <= n < 16
    ensures IsHexDigit(c)
  {
    Digits[n]
  }

  function ValueOf(c: char): (n: int)
    requires IsHexDigit(c)
    ensures 0 <= n < 16
  {
    if '0' <= c <= '9' then c as int - '0' as int else c as int - 'a' as int + 10
  }

  lemma DigitRoundTrip(n: int)
    requires 0 <= n < 16
    ensures ValueOf(DigitOf(n)) == n
  {
  }

  /** Two digits per byte, high nibble first. */
  function Encode(bytes: seq<byte>): (r: string)
    ensures |r| == 2 * |bytes|
    ensures forall i :: 0 <= i < |r| ==> IsHexDigit(r[i])
  {
    if bytes == [] then ""
    else [DigitOf(bytes[0] as int / 16), DigitOf(bytes[0] as int % 16)] + Encode(bytes[1..])
  }

  function Decode(s: string): (r: seq<byte>)
    requires |s| % 2 == 0
    requires forall i :: 0 <= i < |s| ==> IsHexDigit(s[i])
    ensures |r| == |s| / 2
  {
    if s == "" then []
    else [(ValueOf(s[0]) * 16 + ValueOf(s[1])) as byte] + Decode(s[2..])
  }

  /** Decoding the text gives back the bytes: the token carries every random
      byte it was made from. */
  lemma {:induction false} DecodeEncode(bytes: seq<byte>)
    ensures Decode(Encode(bytes)) == bytes
  {
    if bytes != [] {
      var s := Encode(bytes);
      var b := bytes[0] as int;
      DigitRoundTrip(b / 16);
      DigitRoundTrip(b % 16);
      assert s[2..] == Encode(bytes[1..]);
      DecodeEncode(bytes[1..]);
    }
  }
}
