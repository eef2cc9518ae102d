/** The two digests the signers use, MD5 (RFC 1321) and HMAC-SHA256
    (RFC 2104 over SHA-256), are not computed here: they are the fields of a
    `HashFunctions` value and every result holds whatever functions it holds.
    What is modelled exactly is the lowercase hexadecimal rendering that
    Node's `digest("hex")` applies to their bytes. */
module Hashing {

  newtype byte = x: int | 0 <= x < 256

  /** `md5(message)` and `hmacSha256(key, message)` as byte strings. */
  datatype HashFunctions = HashFunctions(
    md5: string -> seq<byte>,
    hmacSha256: (string, string) -> seq<byte>)

  const HexDigits: string := "0123456789abcdef"

  predicate IsHexDigit(c: char) {
    '0' <= c <= '9' || 'a' <= c <= 'f'
  }

  predicate IsHex(s: string) {
    forall i :: 0 <= i < |s| ==> IsHexDigit(s[i])
  }

  function HexDigit(n: int): (c: char)
    requires 0 <= n < 16
    ensures IsHexDigit(c)
  {
    HexDigits[n]
  }

  /** The value of one lowercase hex digit. */
  function HexDigitValue(c: char): (n: int)
    requires IsHexDigit(c)
    ensures 0 <= n < 16
  {
    if c <= '9' then c as int - 48 else c as int - 87
  }

  /** `digest("hex")`: two lowercase hex digits per byte, high nibble first. */
  function Hex(bytes: seq<byte>): (h: string)
    ensures |h| == 2 * |bytes|
    ensures IsHex(h)
    decreases |bytes|
  {
    if bytes == [] then []
    else [HexDigit(bytes[0] as int / 16), HexDigit(bytes[0] as int % 16)] + Hex(bytes[1..])
  }

  /** Reads a lowercase hex string back into bytes. */
  function Unhex(h: string): seq<byte>
    requires IsHex(h) && |h| % 2 == 0
    decreases |h|
  {
    if h == [] then []
    else [(HexDigitValue(h[0]) * 16 + HexDigitValue(h[1])) as byte] + Unhex(h[2..])
  }

  /** The hex rendering loses nothing. */
  lemma {:induction false} UnhexHex(bytes: seq<byte>)
    ensures Unhex(Hex(bytes)) == bytes
    decreases |bytes|
  {
    if bytes != [] {
      var h := Hex(bytes);
      UnhexHex(bytes[1..]);
      assert h[2..] == Hex(bytes[1..]);
      var b := bytes[0] as int;
      HexDigitRoundTrip(b / 16);
      HexDigitRoundTrip(b % 16);
      assert h[0] == HexDigit(b / 16) && h[1] == HexDigit(b % 16);
    }
  }

  /** Reading a digit back gives the nibble it was written for. */
  lemma HexDigitRoundTrip(n: int)
    requires 0 <= n < 16
    ensures HexDigitValue(HexDigit(n)) == n
  {
  }

  /** Distinct digests render as distinct hex strings. */
  lemma HexInjective(a: seq<byte>, b: seq<byte>)
    ensures Hex(a) == Hex(b) ==> a == b
  {
    UnhexHex(a);
    UnhexHex(b);
  }
}
