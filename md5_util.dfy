/** The cache-key function of Md5Util.kt: getMd5 renders the MD5 digest of a text as
    lower-case hexadecimal. The digest itself (MessageDigest, String.toByteArray) is
    library code and enters the model as a function-typed parameter. */
module Md5Util {

  /** A Java byte: a signed 8-bit value, as MessageDigest.digest() returns them. */
  newtype SByte = x: int | -128 <= x < 128

  /** An MD5 digest: 128 bits (section 3.5 of RFC 1321), i.e. 16 bytes. */
  type Digest = d: seq<SByte> | |d| == 16 witness seq(16, _ => 0 as SByte)

  /** What MessageDigest.getInstance("MD5") yields: no provider (the
      NoSuchAlgorithmException path), or one that hashes the bytes of a text. */
  datatype MessageDigest = NoSuchAlgorithm | Md5(digestOf: string -> Digest)

  predicate IsLowerHexDigit(c: char) {
    '0' <= c <= '9' || 'a' <= c <= 'f'
  }

  function DigitValue(c: char): (v: nat)
    requires IsLowerHexDigit(c)
    ensures v < 16
  {
    if c <= '9' then c as int - '0' as int else c as int - 'a' as int + 10
  }

  /** The digit Integer.toHexString writes for a nibble (lower case). */
  function HexDigit(v: nat): (c: char)
    requires v < 16
    ensures IsLowerHexDigit(c) && DigitValue(c) == v
  {
    if v < 10 then ('0' as int + v) as char else ('a' as int + v - 10) as char
  }

  predicate AllLowerHex(s: string) {
    forall i :: 0 <= i < |s| ==> IsLowerHexDigit(s[i])
  }

  /** The number a string of hexadecimal digits denotes, most significant first. */
  function HexValue(s: string): nat
    requires AllLowerHex(s)
  {
    if s == [] then 0 else HexValue(s[..|s| - 1]) * 16 + DigitValue(s[|s| - 1])
  }

  /** Integer.toHexString for a non-negative int: lower-case digits, no leading zero. */
  function ToHexString(v: nat): (s: string)
    ensures AllLowerHex(s) && HexValue(s) == v
    ensures |s| >= 1 && (|s| > 1 ==> s[0] != '0')
    ensures v < 16 <==> |s| == 1
    ensures 16 <= v < 256 ==> |s| == 2
  {
    if v < 16 then [HexDigit(v)]
    else
      var s := ToHexString(v / 16) + [HexDigit(v % 16)];
      assert s[..|s| - 1] == ToHexString(v / 16);
      s
  }

  /** `0xFF and b.toInt()`: the byte read as unsigned. */
  function Unsigned(b: SByte): (u: nat)
    ensures u < 256 && (u - b as int) % 256 == 0
    ensures b >= 0 ==> u == b as int
  {
    if b < 0 then b as int + 256 else b as int
  }

  /** The two characters a digest byte contributes: high nibble, then low nibble. */
  function ByteHex(b: SByte): (h: string)
    ensures |h| == 2 && AllLowerHex(h)
  {
    [HexDigit(Unsigned(b) / 16), HexDigit(Unsigned(b) % 16)]
  }

  /** The hexadecimal rendering of a whole digest, byte after byte. */
  function HexOf(d: seq<SByte>): (s: string)
    ensures |s| == 2 * |d| && AllLowerHex(s)
    ensures forall k :: 0 <= k < |d| ==>
      s[2 * k] == HexDigit(Unsigned(d[k]) / 16) && s[2 * k + 1] == HexDigit(Unsigned(d[k]) % 16)
  {
    if d == [] then [] else HexOf(d[..|d| - 1]) + ByteHex(d[|d| - 1])
  }

  /** Padding toHexString's output with '0' up to two characters yields ByteHex. */
  lemma PaddedHexIsByteHex(b: SByte)
    ensures var t := ToHexString(Unsigned(b));
      (|t| == 2 && t == ByteHex(b)) || (|t| == 1 && "0" + t == ByteHex(b))
  {
    var u := Unsigned(b);
    var t := ToHexString(u);
    if u < 16 {
      assert t == [HexDigit(u)];
      assert u / 16 == 0 && u % 16 == u;
    } else {
      assert t == ToHexString(u / 16) + [HexDigit(u % 16)];
      assert ToHexString(u / 16) == [HexDigit(u / 16)];
    }
  }

  /** Distinct digests give distinct hexadecimal strings. */
  lemma HexOfInjective(d1: seq<SByte>, d2: seq<SByte>)
    requires HexOf(d1) == HexOf(d2)
    ensures d1 == d2
  {
    var s := HexOf(d1);
    assert |d1| == |d2|;
    forall k | 0 <= k < |d1|
      ensures d1[k] == d2[k]
    {
      var u1, u2 := Unsigned(d1[k]), Unsigned(d2[k]);
      assert DigitValue(s[2 * k]) == u1 / 16 == u2 / 16;
      assert DigitValue(s[2 * k + 1]) == u1 % 16 == u2 % 16;
      assert u1 == 16 * (u1 / 16) + u1 % 16;
      assert u2 == 16 * (u2 / 16) + u2 % 16;
    }
  }

  /** getMd5: the lower-case hex string of the text's digest, two characters per
      byte (32 in all), or "" when no MD5 provider exists. */
  method GetMd5(text: string, md: MessageDigest) returns (s: string)
    ensures md.NoSuchAlgorithm? ==> s == ""
    ensures md.Md5? ==> s == HexOf(md.digestOf(text)) && |s| == 32
  {
    if md.NoSuchAlgorithm? {
      return "";
    }
    var messageDigest := md.digestOf(text);
    var hexString := "";
    for i := 0 to |messageDigest|
      invariant hexString == HexOf(messageDigest[..i])
    {
      var b := messageDigest[i];
      var h := ToHexString(Unsigned(b));
      PaddedHexIsByteHex(b);
      ghost var t := h;
      while |h| < 2
        invariant h == t || (|t| == 1 && h == "0" + t)
        decreases 2 - |h|
      {
        h := "0" + h;
      }
      assert messageDigest[..i + 1][..i] == messageDigest[..i];
      hexString := hexString + h;
    }
    assert messageDigest[..|messageDigest|] == messageDigest;
    s := hexString;
  }
}
