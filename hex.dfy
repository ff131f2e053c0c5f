/**
 * Hexadecimal text: `hashlib`'s `hexdigest()` (lower-case, two digits per byte)
 * and `bytes.fromhex`, which reads the AES key from the environment.
 */
module Hex {
  import opened Common

  const LowerDigits: string := "0123456789abcdef"

  predicate IsLowerHexChar(c: char)
  {
    ('0' <= c <= '9') || ('a' <= c <= 'f')
  }

  function Digit(n: int): (c: char)
    requires 0 <= n < 16
    ensures IsLowerHexChar(c)
  {
    LowerDigits[n]
  }

  /** The value of one hexadecimal digit, in either case, as `bytes.fromhex` reads it. */
  function DigitValue(c: char): Option<int>
  {
    if '0' <= c <= '9' then Some(c as int - '0' as int)
    else if 'a' <= c <= 'f' then Some(c as int - 'a' as int + 10)
    else if 'A' <= c <= 'F' then Some(c as int - 'A' as int + 10)
    else None
  }

  lemma {:induction false} DigitValueOfDigit(n: int)
    requires 0 <= n < 16
    ensures DigitValue(Digit(n)) == Some(n)
  {
  }

  /** `bytes.hex()` / `hexdigest()`: two lower-case digits per byte, high nibble first. */
  function Encode(b: bytes): (r: string)
    ensures |r| == 2 * |b|
    ensures forall i :: 0 <= i < |r| ==> IsLowerHexChar(r[i])
  {
    if b == [] then "" else [Digit(b[0] as int / 16), Digit(b[0] as int % 16)] + Encode(b[1..])
  }

  /** The white space that `bytes.fromhex` skips between two byte pairs. */
  predicate IsAsciiSpace(c: char)
  {
    c == ' ' || c == '\t' || c == '\n' || c == '\r' || c as int == 0x0B || c as int == 0x0C
  }

  /**
   * `bytes.fromhex(s)`: white space may separate byte pairs but not split one; any
   * other character, or an odd digit at the end, raises ValueError (here `None`).
   */
  function FromHex(s: string): Option<bytes>
    decreases |s|
  {
    if s == [] then Some([])
    else if IsAsciiSpace(s[0]) then FromHex(s[1..])
    else if |s| >= 2 && DigitValue(s[0]).Some? && DigitValue(s[1]).Some? then
      match FromHex(s[2..])
      case None => None
      case Some(rest) => Some([(DigitValue(s[0]).value * 16 + DigitValue(s[1]).value) as byte] + rest)
    else None
  }

  /** A leading pair of digits becomes one byte in front of what the rest reads as. */
  lemma {:induction false} FromHexPair(c0: char, c1: char, rest: string, hi: int, lo: int)
    requires DigitValue(c0) == Some(hi) && DigitValue(c1) == Some(lo) && !IsAsciiSpace(c0)
    requires 0 <= hi < 16 && 0 <= lo < 16
    ensures FromHex([c0, c1] + rest)
         == if FromHex(rest).None? then None else Some([(hi * 16 + lo) as byte] + FromHex(rest).value)
  {
    var s := [c0, c1] + rest;
    assert s[0] == c0 && s[1] == c1 && s[2..] == rest;
  }

  /** `bytes.fromhex` reads back what `hex()` wrote. */
  lemma {:induction false} FromHexOfEncode(b: bytes)
    ensures FromHex(Encode(b)) == Some(b)
  {
    if b != [] {
      var hi, lo := b[0] as int / 16, b[0] as int % 16;
      DigitValueOfDigit(hi);
      DigitValueOfDigit(lo);
      assert Encode(b) == [Digit(hi), Digit(lo)] + Encode(b[1..]);
      FromHexPair(Digit(hi), Digit(lo), Encode(b[1..]), hi, lo);
      FromHexOfEncode(b[1..]);
      assert (hi * 16 + lo) as byte == b[0];
      assert [b[0]] + b[1..] == b;
    }
  }

  /** Text with something other than white space and hex digits is never a key. */
  lemma {:induction false} FromHexRejectsForeign(s: string, k: nat)
    requires k < |s|
    requires DigitValue(s[k]).None? && !IsAsciiSpace(s[k])
    ensures FromHex(s) == None
    decreases |s|
  {
    if IsAsciiSpace(s[0]) {
      FromHexRejectsForeign(s[1..], k - 1);
    } else if |s| >= 2 && DigitValue(s[0]).Some? && DigitValue(s[1]).Some? {
      FromHexRejectsForeign(s[2..], k - 2);
    }
  }
}
