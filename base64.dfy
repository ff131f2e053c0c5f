/**
 * Base64 as used for the stored ciphertexts: `base64.b64encode` (the standard
 * alphabet with `=` padding, section 4 of RFC 4648) and `base64.b64decode` with
 * its default non-validating behaviour, which is CPython's `binascii.a2b_base64`
 * in non-strict mode: characters outside the alphabet are skipped, a `=` that
 * comes before the second character of a quantum is ignored, and decoding stops
 * as soon as the padding of a quantum is complete.
 */
module Base64 {
  import opened Common

  /** The 6-bit value of an alphabet character. */
  function Sextet(c: char): Option<int>
  {
    if 'A' <= c <= 'Z' then Some(c as int - 'A' as int)
    else if 'a' <= c <= 'z' then Some(c as int - 'a' as int + 26)
    else if '0' <= c <= '9' then Some(c as int - '0' as int + 52)
    else if c == '+' then Some(62)
    else if c == '/' then Some(63)
    else None
  }

  /** The alphabet character for a 6-bit value. */
  function Char(d: int): (c: char)
    requires 0 <= d < 64
    ensures Sextet(c) == Some(d)
  {
    if d < 26 then ('A' as int + d) as char
    else if d < 52 then ('a' as int + d - 26) as char
    else if d < 62 then ('0' as int + d - 52) as char
    else if d == 62 then '+'
    else '/'
  }

  /** Characters that `b64encode` can produce: the alphabet and the pad. */
  predicate IsEncodedChar(c: char)
  {
    Sextet(c).Some? || c == '='
  }

  /** Four characters for three bytes. */
  function Quantum(x: byte, y: byte, z: byte): string
  {
    [Char(x as int / 4), Char((x as int % 4) * 16 + y as int / 16),
     Char((y as int % 16) * 4 + z as int / 64), Char(z as int % 64)]
  }

  /** The final quantum for one leftover byte: two characters and two pads. */
  function FinalOne(x: byte): string
  {
    [Char(x as int / 4), Char((x as int % 4) * 16), '=', '=']
  }

  /** The final quantum for two leftover bytes: three characters and one pad. */
  function FinalTwo(x: byte, y: byte): string
  {
    [Char(x as int / 4), Char((x as int % 4) * 16 + y as int / 16), Char((y as int % 16) * 4), '=']
  }

  /** `base64.b64encode(b).decode()`. */
  function Encode(b: bytes): (r: string)
    ensures |r| == 4 * ((|b| + 2) / 3)
    ensures forall i :: 0 <= i < |r| ==> IsEncodedChar(r[i])
    decreases |b|
  {
    if |b| == 0 then ""
    else if |b| == 1 then FinalOne(b[0])
    else if |b| == 2 then FinalTwo(b[0], b[1])
    else
      QuantaStep(|b|);
      Quantum(b[0], b[1], b[2]) + Encode(b[3..])
  }

  /** Three more bytes make one more quantum. */
  lemma {:induction false} QuantaStep(n: int)
    requires n >= 3
    ensures 4 * ((n + 2) / 3) == 4 + 4 * ((n - 3 + 2) / 3)
  {
  }

  /** Why decoding failed. */
  datatype DecodeError =
    | NotAscii              // the str argument held a character outside ASCII
    | StrayCharacter        // one data character more than a multiple of four
    | IncorrectPadding      // data ended inside a quantum without enough '='

  /**
   * Decoder state between two characters: how many characters of the current
   * quantum were read, the bits of the last one not yet emitted, and how many
   * pads were seen since the last data character.
   */
  datatype Quad = Quad(pos: int, left: int, pads: nat)

  predicate QuadOk(q: Quad)
  {
    (q.pos == 0 && q.left == 0) || (q.pos == 1 && 0 <= q.left < 64)
    || (q.pos == 2 && 0 <= q.left < 16) || (q.pos == 3 && 0 <= q.left < 4)
  }

  const Start: Quad := Quad(0, 0, 0)

  /** `binascii.a2b_base64(s, strict_mode=False)` from state `q`, bytes so far `out`. */
  function A2b(s: string, q: Quad, out: bytes): Result<bytes, DecodeError>
    requires QuadOk(q)
    decreases |s|
  {
    if s == [] then
      if q.pos == 1 then Err(StrayCharacter)
      else if q.pos != 0 then Err(IncorrectPadding)
      else Ok(out)
    else if s[0] == '=' then
      if q.pos >= 2 && q.pos + q.pads + 1 >= 4 then Ok(out)
      else A2b(s[1..], if q.pos >= 2 then q.(pads := q.pads + 1) else q, out)
    else
      match Sextet(s[0])
      case None => A2b(s[1..], q, out)
      case Some(d) =>
        if q.pos == 0 then A2b(s[1..], Quad(1, d, 0), out)
        else if q.pos == 1 then A2b(s[1..], Quad(2, d % 16, 0), out + [(q.left * 4 + d / 16) as byte])
        else if q.pos == 2 then A2b(s[1..], Quad(3, d % 4, 0), out + [(q.left * 16 + d / 4) as byte])
        else A2b(s[1..], Start, out + [(q.left * 64 + d) as byte])
  }

  predicate IsAscii(s: string)
  {
    forall i :: 0 <= i < |s| ==> s[i] as int < 128
  }

  /** `base64.b64decode(s)` for a `str` argument. */
  function Decode(s: string): Result<bytes, DecodeError>
  {
    if !IsAscii(s) then Err(NotAscii) else A2b(s, Start, [])
  }

  /** The first data character of a quantum only stores its six bits. */
  lemma {:induction false} StepFirst(c: char, d: int, rest: string, out: bytes)
    requires Sextet(c) == Some(d)
    ensures A2b([c] + rest, Start, out) == A2b(rest, Quad(1, d, 0), out)
  {
    assert ([c] + rest)[0] == c;
    assert ([c] + rest)[1..] == rest;
  }

  /** The second completes the first byte. */
  lemma {:induction false} StepSecond(c: char, d: int, rest: string, left: int, out: bytes, x: byte)
    requires Sextet(c) == Some(d) && 0 <= left < 64 && x as int == left * 4 + d / 16
    ensures A2b([c] + rest, Quad(1, left, 0), out) == A2b(rest, Quad(2, d % 16, 0), out + [x])
  {
    assert ([c] + rest)[0] == c;
    assert ([c] + rest)[1..] == rest;
  }

  /** The third completes the second byte. */
  lemma {:induction false} StepThird(c: char, d: int, rest: string, left: int, out: bytes, y: byte)
    requires Sextet(c) == Some(d) && 0 <= left < 16 && y as int == left * 16 + d / 4
    ensures A2b([c] + rest, Quad(2, left, 0), out) == A2b(rest, Quad(3, d % 4, 0), out + [y])
  {
    assert ([c] + rest)[0] == c;
    assert ([c] + rest)[1..] == rest;
  }

  /** The fourth completes the third byte and ends the quantum. */
  lemma {:induction false} StepFourth(c: char, d: int, rest: string, left: int, out: bytes, z: byte)
    requires Sextet(c) == Some(d) && 0 <= left < 4 && z as int == left * 64 + d
    ensures A2b([c] + rest, Quad(3, left, 0), out) == A2b(rest, Start, out + [z])
  {
    assert ([c] + rest)[0] == c;
    assert ([c] + rest)[1..] == rest;
  }

  /** The bit arithmetic behind one quantum: the emitted bytes are the encoded ones. */
  lemma {:induction false} QuantumArithmetic(x: int, y: int, z: int, d0: int, d1: int, d2: int, d3: int)
    requires 0 <= x < 256 && 0 <= y < 256 && 0 <= z < 256
    requires d0 == x / 4 && d1 == (x % 4) * 16 + y / 16 && d2 == (y % 16) * 4 + z / 64 && d3 == z % 64
    ensures d0 * 4 + d1 / 16 == x && (d1 % 16) * 16 + d2 / 4 == y && (d2 % 4) * 64 + d3 == z
  {
  }

  /** A full quantum decodes to the three bytes it encodes and leaves the state at rest. */
  lemma {:induction false} QuantumDecodes(x: byte, y: byte, z: byte, rest: string, out: bytes)
    ensures A2b(Quantum(x, y, z) + rest, Start, out) == A2b(rest, Start, out + [x, y, z])
  {
    var xi, yi, zi := x as int, y as int, z as int;
    var d0, d1, d2, d3 := xi / 4, (xi % 4) * 16 + yi / 16, (yi % 16) * 4 + zi / 64, zi % 64;
    QuantumArithmetic(xi, yi, zi, d0, d1, d2, d3);
    var q := Quantum(x, y, z);
    assert Sextet(q[0]) == Some(d0) && Sextet(q[1]) == Some(d1);
    assert Sextet(q[2]) == Some(d2) && Sextet(q[3]) == Some(d3);
    var t3 := [q[3]] + rest;
    var t2 := [q[2]] + t3;
    var t1 := [q[1]] + t2;
    assert q + rest == [q[0]] + t1;
    var o1 := out + [x];
    var o2 := o1 + [y];
    var o3 := o2 + [z];
    StepFirst(q[0], d0, t1, out);
    StepSecond(q[1], d1, t2, d0, out, x);
    StepThird(q[2], d2, t3, d1 % 16, o1, y);
    StepFourth(q[3], d3, rest, d2 % 4, o2, z);
    assert o3 == out + [x, y, z];
  }

  /** The bit arithmetic behind the final quantum of one byte. */
  lemma {:induction false} FinalOneArithmetic(x: int, d0: int, d1: int)
    requires 0 <= x < 256 && d0 == x / 4 && d1 == (x % 4) * 16
    ensures d0 * 4 + d1 / 16 == x
  {
  }

  lemma {:induction false} FinalOneDecodes(x: byte, out: bytes)
    ensures A2b(FinalOne(x), Start, out) == Ok(out + [x])
  {
    var xi := x as int;
    var d0, d1 := xi / 4, (xi % 4) * 16;
    FinalOneArithmetic(xi, d0, d1);
    var f := FinalOne(x);
    assert Sextet(f[0]) == Some(d0) && Sextet(f[1]) == Some(d1);
    var t1 := [f[1]] + "==";
    assert f == [f[0]] + t1;
    var o1 := out + [x];
    StepFirst(f[0], d0, t1, out);
    StepSecond(f[1], d1, "==", d0, out, x);
    assert "=="[1..] == "=";
    assert A2b("==", Quad(2, d1 % 16, 0), o1) == A2b("=", Quad(2, d1 % 16, 1), o1);
    assert A2b("=", Quad(2, d1 % 16, 1), o1) == Ok(o1);
  }

  /** The bit arithmetic behind the final quantum of two bytes. */
  lemma {:induction false} FinalTwoArithmetic(x: int, y: int, d0: int, d1: int, d2: int)
    requires 0 <= x < 256 && 0 <= y < 256
    requires d0 == x / 4 && d1 == (x % 4) * 16 + y / 16 && d2 == (y % 16) * 4
    ensures d0 * 4 + d1 / 16 == x && (d1 % 16) * 16 + d2 / 4 == y
  {
  }

  lemma {:induction false} FinalTwoDecodes(x: byte, y: byte, out: bytes)
    ensures A2b(FinalTwo(x, y), Start, out) == Ok(out + [x, y])
  {
    var xi, yi := x as int, y as int;
    var d0, d1, d2 := xi / 4, (xi % 4) * 16 + yi / 16, (yi % 16) * 4;
    FinalTwoArithmetic(xi, yi, d0, d1, d2);
    var f := FinalTwo(x, y);
    assert Sextet(f[0]) == Some(d0) && Sextet(f[1]) == Some(d1) && Sextet(f[2]) == Some(d2);
    var t2 := [f[2]] + "=";
    var t1 := [f[1]] + t2;
    assert f == [f[0]] + t1;
    var o1 := out + [x];
    var o2 := o1 + [y];
    StepFirst(f[0], d0, t1, out);
    StepSecond(f[1], d1, t2, d0, out, x);
    StepThird(f[2], d2, "=", d1 % 16, o1, y);
    assert A2b("=", Quad(3, d2 % 4, 0), o2) == Ok(o2);
    assert o2 == out + [x, y];
  }

  /** The first three bytes and the rest. */
  lemma {:induction false} SplitQuantum(b: bytes)
    requires |b| >= 3
    ensures b == [b[0], b[1], b[2]] + b[3..]
  {
  }

  lemma {:induction false} A2bOfEncode(b: bytes, out: bytes)
    ensures A2b(Encode(b), Start, out) == Ok(out + b)
    decreases |b|
  {
    if |b| == 0 {
      assert out + b == out;
    } else if |b| == 1 {
      FinalOneDecodes(b[0], out);
      assert [b[0]] == b;
    } else if |b| == 2 {
      FinalTwoDecodes(b[0], b[1], out);
      assert [b[0], b[1]] == b;
    } else {
      QuantumDecodes(b[0], b[1], b[2], Encode(b[3..]), out);
      A2bOfEncode(b[3..], out + [b[0], b[1], b[2]]);
      SplitQuantum(b);
      Regroup(out, [b[0], b[1], b[2]], b[3..]);
    }
  }

  /** Every character `b64encode` produces is ASCII. */
  lemma {:induction false} EncodedCharIsAscii(c: char)
    requires IsEncodedChar(c)
    ensures c as int < 128
  {
  }

  /** The encoding is ASCII text. */
  lemma {:induction false} EncodeIsAscii(b: bytes)
    ensures IsAscii(Encode(b))
  {
    var s := Encode(b);
    forall i | 0 <= i < |s| ensures s[i] as int < 128 {
      EncodedCharIsAscii(s[i]);
    }
  }

  /** `b64decode(b64encode(b)) == b`. */
  lemma {:induction false} DecodeOfEncode(b: bytes)
    ensures Decode(Encode(b)) == Ok(b)
  {
    EncodeIsAscii(b);
    A2bOfEncode(b, []);
    assert [] + b == b;
  }

  /** The encoding is plain ASCII text, is empty only for empty input, and comes in whole quanta. */
  lemma {:induction false} EncodeShape(b: bytes)
    ensures IsAscii(Encode(b))
    ensures |Encode(b)| % 4 == 0
    ensures |Encode(b)| == 0 <==> |b| == 0
  {
    EncodeIsAscii(b);
    QuantaLength(|b|);
  }

  /** Whole quanta: `4 * ceil(n / 3)` is a multiple of four and zero only for `n == 0`. */
  lemma {:induction false} QuantaLength(n: nat)
    ensures (4 * ((n + 2) / 3)) % 4 == 0
    ensures 4 * ((n + 2) / 3) == 0 <==> n == 0
  {
  }
}
