/**
 * UTF-8 as RFC 3629 defines it: str.encode("UTF8") and the strict
 * bytes.decode("UTF8"), plus bytes.strip() on raw frames.
 */
module Utf8 {
  import opened Wrappers
  import opened Errors

  type Byte = b: int | 0 <= b < 256

  const CR: Byte := 13
  const LF: Byte := 10
  /** The two bytes "\r\n" that end every frame of the LiveSplit protocols. */
  const CRLF: seq<Byte> := [CR, LF]

  predicate IsCont(b: Byte) { 0x80 <= b < 0xC0 }

  /** The encoding of one Unicode scalar value, shortest form. */
  function EncodeChar(c: char): (b: seq<Byte>)
    ensures 1 <= |b| <= 4
    ensures (|b| == 1) == (c as int < 0x80)
    ensures |b| == 1 ==> b[0] == c as int
    ensures |b| > 1 ==> b[0] >= 0xC2 && IsCont(b[|b| - 1])
    ensures |b| > 1 ==> forall k :: 0 <= k < |b| ==> b[k] >= 0x80
  {
    var cp := c as int;
    var q1 := cp / 64;
    var q2 := q1 / 64;
    var q3 := q2 / 64;
    if cp < 0x80 then [cp]
    else if cp < 0x800 then [0xC0 + q1, 0x80 + cp % 64]
    else if cp < 0x10000 then [0xE0 + q2, 0x80 + q1 % 64, 0x80 + cp % 64]
    else [0xF0 + q3, 0x80 + q2 % 64, 0x80 + q1 % 64, 0x80 + cp % 64]
  }

  /** str.encode("UTF8") */
  function Encode(s: string): (b: seq<Byte>)
    ensures |b| >= |s|
  {
    if s == [] then [] else EncodeChar(s[0]) + Encode(s[1..])
  }

  /** How many bytes a sequence starting with this byte has; 0 for a byte no sequence starts with. */
  function SequenceLength(lead: Byte): nat
  {
    if lead < 0x80 then 1
    else if 0xC2 <= lead < 0xE0 then 2
    else if 0xE0 <= lead < 0xF0 then 3
    else if 0xF0 <= lead < 0xF5 then 4
    else 0
  }

  /** The smallest code point that needs n bytes: anything below is an overlong form. */
  function MinCodePoint(n: nat): int
  {
    if n == 2 then 0x80 else if n == 3 then 0x800 else if n == 4 then 0x10000 else 0
  }

  /** Reads one character from the front of b: the character and the bytes it used, or None when ill-formed. */
  function DecodeChar(b: seq<Byte>): (r: Option<(char, nat)>)
    requires |b| > 0
    ensures r.Some? ==> 1 <= r.value.1 <= |b|
  {
    var n := SequenceLength(b[0]);
    if n == 0 || |b| < n || !(forall k :: 1 <= k < n ==> IsCont(b[k])) then None
    else
      var cp: int :=
        if n == 1 then b[0] as int
        else if n == 2 then (b[0] as int - 0xC0) * 64 + (b[1] as int - 0x80)
        else if n == 3 then ((b[0] as int - 0xE0) * 64 + (b[1] as int - 0x80)) * 64 + (b[2] as int - 0x80)
        else (((b[0] as int - 0xF0) * 64 + (b[1] as int - 0x80)) * 64 + (b[2] as int - 0x80)) * 64 + (b[3] as int - 0x80);
      if cp < MinCodePoint(n) || (0xD800 <= cp < 0xE000) || cp >= 0x110000 then None
      else Some((cp as char, n))
  }

  /** bytes.decode("UTF8") with the default strict error handler. */
  function Decode(b: seq<Byte>): Result<string, Exc>
    decreases |b|
  {
    if b == [] then Ok("")
    else match DecodeChar(b)
      case None => Err(UnicodeDecodeError)
      case Some((c, n)) =>
        match Decode(b[n..])
        case Err(e) => Err(e)
        case Ok(rest) => Ok([c] + rest)
  }

  /** The only exception strict decoding raises is UnicodeDecodeError. */
  lemma {:induction false} DecodeErrors(b: seq<Byte>)
    ensures Decode(b).Err? ==> Decode(b).error == UnicodeDecodeError
    decreases |b|
  {
    if b != [] && DecodeChar(b).Some? {
      DecodeErrors(b[DecodeChar(b).value.1..]);
    }
  }

  lemma DecodeEncodedChar(c: char, rest: seq<Byte>)
    ensures DecodeChar(EncodeChar(c) + rest) == Some((c, |EncodeChar(c)|))
  {
    var cp := c as int;
    if cp < 0x80 {
    } else if cp < 0x800 {
      DecodeTwoBytes(c, rest);
    } else if cp < 0x10000 {
      DecodeThreeBytes(c, rest);
    } else {
      DecodeFourBytes(c, rest);
    }
  }

  lemma DecodeTwoBytes(c: char, rest: seq<Byte>)
    requires 0x80 <= c as int < 0x800
    ensures DecodeChar(EncodeChar(c) + rest) == Some((c, 2))
  {
    var cp := c as int;
    var b := EncodeChar(c) + rest;
    var q1 := cp / 64;
    assert cp == q1 * 64 + cp % 64;
    assert b[0] == 0xC0 + q1 && b[1] == 0x80 + cp % 64;
  }

  lemma DecodeThreeBytes(c: char, rest: seq<Byte>)
    requires 0x800 <= c as int < 0x10000
    ensures DecodeChar(EncodeChar(c) + rest) == Some((c, 3))
  {
    var cp := c as int;
    var b := EncodeChar(c) + rest;
    var q1 := cp / 64;
    var q2 := q1 / 64;
    assert cp == q1 * 64 + cp % 64;
    assert q1 == q2 * 64 + q1 % 64;
    assert b[0] == 0xE0 + q2 && b[1] == 0x80 + q1 % 64 && b[2] == 0x80 + cp % 64;
  }

  lemma DecodeFourBytes(c: char, rest: seq<Byte>)
    requires 0x10000 <= c as int
    ensures DecodeChar(EncodeChar(c) + rest) == Some((c, 4))
  {
    var cp := c as int;
    var b := EncodeChar(c) + rest;
    var q1 := cp / 64;
    var q2 := q1 / 64;
    var q3 := q2 / 64;
    assert cp == q1 * 64 + cp % 64;
    assert q1 == q2 * 64 + q1 % 64;
    assert q2 == q3 * 64 + q2 % 64;
    assert b[0] == 0xF0 + q3 && b[1] == 0x80 + q2 % 64 && b[2] == 0x80 + q1 % 64 && b[3] == 0x80 + cp % 64;
  }

  /** Decoding what was encoded gives the string back: the frames of this model are always decodable. */
  lemma {:induction false} DecodeEncode(s: string)
    ensures Decode(Encode(s)) == Ok(s)
  {
    if s != [] {
      var e := EncodeChar(s[0]);
      DecodeEncodedChar(s[0], Encode(s[1..]));
      assert (e + Encode(s[1..]))[|e|..] == Encode(s[1..]);
      DecodeEncode(s[1..]);
      assert [s[0]] + s[1..] == s;
    }
  }

  /** An ASCII string encodes byte for byte. */
  lemma {:induction false} EncodeAscii(s: string)
    requires forall i :: 0 <= i < |s| ==> s[i] as int < 0x80
    ensures |Encode(s)| == |s|
    ensures forall i :: 0 <= i < |s| ==> Encode(s)[i] == s[i] as int
  {
    if s != [] {
      EncodeAscii(s[1..]);
    }
  }

  lemma {:induction false} EncodeAppend(s: string, t: string)
    ensures Encode(s + t) == Encode(s) + Encode(t)
  {
    if s != [] {
      assert (s + t)[1..] == s[1..] + t;
      EncodeAppend(s[1..], t);
    } else {
      assert s + t == t;
    }
  }

  /**
   * Only an ASCII character encodes to a byte below 0x80, so the first and last
   * bytes of an encoding are whitespace only when the first and last characters are.
   */
  lemma EncodeEdges(s: string)
    requires s != []
    ensures |Encode(s)| > 0
    ensures IsAsciiSpace(Encode(s)[0]) ==> s[0] as int < 0x80 && IsAsciiSpace(s[0] as int)
    ensures IsAsciiSpace(Encode(s)[|Encode(s)| - 1]) ==> s[|s| - 1] as int < 0x80 && IsAsciiSpace(s[|s| - 1] as int)
  {
    var n := |s| - 1;
    assert s == s[..n] + [s[n]];
    EncodeAppend(s[..n], [s[n]]);
    assert Encode([s[n]]) == EncodeChar(s[n]) + Encode([]);
  }

  /** A byte below 0x80 turns up in an encoding only where its own character was. */
  lemma {:induction false} EncodeAvoidsAscii(s: string, b: Byte)
    requires b < 0x80 && forall i :: 0 <= i < |s| ==> s[i] as int != b
    ensures b !in Encode(s)
  {
    if s != [] {
      EncodeAvoidsAscii(s[1..], b);
      assert b !in EncodeChar(s[0]);
    }
  }

  /** The bytes bytes.strip() removes: space, \t, \n, \v, \f and \r. */
  predicate IsAsciiSpace(b: Byte) { b == 32 || 9 <= b <= 13 }

  function RStripBytes(b: seq<Byte>): (r: seq<Byte>)
    ensures |r| <= |b| && r == b[..|r|]
    ensures forall i :: |r| <= i < |b| ==> IsAsciiSpace(b[i])
    ensures r == [] || !IsAsciiSpace(r[|r| - 1])
  {
    if b != [] && IsAsciiSpace(b[|b| - 1]) then RStripBytes(b[..|b| - 1]) else b
  }

  function LStripBytes(b: seq<Byte>): (r: seq<Byte>)
    ensures |r| <= |b| && r == b[|b| - |r|..]
    ensures forall i :: 0 <= i < |b| - |r| ==> IsAsciiSpace(b[i])
    ensures r == [] || !IsAsciiSpace(r[0])
  {
    if b != [] && IsAsciiSpace(b[0]) then LStripBytes(b[1..]) else b
  }

  /** bytes.strip() with no argument. */
  function StripBytes(b: seq<Byte>): seq<Byte>
  {
    LStripBytes(RStripBytes(b))
  }

  /** A frame's terminator is stripped and nothing else when the payload has no whitespace at either end. */
  lemma StripFrame(p: seq<Byte>)
    requires p == [] || (!IsAsciiSpace(p[0]) && !IsAsciiSpace(p[|p| - 1]))
    ensures StripBytes(p + CRLF) == p
  {
    var f := p + CRLF;
    assert f[..|f| - 1] == p + [CR];
    assert (p + [CR])[..|p|] == p;
  }
}
