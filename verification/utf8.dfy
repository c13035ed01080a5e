/** Bytes that are valid UTF-8, as a scanner tells them and as what encodes scalar values (RFC 3629). */
module Utf8 {

  type Byte = b: int | 0 <= b < 256

  predicate TailByte(b: Byte) {
    0x80 <= b <= 0xBF
  }

  /** Well-formed byte sequences of two, three and four bytes (section 4 of RFC 3629). */
  predicate TwoBytes(s: seq<Byte>) {
    |s| >= 2 && 0xC2 <= s[0] <= 0xDF && TailByte(s[1])
  }

  predicate ThreeBytes(s: seq<Byte>) {
    && |s| >= 3 && 0xE0 <= s[0] <= 0xEF && TailByte(s[1]) && TailByte(s[2])
    && (s[0] == 0xE0 ==> 0xA0 <= s[1]) && (s[0] == 0xED ==> s[1] <= 0x9F)
  }

  predicate FourBytes(s: seq<Byte>) {
    && |s| >= 4 && 0xF0 <= s[0] <= 0xF4 && TailByte(s[1]) && TailByte(s[2]) && TailByte(s[3])
    && (s[0] == 0xF0 ==> 0x90 <= s[1]) && (s[0] == 0xF4 ==> s[1] <= 0x8F)
  }

  /** The bytes are valid UTF-8, which the cache codec insists on. */
  predicate ValidUTF8(s: seq<Byte>) {
    if s == [] then true
    else if s[0] < 0x80 then ValidUTF8(s[1..])
    else if TwoBytes(s) then ValidUTF8(s[2..])
    else if ThreeBytes(s) then ValidUTF8(s[3..])
    else FourBytes(s) && ValidUTF8(s[4..])
  }

  /** Unicode scalar values: all code points but the surrogates. */
  ghost predicate Scalar(c: int) {
    0 <= c <= 0x10FFFF && !(0xD800 <= c <= 0xDFFF)
  }

  /** The bytes of a scalar value (section 3 of RFC 3629). */
  ghost function Encoded(c: int): seq<Byte>
    requires Scalar(c)
  {
    if c < 0x80 then [c]
    else if c < 0x800 then [0xC0 + c / 64, 0x80 + c % 64]
    else if c < 0x1_0000 then [0xE0 + c / 4096, 0x80 + c / 64 % 64, 0x80 + c % 64]
    else [0xF0 + c / 0x4_0000, 0x80 + c / 4096 % 64, 0x80 + c / 64 % 64, 0x80 + c % 64]
  }

  ghost predicate Scalars(cs: seq<int>) {
    forall i :: 0 <= i < |cs| ==> Scalar(cs[i])
  }

  ghost function EncodedAll(cs: seq<int>): seq<Byte>
    requires Scalars(cs)
  {
    if cs == [] then [] else Encoded(cs[0]) + EncodedAll(cs[1..])
  }

  lemma EncodedIsTwo(c: int, rest: seq<Byte>)
    requires 0x80 <= c < 0x800
    ensures TwoBytes(Encoded(c) + rest)
  {
    assert 2 <= c / 64 < 32 && 0 <= c % 64 < 64;
  }

  lemma EncodedIsThree(c: int, rest: seq<Byte>)
    requires 0x800 <= c < 0x1_0000 && Scalar(c)
    ensures ThreeBytes(Encoded(c) + rest)
  {
    var a, b := c / 4096, c / 64;
    assert b == 64 * a + b % 64 && 0 <= a < 16 && 0 <= c % 64 < 64;
  }

  lemma EncodedIsFour(c: int, rest: seq<Byte>)
    requires 0x1_0000 <= c && Scalar(c)
    ensures FourBytes(Encoded(c) + rest)
  {
    var a, b := c / 0x4_0000, c / 4096;
    assert b == 64 * a + b % 64 && 0 <= a < 5 && 0 <= c / 64 % 64 < 64 && 0 <= c % 64 < 64;
  }

  /** One scalar value in front of other bytes. */
  lemma EncodedFirst(c: int, rest: seq<Byte>)
    requires Scalar(c)
    ensures ValidUTF8(Encoded(c) + rest) <==> ValidUTF8(rest)
  {
    var s := Encoded(c) + rest;
    assert s[|Encoded(c)|..] == rest;
    if 0x80 <= c < 0x800 {
      EncodedIsTwo(c, rest);
    } else if 0x800 <= c < 0x1_0000 {
      EncodedIsThree(c, rest);
    } else if 0x1_0000 <= c {
      EncodedIsFour(c, rest);
    }
  }

  /** What encodes scalar values is valid. */
  lemma {:induction false} EncodedIsValid(cs: seq<int>)
    requires Scalars(cs)
    ensures ValidUTF8(EncodedAll(cs))
  {
    if cs != [] {
      EncodedIsValid(cs[1..]);
      EncodedFirst(cs[0], EncodedAll(cs[1..]));
    }
  }

  ghost function Tail(b: Byte): int {
    b - 0x80
  }

  lemma TwoDecode(s: seq<Byte>) returns (c: int)
    requires TwoBytes(s)
    ensures Scalar(c) && Encoded(c) <= s
  {
    var a: int, b := s[0] - 0xC0, Tail(s[1]);
    c := 64 * a + b;
    assert c / 64 == a && c % 64 == b;
  }

  lemma ThreeDecode(s: seq<Byte>) returns (c: int)
    requires ThreeBytes(s)
    ensures Scalar(c) && Encoded(c) <= s
  {
    var a: int, b, d := s[0] - 0xE0, Tail(s[1]), Tail(s[2]);
    c := 4096 * a + 64 * b + d;
    assert c / 64 == 64 * a + b && c % 64 == d;
    assert c / 4096 == a && (64 * a + b) % 64 == b;
  }

  lemma FourDecode(s: seq<Byte>) returns (c: int)
    requires FourBytes(s)
    ensures Scalar(c) && Encoded(c) <= s
  {
    var a: int, b, d, e := s[0] - 0xF0, Tail(s[1]), Tail(s[2]), Tail(s[3]);
    c := 0x4_0000 * a + 4096 * b + 64 * d + e;
    assert c / 64 == 4096 * a + 64 * b + d && c % 64 == e;
    assert c / 4096 == 64 * a + b && c / 0x4_0000 == a;
    assert (64 * a + b) % 64 == b && (4096 * a + 64 * b + d) % 64 == d;
  }

  /** The scalar value that valid bytes start with. */
  lemma FirstScalar(s: seq<Byte>) returns (c: int)
    requires s != [] && ValidUTF8(s)
    ensures Scalar(c) && Encoded(c) <= s
  {
    if s[0] < 0x80 {
      c := s[0];
    } else if TwoBytes(s) {
      c := TwoDecode(s);
    } else if ThreeBytes(s) {
      c := ThreeDecode(s);
    } else {
      c := FourDecode(s);
    }
  }

  /** Valid bytes encode scalar values, so the bytes that are valid are exactly the ones that encode some. */
  lemma {:induction false} ValidIsEncoded(s: seq<Byte>) returns (cs: seq<int>)
    requires ValidUTF8(s)
    ensures Scalars(cs) && EncodedAll(cs) == s
  {
    if s == [] {
      cs := [];
    } else {
      var c := FirstScalar(s);
      var rest := s[|Encoded(c)|..];
      assert s == Encoded(c) + rest;
      EncodedFirst(c, rest);
      var more := ValidIsEncoded(rest);
      cs := [c] + more;
      assert cs[1..] == more;
    }
  }
}
