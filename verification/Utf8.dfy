/** Text as the bytes in which it is hashed (section 3 of RFC 3629). */
module Utf8 {
  import opened FileChunks
  import opened Paths

  function EncodeChar(c: char): (bytes: Bytes)
    ensures bytes != []
  {
    var n := c as int;
    if n < 0x80 then [n]
    else if n < 0x800 then [0xC0 + n / 0x40, 0x80 + n % 0x40]
    else if n < 0x1_0000 then [0xE0 + n / 0x1000, 0x80 + n / 0x40 % 0x40, 0x80 + n % 0x40]
    else [0xF0 + n / 0x4_0000, 0x80 + n / 0x1000 % 0x40, 0x80 + n / 0x40 % 0x40, 0x80 + n % 0x40]
  }

  function Encode(text: string): Bytes {
    if text == "" then [] else EncodeChar(text[0]) + Encode(text[1..])
  }

  /** The first byte says how many there are. */
  function LengthFrom(first: Byte): nat {
    if first < 0x80 then 1 else if first < 0xE0 then 2 else if first < 0xF0 then 3 else 4
  }

  lemma EncodedLength(c: char)
    ensures |EncodeChar(c)| == LengthFrom(EncodeChar(c)[0])
  {
    var n := c as int;
    assert n < 0x11_0000;
  }

  function CodePoint(bytes: Bytes): int
    requires |bytes| > 0
  {
    if |bytes| == 1 then bytes[0]
    else if |bytes| == 2 then SixBits(bytes[0] as int - 0xC0, bytes[1])
    else if |bytes| == 3 then SixBits(SixBits(bytes[0] as int - 0xE0, bytes[1]), bytes[2])
    else SixBits(SixBits(SixBits(bytes[0] as int - 0xF0, bytes[1]), bytes[2]), bytes[3])
  }

  /** A number extended by the payload of a continuation byte. */
  function SixBits(high: int, byte: Byte): int {
    high * 0x40 + (byte as int - 0x80)
  }

  lemma Shifts(n: nat)
    ensures n / 0x1000 == n / 0x40 / 0x40 && n / 0x4_0000 == n / 0x1000 / 0x40
  {
  }

  lemma DecodedChar(c: char)
    ensures CodePoint(EncodeChar(c)) == c as int
  {
    var n := c as int;
    Shifts(n);
    assert n == n / 0x40 * 0x40 + n % 0x40;
    assert n / 0x40 == n / 0x1000 * 0x40 + n / 0x40 % 0x40;
    assert n / 0x1000 == n / 0x4_0000 * 0x40 + n / 0x1000 % 0x40;
    assert n < 0x11_0000;
  }

  /** No two characters have encodings of which one begins with the other. */
  lemma CharInjective(c: char, d: char, a: Bytes, b: Bytes)
    requires EncodeChar(c) + a == EncodeChar(d) + b
    ensures c == d && a == b
  {
    var x, y := EncodeChar(c), EncodeChar(d);
    EncodedLength(c);
    EncodedLength(d);
    assert x[0] == (x + a)[0] == (y + b)[0] == y[0];
    assert x == (x + a)[..|x|] && y == (y + b)[..|y|];
    assert a == (x + a)[|x|..] && b == (y + b)[|y|..];
    DecodedChar(c);
    DecodedChar(d);
  }

  /** Different texts have different bytes. */
  lemma {:induction false} EncodeInjective(s: string, t: string)
    requires Encode(s) == Encode(t)
    ensures s == t
  {
    if s != "" && t != "" {
      CharInjective(s[0], t[0], Encode(s[1..]), Encode(t[1..]));
      EncodeInjective(s[1..], t[1..]);
      assert s == [s[0]] + s[1..] && t == [t[0]] + t[1..];
    }
  }

  // ---- Order -----------------------------------------------------------------------------------

  /** The order in which strings are compared, byte by byte. */
  predicate BytesLess(a: Bytes, b: Bytes) {
    b != [] && (a == [] || a[0] < b[0] || (a[0] == b[0] && BytesLess(a[1..], b[1..])))
  }

  lemma {:induction false} BytesLessAfter(prefix: Bytes, a: Bytes, b: Bytes)
    ensures BytesLess(prefix + a, prefix + b) <==> BytesLess(a, b)
  {
    if prefix == [] {
      assert prefix + a == a && prefix + b == b;
    } else {
      BytesLessAfter(prefix[1..], a, b);
      assert (prefix + a)[1..] == prefix[1..] + a && (prefix + b)[1..] == prefix[1..] + b;
    }
  }

  /** The first byte in which the encodings of two characters differ. */
  lemma FirstDifference(c: char, d: char) returns (k: nat)
    requires c < d
    ensures var x, y := EncodeChar(c), EncodeChar(d);
            k < |x| && k < |y| && x[..k] == y[..k] && x[k] < y[k]
  {
    var x, y := EncodeChar(c), EncodeChar(d);
    Shifts(c as int);
    Shifts(d as int);
    DecodedChar(c);
    DecodedChar(d);
    assert (d as int) < 0x11_0000;
    k := 0;
    if x[0] == y[0] {
      EncodedLength(c);
      EncodedLength(d);
      k := 1;
      if x[1] == y[1] {
        k := 2;
        if x[2] == y[2] {
          k := 3;
        }
      }
    }
  }

  lemma CharOrder(c: char, d: char, a: Bytes, b: Bytes)
    requires c < d
    ensures BytesLess(EncodeChar(c) + a, EncodeChar(d) + b)
  {
    var x, y := EncodeChar(c) + a, EncodeChar(d) + b;
    var k := FirstDifference(c, d);
    var prefix := EncodeChar(c)[..k];
    assert x == prefix + x[k..] && y == prefix + y[k..];
    BytesLessAfter(prefix, x[k..], y[k..]);
  }

  lemma {:induction false} LessIsSmallerBytes(a: string, b: string)
    requires PathLess(a, b)
    ensures BytesLess(Encode(a), Encode(b))
  {
    if a != "" {
      if a[0] == b[0] {
        LessIsSmallerBytes(a[1..], b[1..]);
        BytesLessAfter(EncodeChar(a[0]), Encode(a[1..]), Encode(b[1..]));
      } else {
        CharOrder(a[0], b[0], Encode(a[1..]), Encode(b[1..]));
      }
    }
  }

  lemma {:induction false} BytesLessAsymmetric(a: Bytes, b: Bytes)
    requires BytesLess(a, b)
    ensures !BytesLess(b, a) && a != b
  {
    if a != [] && a[0] == b[0] {
      BytesLessAsymmetric(a[1..], b[1..]);
    }
  }

  /** Comparing texts by characters is comparing their bytes. */
  lemma OrderOfBytes(a: string, b: string)
    ensures PathLess(a, b) <==> BytesLess(Encode(a), Encode(b))
  {
    PathLessTotal(a, b);
    if PathLess(a, b) {
      LessIsSmallerBytes(a, b);
    } else if PathLess(b, a) {
      LessIsSmallerBytes(b, a);
      BytesLessAsymmetric(Encode(b), Encode(a));
    } else {
      if BytesLess(Encode(a), Encode(a)) { BytesLessAsymmetric(Encode(a), Encode(a)); }
    }
  }
}
