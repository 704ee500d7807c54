/**
 Strings and their UTF-8 encoding (RFC 3629, section 3), strict as Rust's `str`:
 no overlong forms, no surrogates, nothing beyond U+10FFFF.
 */
module Utf8 {
  import opened Basics

  function EncodeChar(c: char): (b: Bytes)
    ensures 1 <= |b| <= 4
  {
    var n := c as int;
    if n < 0x80 then [n]
    else if n < 0x800 then [0xC0 + n / 64, 0x80 + n % 64]
    else if n < 0x1_0000 then [0xE0 + n / 4096, 0x80 + n / 64 % 64, 0x80 + n % 64]
    else [0xF0 + n / 262144, 0x80 + n / 4096 % 64, 0x80 + n / 64 % 64, 0x80 + n % 64]
  }

  function At(b: Bytes, k: nat): int
    requires k < |b|
  {
    b[k]
  }

  predicate Continues(b: Bytes, k: nat) {
    k < |b| && 0x80 <= b[k] < 0xC0
  }

  /** The first character of `b` and its length, if `b` starts with a well-formed one. */
  function DecodeChar(b: Bytes): Option<(char, nat)> {
    if b == [] then None
    else if b[0] < 0x80 then Some((b[0] as char, 1))
    else if 0xC0 <= b[0] < 0xE0 && Continues(b, 1) then
      var n := (At(b, 0) - 0xC0) * 64 + (At(b, 1) - 0x80);
      if n < 0x80 then None else Some((n as char, 2))
    else if 0xE0 <= b[0] < 0xF0 && Continues(b, 1) && Continues(b, 2) then
      var n := (At(b, 0) - 0xE0) * 4096 + (At(b, 1) - 0x80) * 64 + (At(b, 2) - 0x80);
      if n < 0x800 || 0xD800 <= n < 0xE000 then None else Some((n as char, 3))
    else if 0xF0 <= b[0] < 0xF8 && Continues(b, 1) && Continues(b, 2) && Continues(b, 3) then
      var n := (At(b, 0) - 0xF0) * 262144 + (At(b, 1) - 0x80) * 4096 + (At(b, 2) - 0x80) * 64 + (At(b, 3) - 0x80);
      if n < 0x1_0000 || n >= 0x11_0000 then None else Some((n as char, 4))
    else None
  }

  /** `str::as_bytes`. */
  function ToBytes(s: string): Bytes {
    if s == [] then [] else EncodeChar(s[0]) + ToBytes(s[1..])
  }

  /** `str::from_utf8`. */
  function FromBytes(b: Bytes): Option<string>
    decreases |b|
  {
    if b == [] then Some([])
    else match DecodeChar(b)
      case None => None
      case Some((c, n)) =>
        if !(1 <= n <= |b|) then None
        else match FromBytes(b[n..])
          case None => None
          case Some(rest) => Some([c] + rest)
  }

  /** The table of RFC 3629, section 3: leading bits, and six more bits in every trailing byte. */
  predicate InTable(n: int, b: Bytes) {
    if n < 0x80 then |b| == 1 && At(b, 0) == n
    else if n < 0x800 then
      |b| == 2 && 0xC0 <= At(b, 0) <= 0xDF && Continues(b, 1)
      && n == (At(b, 0) - 0xC0) * 64 + (At(b, 1) - 0x80)
    else if n < 0x1_0000 then
      |b| == 3 && 0xE0 <= At(b, 0) <= 0xEF && Continues(b, 1) && Continues(b, 2)
      && n == (At(b, 0) - 0xE0) * 4096 + (At(b, 1) - 0x80) * 64 + (At(b, 2) - 0x80)
    else
      |b| == 4 && 0xF0 <= At(b, 0) <= 0xF7 && Continues(b, 1) && Continues(b, 2) && Continues(b, 3)
      && n == (At(b, 0) - 0xF0) * 262144 + (At(b, 1) - 0x80) * 4096 + (At(b, 2) - 0x80) * 64 + (At(b, 3) - 0x80)
  }

  lemma EncodeCharInTable(c: char)
    ensures InTable(c as int, EncodeChar(c))
  {
    Digits(c as int);
  }

  /** Digits in base 64. */
  lemma Digits(n: nat)
    ensures n == n / 64 * 64 + n % 64
    ensures n / 64 == n / 4096 * 64 + n / 64 % 64
    ensures n / 4096 == n / 262144 * 64 + n / 4096 % 64
  {
    assert n / 64 / 64 == n / 4096;
    assert n / 4096 / 64 == n / 262144;
  }

  lemma DecodeEncodeChar(c: char, rest: Bytes)
    ensures DecodeChar(EncodeChar(c) + rest) == Some((c, |EncodeChar(c)|))
  {
    var e := EncodeChar(c);
    var b := e + rest;
    Digits(c as int);
    assert forall k :: 0 <= k < |e| ==> b[k] == e[k];
    if |e| == 1 {
      assert b[0] == e[0];
    } else if |e| == 2 {
      assert b[0] == e[0] && b[1] == e[1];
    } else if |e| == 3 {
      assert b[0] == e[0] && b[1] == e[1] && b[2] == e[2];
    } else {
      assert b[0] == e[0] && b[1] == e[1] && b[2] == e[2] && b[3] == e[3];
    }
  }

  /** Base-64 digits are unique. */
  lemma DigitsUnique(a: nat, x: nat, y: nat, z: nat)
    requires x < 64 && y < 64 && z < 64
    ensures var n := a * 262144 + x * 4096 + y * 64 + z;
            n % 64 == z && n / 64 % 64 == y && n / 4096 % 64 == x && n / 262144 == a
            && n / 4096 == a * 64 + x && n / 64 == a * 4096 + x * 64 + y
  {
    var n := a * 262144 + x * 4096 + y * 64 + z;
    assert n == 64 * (a * 4096 + x * 64 + y) + z;
    assert n / 64 == a * 4096 + x * 64 + y;
    assert n / 4096 == a * 64 + x;
  }

  lemma EncodeDecodeChar(b: Bytes)
    requires DecodeChar(b).Some?
    ensures var (c, n) := DecodeChar(b).value;
            1 <= n <= |b| && EncodeChar(c) == b[..n]
  {
    var (c, n) := DecodeChar(b).value;
    if n == 2 {
      DigitsUnique(0, 0, At(b, 0) - 0xC0, At(b, 1) - 0x80);
      assert b[..2] == [b[0], b[1]];
    } else if n == 3 {
      DigitsUnique(0, At(b, 0) - 0xE0, At(b, 1) - 0x80, At(b, 2) - 0x80);
      assert b[..3] == [b[0], b[1], b[2]];
    } else if n == 4 {
      DigitsUnique(At(b, 0) - 0xF0, At(b, 1) - 0x80, At(b, 2) - 0x80, At(b, 3) - 0x80);
      assert b[..4] == [b[0], b[1], b[2], b[3]];
    }
  }

  lemma {:induction false} DecodeEncode(s: string)
    ensures FromBytes(ToBytes(s)) == Some(s)
  {
    if s != [] {
      DecodeEncodeChar(s[0], ToBytes(s[1..]));
      DecodeEncode(s[1..]);
      var n := |EncodeChar(s[0])|;
      assert ToBytes(s) != [] && ToBytes(s)[n..] == ToBytes(s[1..]);
      assert [s[0]] + s[1..] == s;
    }
  }

  lemma ToBytesCons(c: char, s: string)
    ensures ToBytes([c] + s) == EncodeChar(c) + ToBytes(s)
  {
    assert ([c] + s)[1..] == s;
  }

  lemma {:induction false} EncodeDecode(b: Bytes)
    requires FromBytes(b).Some?
    ensures ToBytes(FromBytes(b).value) == b
    decreases |b|
  {
    if b != [] {
      EncodeDecodeChar(b);
      var (c, n) := DecodeChar(b).value;
      EncodeDecode(b[n..]);
      ToBytesCons(c, FromBytes(b[n..]).value);
      assert b == b[..n] + b[n..];
    }
  }

  lemma Assoc(a: Bytes, b: Bytes, c: Bytes)
    ensures (a + b) + c == a + (b + c)
  {
  }

  lemma {:induction false} ToBytesConcat(s: string, t: string)
    ensures ToBytes(s + t) == ToBytes(s) + ToBytes(t)
  {
    if s == [] {
      assert s + t == t;
    } else {
      var c, rest := s[0], s[1..];
      ToBytesConcat(rest, t);
      assert s == [c] + rest && s + t == [c] + (rest + t);
      ToBytesCons(c, rest);
      ToBytesCons(c, rest + t);
      Assoc(EncodeChar(c), ToBytes(rest), ToBytes(t));
    }
  }
}
