/** Bytes, UTF-8, hexadecimal and decimal text: the encodings under the evidence stack. */
module Bytes {
  import opened Wrappers

  type byte = x: int | 0 <= x < 256

  /** The UTF-8 encoding of one Unicode scalar value (RFC 3629, section 3). */
  function Utf8(c: char): (r: seq<byte>)
    ensures 1 <= |r| <= 4
  {
    var n := c as int;
    if n < 0x80 then [n]
    else if n < 0x800 then [0xC0 + n / 64, 0x80 + n % 64]
    else if n < 0x1_0000 then [0xE0 + n / 4096, 0x80 + n / 64 % 64, 0x80 + n % 64]
    else [0xF0 + n / 262144, 0x80 + n / 4096 % 64, 0x80 + n / 64 % 64, 0x80 + n % 64]
  }

  function Utf8All(s: string): (r: seq<byte>) {
    if s == "" then [] else Utf8(s[0]) + Utf8All(s[1..])
  }

  predicate Continuation(bs: seq<byte>, i: nat) {
    i < |bs| && 0x80 <= bs[i] < 0xC0
  }

  predicate Scalar(n: int) {
    0 <= n < 0xD800 || 0xE000 <= n < 0x11_0000
  }

  function Payload(b: byte, prefix: int): int {
    b - prefix
  }

  /** Reads one scalar value off the front of a byte sequence: RFC 3629, rejecting
      overlong forms, surrogates and values past the last code point. */
  function DecodeUtf8(bs: seq<byte>): (r: Option<(char, seq<byte>)>)
    ensures r.Some? ==> |r.value.1| < |bs|
  {
    if bs == [] then None
    else if bs[0] < 0x80 then Some((bs[0] as char, bs[1..]))
    else if 0xC0 <= bs[0] < 0xE0 && Continuation(bs, 1) then
      var n: int := Payload(bs[0], 0xC0) * 64 + Payload(bs[1], 0x80);
      if n < 0x80 then None else Some((n as char, bs[2..]))
    else if 0xE0 <= bs[0] < 0xF0 && Continuation(bs, 1) && Continuation(bs, 2) then
      var n: int := Payload(bs[0], 0xE0) * 4096 + Payload(bs[1], 0x80) * 64 + Payload(bs[2], 0x80);
      if n < 0x800 || !Scalar(n) then None else Some((n as char, bs[3..]))
    else if 0xF0 <= bs[0] < 0xF8 && Continuation(bs, 1) && Continuation(bs, 2) && Continuation(bs, 3) then
      var n: int := Payload(bs[0], 0xF0) * 262144 + Payload(bs[1], 0x80) * 4096 + Payload(bs[2], 0x80) * 64 + Payload(bs[3], 0x80);
      if n < 0x1_0000 || !Scalar(n) then None else Some((n as char, bs[4..]))
    else None
  }

  lemma Base64Digits(n: nat)
    requires n < 0x11_0000
    ensures n == n / 262144 * 262144 + n / 4096 % 64 * 4096 + n / 64 % 64 * 64 + n % 64
    ensures n < 0x800 ==> n == n / 64 * 64 + n % 64
    ensures n < 0x1_0000 ==> n == n / 4096 * 4096 + n / 64 % 64 * 64 + n % 64
  {
    assert n / 64 / 64 == n / 4096;
    assert n / 4096 / 64 == n / 262144;
  }

  lemma Utf8RoundTrip(c: char, rest: seq<byte>)
    ensures DecodeUtf8(Utf8(c) + rest) == Some((c, rest))
  {
    var n := c as int;
    var bs := Utf8(c) + rest;
    Base64Digits(n);
    assert bs[|Utf8(c)|..] == rest;
    assert forall i :: 0 <= i < |Utf8(c)| ==> bs[i] == Utf8(c)[i];
  }

  /** UTF-8 loses nothing: text is determined by its bytes. */
  lemma {:induction false} Utf8AllInjective(s: string, t: string)
    requires Utf8All(s) == Utf8All(t)
    ensures s == t
  {
    if s != "" && t != "" {
      Utf8RoundTrip(s[0], Utf8All(s[1..]));
      Utf8RoundTrip(t[0], Utf8All(t[1..]));
      Utf8AllInjective(s[1..], t[1..]);
      assert s == [s[0]] + s[1..] && t == [t[0]] + t[1..];
    }
  }

  // ---- The order of Rust's `String` keys: lexicographic on the UTF-8 bytes ----

  predicate BytesLess(a: seq<byte>, b: seq<byte>) {
    if b == [] then false
    else if a == [] then true
    else a[0] < b[0] || (a[0] == b[0] && BytesLess(a[1..], b[1..]))
  }

  predicate KeyLess(a: string, b: string) {
    BytesLess(Utf8All(a), Utf8All(b))
  }

  lemma {:induction false} BytesLessTransitive(a: seq<byte>, b: seq<byte>, c: seq<byte>)
    requires BytesLess(a, b) && BytesLess(b, c)
    ensures BytesLess(a, c)
  {
    if a != [] && a[0] == b[0] && b[0] == c[0] {
      BytesLessTransitive(a[1..], b[1..], c[1..]);
    }
  }

  lemma {:induction false} BytesLessTotal(a: seq<byte>, b: seq<byte>)
    ensures BytesLess(a, b) || BytesLess(b, a) || a == b
    ensures !(BytesLess(a, b) && BytesLess(b, a))
    ensures !BytesLess(a, a)
  {
    if a != [] {
      BytesLessTotal(a[1..], a[1..]);
      if b != [] && a[0] == b[0] {
        BytesLessTotal(a[1..], b[1..]);
        assert a == [a[0]] + a[1..] && b == [b[0]] + b[1..];
      }
    }
  }

  /** `KeyLess` is a strict total order on strings. */
  lemma KeyOrder(a: string, b: string)
    ensures KeyLess(a, b) || KeyLess(b, a) || a == b
    ensures !(KeyLess(a, b) && KeyLess(b, a))
    ensures !KeyLess(a, a)
  {
    BytesLessTotal(Utf8All(a), Utf8All(b));
    if Utf8All(a) == Utf8All(b) {
      Utf8AllInjective(a, b);
    }
  }

  lemma KeyLessTransitive(a: string, b: string, c: string)
    requires KeyLess(a, b) && KeyLess(b, c)
    ensures KeyLess(a, c)
  {
    BytesLessTransitive(Utf8All(a), Utf8All(b), Utf8All(c));
  }

  // ---- Hexadecimal ----

  type nibble = x: int | 0 <= x < 16

  function NibbleToHex(n: nibble): (c: char) {
    if n < 10 then '0' + n as char else 'a' + (n - 10) as char
  }

  function Hex(bs: seq<byte>): (r: string)
    ensures |r| == 2 * |bs|
  {
    if bs == [] then "" else [NibbleToHex(bs[0] / 16), NibbleToHex(bs[0] % 16)] + Hex(bs[1..])
  }

  lemma {:induction false} HexSnoc(bs: seq<byte>, b: byte)
    ensures Hex(bs + [b]) == Hex(bs) + [NibbleToHex(b / 16), NibbleToHex(b % 16)]
  {
    if bs == [] {
      assert [b][1..] == [];
    } else {
      assert (bs + [b])[1..] == bs[1..] + [b];
      HexSnoc(bs[1..], b);
    }
  }

  method ToHex(bytes: seq<byte>) returns (s: string)
    ensures s == Hex(bytes)
  {
    s := "";
    for i := 0 to |bytes|
      invariant s == Hex(bytes[..i])
    {
      s := s + [NibbleToHex(bytes[i] / 16)];
      s := s + [NibbleToHex(bytes[i] % 16)];
      HexSnoc(bytes[..i], bytes[i]);
      assert bytes[..i + 1] == bytes[..i] + [bytes[i]];
    }
    assert bytes[..|bytes|] == bytes;
  }

  lemma {:induction false} HexInjective(a: seq<byte>, b: seq<byte>)
    requires Hex(a) == Hex(b)
    ensures a == b
  {
    if a != [] && b != [] {
      var ha, hb := Hex(a), Hex(b);
      assert ha[0] == NibbleToHex(a[0] / 16) && ha[1] == NibbleToHex(a[0] % 16) && ha[2..] == Hex(a[1..]);
      assert hb[0] == NibbleToHex(b[0] / 16) && hb[1] == NibbleToHex(b[0] % 16) && hb[2..] == Hex(b[1..]);
      assert a[0] == b[0];
      HexInjective(a[1..], b[1..]);
      assert a == [a[0]] + a[1..] && b == [b[0]] + b[1..];
    }
  }

  /** The value of a hexadecimal digit; capital letters are none. */
  function HexValue(c: char): Option<nibble> {
    if '0' <= c <= '9' then Some(c as int - '0' as int)
    else if 'a' <= c <= 'f' then Some(c as int - 'a' as int + 10)
    else None
  }

  /** The bytes a text of lower-case hexadecimal digits stands for, two digits to a byte, the high one first. */
  function Unhex(s: string): Option<seq<byte>> {
    if s == "" then Some([])
    else if |s| == 1 then None
    else
      match (HexValue(s[0]), HexValue(s[1]), Unhex(s[2..]))
      case (Some(high), Some(low), Some(rest)) =>
        var b: byte := 16 * high as int + low as int;
        Some([b] + rest)
      case _ => None
  }

  /** Reading the text back gives the bytes. */
  lemma {:induction false} HexRoundTrip(bs: seq<byte>)
    ensures Unhex(Hex(bs)) == Some(bs)
  {
    if bs != [] {
      HexRoundTrip(bs[1..]);
      assert Hex(bs)[2..] == Hex(bs[1..]);
      assert bs == [bs[0]] + bs[1..];
    }
  }

  // ---- Decimal ----

  predicate IsDigit(c: char) {
    '0' <= c <= '9'
  }

  function Digit(n: int): (c: char)
    requires 0 <= n < 10
    ensures IsDigit(c)
  {
    '0' + n as char
  }

  /** Rust's `to_string` of an unsigned integer. */
  function Decimal(n: nat): (r: string)
    ensures r != "" && (forall c <- r :: IsDigit(c))
    ensures n > 0 ==> r[0] != '0'
    ensures n == 0 ==> r == "0"
  {
    if n < 10 then [Digit(n)] else Decimal(n / 10) + [Digit(n % 10)]
  }

  lemma {:induction false} DecimalInjective(m: nat, n: nat)
    requires Decimal(m) == Decimal(n)
    ensures m == n
  {
    var a, b := Decimal(m), Decimal(n);
    if m >= 10 && n >= 10 {
      assert a[..|a| - 1] == Decimal(m / 10) && b[..|b| - 1] == Decimal(n / 10);
      assert a[|a| - 1] == Digit(m % 10) && b[|b| - 1] == Digit(n % 10);
      DecimalInjective(m / 10, n / 10);
    }
  }

  /** The number that a text of decimal digits stands for. */
  function Undecimal(s: string): (n: nat)
    requires forall i :: 0 <= i < |s| ==> IsDigit(s[i])
  {
    if s == "" then 0
    else
      assert IsDigit(s[|s| - 1]);
      10 * Undecimal(s[..|s| - 1]) + (s[|s| - 1] as int - '0' as int)
  }

  /** Reading the text back gives the number. */
  lemma {:induction false} DecimalRoundTrip(n: nat)
    ensures forall i :: 0 <= i < |Decimal(n)| ==> IsDigit(Decimal(n)[i])
    ensures Undecimal(Decimal(n)) == n
  {
    var s := Decimal(n);
    assert forall i :: 0 <= i < |s| ==> s[i] in s;
    if n >= 10 {
      DecimalRoundTrip(n / 10);
      assert s[..|s| - 1] == Decimal(n / 10) && s[|s| - 1] == Digit(n % 10);
    } else {
      assert s[..0] == "";
    }
  }
}
