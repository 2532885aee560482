/** The hand-written SHA-256 of crates/common/src/hash.rs and its refinement of FIPS 180-4. */
module Hashing {
  import opened Bytes
  import opened Fips180

  const TWO_64: int := 0x1_0000_0000_0000_0000

  /** The length is computed in sixty-four bits and wraps. */
  function BitLength(n: nat): (l: nat) {
    n * 8 % TWO_64
  }

  function ZeroCount(n: nat): (z: nat)
    ensures z < 64 && (n + 1 + z) % 64 == 56
  {
    (55 - n) % 64
  }

  lemma PaddedLength(n: nat)
    ensures (n + 9 + ZeroCount(n)) % 64 == 0
  {
    var z := ZeroCount(n);
    assert n + 9 + z == (n + 1 + z) + 8;
    assert (56 + 8) % 64 == 0;
  }

  function Pad(m: seq<byte>): (p: seq<byte>)
    ensures |p| == |m| + 9 + ZeroCount(|m|) && |p| % 64 == 0
  {
    PaddedLength(|m|);
    m + [0x80] + Zeros(ZeroCount(|m|)) + BigEndian64(BitLength(|m|))
  }

  function Digest(m: seq<byte>): (d: seq<byte>)
    ensures |d| == 32
  {
    RegisterBytes(HashBlocks(Pad(m), |Pad(m)| / 64))
  }

  // ---- The padding is that of section 5.1.1 ----

  lemma PaddingIsStandard(m: seq<byte>)
    requires 8 * |m| < TWO_64
    ensures IsPadded(m, Pad(m))
  {
    hide ZeroBits, ZeroCount, Zeros, BigEndian64;
    PaddingCount(|m|);
    assert BitLength(|m|) == 8 * |m|;
    var z := ZeroCount(|m|);
    assert Pad(m) == m + [0x80] + Zeros(z) + BigEndian64(8 * |m|);
  }

  lemma PaddingCount(n: nat)
    ensures ZeroBits(8 * n, 7 + 8 * ZeroCount(n))
  {
    var z := ZeroCount(n);
    forall j: nat | j < 7 + 8 * z
      ensures !PadsTo448(8 * n, j)
    {
      NoEarlierFit(n, z, j);
    }
    hide ZeroCount;
    assert 8 * n + 1 + (7 + 8 * z) == 8 * (n + 1 + z);
  }

  lemma NoEarlierFit(n: nat, z: nat, j: nat)
    requires z < 64 && (n + 1 + z) % 64 == 56 && j < 7 + 8 * z
    ensures (8 * n + 1 + j) % 512 != 448
  {
    var x, y := 8 * n + 1 + j, 8 * (n + 1 + z);
    assert y % 512 == 448;
    assert 0 < y - x < 512;
  }

  lemma PaddingIsUnique(m: seq<byte>, p: seq<byte>, q: seq<byte>)
    requires IsPadded(m, p) && IsPadded(m, q)
    ensures p == q
  {
    var y: nat :| ZeroBits(8 * |m|, 7 + 8 * y) && p == m + [0x80] + Zeros(y) + BigEndian64(8 * |m|);
    var z: nat :| ZeroBits(8 * |m|, 7 + 8 * z) && q == m + [0x80] + Zeros(z) + BigEndian64(8 * |m|);
    assert y == z;
  }

  /** The code's digest is the standard's digest, and nothing else is. */
  lemma DigestIsStandard(m: seq<byte>, d: seq<byte>)
    requires 8 * |m| < TWO_64
    ensures IsDigest(m, d) <==> d == Digest(m)
  {
    PaddingIsStandard(m);
    if IsDigest(m, d) {
      var p :| IsPadded(m, p) && |p| % 64 == 0 && d == RegisterBytes(HashBlocks(p, |p| / 64));
      PaddingIsUnique(m, p, Pad(m));
    }
  }

  // ---- The padding loses nothing, whatever the length ----

  function Power256(k: nat): (p: nat)
    ensures p > 0
  {
    if k == 0 then 1 else 256 * Power256(k - 1)
  }

  lemma {:induction false} BigEndianInjective(m: nat, n: nat, k: nat)
    requires m < Power256(k) && n < Power256(k) && BigEndian(m, k) == BigEndian(n, k)
    ensures m == n
  {
    if k > 0 {
      var a, b := BigEndian(m, k), BigEndian(n, k);
      assert a[..k - 1] == BigEndian(m / 256, k - 1) && b[..k - 1] == BigEndian(n / 256, k - 1);
      assert a[k - 1] == m % 256 && b[k - 1] == n % 256;
      BigEndianInjective(m / 256, n / 256, k - 1);
    }
  }

  lemma PaddingIsInjective(m: seq<byte>, n: seq<byte>)
    requires Pad(m) == Pad(n)
    ensures m == n
  {
    var p := Pad(m);
    assert p[|p| - 8..] == BigEndian64(BitLength(|m|));
    assert p[|p| - 8..] == BigEndian64(BitLength(|n|));
    assert Power256(8) == TWO_64;
    BigEndianInjective(BitLength(|m|), BitLength(|n|), 8);
    SameLength(|m|, |n|);
    assert m == p[..|m|] && n == p[..|n|];
  }

  /** Lengths that pad to the same size differ by less than a block, so the wrapped length decides. */
  lemma SameLength(a: nat, b: nat)
    requires BitLength(a) == BitLength(b) && a + ZeroCount(a) == b + ZeroCount(b)
    ensures a == b
  {
    assert -64 < a - b < 64;
    var k := a * 8 / TWO_64 - b * 8 / TWO_64;
    assert (a - b) * 8 == k * TWO_64;
  }

  // ---- The code ----

  method PadMessage(input: seq<byte>) returns (msg: seq<byte>)
    ensures msg == Pad(input)
  {
    msg := input;
    var bitLen := |msg| * 8 % TWO_64;
    msg := msg + [0x80];
    while |msg| % 64 != 56
      invariant |input| + 1 <= |msg| <= |input| + 1 + ZeroCount(|input|)
      invariant msg == input + [0x80] + Zeros(|msg| - |input| - 1)
      decreases |input| + 1 + ZeroCount(|input|) - |msg|
    {
      msg := msg + [0];
    }
    assert |msg| - |input| - 1 == ZeroCount(|input|);
    msg := msg + BigEndian64(bitLen);
  }

  lemma AddThree(x: Word, y: Word, z: Word)
    ensures Add(Add(x, y), z) == (x + y + z) % TWO_32
  {
  }

  lemma AddsUp(x: Word, y: Word)
    ensures Add(x, y) == (x + y) % TWO_32
  {
  }

  lemma ModuloSum(x: nat, y: nat)
    ensures (x % TWO_32 + y) % TWO_32 == (x + y) % TWO_32
  {
  }

  lemma AddFour(x: Word, y: Word, z: Word, w: Word)
    ensures Add(Add(Add(x, y), z), w) == (x + y + z + w) % TWO_32
  {
    var three := Add(Add(x, y), z);
    AddThree(x, y, z);
    hide Add;
    AddsUp(three, w);
    ModuloSum(x + y + z, w);
  }

  /** The code adds the four terms of the schedule in another order than the standard. */
  lemma ScheduleOrder(w16: Word, s0: Word, w7: Word, s1: Word)
    ensures Add(Add(Add(w16, s0), w7), s1) == Add(Add(Add(s1, w7), s0), w16)
  {
    AddFour(w16, s0, w7, s1);
    AddFour(s1, w7, s0, w16);
    hide *;
  }

  /** Fills the message schedule of one block. */
  method Schedule(msg: seq<byte>, at: nat, w: array<Word>)
    requires at + 64 <= |msg| && w.Length == 64
    modifies w
    ensures forall t :: 0 <= t < 64 ==> w[t] == W(msg, at, t)
  {
    hide Xor, RotateRight, ShiftRight, Add, WordOf;
    for i := 0 to 16
      invariant forall t :: 0 <= t < i ==> w[t] == W(msg, at, t)
    {
      w[i] := WordOf(msg[at + 4 * i], msg[at + 4 * i + 1], msg[at + 4 * i + 2], msg[at + 4 * i + 3]);
      assert w[i] == BlockWord(msg, at, i);
    }
    for i := 16 to 64
      invariant forall t :: 0 <= t < i ==> w[t] == W(msg, at, t)
    {
      var s0 := Xor(Xor(RotateRight(w[i - 15], 7), RotateRight(w[i - 15], 18)), ShiftRight(w[i - 15], 3));
      var s1 := Xor(Xor(RotateRight(w[i - 2], 17), RotateRight(w[i - 2], 19)), ShiftRight(w[i - 2], 10));
      ScheduleOrder(w[i - 16], s0, w[i - 7], s1);
      w[i] := Add(Add(Add(w[i - 16], s0), w[i - 7]), s1);
    }
  }

  ghost function State(h: array<Word>): Registers
    requires h.Length == 8
    reads h
  {
    Registers(h[0], h[1], h[2], h[3], h[4], h[5], h[6], h[7])
  }

  /** One round on the eight registers. */
  method RunRound(r: Registers, k: Word, w: Word) returns (next: Registers)
    ensures next == Round(r, k, w)
  {
    var s1 := Xor(Xor(RotateRight(r.e, 6), RotateRight(r.e, 11)), RotateRight(r.e, 25));
    var ch := Xor(And(r.e, r.f), And(Not(r.e), r.g));
    var temp1 := Add(Add(Add(Add(r.h, s1), ch), k), w);
    var s0 := Xor(Xor(RotateRight(r.a, 2), RotateRight(r.a, 13)), RotateRight(r.a, 22));
    var maj := Xor(Xor(And(r.a, r.b), And(r.a, r.c)), And(r.b, r.c));
    var temp2 := Add(s0, maj);
    next := Registers(Add(temp1, temp2), r.a, r.b, r.c, Add(r.d, temp1), r.e, r.f, r.g);
  }

  /** The sixty-four rounds on one block. */
  method RunRounds(msg: seq<byte>, at: nat, w: array<Word>, start: Registers) returns (r: Registers)
    requires at + 64 <= |msg| && w.Length == 64
    requires forall t :: 0 <= t < 64 ==> w[t] == W(msg, at, t)
    ensures r == Rounds(msg, at, start, 64)
  {
    r := start;
    var i := 0;
    while i < 64
      invariant i <= 64 && r == Rounds(msg, at, start, i)
    {
      r := RunRound(r, K(i), w[i]);
      i := i + 1;
    }
  }

  method AddInto(h: array<Word>, r: Registers)
    requires h.Length == 8
    modifies h
    ensures State(h) == AddRegisters(old(State(h)), r)
  {
    hide Add;
    h[0] := Add(h[0], r.a);
    h[1] := Add(h[1], r.b);
    h[2] := Add(h[2], r.c);
    h[3] := Add(h[3], r.d);
    h[4] := Add(h[4], r.e);
    h[5] := Add(h[5], r.f);
    h[6] := Add(h[6], r.g);
    h[7] := Add(h[7], r.h);
  }

  /** Runs the rounds on one block and adds the result to the hash value. */
  method ProcessBlock(msg: seq<byte>, at: nat, w: array<Word>, h: array<Word>)
    requires at + 64 <= |msg| && w.Length == 64 && h.Length == 8 && w != h
    modifies w, h
    ensures State(h) == Compress(msg, at, old(State(h)))
  {
    hide Rounds, AddRegisters;
    Schedule(msg, at, w);
    var r := RunRounds(msg, at, w, Registers(h[0], h[1], h[2], h[3], h[4], h[5], h[6], h[7]));
    AddInto(h, r);
  }

  function WordsBytes(s: seq<Word>): (d: seq<byte>)
    ensures |d| == 4 * |s|
  {
    if s == [] then [] else WordsBytes(s[..|s| - 1]) + WordBytes(s[|s| - 1])
  }

  method Sha256(input: seq<byte>) returns (out: seq<byte>)
    ensures out == Digest(input)
    ensures 8 * |input| < TWO_64 ==> IsDigest(input, out)
  {
    hide Pad, WordBytes, Compress;
    var msg := PadMessage(input);
    var h := new Word[8] [H0.a, H0.b, H0.c, H0.d, H0.e, H0.f, H0.g, H0.h];
    var w := new Word[64];
    for n := 0 to |msg| / 64
      invariant State(h) == HashBlocks(msg, n)
    {
      ProcessBlock(msg, 64 * n, w, h);
    }
    out := [];
    for i := 0 to 8
      invariant out == WordsBytes(h[..i])
    {
      assert h[..i + 1][..i] == h[..i];
      out := out + WordBytes(h[i]);
    }
    EightWords(h[..]);
    assert h[..8] == h[..];
    if 8 * |input| < TWO_64 {
      DigestIsStandard(input, out);
    }
  }

  lemma EightWords(s: seq<Word>)
    requires |s| == 8
    ensures WordsBytes(s) == RegisterBytes(Registers(s[0], s[1], s[2], s[3], s[4], s[5], s[6], s[7]))
  {
    hide WordBytes;
    assert s[..7][..6] == s[..6] && s[..6][..5] == s[..5] && s[..5][..4] == s[..4] && s[..4][..3] == s[..3];
    assert s[..3][..2] == s[..2] && s[..2][..1] == s[..1] && s[..1][..0] == [];
    assert WordsBytes(s[..1]) == WordBytes(s[0]);
    assert WordsBytes(s[..2]) == WordBytes(s[0]) + WordBytes(s[1]);
    assert WordsBytes(s[..3]) == WordsBytes(s[..2]) + WordBytes(s[2]);
    assert WordsBytes(s[..4]) == WordsBytes(s[..3]) + WordBytes(s[3]);
    assert WordsBytes(s[..5]) == WordsBytes(s[..4]) + WordBytes(s[4]);
    assert WordsBytes(s[..6]) == WordsBytes(s[..5]) + WordBytes(s[5]);
    assert WordsBytes(s[..7]) == WordsBytes(s[..6]) + WordBytes(s[6]);
  }

  /** `hash_hex`: the digest as sixty-four lower-case hexadecimal characters. */
  function HashHex(m: seq<byte>): (r: string)
    ensures |r| == 64
  {
    Hex(Digest(m))
  }

  /** Two different byte strings with one digest: what breaking SHA-256 means. */
  predicate Collision(m: seq<byte>, n: seq<byte>) {
    m != n && Digest(m) == Digest(n)
  }

  lemma EqualHashHex(m: seq<byte>, n: seq<byte>)
    requires HashHex(m) == HashHex(n)
    ensures m == n || Collision(m, n)
  {
    HexInjective(Digest(m), Digest(n));
  }
}
