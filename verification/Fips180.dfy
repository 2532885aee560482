/** SHA-256 as FIPS 180-4 defines it: the reference that the hand-written hash must refine. */
module Fips180 {
  import opened Bytes

  const TWO_32: int := 0x1_0000_0000

  /** A thirty-two-bit word, as the number it stands for. */
  type Word = x: int | 0 <= x < TWO_32

  /** Addition modulo 2^32. */
  function Add(x: Word, y: Word): Word { (x + y) % TWO_32 }

  function And(x: Word, y: Word): Word { (x as bv32 & y as bv32) as Word }

  function Xor(x: Word, y: Word): Word { (x as bv32 ^ y as bv32) as Word }

  function Not(x: Word): Word { TWO_32 - 1 - x }

  /** ROTR of section 3.2: the circular right shift. */
  function RotateRight(x: Word, n: nat): Word
    requires n < 32
  {
    (x as bv32).RotateRight(n) as Word
  }

  /** SHR of section 3.2. */
  function ShiftRight(x: Word, n: nat): Word
    requires n < 32
  {
    (x as bv32 >> n) as Word
  }

  // ---- Section 4.1.2: the functions ----

  function Ch(x: Word, y: Word, z: Word): Word { Xor(And(x, y), And(Not(x), z)) }

  function Maj(x: Word, y: Word, z: Word): Word { Xor(Xor(And(x, y), And(x, z)), And(y, z)) }

  function Sum0(x: Word): Word { Xor(Xor(RotateRight(x, 2), RotateRight(x, 13)), RotateRight(x, 22)) }

  function Sum1(x: Word): Word { Xor(Xor(RotateRight(x, 6), RotateRight(x, 11)), RotateRight(x, 25)) }

  function Sigma0(x: Word): Word { Xor(Xor(RotateRight(x, 7), RotateRight(x, 18)), ShiftRight(x, 3)) }

  function Sigma1(x: Word): Word { Xor(Xor(RotateRight(x, 17), RotateRight(x, 19)), ShiftRight(x, 10)) }

  // ---- Sections 4.2.2 and 5.3.3: the constants ----

  /** The first sixty-four primes; the constants are fractional parts of their roots. */
  function Prime(t: nat): int
    requires t < 64
  {
    match t
    case 0 => 2 case 1 => 3 case 2 => 5 case 3 => 7 case 4 => 11 case 5 => 13 case 6 => 17 case 7 => 19
    case 8 => 23 case 9 => 29 case 10 => 31 case 11 => 37 case 12 => 41 case 13 => 43 case 14 => 47 case 15 => 53
    case 16 => 59 case 17 => 61 case 18 => 67 case 19 => 71 case 20 => 73 case 21 => 79 case 22 => 83 case 23 => 89
    case 24 => 97 case 25 => 101 case 26 => 103 case 27 => 107 case 28 => 109 case 29 => 113 case 30 => 127 case 31 => 131
    case 32 => 137 case 33 => 139 case 34 => 149 case 35 => 151 case 36 => 157 case 37 => 163 case 38 => 167 case 39 => 173
    case 40 => 179 case 41 => 181 case 42 => 191 case 43 => 193 case 44 => 197 case 45 => 199 case 46 => 211 case 47 => 223
    case 48 => 227 case 49 => 229 case 50 => 233 case 51 => 239 case 52 => 241 case 53 => 251 case 54 => 257 case 55 => 263
    case 56 => 269 case 57 => 271 case 58 => 277 case 59 => 281 case 60 => 283 case 61 => 293 case 62 => 307 case _ => 311
  }

  function RoundConstant(t: nat): int
    requires t < 64
  {
    match t
    case 0 => 0x428a2f98 case 1 => 0x71374491 case 2 => 0xb5c0fbcf case 3 => 0xe9b5dba5
    case 4 => 0x3956c25b case 5 => 0x59f111f1 case 6 => 0x923f82a4 case 7 => 0xab1c5ed5
    case 8 => 0xd807aa98 case 9 => 0x12835b01 case 10 => 0x243185be case 11 => 0x550c7dc3
    case 12 => 0x72be5d74 case 13 => 0x80deb1fe case 14 => 0x9bdc06a7 case 15 => 0xc19bf174
    case 16 => 0xe49b69c1 case 17 => 0xefbe4786 case 18 => 0x0fc19dc6 case 19 => 0x240ca1cc
    case 20 => 0x2de92c6f case 21 => 0x4a7484aa case 22 => 0x5cb0a9dc case 23 => 0x76f988da
    case 24 => 0x983e5152 case 25 => 0xa831c66d case 26 => 0xb00327c8 case 27 => 0xbf597fc7
    case 28 => 0xc6e00bf3 case 29 => 0xd5a79147 case 30 => 0x06ca6351 case 31 => 0x14292967
    case 32 => 0x27b70a85 case 33 => 0x2e1b2138 case 34 => 0x4d2c6dfc case 35 => 0x53380d13
    case 36 => 0x650a7354 case 37 => 0x766a0abb case 38 => 0x81c2c92e case 39 => 0x92722c85
    case 40 => 0xa2bfe8a1 case 41 => 0xa81a664b case 42 => 0xc24b8b70 case 43 => 0xc76c51a3
    case 44 => 0xd192e819 case 45 => 0xd6990624 case 46 => 0xf40e3585 case 47 => 0x106aa070
    case 48 => 0x19a4c116 case 49 => 0x1e376c08 case 50 => 0x2748774c case 51 => 0x34b0bcb5
    case 52 => 0x391c0cb3 case 53 => 0x4ed8aa4a case 54 => 0x5b9cca4f case 55 => 0x682e6ff3
    case 56 => 0x748f82ee case 57 => 0x78a5636f case 58 => 0x84c87814 case 59 => 0x8cc70208
    case 60 => 0x90befffa case 61 => 0xa4506ceb case 62 => 0xbef9a3f7 case _ => 0xc67178f2
  }

  function CubeRootFloor(p: int): int {
    if p < 8 then 1 else if p < 27 then 2 else if p < 64 then 3
    else if p < 125 then 4 else if p < 216 then 5 else 6
  }

  function SquareRootFloor(p: int): int {
    if p < 4 then 1 else if p < 9 then 2 else if p < 16 then 3 else 4
  }

  /** `k` is the first thirty-two bits of the fractional part of the cube root of `p`. */
  predicate CubeRootBits(p: int, k: int) {
    var c := CubeRootFloor(p) * TWO_32 + k;
    && 0 <= k < TWO_32
    && c * c * c <= p * TWO_32 * TWO_32 * TWO_32 < (c + 1) * (c + 1) * (c + 1)
  }

  predicate SquareRootBits(p: int, k: int) {
    var c := SquareRootFloor(p) * TWO_32 + k;
    && 0 <= k < TWO_32
    && c * c <= p * TWO_32 * TWO_32 < (c + 1) * (c + 1)
  }

  // ---- Section 5.1.1: padding ----

  predicate PadsTo448(l: nat, k: nat) {
    (l + 1 + k) % 512 == 448
  }

  /** `k` is the number of zero bits section 5.1.1 appends to a message of `l` bits. */
  predicate ZeroBits(l: nat, k: nat) {
    && PadsTo448(l, k)
    && forall j: nat :: j < k ==> !PadsTo448(l, j)
  }

  /** The `k` low-order bytes of `n`, most significant first. */
  function BigEndian(n: nat, k: nat): (r: seq<byte>)
    ensures |r| == k
  {
    if k == 0 then [] else BigEndian(n / 256, k - 1) + [n % 256]
  }

  function BigEndian64(n: nat): (r: seq<byte>)
    ensures |r| == 8
  {
    BigEndian(n, 8)
  }

  function Zeros(n: nat): (r: seq<byte>)
    ensures |r| == n
  {
    if n == 0 then [] else Zeros(n - 1) + [0]
  }

  /** A message of whole bytes is followed by the bit 1 and seven zero bits (one byte, 80 in
      hexadecimal), by further zero bytes, and by its bit length in sixty-four bits. */
  ghost predicate IsPadded(m: seq<byte>, p: seq<byte>) {
    exists z: nat ::
      && ZeroBits(8 * |m|, 7 + 8 * z)
      && p == m + [0x80] + Zeros(z) + BigEndian64(8 * |m|)
  }

  // ---- Section 6.2.2: the hash computation ----

  function WordOf(b0: byte, b1: byte, b2: byte, b3: byte): Word {
    b0 * 0x100_0000 + b1 * 0x1_0000 + b2 * 0x100 + b3
  }

  /** The t-th word of the 64-byte block that starts at byte `at`. */
  function BlockWord(p: seq<byte>, at: nat, t: nat): Word
    requires at + 64 <= |p| && t < 16
  {
    WordOf(p[at + 4 * t], p[at + 4 * t + 1], p[at + 4 * t + 2], p[at + 4 * t + 3])
  }

  /** Step 1: the message schedule. */
  function W(p: seq<byte>, at: nat, t: nat): Word
    requires at + 64 <= |p| && t < 64
  {
    if t < 16 then BlockWord(p, at, t)
    else Add(Add(Add(Sigma1(W(p, at, t - 2)), W(p, at, t - 7)), Sigma0(W(p, at, t - 15))), W(p, at, t - 16))
  }

  datatype Registers = Registers(a: Word, b: Word, c: Word, d: Word, e: Word, f: Word, g: Word, h: Word)

  const H0 := Registers(
    0x6a09e667, 0xbb67ae85, 0x3c6ef372, 0xa54ff53a, 0x510e527f, 0x9b05688c, 0x1f83d9ab, 0x5be0cd19)

  /** Step 3: one of the sixty-four rounds, with round constant `k` and schedule word `w`. */
  function Round(r: Registers, k: Word, w: Word): Registers {
    var t1 := Add(Add(Add(Add(r.h, Sum1(r.e)), Ch(r.e, r.f, r.g)), k), w);
    var t2 := Add(Sum0(r.a), Maj(r.a, r.b, r.c));
    Registers(Add(t1, t2), r.a, r.b, r.c, Add(r.d, t1), r.e, r.f, r.g)
  }

  function Rounds(p: seq<byte>, at: nat, r: Registers, t: nat): Registers
    requires at + 64 <= |p| && t <= 64
  {
    if t == 0 then r else Round(Rounds(p, at, r, t - 1), K(t - 1), W(p, at, t - 1))
  }

  function AddRegisters(r: Registers, s: Registers): Registers {
    Registers(
      Add(r.a, s.a), Add(r.b, s.b), Add(r.c, s.c), Add(r.d, s.d),
      Add(r.e, s.e), Add(r.f, s.f), Add(r.g, s.g), Add(r.h, s.h))
  }

  /** Steps 2 to 4 for one block. */
  function Compress(p: seq<byte>, at: nat, r: Registers): Registers
    requires at + 64 <= |p|
  {
    AddRegisters(r, Rounds(p, at, r, 64))
  }

  /** The hash value after the first `n` blocks of a padded message. */
  function HashBlocks(p: seq<byte>, n: nat): Registers
    requires 64 * n <= |p|
  {
    if n == 0 then H0 else Compress(p, 64 * (n - 1), HashBlocks(p, n - 1))
  }

  function WordBytes(w: Word): (r: seq<byte>)
    ensures |r| == 4
  {
    [w / 0x100_0000, w / 0x1_0000 % 256, w / 0x100 % 256, w % 256]
  }

  function RegisterBytes(r: Registers): (d: seq<byte>)
    ensures |d| == 32
  {
    WordBytes(r.a) + WordBytes(r.b) + WordBytes(r.c) + WordBytes(r.d)
    + WordBytes(r.e) + WordBytes(r.f) + WordBytes(r.g) + WordBytes(r.h)
  }

  /** `d` is the SHA-256 digest of `m`; the standard defines it for fewer than 2^64 bits. */
  ghost predicate IsDigest(m: seq<byte>, d: seq<byte>) {
    && 8 * |m| < TWO_32 * TWO_32
    && exists p :: IsPadded(m, p) && |p| % 64 == 0 && d == RegisterBytes(HashBlocks(p, |p| / 64))
  }

  function K(t: nat): Word
    requires t < 64
  {
    RoundConstantRange(t);
    RoundConstant(t)
  }

  lemma RoundConstantRange(t: nat)
    requires t < 64
    ensures 0 <= RoundConstant(t) < TWO_32
  {
  }

  lemma ConstantsFrom0(t: nat)
    requires 0 <= t < 4
    ensures CubeRootBits(Prime(t), RoundConstant(t))
  {
    match t
    case 0 => case 1 => case 2 => case _ =>
  }

  lemma ConstantsFrom4(t: nat)
    requires 4 <= t < 8
    ensures CubeRootBits(Prime(t), RoundConstant(t))
  {
    match t
    case 4 => case 5 => case 6 => case _ =>
  }

  lemma ConstantsFrom8(t: nat)
    requires 8 <= t < 12
    ensures CubeRootBits(Prime(t), RoundConstant(t))
  {
    match t
    case 8 => case 9 => case 10 => case _ =>
  }

  lemma ConstantsFrom12(t: nat)
    requires 12 <= t < 16
    ensures CubeRootBits(Prime(t), RoundConstant(t))
  {
    match t
    case 12 => case 13 => case 14 => case _ =>
  }

  lemma ConstantsFrom16(t: nat)
    requires 16 <= t < 20
    ensures CubeRootBits(Prime(t), RoundConstant(t))
  {
    match t
    case 16 => case 17 => case 18 => case _ =>
  }

  lemma ConstantsFrom20(t: nat)
    requires 20 <= t < 24
    ensures CubeRootBits(Prime(t), RoundConstant(t))
  {
    match t
    case 20 => case 21 => case 22 => case _ =>
  }

  lemma ConstantsFrom24(t: nat)
    requires 24 <= t < 28
    ensures CubeRootBits(Prime(t), RoundConstant(t))
  {
    match t
    case 24 => case 25 => case 26 => case _ =>
  }

  lemma ConstantsFrom28(t: nat)
    requires 28 <= t < 32
    ensures CubeRootBits(Prime(t), RoundConstant(t))
  {
    match t
    case 28 => case 29 => case 30 => case _ =>
  }

  lemma ConstantsFrom32(t: nat)
    requires 32 <= t < 36
    ensures CubeRootBits(Prime(t), RoundConstant(t))
  {
    match t
    case 32 => case 33 => case 34 => case _ =>
  }

  lemma ConstantsFrom36(t: nat)
    requires 36 <= t < 40
    ensures CubeRootBits(Prime(t), RoundConstant(t))
  {
    match t
    case 36 => case 37 => case 38 => case _ =>
  }

  lemma ConstantsFrom40(t: nat)
    requires 40 <= t < 44
    ensures CubeRootBits(Prime(t), RoundConstant(t))
  {
    match t
    case 40 => case 41 => case 42 => case _ =>
  }

  lemma ConstantsFrom44(t: nat)
    requires 44 <= t < 48
    ensures CubeRootBits(Prime(t), RoundConstant(t))
  {
    match t
    case 44 => case 45 => case 46 => case _ =>
  }

  lemma ConstantsFrom48(t: nat)
    requires 48 <= t < 52
    ensures CubeRootBits(Prime(t), RoundConstant(t))
  {
    match t
    case 48 => case 49 => case 50 => case _ =>
  }

  lemma ConstantsFrom52(t: nat)
    requires 52 <= t < 56
    ensures CubeRootBits(Prime(t), RoundConstant(t))
  {
    match t
    case 52 => case 53 => case 54 => case _ =>
  }

  lemma ConstantsFrom56(t: nat)
    requires 56 <= t < 60
    ensures CubeRootBits(Prime(t), RoundConstant(t))
  {
    match t
    case 56 => case 57 => case 58 => case _ =>
  }

  lemma ConstantsFrom60(t: nat)
    requires 60 <= t < 64
    ensures CubeRootBits(Prime(t), RoundConstant(t))
  {
    match t
    case 60 => case 61 => case 62 => case _ =>
  }

  /** The sixty-four round constants are what section 4.2.2 says they are. */
  lemma RoundConstants(t: nat)
    requires t < 64
    ensures CubeRootBits(Prime(t), RoundConstant(t))
  {
    match t / 4
    case 0 => ConstantsFrom0(t);
    case 1 => ConstantsFrom4(t);
    case 2 => ConstantsFrom8(t);
    case 3 => ConstantsFrom12(t);
    case 4 => ConstantsFrom16(t);
    case 5 => ConstantsFrom20(t);
    case 6 => ConstantsFrom24(t);
    case 7 => ConstantsFrom28(t);
    case 8 => ConstantsFrom32(t);
    case 9 => ConstantsFrom36(t);
    case 10 => ConstantsFrom40(t);
    case 11 => ConstantsFrom44(t);
    case 12 => ConstantsFrom48(t);
    case 13 => ConstantsFrom52(t);
    case 14 => ConstantsFrom56(t);
    case _ => ConstantsFrom60(t);
  }

  /** The initial hash value is what section 5.3.3 says it is. */
  lemma InitialHash()
    ensures SquareRootBits(2, H0.a) && SquareRootBits(3, H0.b)
    ensures SquareRootBits(5, H0.c) && SquareRootBits(7, H0.d)
    ensures SquareRootBits(11, H0.e) && SquareRootBits(13, H0.f)
    ensures SquareRootBits(17, H0.g) && SquareRootBits(19, H0.h)
  {
  }
}
