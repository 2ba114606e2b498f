/**
 The hash function SHA-256 as FIPS 180-4 defines it, written as functions on
 byte strings.  Nothing here is incremental: this is what the streaming class
 in Sha256.dfy has to agree with.
 */
module Fips180 {

  type Uint32 = bv32

  type Row = s: seq<Uint32> | |s| == 8 witness seq(8, _ => 0)

  // Section 4.2.2: the constants of the compression function, eight in a row.
  const TABLE: seq<Row> := [
    [0x428a2f98, 0x71374491, 0xb5c0fbcf, 0xe9b5dba5, 0x3956c25b, 0x59f111f1, 0x923f82a4, 0xab1c5ed5],
    [0xd807aa98, 0x12835b01, 0x243185be, 0x550c7dc3, 0x72be5d74, 0x80deb1fe, 0x9bdc06a7, 0xc19bf174],
    [0xe49b69c1, 0xefbe4786, 0x0fc19dc6, 0x240ca1cc, 0x2de92c6f, 0x4a7484aa, 0x5cb0a9dc, 0x76f988da],
    [0x983e5152, 0xa831c66d, 0xb00327c8, 0xbf597fc7, 0xc6e00bf3, 0xd5a79147, 0x06ca6351, 0x14292967],
    [0x27b70a85, 0x2e1b2138, 0x4d2c6dfc, 0x53380d13, 0x650a7354, 0x766a0abb, 0x81c2c92e, 0x92722c85],
    [0xa2bfe8a1, 0xa81a664b, 0xc24b8b70, 0xc76c51a3, 0xd192e819, 0xd6990624, 0xf40e3585, 0x106aa070],
    [0x19a4c116, 0x1e376c08, 0x2748774c, 0x34b0bcb5, 0x391c0cb3, 0x4ed8aa4a, 0x5b9cca4f, 0x682e6ff3],
    [0x748f82ee, 0x78a5636f, 0x84c87814, 0x8cc70208, 0x90befffa, 0xa4506ceb, 0xbef9a3f7, 0xc67178f2]
  ]

  function K(t: nat): Uint32
    requires t < 64
  {
    assert |TABLE| == 8;
    TABLE[t / 8][t % 8]
  }

  /** The eight working variables, which are also the eight words of a hash value. */
  datatype State = State(a: Uint32, b: Uint32, c: Uint32, d: Uint32, e: Uint32, f: Uint32, g: Uint32, h: Uint32)

  // Section 5.3.3: the initial hash value.
  const INITIAL: State := State(0x6a09e667, 0xbb67ae85, 0x3c6ef372, 0xa54ff53a,
                                0x510e527f, 0x9b05688c, 0x1f83d9ab, 0x5be0cd19)

  /** Addition of words is modulo 2^32 (section 3.2). */
  function Plus(x: Uint32, y: Uint32): Uint32 { x + y }

  type Byte = x: int | 0 <= x < 256

  type Block = s: seq<Byte> | |s| == 64 witness seq(64, _ => 0)

  // Section 3.2 and section 4.1.2: the operations on words.
  function Rotr(x: Uint32, n: bv6): Uint32
    requires 0 < n < 32
  {
    (x >> n) | (x << (32 - n))
  }

  function Shr(x: Uint32, n: bv6): Uint32
    requires n < 32
  {
    x >> n
  }

  function Ch(x: Uint32, y: Uint32, z: Uint32): Uint32
  {
    (x & y) ^ (!x & z)
  }

  function Maj(x: Uint32, y: Uint32, z: Uint32): Uint32
  {
    (x & y) ^ (x & z) ^ (y & z)
  }

  function BigSigma0(x: Uint32): Uint32
  {
    Rotr(x, 2) ^ Rotr(x, 13) ^ Rotr(x, 22)
  }

  function BigSigma1(x: Uint32): Uint32
  {
    Rotr(x, 6) ^ Rotr(x, 11) ^ Rotr(x, 25)
  }

  function SmallSigma0(x: Uint32): Uint32
  {
    Rotr(x, 7) ^ Rotr(x, 18) ^ Shr(x, 3)
  }

  function SmallSigma1(x: Uint32): Uint32
  {
    Rotr(x, 17) ^ Rotr(x, 19) ^ Shr(x, 10)
  }

  /** Four bytes as a word, the most significant first (section 3.1). */
  function Join(b0: Byte, b1: Byte, b2: Byte, b3: Byte): Uint32
  {
    (b0 as bv32 << 24) | (b1 as bv32 << 16) | (b2 as bv32 << 8) | b3 as bv32
  }

  /** Section 5.2.1: word `t` of a parsed 512-bit block. */
  function Word(m: Block, t: nat): Uint32
    requires t < 16
  {
    Join(m[4 * t], m[4 * t + 1], m[4 * t + 2], m[4 * t + 3])
  }

  /** Section 6.2.2, step 1: word t of the schedule from words t-2, t-7, t-15 and t-16. */
  function NextWord(w2: Uint32, w7: Uint32, w15: Uint32, w16: Uint32): Uint32
  {
    Plus(Plus(Plus(SmallSigma1(w2), w7), SmallSigma0(w15)), w16)
  }

  /** The first `n` words of the message schedule of a block. */
  function Schedule(m: Block, n: nat): (w: seq<Uint32>)
    requires n <= 64
    ensures |w| == n
  {
    if n == 0 then []
    else
      var w := Schedule(m, n - 1);
      var t := n - 1;
      w + [if t < 16 then Word(m, t) else NextWord(w[t - 2], w[t - 7], w[t - 15], w[t - 16])]
  }

  /** Section 6.2.2, step 3: one round. */
  function Round(s: State, k: Uint32, w: Uint32): State
  {
    var t1 := Plus(Plus(Plus(Plus(s.h, BigSigma1(s.e)), Ch(s.e, s.f, s.g)), k), w);
    var t2 := Plus(BigSigma0(s.a), Maj(s.a, s.b, s.c));
    State(Plus(t1, t2), s.a, s.b, s.c, Plus(s.d, t1), s.e, s.f, s.g)
  }

  /** `t` rounds with the schedule `w`. */
  function Rounds(s: State, w: seq<Uint32>, t: nat): State
    requires t <= |w| == 64
  {
    if t == 0 then s else Round(Rounds(s, w, t - 1), K(t - 1), w[t - 1])
  }

  function Add(s: State, r: State): State
  {
    State(Plus(s.a, r.a), Plus(s.b, r.b), Plus(s.c, r.c), Plus(s.d, r.d),
          Plus(s.e, r.e), Plus(s.f, r.f), Plus(s.g, r.g), Plus(s.h, r.h))
  }

  /** Section 6.2.2, step 4: the intermediate hash value after one more block. */
  function Compress(s: State, m: Block): State
  {
    Add(s, Rounds(s, Schedule(m, 64), 64))
  }

  function HashBlocks(s: State, m: seq<Byte>): State
    requires |m| % 64 == 0
    decreases |m|
  {
    if |m| == 0 then s else Compress(HashBlocks(s, m[..|m| - 64]), m[|m| - 64..])
  }

  /** The `n`-byte big-endian representation of `x` modulo 256^n. */
  function BigEndian(x: nat, n: nat): (r: seq<Byte>)
    ensures |r| == n
  {
    if n == 0 then [] else BigEndian(x / 256, n - 1) + [x % 256]
  }

  /** With `k` zero bytes after the byte 0x80, 8 bytes of the last block are left. */
  predicate LeavesLength(length: nat, k: nat) { (length + 1 + k) % 64 == 56 }

  /**
   The number of zero bytes of section 5.1.1.  For a message of whole bytes the
   "1" bit and the first seven zero bits are the byte 0x80; what follows is the
   smallest number of zero bytes that leaves room for the length.
   */
  function ZeroBytes(length: nat): (k: nat)
    ensures LeavesLength(length, k)
    ensures forall j: nat | j < k :: !LeavesLength(length, j)
    ensures k < 64
  {
    if length % 64 < 56 then 55 - length % 64 else 119 - length % 64
  }

  function Zeros(k: nat): (r: seq<Byte>)
    ensures |r| == k && forall i | 0 <= i < k :: r[i] == 0
  {
    seq(k, _ => 0)
  }

  /** Section 5.1.1: what is appended to a message of `length` bytes. */
  function Padding(length: nat): (r: seq<Byte>)
    ensures (length + |r|) % 64 == 0
  {
    var k := ZeroBytes(length);
    assert (length + 1 + k + 8) % 64 == 0;
    [0x80] + Zeros(k) + BigEndian(8 * length, 8)
  }

  /** Section 5.1.1: the padded message. */
  function Pad(m: seq<Byte>): (r: seq<Byte>)
    ensures |r| % 64 == 0
  {
    m + Padding(|m|)
  }

  /** SHA-256 of a message (section 6.2). */
  function Hash(m: seq<Byte>): State
  {
    HashBlocks(INITIAL, Pad(m))
  }

  /** Hashing a block more only needs the intermediate hash value. */
  lemma {:induction false} HashBlocksAppend(s: State, m: seq<Byte>, tail: seq<Byte>)
    requires |m| % 64 == 0 && |tail| % 64 == 0
    ensures HashBlocks(s, m + tail) == HashBlocks(HashBlocks(s, m), tail)
    decreases |tail|
  {
    hide Compress;
    if |tail| == 0 {
      assert m + tail == m;
    } else {
      var n := |tail| - 64;
      HashBlocksAppend(s, m, tail[..n]);
      assert (m + tail)[..|m + tail| - 64] == m + tail[..n];
      assert (m + tail)[|m + tail| - 64..] == tail[n..];
    }
  }

  function Pow256(n: nat): (r: nat)
    ensures r > 0
  {
    if n == 0 then 1 else 256 * Pow256(n - 1)
  }

  lemma {:induction false} BigEndianSplit(hi: nat, lo: nat, n: nat, k: nat)
    requires lo < Pow256(n)
    ensures BigEndian(hi * Pow256(n) + lo, k + n) == BigEndian(hi, k) + BigEndian(lo, n)
    decreases n
  {
    if n == 0 {
      assert BigEndian(lo, 0) == [];
      assert hi * Pow256(0) + lo == hi;
      assert BigEndian(hi, k) + [] == BigEndian(hi, k);
    } else {
      var x := hi * Pow256(n) + lo;
      var p := Pow256(n - 1);
      assert x == 256 * (hi * p) + lo;
      assert x / 256 == hi * p + lo / 256 && x % 256 == lo % 256;
      BigEndianSplit(hi, lo / 256, n - 1, k);
      assert BigEndian(x, k + n) == BigEndian(x / 256, k + n - 1) + [x % 256];
      assert BigEndian(lo, n) == BigEndian(lo / 256, n - 1) + [lo % 256];
    }
  }
}
