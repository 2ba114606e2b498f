/** What the operations on words and the constants of FIPS 180-4 are, bit by bit and digit by digit. */
module Fips180Words {
  import opened Fips180

  // ---- The operations on words ----

  /** Bit `i` of a word, counted from the right. */
  function Bit(x: Uint32, i: bv6): Uint32
    requires i < 32
  {
    (x >> i) & 1
  }

  /** The second word where the first has ones, and the third where it has zeros. */
  lemma ChChooses(x: Uint32, y: Uint32, z: Uint32)
    ensures Ch(x, y, z) & x == y & x && Ch(x, y, z) & !x == z & !x
  {
  }

  /** What the first two words say where they agree, and the third word elsewhere. */
  lemma MajDecides(x: Uint32, y: Uint32, z: Uint32)
    ensures Maj(x, y, z) & !(x ^ y) == x & !(x ^ y) && Maj(x, y, z) & (x ^ y) == z & (x ^ y)
  {
  }

  lemma RotatedBit(x: Uint32, n: bv6, i: bv6)
    requires 0 < n < 32 && i < 32
    ensures (((x >> n) | (x << (32 - n))) >> i) & 1 == (x >> ((i + n) & 31)) & 1
  {
  }

  /** Every bit comes from `n` places further left, around the end of the word. */
  lemma RotrBit(x: Uint32, n: bv6, i: bv6)
    requires 0 < n < 32 && i < 32
    ensures Bit(Rotr(x, n), i) == Bit(x, (i + n) & 31)
  {
    RotatedBit(x, n, i);
  }

  lemma ShiftedBit(x: Uint32, n: bv6, i: bv6)
    requires n < 32 && i < 32
    ensures ((x >> n) >> i) & 1 == if i + n < 32 then (x >> (i + n)) & 1 else 0
  {
  }

  lemma ShrBit(x: Uint32, n: bv6, i: bv6)
    requires n < 32 && i < 32
    ensures Bit(Shr(x, n), i) == if i + n < 32 then Bit(x, i + n) else 0
  {
    ShiftedBit(x, n, i);
  }

  /** Where the four sigmas put the first bit and the last bit of a word. */
  lemma SigmasOfOneBit()
    ensures BigSigma0(1) == (1 << 30) | (1 << 19) | (1 << 10) && BigSigma0(0x8000_0000) == (1 << 29) | (1 << 18) | (1 << 9)
    ensures BigSigma1(1) == (1 << 26) | (1 << 21) | (1 << 7) && BigSigma1(0x8000_0000) == (1 << 25) | (1 << 20) | (1 << 6)
    ensures SmallSigma0(1) == (1 << 25) | (1 << 14) && SmallSigma0(0x8000_0000) == (1 << 28) | (1 << 24) | (1 << 13)
    ensures SmallSigma1(1) == (1 << 15) | (1 << 13) && SmallSigma1(0x8000_0000) == (1 << 21) | (1 << 14) | (1 << 12)
  {
  }

  // ---- Bytes and words ----

  /** The number that a word stands for. */
  function Number(v: Uint32): nat { v as nat }

  function FromBytes(a: bv8, b: bv8, c: bv8, d: bv8): Uint32
  {
    ((a as bv32) << 24) | ((b as bv32) << 16) | ((c as bv32) << 8) | (d as bv32)
  }

  lemma FourBytes(a: bv8, b: bv8, c: bv8, d: bv8)
    ensures Number(((a as bv32) << 24) | ((b as bv32) << 16) | ((c as bv32) << 8) | (d as bv32)) ==
            0x100_0000 * (a as int) + 0x1_0000 * (b as int) + 256 * (c as int) + d as int
  {
  }

  lemma FromBytesIs(a: bv8, b: bv8, c: bv8, d: bv8)
    ensures Number(FromBytes(a, b, c, d)) == 0x100_0000 * (a as int) + 0x1_0000 * (b as int) + 256 * (c as int) + d as int
  {
    hide Number;
    FourBytes(a, b, c, d);
  }

  lemma Widened(b: Byte)
    ensures b as bv32 == (b as bv8) as bv32 && (b as bv8) as int == b
  {
  }

  lemma JoinOfBytes(a: bv8, b: bv8, c: bv8, d: bv8, b0: Byte, b1: Byte, b2: Byte, b3: Byte)
    requires b0 as bv32 == a as bv32 && b1 as bv32 == b as bv32 && b2 as bv32 == c as bv32 && b3 as bv32 == d as bv32
    ensures Join(b0, b1, b2, b3) == FromBytes(a, b, c, d)
  {
  }

  lemma JoinIs(b0: Byte, b1: Byte, b2: Byte, b3: Byte)
    ensures Number(Join(b0, b1, b2, b3)) == 0x100_0000 * b0 + 0x1_0000 * b1 + 256 * b2 + b3
  {
    hide Join;
    hide FromBytes;
    hide Number;
    Widened(b0);
    Widened(b1);
    Widened(b2);
    Widened(b3);
    JoinOfBytes(b0 as bv8, b1 as bv8, b2 as bv8, b3 as bv8, b0, b1, b2, b3);
    FromBytesIs(b0 as bv8, b1 as bv8, b2 as bv8, b3 as bv8);
  }

  lemma BigEndianSnoc(x: nat, b: Byte, n: nat)
    ensures BigEndian(256 * x + b, n + 1) == BigEndian(x, n) + [b]
  {
    assert (256 * x + b) / 256 == x && (256 * x + b) % 256 == b;
  }

  lemma FourDigits(b0: Byte, b1: Byte, b2: Byte, b3: Byte)
    ensures BigEndian(0x100_0000 * b0 + 0x1_0000 * b1 + 256 * b2 + b3, 4) == [b0, b1, b2, b3]
  {
    assert BigEndian(0, 0) == [];
    hide BigEndian;
    BigEndianSnoc(0, b0, 0);
    BigEndianSnoc(b0, b1, 1);
    BigEndianSnoc(256 * b0 + b1, b2, 2);
    BigEndianSnoc(0x1_0000 * b0 + 256 * b1 + b2, b3, 3);
  }

  /** A word reads back as the four bytes that it was made of, the first one most significant. */
  lemma JoinReadsBack(b0: Byte, b1: Byte, b2: Byte, b3: Byte)
    ensures BigEndian(Number(Join(b0, b1, b2, b3)), 4) == [b0, b1, b2, b3]
  {
    hide Join;
    hide Number;
    hide BigEndian;
    JoinIs(b0, b1, b2, b3);
    FourDigits(b0, b1, b2, b3);
  }

  function Bytes(words: seq<Uint32>): seq<Byte>
  {
    if words == [] then [] else Bytes(words[..|words| - 1]) + BigEndian(Number(words[|words| - 1]), 4)
  }

  lemma BytesSnoc(words: seq<Uint32>, last: Uint32)
    ensures Bytes(words + [last]) == Bytes(words) + BigEndian(Number(last), 4)
  {
    hide BigEndian;
    hide Number;
    assert (words + [last])[..|words|] == words;
  }

  lemma WordReadsBack(m: Block, t: nat)
    requires t < 16
    ensures BigEndian(Number(Word(m, t)), 4) == m[4 * t..4 * t + 4]
  {
    hide Join;
    hide Number;
    hide BigEndian;
    JoinReadsBack(m[4 * t], m[4 * t + 1], m[4 * t + 2], m[4 * t + 3]);
  }

  lemma NothingYet(m: Block)
    ensures Bytes(Schedule(m, 0)) == m[..0]
  {
  }

  lemma ScheduleStep(m: Block, t: nat)
    requires t < 16
    ensures Schedule(m, t + 1) == Schedule(m, t) + [Word(m, t)]
  {
    hide Word;
    hide NextWord;
  }

  /** The first words of the schedule are the block, read from left to right. */
  lemma {:induction false} ScheduleReadsBack(m: Block, n: nat)
    requires n <= 16
    ensures Bytes(Schedule(m, n)) == m[..4 * n]
  {
    hide BigEndian;
    hide Number;
    hide Word;
    hide NextWord;
    hide Bytes;
    hide Schedule;
    if n == 0 {
      NothingYet(m);
    } else {
      var t := n - 1;
      ScheduleReadsBack(m, t);
      ScheduleStep(m, t);
      BytesSnoc(Schedule(m, t), Word(m, t));
      WordReadsBack(m, t);
      assert m[..4 * n] == m[..4 * t] + m[4 * t..4 * t + 4];
    }
  }

  // ---- The constants ----

  /** `i * 2^32 + n` is the cube root of `p * 2^96`, rounded down. */
  predicate Cubic(p: int, i: int, n: int)
  {
    var x := i * 0x1_0000_0000 + n;
    x * x * x <= p * 0x1_0000_0000_0000_0000_0000_0000 < (x + 1) * (x + 1) * (x + 1)
  }

  /** A word is the first 32 bits of the fractional part of the cube root of `p`. */
  ghost predicate CubeRoot(p: int, k: Uint32) { exists i: nat :: Cubic(p, i, Number(k)) }

  /** Four constants in a row belong to these primes. */
  ghost predicate Four(t: int, p0: int, p1: int, p2: int, p3: int)
  {
    0 <= t <= 60 && CubeRoot(p0, K(t)) && CubeRoot(p1, K(t + 1)) && CubeRoot(p2, K(t + 2)) && CubeRoot(p3, K(t + 3))
  }

  /** The constants are those of the cube roots of the first sixty-four primes (section 4.2.2). */
  ghost predicate RootsOfPrimes()
  {
    && Four(0, 2, 3, 5, 7) && Four(4, 11, 13, 17, 19)
    && Four(8, 23, 29, 31, 37) && Four(12, 41, 43, 47, 53)
    && Four(16, 59, 61, 67, 71) && Four(20, 73, 79, 83, 89)
    && Four(24, 97, 101, 103, 107) && Four(28, 109, 113, 127, 131)
    && Four(32, 137, 139, 149, 151) && Four(36, 157, 163, 167, 173)
    && Four(40, 179, 181, 191, 193) && Four(44, 197, 199, 211, 223)
    && Four(48, 227, 229, 233, 239) && Four(52, 241, 251, 257, 263)
    && Four(56, 269, 271, 277, 281) && Four(60, 283, 293, 307, 311)
  }

  lemma RootIs(t: nat, p: nat, i: nat, k: Uint32, n: nat)
    requires t < 64 && K(t) == k && Number(k) == n && Cubic(p, i, n)
    ensures CubeRoot(p, K(t))
  {
  }

  lemma Four0()
    ensures Four(0, 2, 3, 5, 7)
  {
    hide CubeRoot;
    RootIs(0, 2, 1, 0x428a2f98, 0x428a2f98);
    RootIs(1, 3, 1, 0x71374491, 0x71374491);
    RootIs(2, 5, 1, 0xb5c0fbcf, 0xb5c0fbcf);
    RootIs(3, 7, 1, 0xe9b5dba5, 0xe9b5dba5);
  }

  lemma Four4()
    ensures Four(4, 11, 13, 17, 19)
  {
    hide CubeRoot;
    RootIs(4, 11, 2, 0x3956c25b, 0x3956c25b);
    RootIs(5, 13, 2, 0x59f111f1, 0x59f111f1);
    RootIs(6, 17, 2, 0x923f82a4, 0x923f82a4);
    RootIs(7, 19, 2, 0xab1c5ed5, 0xab1c5ed5);
  }

  lemma Four8()
    ensures Four(8, 23, 29, 31, 37)
  {
    hide CubeRoot;
    RootIs(8, 23, 2, 0xd807aa98, 0xd807aa98);
    RootIs(9, 29, 3, 0x12835b01, 0x12835b01);
    RootIs(10, 31, 3, 0x243185be, 0x243185be);
    RootIs(11, 37, 3, 0x550c7dc3, 0x550c7dc3);
  }

  lemma Four12()
    ensures Four(12, 41, 43, 47, 53)
  {
    hide CubeRoot;
    RootIs(12, 41, 3, 0x72be5d74, 0x72be5d74);
    RootIs(13, 43, 3, 0x80deb1fe, 0x80deb1fe);
    RootIs(14, 47, 3, 0x9bdc06a7, 0x9bdc06a7);
    RootIs(15, 53, 3, 0xc19bf174, 0xc19bf174);
  }

  lemma Four16()
    ensures Four(16, 59, 61, 67, 71)
  {
    hide CubeRoot;
    RootIs(16, 59, 3, 0xe49b69c1, 0xe49b69c1);
    RootIs(17, 61, 3, 0xefbe4786, 0xefbe4786);
    RootIs(18, 67, 4, 0x0fc19dc6, 0x0fc19dc6);
    RootIs(19, 71, 4, 0x240ca1cc, 0x240ca1cc);
  }

  lemma Four20()
    ensures Four(20, 73, 79, 83, 89)
  {
    hide CubeRoot;
    RootIs(20, 73, 4, 0x2de92c6f, 0x2de92c6f);
    RootIs(21, 79, 4, 0x4a7484aa, 0x4a7484aa);
    RootIs(22, 83, 4, 0x5cb0a9dc, 0x5cb0a9dc);
    RootIs(23, 89, 4, 0x76f988da, 0x76f988da);
  }

  lemma Four24()
    ensures Four(24, 97, 101, 103, 107)
  {
    hide CubeRoot;
    RootIs(24, 97, 4, 0x983e5152, 0x983e5152);
    RootIs(25, 101, 4, 0xa831c66d, 0xa831c66d);
    RootIs(26, 103, 4, 0xb00327c8, 0xb00327c8);
    RootIs(27, 107, 4, 0xbf597fc7, 0xbf597fc7);
  }

  lemma Four28()
    ensures Four(28, 109, 113, 127, 131)
  {
    hide CubeRoot;
    RootIs(28, 109, 4, 0xc6e00bf3, 0xc6e00bf3);
    RootIs(29, 113, 4, 0xd5a79147, 0xd5a79147);
    RootIs(30, 127, 5, 0x06ca6351, 0x06ca6351);
    RootIs(31, 131, 5, 0x14292967, 0x14292967);
  }

  lemma Four32()
    ensures Four(32, 137, 139, 149, 151)
  {
    hide CubeRoot;
    RootIs(32, 137, 5, 0x27b70a85, 0x27b70a85);
    RootIs(33, 139, 5, 0x2e1b2138, 0x2e1b2138);
    RootIs(34, 149, 5, 0x4d2c6dfc, 0x4d2c6dfc);
    RootIs(35, 151, 5, 0x53380d13, 0x53380d13);
  }

  lemma Four36()
    ensures Four(36, 157, 163, 167, 173)
  {
    hide CubeRoot;
    RootIs(36, 157, 5, 0x650a7354, 0x650a7354);
    RootIs(37, 163, 5, 0x766a0abb, 0x766a0abb);
    RootIs(38, 167, 5, 0x81c2c92e, 0x81c2c92e);
    RootIs(39, 173, 5, 0x92722c85, 0x92722c85);
  }

  lemma Four40()
    ensures Four(40, 179, 181, 191, 193)
  {
    hide CubeRoot;
    RootIs(40, 179, 5, 0xa2bfe8a1, 0xa2bfe8a1);
    RootIs(41, 181, 5, 0xa81a664b, 0xa81a664b);
    RootIs(42, 191, 5, 0xc24b8b70, 0xc24b8b70);
    RootIs(43, 193, 5, 0xc76c51a3, 0xc76c51a3);
  }

  lemma Four44()
    ensures Four(44, 197, 199, 211, 223)
  {
    hide CubeRoot;
    RootIs(44, 197, 5, 0xd192e819, 0xd192e819);
    RootIs(45, 199, 5, 0xd6990624, 0xd6990624);
    RootIs(46, 211, 5, 0xf40e3585, 0xf40e3585);
    RootIs(47, 223, 6, 0x106aa070, 0x106aa070);
  }

  lemma Four48()
    ensures Four(48, 227, 229, 233, 239)
  {
    hide CubeRoot;
    RootIs(48, 227, 6, 0x19a4c116, 0x19a4c116);
    RootIs(49, 229, 6, 0x1e376c08, 0x1e376c08);
    RootIs(50, 233, 6, 0x2748774c, 0x2748774c);
    RootIs(51, 239, 6, 0x34b0bcb5, 0x34b0bcb5);
  }

  lemma Four52()
    ensures Four(52, 241, 251, 257, 263)
  {
    hide CubeRoot;
    RootIs(52, 241, 6, 0x391c0cb3, 0x391c0cb3);
    RootIs(53, 251, 6, 0x4ed8aa4a, 0x4ed8aa4a);
    RootIs(54, 257, 6, 0x5b9cca4f, 0x5b9cca4f);
    RootIs(55, 263, 6, 0x682e6ff3, 0x682e6ff3);
  }

  lemma Four56()
    ensures Four(56, 269, 271, 277, 281)
  {
    hide CubeRoot;
    RootIs(56, 269, 6, 0x748f82ee, 0x748f82ee);
    RootIs(57, 271, 6, 0x78a5636f, 0x78a5636f);
    RootIs(58, 277, 6, 0x84c87814, 0x84c87814);
    RootIs(59, 281, 6, 0x8cc70208, 0x8cc70208);
  }

  lemma Four60()
    ensures Four(60, 283, 293, 307, 311)
  {
    hide CubeRoot;
    RootIs(60, 283, 6, 0x90befffa, 0x90befffa);
    RootIs(61, 293, 6, 0xa4506ceb, 0xa4506ceb);
    RootIs(62, 307, 6, 0xbef9a3f7, 0xbef9a3f7);
    RootIs(63, 311, 6, 0xc67178f2, 0xc67178f2);
  }

  lemma Constants()
    ensures RootsOfPrimes()
  {
    hide Four;
    Four0();
    Four4();
    Four8();
    Four12();
    Four16();
    Four20();
    Four24();
    Four28();
    Four32();
    Four36();
    Four40();
    Four44();
    Four48();
    Four52();
    Four56();
    Four60();
  }

  /** The same for square roots. */
  predicate SquareRoot(p: nat, i: nat, h: Uint32)
  {
    var x := i * 0x1_0000_0000 + Number(h);
    x >= 0 && x * x <= p * 0x1_0000_0000_0000_0000 < (x + 1) * (x + 1)
  }

  /** The words of the initial hash value are those of the square roots of the first eight primes (section 5.3.3). */
  lemma InitialWords()
    ensures SquareRoot(2, 1, INITIAL.a) && SquareRoot(3, 1, INITIAL.b)
    ensures SquareRoot(5, 2, INITIAL.c) && SquareRoot(7, 2, INITIAL.d)
    ensures SquareRoot(11, 3, INITIAL.e) && SquareRoot(13, 3, INITIAL.f)
    ensures SquareRoot(17, 4, INITIAL.g) && SquareRoot(19, 4, INITIAL.h)
  {
  }
}
