/**
 The browser's incremental SHA-256 (web/src/sha256.ts).  Words are JavaScript
 numbers kept in the range of a 32-bit unsigned integer by `>>> 0`, which is
 arithmetic modulo 2^32.  The class keeps everything fed to it in the ghost field
 `input`; the validity predicate ties the eight state words and the carry
 buffer to the one-shot definition in module Fips180.
 */
module IncrementalSha256 {
  import Hex
  import opened Options
  import opened Fips180

  /** `Math.floor(bytes / 0x20000000)` and `bytes * 8` are exact only below this. */
  const EXACT_INTEGERS: nat := 0x20_0000_0000_0000

  function StateOf(s: seq<Uint32>): State
    requires |s| == 8
  {
    State(s[0], s[1], s[2], s[3], s[4], s[5], s[6], s[7])
  }

  /** `h` is the hash value of the whole blocks of `m`, and `carry` is the rest of `m`. */
  ghost predicate Tracks(h: State, carry: seq<Byte>, m: seq<Byte>)
  {
    && |carry| < 64 && |carry| <= |m| && (|m| - |carry|) % 64 == 0
    && carry == m[|m| - |carry|..]
    && h == HashBlocks(INITIAL, m[..|m| - |carry|])
  }

  lemma TracksMore(h: State, carry: seq<Byte>, m: seq<Byte>, t: seq<Byte>)
    requires Tracks(h, carry, m) && |carry| + |t| < 64
    ensures Tracks(h, carry + t, m + t)
  {
    hide HashBlocks;
    assert (m + t)[..|m| - |carry|] == m[..|m| - |carry|];
    assert (m + t)[|m| - |carry|..] == carry + t;
  }

  lemma OneBlock(h: State, block: seq<Byte>)
    requires |block| == 64
    ensures HashBlocks(h, block) == Compress(h, block)
  {
    hide Compress;
    assert block[..|block| - 64] == [] && block[|block| - 64..] == block;
    assert HashBlocks(h, []) == h;
  }

  lemma TracksBlock(h: State, carry: seq<Byte>, m: seq<Byte>, t: seq<Byte>)
    requires Tracks(h, carry, m) && |carry| + |t| == 64
    ensures Tracks(Compress(h, carry + t), [], m + t)
  {
    hide Compress;
    hide HashBlocks;
    var whole, block := m[..|m| - |carry|], carry + t;
    assert m + t == whole + block;
    OneBlock(h, block);
    HashBlocksAppend(INITIAL, whole, block);
    assert (m + t)[..|m + t|] == m + t;
  }

  lemma NextTracked(h: State, m: seq<Byte>, all: seq<Byte>, offset: nat)
    requires offset + 64 <= |all| && Tracks(h, [], m + all[..offset])
    ensures Tracks(Compress(h, all[offset..offset + 64]), [], m + all[..offset + 64])
  {
    hide Tracks;
    hide Compress;
    var next := all[offset..offset + 64];
    assert [] + next == next;
    assert m + all[..offset] + next == m + all[..offset + 64];
    TracksBlock(h, [], m + all[..offset], next);
  }

  /** Every word as eight digits, joined. */
  function HexState(s: seq<Uint32>): string
  {
    if s == [] then "" else HexState(s[..|s| - 1]) + Hex.PadStart(Hex.ToString16(s[|s| - 1] as int), 8)
  }

  function WordsOf(s: State): seq<Uint32> { [s.a, s.b, s.c, s.d, s.e, s.f, s.g, s.h] }

  /** The hex digest of a message, by FIPS 180-4. */
  function HexDigest(m: seq<Byte>): string { HexState(WordsOf(Hash(m))) }

  /** Word `i` of a text of eight-digit words. */
  function WordText(text: string, i: nat): string
    requires 8 * i + 8 <= |text|
  {
    text[8 * i..8 * i + 8]
  }

  lemma WordOfJoined(rest: string, last: string, n: nat, i: nat)
    requires |rest| == 8 * n && |last| == 8 && i <= n
    ensures WordText(rest + last, i) == if i < n then WordText(rest, i) else last
  {
  }

  lemma {:induction false} HexStateReadsBack(s: seq<Uint32>)
    ensures |HexState(s)| == 8 * |s| && forall c | c in HexState(s) :: Hex.IsDigit(c)
    ensures forall i: nat | i < |s| :: Hex.Value(WordText(HexState(s), i)) == s[i] as int
  {
    hide Hex.Value;
    hide Hex.PadStart;
    hide Hex.ToString16;
    hide Hex.IsDigit;
    if s != [] {
      var n := |s| - 1;
      HexStateReadsBack(s[..n]);
      Hex.PaddedWord(s[n] as int);
      var rest, last := HexState(s[..n]), Hex.PadStart(Hex.ToString16(s[n] as int), 8);
      assert HexState(s) == rest + last;
      forall i: nat | i < |s|
        ensures Hex.Value(WordText(HexState(s), i)) == s[i] as int
      {
        WordOfJoined(rest, last, n, i);
      }
    }
  }

  /** The server accepts every digest that the client computes, and no digit of it is lost. */
  lemma DigestIsValid(m: seq<Byte>)
    ensures Hex.ValidDigest(HexDigest(m))
    ensures forall i: nat | i < 8 :: Hex.Value(WordText(HexDigest(m), i)) == WordsOf(Hash(m))[i] as int
  {
    hide Hash;
    HexStateReadsBack(WordsOf(Hash(m)));
  }

  lemma BigEndian4(v: nat)
    requires v < 0x1_0000_0000
    ensures BigEndian(v, 4) == [v / 0x100_0000, v / 0x1_0000 % 256, v / 256 % 256, v % 256]
  {
    assert v / 256 / 256 == v / 0x1_0000 && v / 0x1_0000 / 256 == v / 0x100_0000;
    assert BigEndian(v / 0x100_0000, 1) == [v / 0x100_0000];
    assert BigEndian(v / 0x1_0000, 2) == BigEndian(v / 0x100_0000, 1) + [v / 0x1_0000 % 256];
    assert BigEndian(v / 256, 3) == BigEndian(v / 0x1_0000, 2) + [v / 256 % 256];
  }

  /** `DataView.setUint32`: most significant byte first. */
  method SetUint32(a: array<Byte>, at: nat, v: nat)
    requires at + 4 <= a.Length && v < 0x1_0000_0000
    modifies a
    ensures a[..] == old(a[..at]) + BigEndian(v, 4) + old(a[at + 4..])
  {
    a[at] := v / 0x100_0000;
    a[at + 1] := v / 0x1_0000 % 256;
    a[at + 2] := v / 256 % 256;
    a[at + 3] := v % 256;
    BigEndian4(v);
  }

  lemma HashIsBlocks(m: seq<Byte>)
    ensures Hash(m) == HashBlocks(INITIAL, Pad(m))
  {
    hide HashBlocks;
    hide Pad;
  }

  lemma FourBytes()
    ensures Pow256(4) == 0x1_0000_0000
  {
    assert Pow256(1) == 256 && Pow256(2) == 0x1_0000 && Pow256(3) == 0x100_0000;
  }

  lemma SplitLength(bytes: nat)
    ensures (bytes / 0x2000_0000) * 0x1_0000_0000 + (bytes * 8) % 0x1_0000_0000 == 8 * bytes
  {
    var hi, r := bytes / 0x2000_0000, bytes % 0x2000_0000;
    assert bytes * 8 == hi * 0x1_0000_0000 + r * 8;
  }

  /** The two halves that the client writes are the 64-bit length in bits. */
  lemma LengthBytes(bytes: nat)
    ensures BigEndian(8 * bytes, 8) == BigEndian(bytes / 0x2000_0000, 4) + BigEndian((bytes * 8) % 0x1_0000_0000, 4)
  {
    hide BigEndian;
    var hi, lo := bytes / 0x2000_0000, (bytes * 8) % 0x1_0000_0000;
    FourBytes();
    SplitLength(bytes);
    hide Pow256;
    BigEndianSplit(hi, lo, 4, 4);
  }

  lemma PaddingIs(bytes: nat)
    ensures Padding(bytes) ==
            [0x80] + Zeros(ZeroBytes(bytes)) + BigEndian(bytes / 0x2000_0000, 4) + BigEndian((bytes * 8) % 0x1_0000_0000, 4)
  {
    hide BigEndian;
    hide Zeros;
    LengthBytes(bytes);
  }

  lemma CarryLength(h: State, carry: seq<Byte>, m: seq<Byte>)
    requires Tracks(h, carry, m) && |carry| < 64
    ensures |carry| == |m| % 64
  {
    hide HashBlocks;
  }

  /** Round `t`, spelled out in the working variables. */
  lemma OneRound(a: Uint32, b: Uint32, c: Uint32, d: Uint32, e: Uint32, f: Uint32, g: Uint32, h: Uint32,
                 t1: Uint32, t2: Uint32, w: seq<Uint32>, t: nat, s0: State)
    requires t < |w| == 64 && State(a, b, c, d, e, f, g, h) == Rounds(s0, w, t)
    requires t1 == Plus(Plus(Plus(Plus(h, BigSigma1(e)), Ch(e, f, g)), K(t)), w[t])
    requires t2 == Plus(BigSigma0(a), Maj(a, b, c))
    ensures State(Plus(t1, t2), a, b, c, Plus(d, t1), e, f, g) == Rounds(s0, w, t + 1)
  {
    hide Plus;
    hide BigSigma0;
    hide BigSigma1;
    hide Ch;
    hide Maj;
  }

  /** Word `t` of the block that starts at `offset`. */
  lemma WordAt(data: seq<Byte>, offset: nat, t: nat)
    requires offset + 64 <= |data| && t < 16
    ensures var j := offset + t * 4;
            Word(data[offset..offset + 64], t) ==
            Join(data[j], data[j + 1], data[j + 2], data[j + 3])
  {
    var j, m := offset + t * 4, data[offset..offset + 64];
    assert m[4 * t] == data[j] && m[4 * t + 1] == data[j + 1] && m[4 * t + 2] == data[j + 2] && m[4 * t + 3] == data[j + 3];
  }

  /** The client adds the four terms of a schedule word in another order. */
  lemma PlusCommutes(a: Uint32, b: Uint32)
    ensures Plus(a, b) == Plus(b, a)
  {
  }

  /** A sum of three words does not depend on which end is added first. */
  lemma PlusTurned(a: Uint32, b: Uint32, c: Uint32)
    ensures Plus(Plus(a, b), c) == Plus(a, Plus(b, c)) && Plus(a, Plus(b, c)) == Plus(Plus(b, c), a)
  {
  }

  lemma PlusReordered(a: Uint32, b: Uint32, c: Uint32, d: Uint32)
    ensures Plus(Plus(Plus(a, b), c), d) == Plus(Plus(Plus(d, c), b), a)
  {
    hide Plus;
    PlusTurned(a, b, c);
    PlusCommutes(b, c);
    PlusTurned(d, c, b);
    PlusTurned(d, Plus(b, c), a);
  }

  lemma NextWordReordered(w2: Uint32, w7: Uint32, w15: Uint32, w16: Uint32)
    ensures Plus(Plus(Plus(w16, SmallSigma0(w15)), w7), SmallSigma1(w2)) == NextWord(w2, w7, w15, w16)
  {
    PlusReordered(w16, SmallSigma0(w15), w7, SmallSigma1(w2));
    hide Plus;
    hide SmallSigma0;
    hide SmallSigma1;
  }

  class Sha256 {
    const state: array<Uint32>
    const buffer: array<Byte>
    const words: array<Uint32>
    var buffered: nat
    var bytes: nat
    var finished: bool
    ghost var input: seq<Byte>

    ghost predicate Shape()
    {
      && state.Length == 8 && buffer.Length == 64 && words.Length == 64
      && words != state && buffer as object != words && buffer as object != state
    }

    /** The state words and the carry buffer stand for the bytes `m`. */
    ghost predicate Holds(m: seq<Byte>)
      requires Shape()
      reads this`buffered, state, buffer
    {
      buffered < 64 && Tracks(StateOf(state[..]), buffer[..buffered], m)
    }

    ghost predicate Valid()
      reads this, state, buffer
    {
      && Shape()
      && (!finished ==>
            && bytes == |input|
            && Holds(input))
    }

    constructor ()
      ensures Valid() && fresh(state) && fresh(buffer) && fresh(words)
      ensures !finished && input == []
    {
      state := new Uint32[8] [0x6a09e667, 0xbb67ae85, 0x3c6ef372, 0xa54ff53a,
                            0x510e527f, 0x9b05688c, 0x1f83d9ab, 0x5be0cd19];
      buffer := new Byte[64];
      words := new Uint32[64];
      buffered, bytes, finished, input := 0, 0, false, [];
      new;
      assert StateOf(state[..]) == INITIAL;
      assert buffer[..0] == [];
    }

    /** The first loop: the sixteen words of the block. */
    method LoadWords(data: array<Byte>, offset: nat)
      requires data as object != words
      requires Shape() && offset + 64 <= data.Length
      modifies words
      ensures words[..16] == Schedule(old(data[offset..offset + 64]), 16)
    {
      hide NextWord;
      hide Word;
      hide Join;
      ghost var bytes := data[..];
      ghost var m: Block := bytes[offset..offset + 64];
      var w := words;
      for i := 0 to 16
        invariant data[..] == bytes
        invariant w[..i] == Schedule(m, i)
      {
        var j := offset + i * 4;
        w[i] := Join(data[j], data[j + 1], data[j + 2], data[j + 3]);
        WordAt(bytes, offset, i);
        assert w[i] == Word(m, i);
        assert w[..i + 1] == w[..i] + [w[i]];
      }
    }

    /** The second loop: the rest of the message schedule. */
    method ExtendWords(ghost m: Block)
      requires Shape() && words[..16] == Schedule(m, 16)
      modifies words
      ensures words[..] == Schedule(m, 64)
    {
      hide Plus;
      hide NextWord;
      hide SmallSigma0;
      hide SmallSigma1;
      hide Word;
      var w := words;
      for i := 16 to 64
        invariant w[..i] == Schedule(m, i)
      {
        var x, y := w[i - 15], w[i - 2];
        ghost var s := w[..i];
        NextWordReordered(y, w[i - 7], x, w[i - 16]);
        w[i] := Plus(Plus(Plus(w[i - 16], SmallSigma0(x)), w[i - 7]), SmallSigma1(y));
        assert w[..i + 1] == s + [NextWord(s[i - 2], s[i - 7], s[i - 15], s[i - 16])];
      }
      assert w[..64] == w[..];
    }

    method RunRounds() returns (a: Uint32, b: Uint32, c: Uint32, d: Uint32, e: Uint32, f: Uint32, g: Uint32, h: Uint32)
      requires Shape()
      ensures State(a, b, c, d, e, f, g, h) == Rounds(StateOf(state[..]), words[..], 64)
    {
      hide BigSigma0;
      hide BigSigma1;
      hide Ch;
      hide Maj;
      hide Plus;
      hide Round;
      var w := words;
      a, b, c, d := state[0], state[1], state[2], state[3];
      e, f, g, h := state[4], state[5], state[6], state[7];
      ghost var s0 := State(a, b, c, d, e, f, g, h);
      for i := 0 to 64
        invariant State(a, b, c, d, e, f, g, h) == Rounds(s0, w[..], i)
      {
        var t1 := Plus(Plus(Plus(Plus(h, BigSigma1(e)), Ch(e, f, g)), K(i)), w[i]);
        var t2 := Plus(BigSigma0(a), Maj(a, b, c));
        OneRound(a, b, c, d, e, f, g, h, t1, t2, w[..], i, s0);
        h := g;
        g := f;
        f := e;
        e := Plus(d, t1);
        d := c;
        c := b;
        b := a;
        a := Plus(t1, t2);
      }
    }

    /** The last loop, and the addition into the state words. */
    method AddRounds()
      requires Shape()
      modifies state
      ensures StateOf(state[..]) == Add(old(StateOf(state[..])), Rounds(old(StateOf(state[..])), words[..], 64))
    {
      hide Plus;
      hide Rounds;
      var a, b, c, d, e, f, g, h := RunRounds();
      state[0] := Plus(state[0], a);
      state[1] := Plus(state[1], b);
      state[2] := Plus(state[2], c);
      state[3] := Plus(state[3], d);
      state[4] := Plus(state[4], e);
      state[5] := Plus(state[5], f);
      state[6] := Plus(state[6], g);
      state[7] := Plus(state[7], h);
    }

    /** Compresses the 64 bytes of `data` at `offset` into the state words. */
    method Block(data: array<Byte>, offset: nat)
      requires data as object != words
      requires Shape() && offset + 64 <= data.Length
      modifies state, words
      ensures StateOf(state[..]) == Compress(old(StateOf(state[..])), old(data[offset..offset + 64]))
    {
      ghost var m: Block := data[offset..offset + 64];
      LoadWords(data, offset);
      ExtendWords(m);
      AddRounds();
    }

    /** False only for the arrays that the object keeps to itself. */
    ghost predicate Foreign(data: array<Byte>)
    {
      data != buffer && data as object != words && data as object != state
    }

    /** `buffer.set(data.subarray(from, to), at)`. */
    method CopyInto(data: array<Byte>, from: nat, to: nat, at: nat)
      requires Shape() && data != buffer
      requires from <= to <= data.Length && at + (to - from) <= 64
      modifies buffer
      ensures buffer[..] == old(buffer[..at]) + data[from..to] + old(buffer[at + (to - from)..])
    {
      for i := from to to
        invariant buffer[..] == old(buffer[..at]) + data[from..i] + old(buffer[at + (i - from)..])
      {
        buffer[at + (i - from)] := data[i];
      }
    }

    /** Tops up a partly filled buffer, and compresses it once it is full. */
    method FillCarry(data: array<Byte>, ghost m: seq<Byte>) returns (offset: nat)
      requires Shape() && Foreign(data) && Holds(m)
      modifies this`buffered, state, buffer, words
      ensures offset <= data.Length && (buffered == 0 || offset == data.Length)
      ensures Holds(m + data[..offset])
      ensures data[..] == old(data[..])
    {
      hide Tracks;
      hide Compress;
      var take := if 64 - buffered < data.Length then 64 - buffered else data.Length;
      ghost var carry, all := buffer[..buffered], data[..];
      CopyInto(data, 0, take, buffered);
      buffered := buffered + take;
      offset := take;
      assert buffer[..buffered] == carry + all[..take];
      if buffered == 64 {
        TracksBlock(StateOf(state[..]), carry, m, all[..take]);
        assert buffer[0..64] == carry + all[..take];
        Block(buffer, 0);
        buffered := 0;
        assert buffer[..0] == [];
      } else {
        TracksMore(StateOf(state[..]), carry, m, all[..take]);
      }
    }

    /** Compresses whole blocks straight from the data. */
    method WholeBlocks(data: array<Byte>, start: nat, ghost m: seq<Byte>) returns (offset: nat)
      requires Shape() && Foreign(data)
      requires start <= data.Length && (buffered == 0 || start == data.Length)
      requires Holds(m + data[..start])
      modifies state, words
      ensures offset <= data.Length < offset + 64 && (buffered == 0 || offset == data.Length)
      ensures Holds(m + data[..offset])
      ensures data[..] == old(data[..])
    {
      hide Tracks;
      hide HashBlocks;
      hide Compress;
      ghost var all := data[..];
      offset := start;
      while offset + 64 <= data.Length
        invariant offset <= data.Length && (buffered == 0 || offset == data.Length)
        invariant data[..] == all && buffer[..] == old(buffer[..])
        invariant Tracks(StateOf(state[..]), buffer[..buffered], m + all[..offset])
      {
        NextTracked(StateOf(state[..]), m, all, offset);
        assert buffer[..buffered] == [];
        Block(data, offset);
        offset := offset + 64;
      }
    }

    /** Keeps what is left for the next call. */
    method KeepRest(data: array<Byte>, offset: nat, ghost m: seq<Byte>)
      requires Shape() && Foreign(data) && buffered == 0
      requires offset < data.Length < offset + 64
      requires Holds(m + data[..offset])
      modifies this`buffered, buffer
      ensures Holds(m + data[..])
      ensures data[..] == old(data[..])
    {
      hide Tracks;
      ghost var all := data[..];
      assert m + all[..offset] + all[offset..] == m + all;
      assert [] + all[offset..] == all[offset..] && buffer[..0] == [];
      TracksMore(StateOf(state[..]), [], m + all[..offset], all[offset..]);
      CopyInto(data, offset, data.Length, 0);
      buffered := data.Length - offset;
      assert buffer[..buffered] == all[offset..];
    }

    method Absorb(data: array<Byte>, ghost m: seq<Byte>, ghost all: seq<Byte>)
      requires all == data[..]
      requires Shape() && Foreign(data) && Holds(m)
      modifies this`buffered, state, buffer, words
      ensures Holds(m + all)
      ensures data[..] == all
    {
      hide Holds;
      var offset := 0;
      assert m + data[..0] == m;
      if buffered != 0 {
        offset := FillCarry(data, m);
      }
      offset := WholeBlocks(data, offset, m);
      if offset < data.Length {
        KeepRest(data, offset, m);
      } else {
        assert data[..offset] == data[..];
      }
    }

    /** Feeds more bytes; refused once the digest was taken. */
    method Update(data: array<Byte>) returns (accepted: bool)
      requires Valid() && Foreign(data)
      modifies this, state, buffer, words
      ensures Valid()
      ensures accepted == !old(finished) && finished == old(finished)
      ensures input == if accepted then old(input) + data[..] else old(input)
      ensures data[..] == old(data[..])
    {
      hide Holds;
      accepted := !finished;
      if accepted {
        ghost var m, all := input, data[..];
        bytes, input := bytes + data.Length, m + all;
        Absorb(data, m, all);
      }
    }

    method MakeTail() returns (tail: array<Byte>)
      requires Valid() && !finished && bytes < EXACT_INTEGERS
      ensures fresh(tail) && tail[..] == Padding(|input|)
    {
      hide Tracks;
      hide BigEndian;
      hide Padding;
      CarryLength(StateOf(state[..]), buffer[..buffered], input);
      tail := new Byte[if buffered < 56 then 64 - buffered else 128 - buffered](_ => 0);
      tail[0] := 0x80;
      ghost var k := ZeroBytes(bytes);
      assert tail[..] == [0x80] + Zeros(k + 8);
      ghost var hi, lo := BigEndian(bytes / 0x2000_0000, 4), BigEndian((bytes * 8) % 0x1_0000_0000, 4);
      SetUint32(tail, tail.Length - 8, bytes / 0x2000_0000);
      assert tail[..][..k + 5] == [0x80] + Zeros(k) + hi;
      SetUint32(tail, tail.Length - 4, (bytes * 8) % 0x1_0000_0000);
      assert tail[..] == [0x80] + Zeros(k) + hi + lo;
      PaddingIs(bytes);
    }

    lemma HoldsWhole(m: seq<Byte>)
      requires Shape() && Holds(m) && |m| % 64 == 0
      ensures StateOf(state[..]) == HashBlocks(INITIAL, m)
    {
      hide HashBlocks;
      assert buffered == 0 && m[..|m|] == m;
    }

    /** `Array.from(this.state, v => v.toString(16).padStart(8, "0")).join("")` */
    method Render() returns (text: string)
      requires Shape()
      ensures text == HexState(state[..])
    {
      text := "";
      for i := 0 to 8
        invariant text == HexState(state[..i])
      {
        assert state[..i + 1][..i] == state[..i];
        text := text + Hex.PadStart(Hex.ToString16(state[i] as int), 8);
      }
      assert state[..8] == state[..];
    }

    /** Appends the padding and reads the digest; `None` stands for the exception. */
    method Digest() returns (r: Option<string>)
      requires Valid() && |input| < EXACT_INTEGERS
      modifies this, state, buffer, words
      ensures Valid() && finished
      ensures r == if old(finished) then None else Some(HexDigest(old(input)))
    {
      hide Holds;
      hide Hash;
      hide HashBlocks;
      hide HexState;
      if finished {
        return None;
      }
      var tail := MakeTail();
      ghost var m := input;
      var accepted := Update(tail);
      HoldsWhole(Pad(m));
      HashIsBlocks(m);
      assert state[..] == WordsOf(Hash(m));
      finished := true;
      var text := Render();
      return Some(text);
    }
  }

  function Concat(parts: seq<seq<Byte>>): seq<Byte>
  {
    if parts == [] then [] else Concat(parts[..|parts| - 1]) + parts[|parts| - 1]
  }

  method ToArray(s: seq<Byte>) returns (a: array<Byte>)
    ensures fresh(a) && a[..] == s
  {
    a := new Byte[|s|](i requires 0 <= i < |s| => s[i]);
  }

  /** However a message is cut up for `Update`, the digest is that of the message. */
  method HashParts(parts: seq<seq<Byte>>) returns (r: string)
    requires |Concat(parts)| < EXACT_INTEGERS
    ensures r == HexDigest(Concat(parts))
  {
    hide Hash;
    hide HashBlocks;
    var hash := new Sha256();
    for i := 0 to |parts|
      invariant fresh(hash) && fresh(hash.state) && fresh(hash.buffer) && fresh(hash.words)
      invariant hash.Valid() && !hash.finished && hash.input == Concat(parts[..i])
    {
      var data := ToArray(parts[i]);
      var accepted := hash.Update(data);
      assert parts[..i + 1][..i] == parts[..i];
    }
    assert parts[..|parts|] == parts;
    var digest := hash.Digest();
    r := digest.value;
  }

  /** How many slices `hashFile` reads. */
  function Slices(length: nat, size: nat): nat
    requires size > 0
  {
    (length + size - 1) / size
  }

  /** One slice of the file goes into the hash. */
  method HashSlice(hash: Sha256, file: seq<Byte>, offset: nat, end: nat)
    requires hash.Valid() && !hash.finished && offset <= end <= |file| && hash.input == file[..offset]
    modifies hash, hash.state, hash.buffer, hash.words
    ensures hash.Valid() && !hash.finished && hash.input == file[..end]
  {
    hide Hash;
    hide HashBlocks;
    hide Tracks;
    var data := ToArray(file[offset..end]);
    var accepted := hash.Update(data);
    assert file[..offset] + file[offset..end] == file[..end];
  }

  lemma SlicesBound(length: nat, size: nat, n: nat)
    requires size > 0
    ensures n <= Slices(length, size) <==> n * size <= length + size - 1
  {
    var q := Slices(length, size);
    assert size * q <= length + size - 1 < size * q + size;
    if n <= q {
      assert n * size <= q * size;
    } else {
      assert (q + 1) * size <= n * size;
    }
  }

  lemma PollsAreInRange(offset: nat, polls: nat, length: nat, size: nat)
    requires size > 0 && offset == polls * size && offset < length
    ensures polls + 1 <= Slices(length, size) && offset + size == (polls + 1) * size
  {
    if Slices(length, size) <= polls {
      SlicesBound(length, size, polls + 1);
    }
  }

  lemma PollsAtEnd(offset: nat, polls: nat, length: nat, size: nat)
    requires size > 0 && offset == polls * size && polls <= Slices(length, size) && length <= offset
    ensures polls == Slices(length, size)
  {
    if polls < Slices(length, size) {
      SlicesBound(length, size, polls + 1);
    }
  }

  /**
   `hashFile`: `stopped(k)` is the answer to the k-th time the caller is asked
   whether to pause, once before every slice and once at the end.
   */
  method HashFile(file: seq<Byte>, size: nat, stopped: nat -> bool) returns (r: Option<string>)
    requires size > 0 && |file| < EXACT_INTEGERS
    ensures r.None? <==> exists k: nat | k <= Slices(|file|, size) :: stopped(k)
    ensures r.Some? ==> r.value == HexDigest(file)
  {
    hide Hash;
    hide HashBlocks;
    hide HexDigest;
    hide Tracks;
    hide Slices;
    var hash := new Sha256();
    var offset, polls := 0, 0;
    while offset < |file|
      invariant fresh(hash) && fresh(hash.state) && fresh(hash.buffer) && fresh(hash.words)
      invariant hash.Valid() && !hash.finished
      invariant offset == polls * size && polls <= Slices(|file|, size)
      invariant hash.input == if offset < |file| then file[..offset] else file
      invariant forall k: nat | k < polls :: !stopped(k)
    {
      if stopped(polls) {
        PollsAreInRange(offset, polls, |file|, size);
        return None;
      }
      var end := if offset + size < |file| then offset + size else |file|;
      HashSlice(hash, file, offset, end);
      assert file[..|file|] == file;
      PollsAreInRange(offset, polls, |file|, size);
      offset, polls := offset + size, polls + 1;
    }
    PollsAtEnd(offset, polls, |file|, size);
    if stopped(polls) {
      return None;
    }
    r := hash.Digest();
  }
}
