/**
 The published example for SHA-256: the message "abc" (NIST, "Examples with
 Intermediate Values" for FIPS 180-4).  The definitions of Fips180 give this
 schedule, these rounds and this digest.
 */
module Fips180Example {
  import opened Fips180
  import opened IncrementalSha256
  import Hex

  const MESSAGE: seq<Byte> := [0x61, 0x62, 0x63]

  // ---- The block ----

  lemma LengthIs()
    ensures BigEndian(24, 8) == [0, 0, 0, 0, 0, 0, 0, 24]
  {
    assert BigEndian(0, 1) == [0] && BigEndian(0, 2) == [0, 0] && BigEndian(0, 3) == [0, 0, 0] && BigEndian(0, 4) == [0, 0, 0, 0];
    assert BigEndian(0, 5) == [0, 0, 0, 0, 0] && BigEndian(0, 6) == [0, 0, 0, 0, 0, 0] && BigEndian(0, 7) == [0, 0, 0, 0, 0, 0, 0];
  }

  lemma BlockBytes()
    ensures var m := Pad(MESSAGE);
            && |m| == 64 && m[0] == 0x61 && m[1] == 0x62 && m[2] == 0x63 && m[3] == 0x80 && m[63] == 24
            && forall i | 4 <= i < 63 :: m[i] == 0
  {
    hide BigEndian;
    LengthIs();
    assert Pad(MESSAGE) == MESSAGE + [0x80] + Zeros(52) + [0, 0, 0, 0, 0, 0, 0, 24];
  }

  lemma JoinedBytes()
    ensures Join(0x61, 0x62, 0x63, 0x80) == 0x61626380 && Join(0, 0, 0, 0) == 0 && Join(0, 0, 0, 24) == 0x18
  {
  }

  lemma FirstWords(m: Block, t: nat)
    requires m == Pad(MESSAGE) && t < 16
    ensures Word(m, t) == if t == 0 then 0x61626380 else if t < 15 then 0 else 0x18
  {
    hide Join;
    hide Pad;
    BlockBytes();
    JoinedBytes();
  }

  // ---- The schedule ----

  /** Word `t` of the schedule. */
  function W(m: Block, t: nat): Uint32
    requires t < 64
  {
    Schedule(m, 64)[t]
  }

  lemma {:induction false} ScheduleAt(m: Block, n: nat, t: nat)
    requires t < n <= 64
    ensures Schedule(m, n)[t] == if t < 16 then Word(m, t) else
              NextWord(Schedule(m, t)[t - 2], Schedule(m, t)[t - 7], Schedule(m, t)[t - 15], Schedule(m, t)[t - 16])
  {
    hide Word;
    hide NextWord;
    if t < n - 1 { ScheduleAt(m, n - 1, t); }
  }

  lemma {:induction false} SamePrefix(m: Block, n: nat, k: nat, t: nat)
    requires t < n <= k <= 64
    ensures Schedule(m, n)[t] == Schedule(m, k)[t]
  {
    hide Word;
    hide NextWord;
    if n < k { SamePrefix(m, n, k - 1, t); }
  }

  lemma NextIs(m: Block, t: nat)
    requires 16 <= t < 64
    ensures W(m, t) == NextWord(W(m, t - 2), W(m, t - 7), W(m, t - 15), W(m, t - 16))
  {
    hide Schedule;
    hide NextWord;
    ScheduleAt(m, 64, t);
    SamePrefix(m, t, 64, t - 2);
    SamePrefix(m, t, 64, t - 7);
    SamePrefix(m, t, 64, t - 15);
    SamePrefix(m, t, 64, t - 16);
  }

  predicate Eight(m: Block, t: nat, x0: Uint32, x1: Uint32, x2: Uint32, x3: Uint32, x4: Uint32, x5: Uint32, x6: Uint32, x7: Uint32)
    requires t + 8 <= 64
  {
    && W(m, t) == x0 && W(m, t + 1) == x1 && W(m, t + 2) == x2 && W(m, t + 3) == x3
    && W(m, t + 4) == x4 && W(m, t + 5) == x5 && W(m, t + 6) == x6 && W(m, t + 7) == x7
  }

  lemma WordIs(m: Block, t: nat)
    requires t < 16
    ensures W(m, t) == Word(m, t)
  {
    hide Word;
    hide NextWord;
    ScheduleAt(m, 64, t);
  }

  lemma FirstIs(m: Block, t: nat)
    requires m == Pad(MESSAGE) && t < 16
    ensures W(m, t) == if t == 0 then 0x61626380 else if t < 15 then 0 else 0x18
  {
    hide Word;
    hide W;
    hide Pad;
    WordIs(m, t);
    FirstWords(m, t);
  }

  lemma Words0(m: Block)
    requires m == Pad(MESSAGE)
    ensures Eight(m, 0, 0x61626380, 0x00000000, 0x00000000, 0x00000000, 0x00000000, 0x00000000, 0x00000000, 0x00000000)
    ensures Eight(m, 8, 0x00000000, 0x00000000, 0x00000000, 0x00000000, 0x00000000, 0x00000000, 0x00000000, 0x00000018)
  {
    hide W;
    hide Pad;
    forall t: nat | t < 16 ensures W(m, t) == if t == 0 then 0x61626380 else if t < 15 then 0 else 0x18 { FirstIs(m, t); }
  }

  lemma Next(m: Block, t: nat, x2: Uint32, x7: Uint32, x15: Uint32, x16: Uint32, x: Uint32)
    requires 16 <= t < 64 && W(m, t - 2) == x2 && W(m, t - 7) == x7 && W(m, t - 15) == x15 && W(m, t - 16) == x16
    requires NextWord(x2, x7, x15, x16) == x
    ensures W(m, t) == x
  {
    hide NextWord;
    hide W;
    NextIs(m, t);
  }

  lemma Words16(m: Block)
    requires Eight(m, 0, 0x61626380, 0x00000000, 0x00000000, 0x00000000, 0x00000000, 0x00000000, 0x00000000, 0x00000000)
    requires Eight(m, 8, 0x00000000, 0x00000000, 0x00000000, 0x00000000, 0x00000000, 0x00000000, 0x00000000, 0x00000018)
    ensures Eight(m, 16, 0x61626380, 0x000f0000, 0x7da86405, 0x600003c6, 0x3e9d7b78, 0x0183fc00, 0x12dcbfdb, 0xe2e2c38e)
  {
    hide W;
    Next(m, 16, 0x00000000, 0x00000000, 0x00000000, 0x61626380, 0x61626380);
    Next(m, 17, 0x00000018, 0x00000000, 0x00000000, 0x00000000, 0x000f0000);
    Next(m, 18, 0x61626380, 0x00000000, 0x00000000, 0x00000000, 0x7da86405);
    Next(m, 19, 0x000f0000, 0x00000000, 0x00000000, 0x00000000, 0x600003c6);
    Next(m, 20, 0x7da86405, 0x00000000, 0x00000000, 0x00000000, 0x3e9d7b78);
    Next(m, 21, 0x600003c6, 0x00000000, 0x00000000, 0x00000000, 0x0183fc00);
    Next(m, 22, 0x3e9d7b78, 0x00000018, 0x00000000, 0x00000000, 0x12dcbfdb);
    Next(m, 23, 0x0183fc00, 0x61626380, 0x00000000, 0x00000000, 0xe2e2c38e);
  }

  lemma Words24(m: Block)
    requires Eight(m, 8, 0x00000000, 0x00000000, 0x00000000, 0x00000000, 0x00000000, 0x00000000, 0x00000000, 0x00000018)
    requires Eight(m, 16, 0x61626380, 0x000f0000, 0x7da86405, 0x600003c6, 0x3e9d7b78, 0x0183fc00, 0x12dcbfdb, 0xe2e2c38e)
    ensures Eight(m, 24, 0xc8215c1a, 0xb73679a2, 0xe5bc3909, 0x32663c5b, 0x9d209d67, 0xec8726cb, 0x702138a4, 0xd3b7973b)
  {
    hide W;
    Next(m, 24, 0x12dcbfdb, 0x000f0000, 0x00000000, 0x00000000, 0xc8215c1a);
    Next(m, 25, 0xe2e2c38e, 0x7da86405, 0x00000000, 0x00000000, 0xb73679a2);
    Next(m, 26, 0xc8215c1a, 0x600003c6, 0x00000000, 0x00000000, 0xe5bc3909);
    Next(m, 27, 0xb73679a2, 0x3e9d7b78, 0x00000000, 0x00000000, 0x32663c5b);
    Next(m, 28, 0xe5bc3909, 0x0183fc00, 0x00000000, 0x00000000, 0x9d209d67);
    Next(m, 29, 0x32663c5b, 0x12dcbfdb, 0x00000000, 0x00000000, 0xec8726cb);
    Next(m, 30, 0x9d209d67, 0xe2e2c38e, 0x00000018, 0x00000000, 0x702138a4);
    Next(m, 31, 0xec8726cb, 0xc8215c1a, 0x61626380, 0x00000018, 0xd3b7973b);
  }

  lemma Words32(m: Block)
    requires Eight(m, 16, 0x61626380, 0x000f0000, 0x7da86405, 0x600003c6, 0x3e9d7b78, 0x0183fc00, 0x12dcbfdb, 0xe2e2c38e)
    requires Eight(m, 24, 0xc8215c1a, 0xb73679a2, 0xe5bc3909, 0x32663c5b, 0x9d209d67, 0xec8726cb, 0x702138a4, 0xd3b7973b)
    ensures Eight(m, 32, 0x93f5997f, 0x3b68ba73, 0xaff4ffc1, 0xf10a5c62, 0x0a8b3996, 0x72af830a, 0x9409e33e, 0x24641522)
  {
    hide W;
    Next(m, 32, 0x702138a4, 0xb73679a2, 0x000f0000, 0x61626380, 0x93f5997f);
    Next(m, 33, 0xd3b7973b, 0xe5bc3909, 0x7da86405, 0x000f0000, 0x3b68ba73);
    Next(m, 34, 0x93f5997f, 0x32663c5b, 0x600003c6, 0x7da86405, 0xaff4ffc1);
    Next(m, 35, 0x3b68ba73, 0x9d209d67, 0x3e9d7b78, 0x600003c6, 0xf10a5c62);
    Next(m, 36, 0xaff4ffc1, 0xec8726cb, 0x0183fc00, 0x3e9d7b78, 0x0a8b3996);
    Next(m, 37, 0xf10a5c62, 0x702138a4, 0x12dcbfdb, 0x0183fc00, 0x72af830a);
    Next(m, 38, 0x0a8b3996, 0xd3b7973b, 0xe2e2c38e, 0x12dcbfdb, 0x9409e33e);
    Next(m, 39, 0x72af830a, 0x93f5997f, 0xc8215c1a, 0xe2e2c38e, 0x24641522);
  }

  lemma Words40(m: Block)
    requires Eight(m, 24, 0xc8215c1a, 0xb73679a2, 0xe5bc3909, 0x32663c5b, 0x9d209d67, 0xec8726cb, 0x702138a4, 0xd3b7973b)
    requires Eight(m, 32, 0x93f5997f, 0x3b68ba73, 0xaff4ffc1, 0xf10a5c62, 0x0a8b3996, 0x72af830a, 0x9409e33e, 0x24641522)
    ensures Eight(m, 40, 0x9f47bf94, 0xf0a64f5a, 0x3e246a79, 0x27333ba3, 0x0c4763f2, 0x840abf27, 0x7a290d5d, 0x065c43da)
  {
    hide W;
    Next(m, 40, 0x9409e33e, 0x3b68ba73, 0xb73679a2, 0xc8215c1a, 0x9f47bf94);
    Next(m, 41, 0x24641522, 0xaff4ffc1, 0xe5bc3909, 0xb73679a2, 0xf0a64f5a);
    Next(m, 42, 0x9f47bf94, 0xf10a5c62, 0x32663c5b, 0xe5bc3909, 0x3e246a79);
    Next(m, 43, 0xf0a64f5a, 0x0a8b3996, 0x9d209d67, 0x32663c5b, 0x27333ba3);
    Next(m, 44, 0x3e246a79, 0x72af830a, 0xec8726cb, 0x9d209d67, 0x0c4763f2);
    Next(m, 45, 0x27333ba3, 0x9409e33e, 0x702138a4, 0xec8726cb, 0x840abf27);
    Next(m, 46, 0x0c4763f2, 0x24641522, 0xd3b7973b, 0x702138a4, 0x7a290d5d);
    Next(m, 47, 0x840abf27, 0x9f47bf94, 0x93f5997f, 0xd3b7973b, 0x065c43da);
  }

  lemma Words48(m: Block)
    requires Eight(m, 32, 0x93f5997f, 0x3b68ba73, 0xaff4ffc1, 0xf10a5c62, 0x0a8b3996, 0x72af830a, 0x9409e33e, 0x24641522)
    requires Eight(m, 40, 0x9f47bf94, 0xf0a64f5a, 0x3e246a79, 0x27333ba3, 0x0c4763f2, 0x840abf27, 0x7a290d5d, 0x065c43da)
    ensures Eight(m, 48, 0xfb3e89cb, 0xcc7617db, 0xb9e66c34, 0xa9993667, 0x84badedd, 0xc21462bc, 0x1487472c, 0xb20f7a99)
  {
    hide W;
    Next(m, 48, 0x7a290d5d, 0xf0a64f5a, 0x3b68ba73, 0x93f5997f, 0xfb3e89cb);
    Next(m, 49, 0x065c43da, 0x3e246a79, 0xaff4ffc1, 0x3b68ba73, 0xcc7617db);
    Next(m, 50, 0xfb3e89cb, 0x27333ba3, 0xf10a5c62, 0xaff4ffc1, 0xb9e66c34);
    Next(m, 51, 0xcc7617db, 0x0c4763f2, 0x0a8b3996, 0xf10a5c62, 0xa9993667);
    Next(m, 52, 0xb9e66c34, 0x840abf27, 0x72af830a, 0x0a8b3996, 0x84badedd);
    Next(m, 53, 0xa9993667, 0x7a290d5d, 0x9409e33e, 0x72af830a, 0xc21462bc);
    Next(m, 54, 0x84badedd, 0x065c43da, 0x24641522, 0x9409e33e, 0x1487472c);
    Next(m, 55, 0xc21462bc, 0xfb3e89cb, 0x9f47bf94, 0x24641522, 0xb20f7a99);
  }

  lemma Words56(m: Block)
    requires Eight(m, 40, 0x9f47bf94, 0xf0a64f5a, 0x3e246a79, 0x27333ba3, 0x0c4763f2, 0x840abf27, 0x7a290d5d, 0x065c43da)
    requires Eight(m, 48, 0xfb3e89cb, 0xcc7617db, 0xb9e66c34, 0xa9993667, 0x84badedd, 0xc21462bc, 0x1487472c, 0xb20f7a99)
    ensures Eight(m, 56, 0xef57b9cd, 0xebe6b238, 0x9fe3095e, 0x78bc8d4b, 0xa43fcf15, 0x668b2ff8, 0xeeaba2cc, 0x12b1edeb)
  {
    hide W;
    Next(m, 56, 0x1487472c, 0xcc7617db, 0xf0a64f5a, 0x9f47bf94, 0xef57b9cd);
    Next(m, 57, 0xb20f7a99, 0xb9e66c34, 0x3e246a79, 0xf0a64f5a, 0xebe6b238);
    Next(m, 58, 0xef57b9cd, 0xa9993667, 0x27333ba3, 0x3e246a79, 0x9fe3095e);
    Next(m, 59, 0xebe6b238, 0x84badedd, 0x0c4763f2, 0x27333ba3, 0x78bc8d4b);
    Next(m, 60, 0x9fe3095e, 0xc21462bc, 0x840abf27, 0x0c4763f2, 0xa43fcf15);
    Next(m, 61, 0x78bc8d4b, 0x1487472c, 0x7a290d5d, 0x840abf27, 0x668b2ff8);
    Next(m, 62, 0xa43fcf15, 0xb20f7a99, 0x065c43da, 0x7a290d5d, 0xeeaba2cc);
    Next(m, 63, 0x668b2ff8, 0xef57b9cd, 0xfb3e89cb, 0x065c43da, 0x12b1edeb);
  }

  // ---- The rounds ----

  function R(m: Block, t: nat): State
    requires t <= 64
  {
    Rounds(INITIAL, Schedule(m, 64), t)
  }

  lemma Turn(m: Block, t: nat, s: State, k: Uint32, x: Uint32, a: Uint32, e: Uint32) returns (n: State)
    requires t < 64 && R(m, t) == s && K(t) == k && W(m, t) == x && Round(s, k, x) == State(a, s.a, s.b, s.c, e, s.e, s.f, s.g)
    ensures n == State(a, s.a, s.b, s.c, e, s.e, s.f, s.g) && R(m, t + 1) == n
  {
    hide Round;
    hide Schedule;
    hide K;
    n := State(a, s.a, s.b, s.c, e, s.e, s.f, s.g);
  }

  lemma Rounds0(m: Block)
    requires R(m, 0) == State(0x6a09e667, 0xbb67ae85, 0x3c6ef372, 0xa54ff53a, 0x510e527f, 0x9b05688c, 0x1f83d9ab, 0x5be0cd19)
    requires Eight(m, 0, 0x61626380, 0x00000000, 0x00000000, 0x00000000, 0x00000000, 0x00000000, 0x00000000, 0x00000000)
    ensures R(m, 4) == State(0xd550f666, 0xc8c347a7, 0x5a6ad9ad, 0x5d6aebcd, 0x24e00850, 0xf92939eb, 0x78ce7989, 0xfa2a4622)
  {
    hide W;
    hide R;
    var s := R(m, 0);
    s := Turn(m, 0, s, 0x428a2f98, 0x61626380, 0x5d6aebcd, 0xfa2a4622);
    s := Turn(m, 1, s, 0x71374491, 0x00000000, 0x5a6ad9ad, 0x78ce7989);
    s := Turn(m, 2, s, 0xb5c0fbcf, 0x00000000, 0xc8c347a7, 0xf92939eb);
    s := Turn(m, 3, s, 0xe9b5dba5, 0x00000000, 0xd550f666, 0x24e00850);
  }

  lemma Rounds4(m: Block)
    requires R(m, 4) == State(0xd550f666, 0xc8c347a7, 0x5a6ad9ad, 0x5d6aebcd, 0x24e00850, 0xf92939eb, 0x78ce7989, 0xfa2a4622)
    requires Eight(m, 0, 0x61626380, 0x00000000, 0x00000000, 0x00000000, 0x00000000, 0x00000000, 0x00000000, 0x00000000)
    ensures R(m, 8) == State(0x85a07b5f, 0xe5030380, 0x2b4209f5, 0x04409a6a, 0x0c657a79, 0x9b27a401, 0x714260ad, 0x43ada245)
  {
    hide W;
    hide R;
    var s := R(m, 4);
    s := Turn(m, 4, s, 0x3956c25b, 0x00000000, 0x04409a6a, 0x43ada245);
    s := Turn(m, 5, s, 0x59f111f1, 0x00000000, 0x2b4209f5, 0x714260ad);
    s := Turn(m, 6, s, 0x923f82a4, 0x00000000, 0xe5030380, 0x9b27a401);
    s := Turn(m, 7, s, 0xab1c5ed5, 0x00000000, 0x85a07b5f, 0x0c657a79);
  }

  lemma Rounds8(m: Block)
    requires R(m, 8) == State(0x85a07b5f, 0xe5030380, 0x2b4209f5, 0x04409a6a, 0x0c657a79, 0x9b27a401, 0x714260ad, 0x43ada245)
    requires Eight(m, 8, 0x00000000, 0x00000000, 0x00000000, 0x00000000, 0x00000000, 0x00000000, 0x00000000, 0x00000018)
    ensures R(m, 12) == State(0xf71fc5a9, 0x4798a3f4, 0x8c87346b, 0x8e04ecb9, 0x816fd6e9, 0x436b23e8, 0x1cc92596, 0x32ca2d8c)
  {
    hide W;
    hide R;
    var s := R(m, 8);
    s := Turn(m, 8, s, 0xd807aa98, 0x00000000, 0x8e04ecb9, 0x32ca2d8c);
    s := Turn(m, 9, s, 0x12835b01, 0x00000000, 0x8c87346b, 0x1cc92596);
    s := Turn(m, 10, s, 0x243185be, 0x00000000, 0x4798a3f4, 0x436b23e8);
    s := Turn(m, 11, s, 0x550c7dc3, 0x00000000, 0xf71fc5a9, 0x816fd6e9);
  }

  lemma Rounds12(m: Block)
    requires R(m, 12) == State(0xf71fc5a9, 0x4798a3f4, 0x8c87346b, 0x8e04ecb9, 0x816fd6e9, 0x436b23e8, 0x1cc92596, 0x32ca2d8c)
    requires Eight(m, 8, 0x00000000, 0x00000000, 0x00000000, 0x00000000, 0x00000000, 0x00000000, 0x00000000, 0x00000018)
    ensures R(m, 16) == State(0xb0fa238e, 0xc0645fde, 0xd932eb16, 0x87912990, 0x07590dcd, 0x0b92f20c, 0x745a48de, 0x1e578218)
  {
    hide W;
    hide R;
    var s := R(m, 12);
    s := Turn(m, 12, s, 0x72be5d74, 0x00000000, 0x87912990, 0x1e578218);
    s := Turn(m, 13, s, 0x80deb1fe, 0x00000000, 0xd932eb16, 0x745a48de);
    s := Turn(m, 14, s, 0x9bdc06a7, 0x00000000, 0xc0645fde, 0x0b92f20c);
    s := Turn(m, 15, s, 0xc19bf174, 0x00000018, 0xb0fa238e, 0x07590dcd);
  }

  lemma Rounds16(m: Block)
    requires R(m, 16) == State(0xb0fa238e, 0xc0645fde, 0xd932eb16, 0x87912990, 0x07590dcd, 0x0b92f20c, 0x745a48de, 0x1e578218)
    requires Eight(m, 16, 0x61626380, 0x000f0000, 0x7da86405, 0x600003c6, 0x3e9d7b78, 0x0183fc00, 0x12dcbfdb, 0xe2e2c38e)
    ensures R(m, 20) == State(0xe1f20c33, 0xfe777bbf, 0xc2fbd9d1, 0x21da9a9b, 0xb0638179, 0xcc899961, 0x846ee454, 0x8034229c)
  {
    hide W;
    hide R;
    var s := R(m, 16);
    s := Turn(m, 16, s, 0xe49b69c1, 0x61626380, 0x21da9a9b, 0x8034229c);
    s := Turn(m, 17, s, 0xefbe4786, 0x000f0000, 0xc2fbd9d1, 0x846ee454);
    s := Turn(m, 18, s, 0x0fc19dc6, 0x7da86405, 0xfe777bbf, 0xcc899961);
    s := Turn(m, 19, s, 0x240ca1cc, 0x600003c6, 0xe1f20c33, 0xb0638179);
  }

  lemma Rounds20(m: Block)
    requires R(m, 20) == State(0xe1f20c33, 0xfe777bbf, 0xc2fbd9d1, 0x21da9a9b, 0xb0638179, 0xcc899961, 0x846ee454, 0x8034229c)
    requires Eight(m, 16, 0x61626380, 0x000f0000, 0x7da86405, 0x600003c6, 0x3e9d7b78, 0x0183fc00, 0x12dcbfdb, 0xe2e2c38e)
    ensures R(m, 24) == State(0xc5d53d8d, 0xa7a3623f, 0xc2606d6d, 0x9dc68b63, 0xaa47c347, 0x49f5114a, 0xe1257970, 0x8ada8930)
  {
    hide W;
    hide R;
    var s := R(m, 20);
    s := Turn(m, 20, s, 0x2de92c6f, 0x3e9d7b78, 0x9dc68b63, 0x8ada8930);
    s := Turn(m, 21, s, 0x4a7484aa, 0x0183fc00, 0xc2606d6d, 0xe1257970);
    s := Turn(m, 22, s, 0x5cb0a9dc, 0x12dcbfdb, 0xa7a3623f, 0x49f5114a);
    s := Turn(m, 23, s, 0x76f988da, 0xe2e2c38e, 0xc5d53d8d, 0xaa47c347);
  }

  lemma Rounds24(m: Block)
    requires R(m, 24) == State(0xc5d53d8d, 0xa7a3623f, 0xc2606d6d, 0x9dc68b63, 0xaa47c347, 0x49f5114a, 0xe1257970, 0x8ada8930)
    requires Eight(m, 24, 0xc8215c1a, 0xb73679a2, 0xe5bc3909, 0x32663c5b, 0x9d209d67, 0xec8726cb, 0x702138a4, 0xd3b7973b)
    ensures R(m, 28) == State(0x77d37528, 0xb62ec4bc, 0xcde8037d, 0x1c2c2838, 0xedffbff8, 0xc74c6516, 0x14383d8e, 0x2823ef91)
  {
    hide W;
    hide R;
    var s := R(m, 24);
    s := Turn(m, 24, s, 0x983e5152, 0xc8215c1a, 0x1c2c2838, 0x2823ef91);
    s := Turn(m, 25, s, 0xa831c66d, 0xb73679a2, 0xcde8037d, 0x14383d8e);
    s := Turn(m, 26, s, 0xb00327c8, 0xe5bc3909, 0xb62ec4bc, 0xc74c6516);
    s := Turn(m, 27, s, 0xbf597fc7, 0x32663c5b, 0x77d37528, 0xedffbff8);
  }

  lemma Rounds28(m: Block)
    requires R(m, 28) == State(0x77d37528, 0xb62ec4bc, 0xcde8037d, 0x1c2c2838, 0xedffbff8, 0xc74c6516, 0x14383d8e, 0x2823ef91)
    requires Eight(m, 24, 0xc8215c1a, 0xb73679a2, 0xe5bc3909, 0x32663c5b, 0x9d209d67, 0xec8726cb, 0x702138a4, 0xd3b7973b)
    ensures R(m, 32) == State(0x73b33bf5, 0xea992a22, 0xa0060b30, 0x363482c9, 0xba591112, 0x0109ab3a, 0xade79437, 0x6112a3b7)
  {
    hide W;
    hide R;
    var s := R(m, 28);
    s := Turn(m, 28, s, 0xc6e00bf3, 0x9d209d67, 0x363482c9, 0x6112a3b7);
    s := Turn(m, 29, s, 0xd5a79147, 0xec8726cb, 0xa0060b30, 0xade79437);
    s := Turn(m, 30, s, 0x06ca6351, 0x702138a4, 0xea992a22, 0x0109ab3a);
    s := Turn(m, 31, s, 0x14292967, 0xd3b7973b, 0x73b33bf5, 0xba591112);
  }

  lemma Rounds32(m: Block)
    requires R(m, 32) == State(0x73b33bf5, 0xea992a22, 0xa0060b30, 0x363482c9, 0xba591112, 0x0109ab3a, 0xade79437, 0x6112a3b7)
    requires Eight(m, 32, 0x93f5997f, 0x3b68ba73, 0xaff4ffc1, 0xf10a5c62, 0x0a8b3996, 0x72af830a, 0x9409e33e, 0x24641522)
    ensures R(m, 36) == State(0x65a0cfe4, 0xa9a7738c, 0xfe604df5, 0x98e12507, 0xf4b002d6, 0x085f3833, 0x59249dd3, 0x9cd9f5f6)
  {
    hide W;
    hide R;
    var s := R(m, 32);
    s := Turn(m, 32, s, 0x27b70a85, 0x93f5997f, 0x98e12507, 0x9cd9f5f6);
    s := Turn(m, 33, s, 0x2e1b2138, 0x3b68ba73, 0xfe604df5, 0x59249dd3);
    s := Turn(m, 34, s, 0x4d2c6dfc, 0xaff4ffc1, 0xa9a7738c, 0x085f3833);
    s := Turn(m, 35, s, 0x53380d13, 0xf10a5c62, 0x65a0cfe4, 0xf4b002d6);
  }

  lemma Rounds36(m: Block)
    requires R(m, 36) == State(0x65a0cfe4, 0xa9a7738c, 0xfe604df5, 0x98e12507, 0xf4b002d6, 0x085f3833, 0x59249dd3, 0x9cd9f5f6)
    requires Eight(m, 32, 0x93f5997f, 0x3b68ba73, 0xaff4ffc1, 0xf10a5c62, 0x0a8b3996, 0x72af830a, 0x9409e33e, 0x24641522)
    ensures R(m, 40) == State(0x79ea687a, 0x6dc57a8a, 0x34df1604, 0x41a65cb1, 0x1efbc0a0, 0xf0781bc8, 0xa507a53d, 0x0772a26b)
  {
    hide W;
    hide R;
    var s := R(m, 36);
    s := Turn(m, 36, s, 0x650a7354, 0x0a8b3996, 0x41a65cb1, 0x0772a26b);
    s := Turn(m, 37, s, 0x766a0abb, 0x72af830a, 0x34df1604, 0xa507a53d);
    s := Turn(m, 38, s, 0x81c2c92e, 0x9409e33e, 0x6dc57a8a, 0xf0781bc8);
    s := Turn(m, 39, s, 0x92722c85, 0x24641522, 0x79ea687a, 0x1efbc0a0);
  }

  lemma Rounds40(m: Block)
    requires R(m, 40) == State(0x79ea687a, 0x6dc57a8a, 0x34df1604, 0x41a65cb1, 0x1efbc0a0, 0xf0781bc8, 0xa507a53d, 0x0772a26b)
    requires Eight(m, 40, 0x9f47bf94, 0xf0a64f5a, 0x3e246a79, 0x27333ba3, 0x0c4763f2, 0x840abf27, 0x7a290d5d, 0x065c43da)
    ensures R(m, 44) == State(0x9d4baf93, 0x17aa0dfe, 0xdf46652f, 0xd6670766, 0xfda24c2e, 0xdecd4715, 0x838b2711, 0x26352d63)
  {
    hide W;
    hide R;
    var s := R(m, 40);
    s := Turn(m, 40, s, 0xa2bfe8a1, 0x9f47bf94, 0xd6670766, 0x26352d63);
    s := Turn(m, 41, s, 0xa81a664b, 0xf0a64f5a, 0xdf46652f, 0x838b2711);
    s := Turn(m, 42, s, 0xc24b8b70, 0x3e246a79, 0x17aa0dfe, 0xdecd4715);
    s := Turn(m, 43, s, 0xc76c51a3, 0x27333ba3, 0x9d4baf93, 0xfda24c2e);
  }

  lemma Rounds44(m: Block)
    requires R(m, 44) == State(0x9d4baf93, 0x17aa0dfe, 0xdf46652f, 0xd6670766, 0xfda24c2e, 0xdecd4715, 0x838b2711, 0x26352d63)
    requires Eight(m, 40, 0x9f47bf94, 0xf0a64f5a, 0x3e246a79, 0x27333ba3, 0x0c4763f2, 0x840abf27, 0x7a290d5d, 0x065c43da)
    ensures R(m, 48) == State(0x4172328d, 0xa14c14b0, 0x72ab4b91, 0x26628815, 0xfecf0bc6, 0xd57b94a9, 0xb7755da1, 0xa80f11f0)
  {
    hide W;
    hide R;
    var s := R(m, 44);
    s := Turn(m, 44, s, 0xd192e819, 0x0c4763f2, 0x26628815, 0xa80f11f0);
    s := Turn(m, 45, s, 0xd6990624, 0x840abf27, 0x72ab4b91, 0xb7755da1);
    s := Turn(m, 46, s, 0xf40e3585, 0x7a290d5d, 0xa14c14b0, 0xd57b94a9);
    s := Turn(m, 47, s, 0x106aa070, 0x065c43da, 0x4172328d, 0xfecf0bc6);
  }

  lemma Rounds48(m: Block)
    requires R(m, 48) == State(0x4172328d, 0xa14c14b0, 0x72ab4b91, 0x26628815, 0xfecf0bc6, 0xd57b94a9, 0xb7755da1, 0xa80f11f0)
    requires Eight(m, 48, 0xfb3e89cb, 0xcc7617db, 0xb9e66c34, 0xa9993667, 0x84badedd, 0xc21462bc, 0x1487472c, 0xb20f7a99)
    ensures R(m, 52) == State(0x886e7a22, 0x7a0508a1, 0xf11bfaa8, 0x05757ceb, 0x49231c1e, 0x52f1ccf7, 0x6e5c390c, 0xbd714038)
  {
    hide W;
    hide R;
    var s := R(m, 48);
    s := Turn(m, 48, s, 0x19a4c116, 0xfb3e89cb, 0x05757ceb, 0xbd714038);
    s := Turn(m, 49, s, 0x1e376c08, 0xcc7617db, 0xf11bfaa8, 0x6e5c390c);
    s := Turn(m, 50, s, 0x2748774c, 0xb9e66c34, 0x7a0508a1, 0x52f1ccf7);
    s := Turn(m, 51, s, 0x34b0bcb5, 0xa9993667, 0x886e7a22, 0x49231c1e);
  }

  lemma Rounds52(m: Block)
    requires R(m, 52) == State(0x886e7a22, 0x7a0508a1, 0xf11bfaa8, 0x05757ceb, 0x49231c1e, 0x52f1ccf7, 0x6e5c390c, 0xbd714038)
    requires Eight(m, 48, 0xfb3e89cb, 0xcc7617db, 0xb9e66c34, 0xa9993667, 0x84badedd, 0xc21462bc, 0x1487472c, 0xb20f7a99)
    ensures R(m, 56) == State(0x38cc9913, 0x3ec45cdb, 0xf5702fdb, 0x101fd28f, 0x54cb266b, 0xe50e1b4f, 0x9f4787c3, 0x529e7d00)
  {
    hide W;
    hide R;
    var s := R(m, 52);
    s := Turn(m, 52, s, 0x391c0cb3, 0x84badedd, 0x101fd28f, 0x529e7d00);
    s := Turn(m, 53, s, 0x4ed8aa4a, 0xc21462bc, 0xf5702fdb, 0x9f4787c3);
    s := Turn(m, 54, s, 0x5b9cca4f, 0x1487472c, 0x3ec45cdb, 0xe50e1b4f);
    s := Turn(m, 55, s, 0x682e6ff3, 0xb20f7a99, 0x38cc9913, 0x54cb266b);
  }

  lemma Rounds56(m: Block)
    requires R(m, 56) == State(0x38cc9913, 0x3ec45cdb, 0xf5702fdb, 0x101fd28f, 0x54cb266b, 0xe50e1b4f, 0x9f4787c3, 0x529e7d00)
    requires Eight(m, 56, 0xef57b9cd, 0xebe6b238, 0x9fe3095e, 0x78bc8d4b, 0xa43fcf15, 0x668b2ff8, 0xeeaba2cc, 0x12b1edeb)
    ensures R(m, 60) == State(0xb6ae8fff, 0xffb70472, 0xc062d46f, 0xfcd1887b, 0xb21bad3d, 0x6d83bfc6, 0x7e44008e, 0x9b5e906c)
  {
    hide W;
    hide R;
    var s := R(m, 56);
    s := Turn(m, 56, s, 0x748f82ee, 0xef57b9cd, 0xfcd1887b, 0x9b5e906c);
    s := Turn(m, 57, s, 0x78a5636f, 0xebe6b238, 0xc062d46f, 0x7e44008e);
    s := Turn(m, 58, s, 0x84c87814, 0x9fe3095e, 0xffb70472, 0x6d83bfc6);
    s := Turn(m, 59, s, 0x8cc70208, 0x78bc8d4b, 0xb6ae8fff, 0xb21bad3d);
  }

  lemma Rounds60(m: Block)
    requires R(m, 60) == State(0xb6ae8fff, 0xffb70472, 0xc062d46f, 0xfcd1887b, 0xb21bad3d, 0x6d83bfc6, 0x7e44008e, 0x9b5e906c)
    requires Eight(m, 56, 0xef57b9cd, 0xebe6b238, 0x9fe3095e, 0x78bc8d4b, 0xa43fcf15, 0x668b2ff8, 0xeeaba2cc, 0x12b1edeb)
    ensures R(m, 64) == State(0x506e3058, 0xd39a2165, 0x04d24d6c, 0xb85e2ce9, 0x5ef50f24, 0xfb121210, 0x948d25b6, 0x961f4894)
  {
    hide W;
    hide R;
    var s := R(m, 60);
    s := Turn(m, 60, s, 0x90befffa, 0xa43fcf15, 0xb85e2ce9, 0x961f4894);
    s := Turn(m, 61, s, 0xa4506ceb, 0x668b2ff8, 0x04d24d6c, 0x948d25b6);
    s := Turn(m, 62, s, 0xbef9a3f7, 0xeeaba2cc, 0xd39a2165, 0xfb121210);
    s := Turn(m, 63, s, 0xc67178f2, 0x12b1edeb, 0x506e3058, 0x5ef50f24);
  }

  lemma AllRounds(m: Block)
    requires m == Pad(MESSAGE)
    ensures R(m, 64) == State(0x506e3058, 0xd39a2165, 0x04d24d6c, 0xb85e2ce9, 0x5ef50f24, 0xfb121210, 0x948d25b6, 0x961f4894)
  {
    assert R(m, 0) == INITIAL;
    hide R;
    hide Eight;
    hide Pad;
    Words0(m);
    Words16(m);
    Words24(m);
    Words32(m);
    Words40(m);
    Words48(m);
    Words56(m);
    Rounds0(m);
    Rounds4(m);
    Rounds8(m);
    Rounds12(m);
    Rounds16(m);
    Rounds20(m);
    Rounds24(m);
    Rounds28(m);
    Rounds32(m);
    Rounds36(m);
    Rounds40(m);
    Rounds44(m);
    Rounds48(m);
    Rounds52(m);
    Rounds56(m);
    Rounds60(m);
  }

  // ---- The digest ----

  lemma LastAddition()
    ensures Add(INITIAL,
                State(0x506e3058, 0xd39a2165, 0x04d24d6c, 0xb85e2ce9, 0x5ef50f24, 0xfb121210, 0x948d25b6, 0x961f4894)) ==
            State(0xba7816bf, 0x8f01cfea, 0x414140de, 0x5dae2223, 0xb00361a3, 0x96177a9c, 0xb410ff61, 0xf20015ad)
  {
  }

  lemma HashIs()
    ensures Hash(MESSAGE) == State(0xba7816bf, 0x8f01cfea, 0x414140de, 0x5dae2223, 0xb00361a3, 0x96177a9c, 0xb410ff61, 0xf20015ad)
  {
    hide Pad;
    hide Rounds;
    hide Schedule;
    hide Add;
    BlockBytes();
    var m: Block := Pad(MESSAGE);
    AllRounds(m);
    LastAddition();
    OneBlock(INITIAL, m);
  }

  /** The last `k` hexadecimal digits of a number. */
  function Digits(n: nat, k: nat): string
  {
    if k == 0 then "" else Digits(n / 16, k - 1) + ["0123456789abcdef"[n % 16]]
  }

  lemma {:induction false} ZeroDigits(k: nat)
    ensures Digits(0, k) == seq(k, _ => '0')
  {
    if k > 0 { ZeroDigits(k - 1); }
  }

  lemma LastDigit(n: nat, k: nat)
    requires k > 0 && n < 16
    ensures Digits(n, k) == Digits(0, k - 1) + ["0123456789abcdef"[n]]
  {
    assert n / 16 == 0 && n % 16 == n;
  }

  lemma OneDigit(n: nat, k: nat)
    requires k > 0 && n < 16
    ensures Hex.PadStart(Hex.ToString16(n), k) == Digits(n, k)
  {
    hide Digits;
    ZeroDigits(k - 1);
    LastDigit(n, k);
  }

  lemma PadLonger(n: nat, k: nat)
    requires k > 0 && 16 <= n && |Hex.ToString16(n / 16)| <= k - 1
    ensures Hex.PadStart(Hex.ToString16(n), k) == Hex.PadStart(Hex.ToString16(n / 16), k - 1) + ["0123456789abcdef"[n % 16]]
  {
  }

  lemma {:induction false} PaddedIsDigits(n: nat, k: nat)
    requires k > 0 && n < Hex.Pow16(k)
    ensures Hex.PadStart(Hex.ToString16(n), k) == Digits(n, k)
  {
    hide Hex.PadStart;
    hide Hex.ToString16;
    if n < 16 {
      OneDigit(n, k);
    } else {
      PaddedIsDigits(n / 16, k - 1);
      Hex.LengthOfToString(n / 16, k - 1);
      PadLonger(n, k);
    }
  }

  /** A word as the client writes it. */
  function Text(x: Uint32): string { Hex.PadStart(Hex.ToString16(x as int), 8) }

  lemma EightDigitsFit()
    ensures Hex.Pow16(8) == 0x1_0000_0000
  {
    assert Hex.Pow16(2) == 0x100 && Hex.Pow16(4) == 0x1_0000 && Hex.Pow16(6) == 0x100_0000;
  }

  lemma TextIs(x: Uint32, n: nat)
    requires x as int == n
    ensures Text(x) == Digits(n, 8)
  {
    EightDigitsFit();
    PaddedIsDigits(n, 8);
  }

  lemma HexNext(s: seq<Uint32>, n: nat)
    requires n < |s|
    ensures HexState(s[..n + 1]) == HexState(s[..n]) + Text(s[n])
  {
    assert s[..n + 1][..n] == s[..n];
  }

  lemma FourTexts(w: seq<Uint32>, n: nat)
    requires n + 4 <= |w|
    ensures HexState(w[..n + 4]) == HexState(w[..n]) + Text(w[n]) + Text(w[n + 1]) + Text(w[n + 2]) + Text(w[n + 3])
  {
    hide Text;
    hide HexState;
    HexNext(w, n);
    HexNext(w, n + 1);
    HexNext(w, n + 2);
    HexNext(w, n + 3);
  }

  lemma NoText(w: seq<Uint32>)
    ensures HexState(w[..0]) == ""
  {
  }

  lemma FirstTexts(w: seq<Uint32>)
    requires |w| >= 4
    ensures HexState(w[..4]) == Text(w[0]) + Text(w[1]) + Text(w[2]) + Text(w[3])
  {
    hide Text;
    hide HexState;
    NoText(w);
    FourTexts(w, 0);
    assert "" + Text(w[0]) == Text(w[0]);
  }

  lemma EightTexts(w: seq<Uint32>)
    requires |w| == 8
    ensures HexState(w) == Text(w[0]) + Text(w[1]) + Text(w[2]) + Text(w[3]) + Text(w[4]) + Text(w[5]) + Text(w[6]) + Text(w[7])
  {
    hide Text;
    hide HexState;
    FirstTexts(w);
    FourTexts(w, 4);
    assert w[..8] == w;
  }

  /** The digest of "abc" that the example publishes. */
  lemma AbcDigest()
    ensures HexDigest(MESSAGE) ==
            Digits(0xba7816bf, 8) + Digits(0x8f01cfea, 8) + Digits(0x414140de, 8) + Digits(0x5dae2223, 8) +
            Digits(0xb00361a3, 8) + Digits(0x96177a9c, 8) + Digits(0xb410ff61, 8) + Digits(0xf20015ad, 8)
  {
    hide Hash;
    hide HexState;
    hide Text;
    hide Digits;
    HashIs();
    EightTexts(WordsOf(Hash(MESSAGE)));
    TextIs(0xba7816bf, 0xba7816bf);
    TextIs(0x8f01cfea, 0x8f01cfea);
    TextIs(0x414140de, 0x414140de);
    TextIs(0x5dae2223, 0x5dae2223);
    TextIs(0xb00361a3, 0xb00361a3);
    TextIs(0x96177a9c, 0x96177a9c);
    TextIs(0xb410ff61, 0xb410ff61);
    TextIs(0xf20015ad, 0xf20015ad);
  }
}
