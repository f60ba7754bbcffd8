/** A published test vector of SHA-256 (FIPS 180-4): a message of 56 bytes, which takes two blocks. The schedule and the
    rounds are followed eight at a time. */
module Sha256Vectors {
  import opened Types
  import opened Sha256

  /** "abcdbcdecdefdefgefghfghighijhijkijkljklmklmnlmnomnopnopq" */
  const MESSAGE: Bytes := seq(56, i requires 0 <= i < 56 => 97 + i / 4 + i % 4)

  // ----- eight rounds at a time -----

  datatype Row = Row(w0: Word, w1: Word, w2: Word, w3: Word, w4: Word, w5: Word, w6: Word, w7: Word)

  /** Before rounds 8r .. 8r+7: the schedule words of these rounds, those of the next eight, and the working variables. */
  datatype Stage = Stage(p: Row, q: Row, v: Working)

  function NextWord(w16: Word, w15: Word, w7: Word, w2: Word): Word {
    Add(Add(Add(w16, SmallSigma0(w15)), w7), SmallSigma1(w2))
  }

  function NextRow(p: Row, q: Row): Row {
    var a0 := NextWord(p.w0, p.w1, q.w1, q.w6);
    var a1 := NextWord(p.w1, p.w2, q.w2, q.w7);
    var a2 := NextWord(p.w2, p.w3, q.w3, a0);
    var a3 := NextWord(p.w3, p.w4, q.w4, a1);
    var a4 := NextWord(p.w4, p.w5, q.w5, a2);
    var a5 := NextWord(p.w5, p.w6, q.w6, a3);
    var a6 := NextWord(p.w6, p.w7, q.w7, a4);
    Row(a0, a1, a2, a3, a4, a5, a6, NextWord(p.w7, q.w0, a0, a5))
  }

  function Eight(v: Working, k: seq<Word>, w: Row): Working
    requires |k| == 8
  {
    var four := Round(Round(Round(Round(v, k[0], w.w0), k[1], w.w1), k[2], w.w2), k[3], w.w3);
    Round(Round(Round(Round(four, k[4], w.w4), k[5], w.w5), k[6], w.w6), k[7], w.w7)
  }

  function Next(s: Stage, k: seq<Word>): Stage
    requires |k| == 8
  {
    Stage(s.q, NextRow(s.p, s.q), Eight(s.v, k, s.p))
  }

  predicate IsRow(block: Bytes, r: nat, w: Row)
    requires |block| == 64 && r < 8
  {
    && Schedule(block, 8 * r) == w.w0 && Schedule(block, 8 * r + 1) == w.w1
    && Schedule(block, 8 * r + 2) == w.w2 && Schedule(block, 8 * r + 3) == w.w3
    && Schedule(block, 8 * r + 4) == w.w4 && Schedule(block, 8 * r + 5) == w.w5
    && Schedule(block, 8 * r + 6) == w.w6 && Schedule(block, 8 * r + 7) == w.w7
  }

  predicate AtStage(block: Bytes, start: Working, r: nat, s: Stage)
    requires |block| == 64 && r <= 8
  {
    && Rounds(start, block, 8 * r) == s.v
    && (r < 8 ==> IsRow(block, r, s.p))
    && (r < 7 ==> IsRow(block, r + 1, s.q))
  }

  lemma NextRowMeans(block: Bytes, r: nat, p: Row, q: Row)
    requires |block| == 64 && r < 6 && IsRow(block, r, p) && IsRow(block, r + 1, q)
    ensures IsRow(block, r + 2, NextRow(p, q))
  {
    hide Add, WordAt, SmallSigma0, SmallSigma1, Schedule;
    forall t | 8 * r + 16 <= t < 8 * r + 24 { ScheduleWord(block, t); }
  }

  lemma OneRound(start: Working, block: Bytes, t: nat)
    requires |block| == 64 && t < 64
    ensures |K| == 64 && Rounds(start, block, t + 1) == Round(Rounds(start, block, t), K[t], Schedule(block, t))
  {
    hide Round, Schedule, K;
    KLength();
  }

  lemma EightMeans(block: Bytes, start: Working, r: nat, p: Row)
    requires |block| == 64 && r < 8 && IsRow(block, r, p)
    ensures |K| == 64 && Rounds(start, block, 8 * r + 8) == Eight(Rounds(start, block, 8 * r), K[8 * r..8 * r + 8], p)
  {
    hide Round, Rounds, Schedule, K;
    OneRound(start, block, 8 * r);
    OneRound(start, block, 8 * r + 1);
    OneRound(start, block, 8 * r + 2);
    OneRound(start, block, 8 * r + 3);
    OneRound(start, block, 8 * r + 4);
    OneRound(start, block, 8 * r + 5);
    OneRound(start, block, 8 * r + 6);
    OneRound(start, block, 8 * r + 7);
  }

  lemma NextMeans(block: Bytes, start: Working, r: nat, s: Stage, k: seq<Word>)
    requires |block| == 64 && r < 8 && AtStage(block, start, r, s) && |K| == 64 && k == K[8 * r..8 * r + 8]
    ensures AtStage(block, start, r + 1, Next(s, k))
  {
    hide Round, Rounds, NextRow, Eight, IsRow, Schedule, K;
    EightMeans(block, start, r, s.p);
    if r < 6 { NextRowMeans(block, r, s.p, s.q); }
  }

  lemma KRows()
    ensures |K| == 64
    ensures K[0..8] == K0 && K[8..16] == K1 && K[16..24] == K2 && K[24..32] == K3
    ensures K[32..40] == K4 && K[40..48] == K5 && K[48..56] == K6 && K[56..64] == K7
  {
    assert |K0| == |K1| == |K2| == |K3| == |K4| == |K5| == |K6| == |K7| == 8;
    hide K0, K1, K2, K3, K4, K5, K6, K7;
  }

  // ----- the first block -----

  const A0 := Stage(
    Row(0x61626364, 0x62636465, 0x63646566, 0x64656667, 0x65666768, 0x66676869, 0x6768696a, 0x68696a6b),
    Row(0x696a6b6c, 0x6a6b6c6d, 0x6b6c6d6e, 0x6c6d6e6f, 0x6d6e6f70, 0x6e6f7071, 0x80000000, 0x00000000),
    Working(0x6a09e667, 0xbb67ae85, 0x3c6ef372, 0xa54ff53a, 0x510e527f, 0x9b05688c, 0x1f83d9ab, 0x5be0cd19))
  const A1 := Stage(
    Row(0x696a6b6c, 0x6a6b6c6d, 0x6b6c6d6e, 0x6c6d6e6f, 0x6d6e6f70, 0x6e6f7071, 0x80000000, 0x00000000),
    Row(0xeb8012ad, 0xa7c3ae92, 0x76e93ba2, 0xba42e743, 0x92a92204, 0xd847e75e, 0x9e160036, 0xb280a7cb),
    Working(0xd237e6db, 0x485835b7, 0x55c8ef48, 0xf921c212, 0xa401d211, 0x39a5b2ca, 0x7ff91c94, 0x05c4f88a))
  const A2 := Stage(
    Row(0xeb8012ad, 0xa7c3ae92, 0x76e93ba2, 0xba42e743, 0x92a92204, 0xd847e75e, 0x9e160036, 0xb280a7cb),
    Row(0xddeb1516, 0xf36586f4, 0x969cd048, 0xe959d99d, 0x6accc0ec, 0xf54cb098, 0x2af1b2da, 0xee59c4c9),
    Working(0xc3486194, 0xdd16cbb3, 0xd68e6457, 0x101a4861, 0x1496a54f, 0x9162aded, 0x9243f8af, 0x839a0fc9))
  const A3 := Stage(
    Row(0xddeb1516, 0xf36586f4, 0x969cd048, 0xe959d99d, 0x6accc0ec, 0xf54cb098, 0x2af1b2da, 0xee59c4c9),
    Row(0xa835e16a, 0x1dff4429, 0xd6e15959, 0xc397cd6e, 0x6f1801ca, 0x21574205, 0x35ff7a84, 0x9743ee78),
    Working(0x59fce6b9, 0xae2e2d4f, 0x1b2b66b8, 0xd70ac17d, 0xa2c7d51d, 0xf074fc95, 0xd560b028, 0x7cc6b262))
  const A4 := Stage(
    Row(0xa835e16a, 0x1dff4429, 0xd6e15959, 0xc397cd6e, 0x6f1801ca, 0x21574205, 0x35ff7a84, 0x9743ee78),
    Row(0xe44183e7, 0x0d09f00d, 0x9c89af54, 0x042d5bef, 0x71f134d0, 0x0f94f463, 0x7e49dc63, 0x6f65c997),
    Working(0x5581ab07, 0xeb43f3ed, 0xdf7151a0, 0x74bcf468, 0xdf980085, 0x0635d880, 0x7629c961, 0x72abaecd))
  const A5 := Stage(
    Row(0xe44183e7, 0x0d09f00d, 0x9c89af54, 0x042d5bef, 0x71f134d0, 0x0f94f463, 0x7e49dc63, 0x6f65c997),
    Row(0x0b706583, 0x179312ca, 0x503054e9, 0xba125c39, 0x7e9392c9, 0xd5cbaa1e, 0x78e0585d, 0xf6e7611c),
    Working(0x7e4d30b8, 0x91ac9d5d, 0xa985b4be, 0x2c55d3a6, 0x9f5b9b6d, 0x68d8d590, 0xf72bf353, 0xb067c1af))
  const A6 := Stage(
    Row(0x0b706583, 0x179312ca, 0x503054e9, 0xba125c39, 0x7e9392c9, 0xd5cbaa1e, 0x78e0585d, 0xf6e7611c),
    Row(0x8ac830ce, 0x8b47a303, 0xfd6e627f, 0x8c6e2c6a, 0x4001adf1, 0x1a3dd097, 0xa9df6f62, 0x6aa60a39),
    Working(0x13d82741, 0x165be9cd, 0x18f0d19d, 0xde71e2f2, 0xa7802a4d, 0xa483f080, 0x6b88472c, 0xff61c636))
  const A7 := Stage(
    Row(0x8ac830ce, 0x8b47a303, 0xfd6e627f, 0x8c6e2c6a, 0x4001adf1, 0x1a3dd097, 0xa9df6f62, 0x6aa60a39),
    Row(0x439f402d, 0xa6dee506, 0x17da717a, 0x21bb450f, 0xdcfe7a4f, 0xedd3c93e, 0xd555ac6c, 0x5889b5b4),
    Working(0x9e57c4a0, 0xf907b313, 0x1d6de87a, 0xb8d55619, 0xeec13548, 0x61a41711, 0x3443bed4, 0x1c806a61))
  const A8 := Stage(
    Row(0x439f402d, 0xa6dee506, 0x17da717a, 0x21bb450f, 0xdcfe7a4f, 0xedd3c93e, 0xd555ac6c, 0x5889b5b4),
    Row(0x93f45536, 0x08658985, 0x0ed2c8ed, 0x615949fa, 0xc494106c, 0x891ea11d, 0x8983dcec, 0x062917d5),
    Working(0x1bdc6f6f, 0x86126910, 0xf6f443f8, 0xbcfce922, 0x25d2430a, 0x2fc08f85, 0xacc75916, 0x962d8621))

  lemma NextA0()
    ensures Next(A0, K0) == A1
  {
    var p, v := A0.p, A0.v;
    v := Round(v, 0x428a2f98, p.w0); assert v.a == 0x5d6aebb1 && v.e == 0xfa2a4606;
    v := Round(v, 0x71374491, p.w1); assert v.a == 0x2f2d5fcf && v.e == 0x4eb1cfce;
    v := Round(v, 0xb5c0fbcf, p.w2); assert v.a == 0x97651825 && v.e == 0x62d5c49e;
    v := Round(v, 0xe9b5dba5, p.w3); assert v.a == 0x4a8d64d5 && v.e == 0x6494841b;
    v := Round(v, 0x3956c25b, p.w4); assert v.a == 0xf921c212 && v.e == 0x05c4f88a;
    v := Round(v, 0x59f111f1, p.w5); assert v.a == 0x55c8ef48 && v.e == 0x7ff91c94;
    v := Round(v, 0x923f82a4, p.w6); assert v.a == 0x485835b7 && v.e == 0x39a5b2ca;
    v := Round(v, 0xab1c5ed5, p.w7); assert v.a == 0xd237e6db && v.e == 0xa401d211;
  }

  lemma NextA1()
    ensures Next(A1, K1) == A2
  {
    var p, v := A1.p, A1.v;
    v := Round(v, 0xd807aa98, p.w0); assert v.a == 0x359f2bce && v.e == 0xc09ffec4;
    v := Round(v, 0x12835b01, p.w1); assert v.a == 0x3a474b2b && v.e == 0x9037b3b8;
    v := Round(v, 0x243185be, p.w2); assert v.a == 0xb8e2b4cb && v.e == 0x443ed29e;
    v := Round(v, 0x550c7dc3, p.w3); assert v.a == 0x1762215c && v.e == 0xee1c97a8;
    v := Round(v, 0x72be5d74, p.w4); assert v.a == 0x101a4861 && v.e == 0x839a0fc9;
    v := Round(v, 0x80deb1fe, p.w5); assert v.a == 0xd68e6457 && v.e == 0x9243f8af;
    v := Round(v, 0x9bdc06a7, p.w6); assert v.a == 0xdd16cbb3 && v.e == 0x9162aded;
    v := Round(v, 0xc19bf174, p.w7); assert v.a == 0xc3486194 && v.e == 0x1496a54f;
  }

  lemma NextA2()
    ensures Next(A2, K2) == A3
  {
    var p, v := A2.p, A2.v;
    v := Round(v, 0xe49b69c1, p.w0); assert v.a == 0xb9dcacb1 && v.e == 0xd4f64250;
    v := Round(v, 0xefbe4786, p.w1); assert v.a == 0x046a193e && v.e == 0x885370b6;
    v := Round(v, 0x0fc19dc6, p.w2); assert v.a == 0xf402f058 && v.e == 0x6f433549;
    v := Round(v, 0x240ca1cc, p.w3); assert v.a == 0x2139187b && v.e == 0x7c304206;
    v := Round(v, 0x2de92c6f, p.w4); assert v.a == 0xd70ac17d && v.e == 0x7cc6b262;
    v := Round(v, 0x4a7484aa, p.w5); assert v.a == 0x1b2b66b8 && v.e == 0xd560b028;
    v := Round(v, 0x5cb0a9dc, p.w6); assert v.a == 0xae2e2d4f && v.e == 0xf074fc95;
    v := Round(v, 0x76f988da, p.w7); assert v.a == 0x59fce6b9 && v.e == 0xa2c7d51d;
  }

  lemma NextA3()
    ensures Next(A3, K3) == A4
  {
    var p, v := A3.p, A3.v;
    v := Round(v, 0x983e5152, p.w0); assert v.a == 0x4a885065 && v.e == 0x763597fb;
    v := Round(v, 0xa831c66d, p.w1); assert v.a == 0x573221da && v.e == 0x36e74eb4;
    v := Round(v, 0xb00327c8, p.w2); assert v.a == 0x128661da && v.e == 0x1162d575;
    v := Round(v, 0xbf597fc7, p.w3); assert v.a == 0x73f858af && v.e == 0xe77c797f;
    v := Round(v, 0xc6e00bf3, p.w4); assert v.a == 0x74bcf468 && v.e == 0x72abaecd;
    v := Round(v, 0xd5a79147, p.w5); assert v.a == 0xdf7151a0 && v.e == 0x7629c961;
    v := Round(v, 0x06ca6351, p.w6); assert v.a == 0xeb43f3ed && v.e == 0x0635d880;
    v := Round(v, 0x14292967, p.w7); assert v.a == 0x5581ab07 && v.e == 0xdf980085;
  }

  lemma NextA4()
    ensures Next(A4, K4) == A5
  {
    var p, v := A4.p, A4.v;
    v := Round(v, 0x27b70a85, p.w0); assert v.a == 0x9fc905c8 && v.e == 0xa94d2af1;
    v := Round(v, 0x2e1b2138, p.w1); assert v.a == 0x9ce5a62f && v.e == 0x6ef3b6bd;
    v := Round(v, 0x4d2c6dfc, p.w2); assert v.a == 0x1df8e885 && v.e == 0x2a9e048e;
    v := Round(v, 0x53380d13, p.w3); assert v.a == 0x0786dce8 && v.e == 0xde2a21d1;
    v := Round(v, 0x650a7354, p.w4); assert v.a == 0x2c55d3a6 && v.e == 0xb067c1af;
    v := Round(v, 0x766a0abb, p.w5); assert v.a == 0xa985b4be && v.e == 0xf72bf353;
    v := Round(v, 0x81c2c92e, p.w6); assert v.a == 0x91ac9d5d && v.e == 0x68d8d590;
    v := Round(v, 0x92722c85, p.w7); assert v.a == 0x7e4d30b8 && v.e == 0x9f5b9b6d;
  }

  lemma NextA5()
    ensures Next(A5, K5) == A6
  {
    var p, v := A5.p, A5.v;
    v := Round(v, 0xa2bfe8a1, p.w0); assert v.a == 0x7e056794 && v.e == 0x423b26c0;
    v := Round(v, 0xa81a664b, p.w1); assert v.a == 0x508a16ab && v.e == 0x45459d97;
    v := Round(v, 0xc24b8b70, p.w2); assert v.a == 0xb62c7013 && v.e == 0x80a92a00;
    v := Round(v, 0xc76c51a3, p.w3); assert v.a == 0x167361de && v.e == 0x41dd3844;
    v := Round(v, 0xd192e819, p.w4); assert v.a == 0xde71e2f2 && v.e == 0xff61c636;
    v := Round(v, 0xd6990624, p.w5); assert v.a == 0x18f0d19d && v.e == 0x6b88472c;
    v := Round(v, 0xf40e3585, p.w6); assert v.a == 0x165be9cd && v.e == 0xa483f080;
    v := Round(v, 0x106aa070, p.w7); assert v.a == 0x13d82741 && v.e == 0xa7802a4d;
  }

  lemma NextA6()
    ensures Next(A6, K6) == A7
  {
    var p, v := A6.p, A6.v;
    v := Round(v, 0x19a4c116, p.w0); assert v.a == 0x017b9d99 && v.e == 0xaeb10b60;
    v := Round(v, 0x1e376c08, p.w1); assert v.a == 0x543c99a1 && v.e == 0x16f134b6;
    v := Round(v, 0x2748774c, p.w2); assert v.a == 0x758ca97a && v.e == 0x100cf2ea;
    v := Round(v, 0x34b0bcb5, p.w3); assert v.a == 0x81c1cde0 && v.e == 0x5c47eb7b;
    v := Round(v, 0x391c0cb3, p.w4); assert v.a == 0xb8d55619 && v.e == 0x1c806a61;
    v := Round(v, 0x4ed8aa4a, p.w5); assert v.a == 0x1d6de87a && v.e == 0x3443bed4;
    v := Round(v, 0x5b9cca4f, p.w6); assert v.a == 0xf907b313 && v.e == 0x61a41711;
    v := Round(v, 0x682e6ff3, p.w7); assert v.a == 0x9e57c4a0 && v.e == 0xeec13548;
  }

  lemma NextA7()
    ensures Next(A7, K7) == A8
  {
    var p, v := A7.p, A7.v;
    v := Round(v, 0x748f82ee, p.w0); assert v.a == 0x71629856 && v.e == 0x2f6c8c4e;
    v := Round(v, 0x78a5636f, p.w1); assert v.a == 0x7c015a2c && v.e == 0xcb9d3dd0;
    v := Round(v, 0x84c87814, p.w2); assert v.a == 0x921fccb6 && v.e == 0x43d8a034;
    v := Round(v, 0x8cc70208, p.w3); assert v.a == 0xe18f259a && v.e == 0x51e15869;
    v := Round(v, 0x90befffa, p.w4); assert v.a == 0xbcfce922 && v.e == 0x962d8621;
    v := Round(v, 0xa4506ceb, p.w5); assert v.a == 0xf6f443f8 && v.e == 0xacc75916;
    v := Round(v, 0xbef9a3f7, p.w6); assert v.a == 0x86126910 && v.e == 0x2fc08f85;
    v := Round(v, 0xc67178f2, p.w7); assert v.a == 0x1bdc6f6f && v.e == 0x25d2430a;
  }

  const HASH_A: Hash := [0x85e655d6, 0x417a1795, 0x3363376a, 0x624cde5c, 0x76e09589, 0xcac5f811, 0xcc4b32c1, 0xf20e533a]

  lemma StagesA(block: Bytes, start: Working)
    requires |block| == 64 && AtStage(block, start, 0, A0)
    ensures AtStage(block, start, 8, A8)
  {
    hide Next, AtStage, K0, K1, K2, K3, K4, K5, K6, K7, K, A0, A1, A2, A3, A4, A5, A6, A7, A8;
    KRows();
    NextA0(); NextMeans(block, start, 0, A0, K0);
    NextA1(); NextMeans(block, start, 1, A1, K1);
    NextA2(); NextMeans(block, start, 2, A2, K2);
    NextA3(); NextMeans(block, start, 3, A3, K3);
    NextA4(); NextMeans(block, start, 4, A4, K4);
    NextA5(); NextMeans(block, start, 5, A5, K5);
    NextA6(); NextMeans(block, start, 6, A6, K6);
    NextA7(); NextMeans(block, start, 7, A7, K7);
  }

  lemma AddedA()
    ensures AddInto(H0, A8.v) == HASH_A && Load(H0) == A0.v
  {}

  // ----- the second block -----

  const B0 := Stage(
    Row(0x00000000, 0x00000000, 0x00000000, 0x00000000, 0x00000000, 0x00000000, 0x00000000, 0x00000000),
    Row(0x00000000, 0x00000000, 0x00000000, 0x00000000, 0x00000000, 0x00000000, 0x00000000, 0x000001c0),
    Working(0x85e655d6, 0x417a1795, 0x3363376a, 0x624cde5c, 0x76e09589, 0xcac5f811, 0xcc4b32c1, 0xf20e533a))
  const B1 := Stage(
    Row(0x00000000, 0x00000000, 0x00000000, 0x00000000, 0x00000000, 0x00000000, 0x00000000, 0x000001c0),
    Row(0x00000000, 0x00d80000, 0x00000000, 0x00003677, 0x00000000, 0x1df5600d, 0x000001c0, 0x1c00501c),
    Working(0xbf9a93a0, 0x89bba3f1, 0x3eeb6c06, 0x185a5d79, 0x059abdd1, 0x0a34df03, 0xfe20cda6, 0x8dff3001))
  const B2 := Stage(
    Row(0x00000000, 0x00d80000, 0x00000000, 0x00003677, 0x00000000, 0x1df5600d, 0x000001c0, 0x1c00501c),
    Row(0x01b00000, 0x220a8d94, 0x0000a365, 0x177017e7, 0x63d38035, 0x090ab713, 0x4c7539ca, 0x0f19a8c9),
    Working(0x16a8cc79, 0x0cea5cbc, 0xd74080fa, 0x35ee996d, 0x0fcb1f6f, 0x60356548, 0x68aa893f, 0x5c24e2a2))
  const B3 := Stage(
    Row(0x01b00000, 0x220a8d94, 0x0000a365, 0x177017e7, 0x63d38035, 0x090ab713, 0x4c7539ca, 0x0f19a8c9),
    Row(0x5df4b0c4, 0xe257036a, 0xc97bb6f1, 0xc5b46f4d, 0xf8253c4e, 0xa558d189, 0x78696285, 0xed07117f),
    Working(0xa4195b91, 0xf13ae55b, 0xd44dc81a, 0x20aad899, 0xeddbd6ed, 0x966aa287, 0x5bace62d, 0xcc4769f2))
  const B4 := Stage(
    Row(0x5df4b0c4, 0xe257036a, 0xc97bb6f1, 0xc5b46f4d, 0xf8253c4e, 0xa558d189, 0x78696285, 0xed07117f),
    Row(0x107358f6, 0x390ae496, 0x565010a2, 0xc51d7d44, 0x9e74c972, 0x6614b561, 0x30fc129d, 0x9ac684a8),
    Working(0xb0eab1c5, 0x02ef3a5f, 0x1cfa5eb0, 0xd958b529, 0xf6d93952, 0x5da10665, 0x6c49db9f, 0xc2fa99b1))
  const B5 := Stage(
    Row(0x107358f6, 0x390ae496, 0x565010a2, 0xc51d7d44, 0x9e74c972, 0x6614b561, 0x30fc129d, 0x9ac684a8),
    Row(0x2b658dbd, 0xe290f793, 0x9eebb24c, 0x9713b5de, 0x41061ab7, 0xe022e23b, 0x0772079e, 0x7de22d9c),
    Working(0x221b8a5a, 0xadca7a96, 0xd949682b, 0x2f11c939, 0x0b82c5eb, 0xc6cce4ff, 0x32d99008, 0xfed4ce1d))
  const B6 := Stage(
    Row(0x2b658dbd, 0xe290f793, 0x9eebb24c, 0x9713b5de, 0x41061ab7, 0xe022e23b, 0x0772079e, 0x7de22d9c),
    Row(0xc8b83778, 0x75a79849, 0xd93dbddb, 0x0a036c9d, 0xcb4f6ac6, 0x823f97e2, 0xea2f2a7a, 0xb9018b52),
    Working(0xd7354d5b, 0x0b3303a7, 0x104a7db4, 0x0f154e11, 0xaad55b6b, 0xbbe1c39a, 0x5348e8f6, 0x6f9517cb))
  const B7 := Stage(
    Row(0xc8b83778, 0x75a79849, 0xd93dbddb, 0x0a036c9d, 0xcb4f6ac6, 0x823f97e2, 0xea2f2a7a, 0xb9018b52),
    Row(0x17c99157, 0x172f87c7, 0xe62fae76, 0x7590e259, 0xb95cb85d, 0xf4d42217, 0x479f6e2b, 0x1078359a),
    Working(0x92952710, 0xd9f0c115, 0xec02560a, 0x4eca6fa0, 0x226806d6, 0x624150c4, 0x7151df8e, 0x989ed071))
  const B8 := Stage(
    Row(0x17c99157, 0x172f87c7, 0xe62fae76, 0x7590e259, 0xb95cb85d, 0xf4d42217, 0x479f6e2b, 0x1078359a),
    Row(0xb4f6cd76, 0x3c34d58c, 0xee7a7b54, 0x02277b01, 0x63da2ea5, 0x3ece3026, 0x1dcce76d, 0x149428f4),
    Working(0x9ea7148b, 0x908c2123, 0xb25cef29, 0xa9f181dd, 0x2c5c4ed0, 0x9a392956, 0x2aa1bb13, 0x27ccb387))

  lemma NextB0()
    ensures Next(B0, K0) == B1
  {
    var p, v := B0.p, B0.v;
    v := Round(v, 0x428a2f98, p.w0); assert v.a == 0x7c20c838 && v.e == 0x4670ae6e;
    v := Round(v, 0x71374491, p.w1); assert v.a == 0x7c3c0f86 && v.e == 0x8c51be64;
    v := Round(v, 0xb5c0fbcf, p.w2); assert v.a == 0xfd1eebdc && v.e == 0xaf71b9ea;
    v := Round(v, 0xe9b5dba5, p.w3); assert v.a == 0xf268faa9 && v.e == 0xe20362ef;
    v := Round(v, 0x3956c25b, p.w4); assert v.a == 0x185a5d79 && v.e == 0x8dff3001;
    v := Round(v, 0x59f111f1, p.w5); assert v.a == 0x3eeb6c06 && v.e == 0xfe20cda6;
    v := Round(v, 0x923f82a4, p.w6); assert v.a == 0x89bba3f1 && v.e == 0x0a34df03;
    v := Round(v, 0xab1c5ed5, p.w7); assert v.a == 0xbf9a93a0 && v.e == 0x059abdd1;
  }

  lemma NextB1()
    ensures Next(B1, K1) == B2
  {
    var p, v := B1.p, B1.v;
    v := Round(v, 0xd807aa98, p.w0); assert v.a == 0x2c096744 && v.e == 0xabfa465b;
    v := Round(v, 0x12835b01, p.w1); assert v.a == 0x2d964e86 && v.e == 0xaa27ed82;
    v := Round(v, 0x243185be, p.w2); assert v.a == 0x5b35025b && v.e == 0x10e77723;
    v := Round(v, 0x550c7dc3, p.w3); assert v.a == 0x5eb4ec40 && v.e == 0xe11b4548;
    v := Round(v, 0x72be5d74, p.w4); assert v.a == 0x35ee996d && v.e == 0x5c24e2a2;
    v := Round(v, 0x80deb1fe, p.w5); assert v.a == 0xd74080fa && v.e == 0x68aa893f;
    v := Round(v, 0x9bdc06a7, p.w6); assert v.a == 0x0cea5cbc && v.e == 0x60356548;
    v := Round(v, 0xc19bf174, p.w7); assert v.a == 0x16a8cc79 && v.e == 0x0fcb1f6f;
  }

  lemma NextB2()
    ensures Next(B2, K2) == B3
  {
    var p, v := B2.p, B2.v;
    v := Round(v, 0xe49b69c1, p.w0); assert v.a == 0xf16f634e && v.e == 0x8b21cdc1;
    v := Round(v, 0xefbe4786, p.w1); assert v.a == 0x23dcb6c2 && v.e == 0xca9182d3;
    v := Round(v, 0x0fc19dc6, p.w2); assert v.a == 0xdcff40fd && v.e == 0x69bf7b95;
    v := Round(v, 0x240ca1cc, p.w3); assert v.a == 0x76f1a2bc && v.e == 0x0dc84bb1;
    v := Round(v, 0x2de92c6f, p.w4); assert v.a == 0x20aad899 && v.e == 0xcc4769f2;
    v := Round(v, 0x4a7484aa, p.w5); assert v.a == 0xd44dc81a && v.e == 0x5bace62d;
    v := Round(v, 0x5cb0a9dc, p.w6); assert v.a == 0xf13ae55b && v.e == 0x966aa287;
    v := Round(v, 0x76f988da, p.w7); assert v.a == 0xa4195b91 && v.e == 0xeddbd6ed;
  }

  lemma NextB3()
    ensures Next(B3, K3) == B4
  {
    var p, v := B3.p, B3.v;
    v := Round(v, 0x983e5152, p.w0); assert v.a == 0x4984fa79 && v.e == 0xa530d939;
    v := Round(v, 0xa831c66d, p.w1); assert v.a == 0xaa6cb982 && v.e == 0x0b5eeea4;
    v := Round(v, 0xb00327c8, p.w2); assert v.a == 0x9450fbbc && v.e == 0x09166dda;
    v := Round(v, 0xbf597fc7, p.w3); assert v.a == 0x0d936bab && v.e == 0x6e495d4b;
    v := Round(v, 0xc6e00bf3, p.w4); assert v.a == 0xd958b529 && v.e == 0xc2fa99b1;
    v := Round(v, 0xd5a79147, p.w5); assert v.a == 0x1cfa5eb0 && v.e == 0x6c49db9f;
    v := Round(v, 0x06ca6351, p.w6); assert v.a == 0x02ef3a5f && v.e == 0x5da10665;
    v := Round(v, 0x14292967, p.w7); assert v.a == 0xb0eab1c5 && v.e == 0xf6d93952;
  }

  lemma NextB4()
    ensures Next(B4, K4) == B5
  {
    var p, v := B4.p, B4.v;
    v := Round(v, 0x27b70a85, p.w0); assert v.a == 0x0bfba73c && v.e == 0x8b99e3a9;
    v := Round(v, 0x2e1b2138, p.w1); assert v.a == 0x4bd1df96 && v.e == 0x905e44ac;
    v := Round(v, 0x4d2c6dfc, p.w2); assert v.a == 0x9907f1b6 && v.e == 0x66c3043d;
    v := Round(v, 0x53380d13, p.w3); assert v.a == 0xecde4e0d && v.e == 0x5dc119e6;
    v := Round(v, 0x650a7354, p.w4); assert v.a == 0x2f11c939 && v.e == 0xfed4ce1d;
    v := Round(v, 0x766a0abb, p.w5); assert v.a == 0xd949682b && v.e == 0x32d99008;
    v := Round(v, 0x81c2c92e, p.w6); assert v.a == 0xadca7a96 && v.e == 0xc6cce4ff;
    v := Round(v, 0x92722c85, p.w7); assert v.a == 0x221b8a5a && v.e == 0x0b82c5eb;
  }

  lemma NextB5()
    ensures Next(B5, K5) == B6
  {
    var p, v := B5.p, B5.v;
    v := Round(v, 0xa2bfe8a1, p.w0); assert v.a == 0x12d97845 && v.e == 0xe4213ca2;
    v := Round(v, 0xa81a664b, p.w1); assert v.a == 0x2c794876 && v.e == 0xff6759ba;
    v := Round(v, 0xc24b8b70, p.w2); assert v.a == 0x8300fca2 && v.e == 0xe0e3457c;
    v := Round(v, 0xc76c51a3, p.w3); assert v.a == 0xf2ad6322 && v.e == 0xcc48c7f3;
    v := Round(v, 0xd192e819, p.w4); assert v.a == 0x0f154e11 && v.e == 0x6f9517cb;
    v := Round(v, 0xd6990624, p.w5); assert v.a == 0x104a7db4 && v.e == 0x5348e8f6;
    v := Round(v, 0xf40e3585, p.w6); assert v.a == 0x0b3303a7 && v.e == 0xbbe1c39a;
    v := Round(v, 0x106aa070, p.w7); assert v.a == 0xd7354d5b && v.e == 0xaad55b6b;
  }

  lemma NextB6()
    ensures Next(B6, K6) == B7
  {
    var p, v := B6.p, B6.v;
    v := Round(v, 0x19a4c116, p.w0); assert v.a == 0xb736d7a6 && v.e == 0x68f25260;
    v := Round(v, 0x1e376c08, p.w1); assert v.a == 0x2748e5ec && v.e == 0xd4b58576;
    v := Round(v, 0x2748774c, p.w2); assert v.a == 0xd8aabcf9 && v.e == 0x27844711;
    v := Round(v, 0x34b0bcb5, p.w3); assert v.a == 0x1a6bcf6a && v.e == 0xff5e99d0;
    v := Round(v, 0x391c0cb3, p.w4); assert v.a == 0x4eca6fa0 && v.e == 0x989ed071;
    v := Round(v, 0x4ed8aa4a, p.w5); assert v.a == 0xec02560a && v.e == 0x7151df8e;
    v := Round(v, 0x5b9cca4f, p.w6); assert v.a == 0xd9f0c115 && v.e == 0x624150c4;
    v := Round(v, 0x682e6ff3, p.w7); assert v.a == 0x92952710 && v.e == 0x226806d6;
  }

  lemma NextB7()
    ensures Next(B7, K7) == B8
  {
    var p, v := B7.p, B7.v;
    v := Round(v, 0x748f82ee, p.w0); assert v.a == 0x20d4d0e4 && v.e == 0x4e515a4d;
    v := Round(v, 0x78a5636f, p.w1); assert v.a == 0x4348eb1f && v.e == 0xc21eddf9;
    v := Round(v, 0x84c87814, p.w2); assert v.a == 0x286fe5f0 && v.e == 0x54076664;
    v := Round(v, 0x8cc70208, p.w3); assert v.a == 0x1c4cddd9 && v.e == 0xf487a853;
    v := Round(v, 0x90befffa, p.w4); assert v.a == 0xa9f181dd && v.e == 0x27ccb387;
    v := Round(v, 0xa4506ceb, p.w5); assert v.a == 0xb25cef29 && v.e == 0x2aa1bb13;
    v := Round(v, 0xbef9a3f7, p.w6); assert v.a == 0x908c2123 && v.e == 0x9a392956;
    v := Round(v, 0xc67178f2, p.w7); assert v.a == 0x9ea7148b && v.e == 0x2c5c4ed0;
  }

  const HASH_B: Hash := [0x248d6a61, 0xd20638b8, 0xe5c02693, 0x0c3e6039, 0xa33ce459, 0x64ff2167, 0xf6ecedd4, 0x19db06c1]

  lemma StagesB(block: Bytes, start: Working)
    requires |block| == 64 && AtStage(block, start, 0, B0)
    ensures AtStage(block, start, 8, B8)
  {
    hide Next, AtStage, K0, K1, K2, K3, K4, K5, K6, K7, K, B0, B1, B2, B3, B4, B5, B6, B7, B8;
    KRows();
    NextB0(); NextMeans(block, start, 0, B0, K0);
    NextB1(); NextMeans(block, start, 1, B1, K1);
    NextB2(); NextMeans(block, start, 2, B2, K2);
    NextB3(); NextMeans(block, start, 3, B3, K3);
    NextB4(); NextMeans(block, start, 4, B4, K4);
    NextB5(); NextMeans(block, start, 5, B5, K5);
    NextB6(); NextMeans(block, start, 6, B6, K6);
    NextB7(); NextMeans(block, start, 7, B7, K7);
  }

  lemma AddedB()
    ensures AddInto(HASH_A, B8.v) == HASH_B && Load(HASH_A) == B0.v
  {}

  // ----- the message -----

  lemma Compressed(h: Hash, block: Bytes, first: Stage, last: Stage)
    requires |block| == 64 && AtStage(block, Load(h), 0, first) && AtStage(block, Load(h), 8, last)
    ensures CompressBlock(h, block) == AddInto(h, last.v)
  {
    hide Rounds, IsRow, Load;
  }

  function PaddedAt(i: nat): Byte
    requires i < 128
  {
    if i < 56 then 97 + i / 4 + i % 4 else if i == 56 then 0x80 else if i < 126 then 0 else if i == 126 then 1 else 0xc0
  }

  lemma PaddedByte(i: nat)
    requires i < 128
    ensures |Pad(MESSAGE)| == 128
    ensures Pad(MESSAGE)[i] == PaddedAt(i)
  {
    assert ZeroCount(56) == 63;
    assert BigEndian(448, 8) == [0, 0, 0, 0, 0, 0, 1, 0xc0] by {
      assert BigEndian(1, 7) == BigEndian(0, 6) + [1];
      NoBytes(6);
    }
  }

  lemma NoBytes(width: nat)
    ensures BigEndian(0, width) == Zeros(width)
  {}

  lemma ByteIs(x: Byte, a: Word)
    requires x == a as int
    ensures x as bv32 == a
  {}

  lemma WordFrom(block: Bytes, at: nat, a: Word, b: Word, c: Word, d: Word)
    requires at + 4 <= |block| && block[at] == a as int && block[at + 1] == b as int
    requires block[at + 2] == c as int && block[at + 3] == d as int
    ensures WordAt(block, at) == (a << 24) | (b << 16) | (c << 8) | d
  {
    ByteIs(block[at], a);
    ByteIs(block[at + 1], b);
    ByteIs(block[at + 2], c);
    ByteIs(block[at + 3], d);
  }

  /** The words of the padded message: four bytes each, in big-endian order. */
  lemma WordIs(block: Bytes, n: nat, t: nat, a: Word, b: Word, c: Word, d: Word, w: Word)
    requires n < 2 && t < 16 && |Pad(MESSAGE)| == 128 && block == Pad(MESSAGE)[64 * n..64 * n + 64]
    requires PaddedAt(64 * n + 4 * t) == a as int && PaddedAt(64 * n + 4 * t + 1) == b as int
    requires PaddedAt(64 * n + 4 * t + 2) == c as int && PaddedAt(64 * n + 4 * t + 3) == d as int
    requires (a << 24) | (b << 16) | (c << 8) | d == w
    ensures Schedule(block, t) == w
  {
    hide Pad, PaddedAt, WordAt;
    forall i | 64 * n + 4 * t <= i < 64 * n + 4 * t + 4 { PaddedByte(i); }
    WordFrom(block, 4 * t, a, b, c, d);
  }

  lemma RowA0(block: Bytes)
    requires |Pad(MESSAGE)| == 128 && block == Pad(MESSAGE)[0..64]
    ensures IsRow(block, 0, A0.p)
  {
    hide Pad, Schedule;
    WordIs(block, 0, 0, 97, 98, 99, 100, 0x61626364);
    WordIs(block, 0, 1, 98, 99, 100, 101, 0x62636465);
    WordIs(block, 0, 2, 99, 100, 101, 102, 0x63646566);
    WordIs(block, 0, 3, 100, 101, 102, 103, 0x64656667);
    WordIs(block, 0, 4, 101, 102, 103, 104, 0x65666768);
    WordIs(block, 0, 5, 102, 103, 104, 105, 0x66676869);
    WordIs(block, 0, 6, 103, 104, 105, 106, 0x6768696a);
    WordIs(block, 0, 7, 104, 105, 106, 107, 0x68696a6b);
  }

  lemma RowA1(block: Bytes)
    requires |Pad(MESSAGE)| == 128 && block == Pad(MESSAGE)[0..64]
    ensures IsRow(block, 1, A0.q)
  {
    hide Pad, Schedule;
    WordIs(block, 0, 8, 105, 106, 107, 108, 0x696a6b6c);
    WordIs(block, 0, 9, 106, 107, 108, 109, 0x6a6b6c6d);
    WordIs(block, 0, 10, 107, 108, 109, 110, 0x6b6c6d6e);
    WordIs(block, 0, 11, 108, 109, 110, 111, 0x6c6d6e6f);
    WordIs(block, 0, 12, 109, 110, 111, 112, 0x6d6e6f70);
    WordIs(block, 0, 13, 110, 111, 112, 113, 0x6e6f7071);
    WordIs(block, 0, 14, 128, 0, 0, 0, 0x80000000);
    WordIs(block, 0, 15, 0, 0, 0, 0, 0x00000000);
  }

  lemma RowB0(block: Bytes)
    requires |Pad(MESSAGE)| == 128 && block == Pad(MESSAGE)[64..128]
    ensures IsRow(block, 0, B0.p)
  {
    hide Pad, Schedule;
    WordIs(block, 1, 0, 0, 0, 0, 0, 0x00000000);
    WordIs(block, 1, 1, 0, 0, 0, 0, 0x00000000);
    WordIs(block, 1, 2, 0, 0, 0, 0, 0x00000000);
    WordIs(block, 1, 3, 0, 0, 0, 0, 0x00000000);
    WordIs(block, 1, 4, 0, 0, 0, 0, 0x00000000);
    WordIs(block, 1, 5, 0, 0, 0, 0, 0x00000000);
    WordIs(block, 1, 6, 0, 0, 0, 0, 0x00000000);
    WordIs(block, 1, 7, 0, 0, 0, 0, 0x00000000);
  }

  lemma RowB1(block: Bytes)
    requires |Pad(MESSAGE)| == 128 && block == Pad(MESSAGE)[64..128]
    ensures IsRow(block, 1, B0.q)
  {
    hide Pad, Schedule;
    WordIs(block, 1, 8, 0, 0, 0, 0, 0x00000000);
    WordIs(block, 1, 9, 0, 0, 0, 0, 0x00000000);
    WordIs(block, 1, 10, 0, 0, 0, 0, 0x00000000);
    WordIs(block, 1, 11, 0, 0, 0, 0, 0x00000000);
    WordIs(block, 1, 12, 0, 0, 0, 0, 0x00000000);
    WordIs(block, 1, 13, 0, 0, 0, 0, 0x00000000);
    WordIs(block, 1, 14, 0, 0, 0, 0, 0x00000000);
    WordIs(block, 1, 15, 0, 0, 1, 192, 0x000001c0);
  }

  lemma StartA(block: Bytes)
    requires |Pad(MESSAGE)| == 128 && block == Pad(MESSAGE)[0..64]
    ensures AtStage(block, Load(H0), 0, A0)
  {
    hide MESSAGE, Pad, Schedule, IsRow, A0, AddInto, H0, Load;
    RowA0(block);
    RowA1(block);
    AddedA();
  }

  lemma BlockA(block: Bytes)
    requires |Pad(MESSAGE)| == 128 && block == Pad(MESSAGE)[0..64]
    ensures CompressBlock(H0, block) == HASH_A
  {
    hide MESSAGE, Pad, AtStage, AddInto, CompressBlock, Load, A0, A8, H0, HASH_A;
    StartA(block);
    StagesA(block, Load(H0));
    Compressed(H0, block, A0, A8);
    AddedA();
  }

  lemma StartB(block: Bytes)
    requires |Pad(MESSAGE)| == 128 && block == Pad(MESSAGE)[64..128]
    ensures AtStage(block, Load(HASH_A), 0, B0)
  {
    hide MESSAGE, Pad, Schedule, IsRow, B0, AddInto, HASH_A, Load;
    RowB0(block);
    RowB1(block);
    AddedB();
  }

  lemma BlockB(block: Bytes)
    requires |Pad(MESSAGE)| == 128 && block == Pad(MESSAGE)[64..128]
    ensures CompressBlock(HASH_A, block) == HASH_B
  {
    hide MESSAGE, Pad, AtStage, AddInto, CompressBlock, Load, B0, B8, HASH_A, HASH_B;
    StartB(block);
    StagesB(block, Load(HASH_A));
    Compressed(HASH_A, block, B0, B8);
    AddedB();
  }

  lemma TwoBlocks()
    ensures |Pad(MESSAGE)| == 128 && HashAfter(Pad(MESSAGE), 2) == HASH_B
  {
    var padded := Pad(MESSAGE);
    PaddedByte(0);
    hide Pad, CompressBlock;
    BlockA(padded[0..64]);
    BlockB(padded[64..128]);
    assert HashAfter(padded, 0) == H0;
    assert HashAfter(padded, 1) == HASH_A;
  }

  /** A digest is the words of the hash in order, each as four bytes, most significant first. */
  lemma {:induction false} DigestBytes(h: seq<Word>, i: nat)
    requires i < |h|
    ensures HashBytes(h)[4 * i..4 * i + 4] == BigEndian(h[i] as int, 4)
  {
    hide WordBytes;
    var last := |h| - 1;
    if i < last {
      DigestBytes(h[..last], i);
      assert HashBytes(h)[4 * i..4 * i + 4] == HashBytes(h[..last])[4 * i..4 * i + 4];
    } else {
      WordBigEndian(h[i]);
    }
  }

  lemma WordBigEndian(w: Word)
    ensures WordBytes(w) == BigEndian(w as int, 4)
  {
    FourBigEndian(w as int);
  }

  lemma FourBigEndian(n: nat)
    ensures BigEndian(n, 4) == [n / 0x100_0000 % 256, n / 0x1_0000 % 256, n / 0x100 % 256, n % 256]
  {
    var n1 := n / 256;
    var n2 := n1 / 256;
    var n3 := n2 / 256;
    assert n2 == n / 0x1_0000 && n3 == n / 0x100_0000;
    assert BigEndian(n3, 1) == [n3 % 256];
    assert BigEndian(n2, 2) == [n3 % 256, n2 % 256];
    assert BigEndian(n1, 3) == [n3 % 256, n2 % 256, n1 % 256];
  }

  /** The digest of the message is the published one. */
  lemma KnownAnswer()
    ensures Sum(MESSAGE)
         == HashBytes([0x248d6a61, 0xd20638b8, 0xe5c02693, 0x0c3e6039, 0xa33ce459, 0x64ff2167, 0xf6ecedd4, 0x19db06c1])
  {
    hide Pad, HashAfter, HashBytes;
    TwoBlocks();
  }
}
