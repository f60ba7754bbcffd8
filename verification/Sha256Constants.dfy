/** Where the constants of SHA-256 come from (FIPS 180-4, sections 4.2.2 and 5.3.3). */
module Sha256Constants {
  import opened Types
  import opened Sha256

  const P0: seq<nat> := [2, 3, 5, 7, 11, 13, 17, 19]
  const P1: seq<nat> := [23, 29, 31, 37, 41, 43, 47, 53]
  const P2: seq<nat> := [59, 61, 67, 71, 73, 79, 83, 89]
  const P3: seq<nat> := [97, 101, 103, 107, 109, 113, 127, 131]
  const P4: seq<nat> := [137, 139, 149, 151, 157, 163, 167, 173]
  const P5: seq<nat> := [179, 181, 191, 193, 197, 199, 211, 223]
  const P6: seq<nat> := [227, 229, 233, 239, 241, 251, 257, 263]
  const P7: seq<nat> := [269, 271, 277, 281, 283, 293, 307, 311]

  /** The first sixty-four primes. */
  const PRIMES: seq<nat> := P0 + P1 + P2 + P3 + P4 + P5 + P6 + P7

  /** The number with this whole part, followed in binary by the 32 bits of k, is the cube root of p, rounded down. */
  predicate CubeRoot(p: nat, whole: nat, k: nat) {
    var v := whole * 0x1_0000_0000 + k;
    v * v * v <= p * 0x1_0000_0000_0000_0000_0000_0000 < (v + 1) * (v + 1) * (v + 1)
  }

  predicate SquareRoot(p: nat, whole: nat, k: nat) {
    var v := whole * 0x1_0000_0000 + k;
    v * v <= p * 0x1_0000_0000_0000_0000 < (v + 1) * (v + 1)
  }

  /** The 32 bits of k begin the fractional part of the cube root of p. */
  ghost predicate CubeRootOf(p: nat, k: nat) { exists whole: nat :: CubeRoot(p, whole, k) }

  ghost predicate SquareRootOf(p: nat, k: nat) { exists whole: nat :: SquareRoot(p, whole, k) }

  ghost predicate CubeRootsOf(primes: seq<nat>, words: seq<Word>) {
    |words| == |primes| && forall i :: 0 <= i < |primes| ==> CubeRootOf(primes[i], words[i] as int)
  }

  lemma CubeRootIs(p: nat, whole: nat, n: nat, k: Word)
    requires k as int == n && CubeRoot(p, whole, n)
    ensures CubeRootOf(p, k as int)
  {}

  lemma SquareRootIs(p: nat, whole: nat, n: nat, k: Word)
    requires k as int == n && SquareRoot(p, whole, n)
    ensures SquareRootOf(p, k as int)
  {}

  lemma Row0()
    ensures CubeRootsOf(P0, K0)
  {
    hide CubeRootOf;
    CubeRootIs(2, 1, 0x428a2f98, 0x428a2f98);
    CubeRootIs(3, 1, 0x71374491, 0x71374491);
    CubeRootIs(5, 1, 0xb5c0fbcf, 0xb5c0fbcf);
    CubeRootIs(7, 1, 0xe9b5dba5, 0xe9b5dba5);
    CubeRootIs(11, 2, 0x3956c25b, 0x3956c25b);
    CubeRootIs(13, 2, 0x59f111f1, 0x59f111f1);
    CubeRootIs(17, 2, 0x923f82a4, 0x923f82a4);
    CubeRootIs(19, 2, 0xab1c5ed5, 0xab1c5ed5);
  }

  lemma Row1()
    ensures CubeRootsOf(P1, K1)
  {
    hide CubeRootOf;
    CubeRootIs(23, 2, 0xd807aa98, 0xd807aa98);
    CubeRootIs(29, 3, 0x12835b01, 0x12835b01);
    CubeRootIs(31, 3, 0x243185be, 0x243185be);
    CubeRootIs(37, 3, 0x550c7dc3, 0x550c7dc3);
    CubeRootIs(41, 3, 0x72be5d74, 0x72be5d74);
    CubeRootIs(43, 3, 0x80deb1fe, 0x80deb1fe);
    CubeRootIs(47, 3, 0x9bdc06a7, 0x9bdc06a7);
    CubeRootIs(53, 3, 0xc19bf174, 0xc19bf174);
  }

  lemma Row2()
    ensures CubeRootsOf(P2, K2)
  {
    hide CubeRootOf;
    CubeRootIs(59, 3, 0xe49b69c1, 0xe49b69c1);
    CubeRootIs(61, 3, 0xefbe4786, 0xefbe4786);
    CubeRootIs(67, 4, 0x0fc19dc6, 0x0fc19dc6);
    CubeRootIs(71, 4, 0x240ca1cc, 0x240ca1cc);
    CubeRootIs(73, 4, 0x2de92c6f, 0x2de92c6f);
    CubeRootIs(79, 4, 0x4a7484aa, 0x4a7484aa);
    CubeRootIs(83, 4, 0x5cb0a9dc, 0x5cb0a9dc);
    CubeRootIs(89, 4, 0x76f988da, 0x76f988da);
  }

  lemma Row3()
    ensures CubeRootsOf(P3, K3)
  {
    hide CubeRootOf;
    CubeRootIs(97, 4, 0x983e5152, 0x983e5152);
    CubeRootIs(101, 4, 0xa831c66d, 0xa831c66d);
    CubeRootIs(103, 4, 0xb00327c8, 0xb00327c8);
    CubeRootIs(107, 4, 0xbf597fc7, 0xbf597fc7);
    CubeRootIs(109, 4, 0xc6e00bf3, 0xc6e00bf3);
    CubeRootIs(113, 4, 0xd5a79147, 0xd5a79147);
    CubeRootIs(127, 5, 0x06ca6351, 0x06ca6351);
    CubeRootIs(131, 5, 0x14292967, 0x14292967);
  }

  lemma Row4()
    ensures CubeRootsOf(P4, K4)
  {
    hide CubeRootOf;
    CubeRootIs(137, 5, 0x27b70a85, 0x27b70a85);
    CubeRootIs(139, 5, 0x2e1b2138, 0x2e1b2138);
    CubeRootIs(149, 5, 0x4d2c6dfc, 0x4d2c6dfc);
    CubeRootIs(151, 5, 0x53380d13, 0x53380d13);
    CubeRootIs(157, 5, 0x650a7354, 0x650a7354);
    CubeRootIs(163, 5, 0x766a0abb, 0x766a0abb);
    CubeRootIs(167, 5, 0x81c2c92e, 0x81c2c92e);
    CubeRootIs(173, 5, 0x92722c85, 0x92722c85);
  }

  lemma Row5()
    ensures CubeRootsOf(P5, K5)
  {
    hide CubeRootOf;
    CubeRootIs(179, 5, 0xa2bfe8a1, 0xa2bfe8a1);
    CubeRootIs(181, 5, 0xa81a664b, 0xa81a664b);
    CubeRootIs(191, 5, 0xc24b8b70, 0xc24b8b70);
    CubeRootIs(193, 5, 0xc76c51a3, 0xc76c51a3);
    CubeRootIs(197, 5, 0xd192e819, 0xd192e819);
    CubeRootIs(199, 5, 0xd6990624, 0xd6990624);
    CubeRootIs(211, 5, 0xf40e3585, 0xf40e3585);
    CubeRootIs(223, 6, 0x106aa070, 0x106aa070);
  }

  lemma Row6()
    ensures CubeRootsOf(P6, K6)
  {
    hide CubeRootOf;
    CubeRootIs(227, 6, 0x19a4c116, 0x19a4c116);
    CubeRootIs(229, 6, 0x1e376c08, 0x1e376c08);
    CubeRootIs(233, 6, 0x2748774c, 0x2748774c);
    CubeRootIs(239, 6, 0x34b0bcb5, 0x34b0bcb5);
    CubeRootIs(241, 6, 0x391c0cb3, 0x391c0cb3);
    CubeRootIs(251, 6, 0x4ed8aa4a, 0x4ed8aa4a);
    CubeRootIs(257, 6, 0x5b9cca4f, 0x5b9cca4f);
    CubeRootIs(263, 6, 0x682e6ff3, 0x682e6ff3);
  }

  lemma Row7()
    ensures CubeRootsOf(P7, K7)
  {
    hide CubeRootOf;
    CubeRootIs(269, 6, 0x748f82ee, 0x748f82ee);
    CubeRootIs(271, 6, 0x78a5636f, 0x78a5636f);
    CubeRootIs(277, 6, 0x84c87814, 0x84c87814);
    CubeRootIs(281, 6, 0x8cc70208, 0x8cc70208);
    CubeRootIs(283, 6, 0x90befffa, 0x90befffa);
    CubeRootIs(293, 6, 0xa4506ceb, 0xa4506ceb);
    CubeRootIs(307, 6, 0xbef9a3f7, 0xbef9a3f7);
    CubeRootIs(311, 6, 0xc67178f2, 0xc67178f2);
  }

  /** The round constants are the first 32 bits of the fractional parts of the cube roots of the first sixty-four primes. */
  lemma RoundConstants()
    ensures CubeRootsOf(PRIMES, K)
  {
    hide CubeRootOf, P0, P1, P2, P3, P4, P5, P6, P7, K0, K1, K2, K3, K4, K5, K6, K7;
    Row0();
    Row1();
    Row2();
    Row3();
    Row4();
    Row5();
    Row6();
    Row7();
  }

  /** The initial hash value is the first 32 bits of the fractional parts of the square roots of the first eight primes. */
  lemma InitialValue()
    ensures forall i :: 0 <= i < 8 ==> SquareRootOf(P0[i], H0[i] as int)
  {
    hide SquareRootOf;
    SquareRootIs(2, 1, 0x6a09e667, 0x6a09e667);
    SquareRootIs(3, 1, 0xbb67ae85, 0xbb67ae85);
    SquareRootIs(5, 2, 0x3c6ef372, 0x3c6ef372);
    SquareRootIs(7, 2, 0xa54ff53a, 0xa54ff53a);
    SquareRootIs(11, 3, 0x510e527f, 0x510e527f);
    SquareRootIs(13, 3, 0x9b05688c, 0x9b05688c);
    SquareRootIs(17, 4, 0x1f83d9ab, 0x1f83d9ab);
    SquareRootIs(19, 4, 0x5be0cd19, 0x5be0cd19);
  }
}
