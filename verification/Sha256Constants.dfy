/**
 Where the constants of SHA-256 come from: each is the first 32 bits of the fractional part of a root of a
 prime, cube roots of the first 64 primes for the rounds and square roots of the first 8 for the initial hash.
 */
module Sha256Constants {
  import opened NumberTheory
  import opened SmallPrimes
  import opened Sha256Standard

  /** k is the first 32 bits of the fractional part of the cube root of q; `root` is that root in units of 2^-32. */
  predicate CubeRootBits(q: nat, root: nat, k: Word) {
    && root * root * root <= q * 0x1_0000_0000_0000_0000_0000_0000 < (root + 1) * (root + 1) * (root + 1)
    && root % 0x1_0000_0000 == k
  }

  predicate SquareRootBits(q: nat, root: nat, k: Word) {
    && root * root <= q * 0x1_0000_0000_0000_0000 < (root + 1) * (root + 1)
    && root % 0x1_0000_0000 == k
  }

  // ---- The primes ----

  /** q is the first prime after p. */
  ghost predicate Next(p: nat, q: nat) {
    p < q && Prime(q) && forall n :: p < n < q ==> !Prime(n)
  }

  /** Of the numbers between p and q, at most 14 apart, none passes. */
  predicate NoneBetween(p: nat, q: nat) {
    && p < q <= p + 14
    && (p + 1 >= q || !Sifted(p + 1)) && (p + 2 >= q || !Sifted(p + 2)) && (p + 3 >= q || !Sifted(p + 3)) &&
       (p + 4 >= q || !Sifted(p + 4))
    && (p + 5 >= q || !Sifted(p + 5)) && (p + 6 >= q || !Sifted(p + 6)) && (p + 7 >= q || !Sifted(p + 7)) &&
       (p + 8 >= q || !Sifted(p + 8))
    && (p + 9 >= q || !Sifted(p + 9)) && (p + 10 >= q || !Sifted(p + 10)) && (p + 11 >= q || !Sifted(p + 11)) &&
       (p + 12 >= q || !Sifted(p + 12))
    && (p + 13 >= q || !Sifted(p + 13))
  }

  lemma NextSifted(p: nat, q: nat)
    requires 0 < p && q < 361 && Sifted(q) && NoneBetween(p, q)
    ensures Next(p, q)
  {
    hide Prime, Sifted;
    SiftedIsPrime(q);
    forall n | p < n < q ensures !Prime(n) {
      SiftedIsPrime(n);
    }
  }

  // ---- The roots ----

  lemma Row0()
    ensures Next(1, 2) && CubeRootBits(2, 0x1428a2f98, K0[0])
    ensures Next(2, 3) && CubeRootBits(3, 0x171374491, K0[1])
    ensures Next(3, 5) && CubeRootBits(5, 0x1b5c0fbcf, K0[2])
    ensures Next(5, 7) && CubeRootBits(7, 0x1e9b5dba5, K0[3])
    ensures Next(7, 11) && CubeRootBits(11, 0x23956c25b, K0[4])
    ensures Next(11, 13) && CubeRootBits(13, 0x259f111f1, K0[5])
    ensures Next(13, 17) && CubeRootBits(17, 0x2923f82a4, K0[6])
    ensures Next(17, 19) && CubeRootBits(19, 0x2ab1c5ed5, K0[7])
  {
    hide Next;
    NextSifted(1, 2);
    NextSifted(2, 3);
    NextSifted(3, 5);
    NextSifted(5, 7);
    NextSifted(7, 11);
    NextSifted(11, 13);
    NextSifted(13, 17);
    NextSifted(17, 19);
  }

  lemma Row1()
    ensures Next(19, 23) && CubeRootBits(23, 0x2d807aa98, K1[0])
    ensures Next(23, 29) && CubeRootBits(29, 0x312835b01, K1[1])
    ensures Next(29, 31) && CubeRootBits(31, 0x3243185be, K1[2])
    ensures Next(31, 37) && CubeRootBits(37, 0x3550c7dc3, K1[3])
    ensures Next(37, 41) && CubeRootBits(41, 0x372be5d74, K1[4])
    ensures Next(41, 43) && CubeRootBits(43, 0x380deb1fe, K1[5])
    ensures Next(43, 47) && CubeRootBits(47, 0x39bdc06a7, K1[6])
    ensures Next(47, 53) && CubeRootBits(53, 0x3c19bf174, K1[7])
  {
    hide Next;
    NextSifted(19, 23);
    NextSifted(23, 29);
    NextSifted(29, 31);
    NextSifted(31, 37);
    NextSifted(37, 41);
    NextSifted(41, 43);
    NextSifted(43, 47);
    NextSifted(47, 53);
  }

  lemma Row2()
    ensures Next(53, 59) && CubeRootBits(59, 0x3e49b69c1, K2[0])
    ensures Next(59, 61) && CubeRootBits(61, 0x3efbe4786, K2[1])
    ensures Next(61, 67) && CubeRootBits(67, 0x40fc19dc6, K2[2])
    ensures Next(67, 71) && CubeRootBits(71, 0x4240ca1cc, K2[3])
    ensures Next(71, 73) && CubeRootBits(73, 0x42de92c6f, K2[4])
    ensures Next(73, 79) && CubeRootBits(79, 0x44a7484aa, K2[5])
    ensures Next(79, 83) && CubeRootBits(83, 0x45cb0a9dc, K2[6])
    ensures Next(83, 89) && CubeRootBits(89, 0x476f988da, K2[7])
  {
    hide Next;
    NextSifted(53, 59);
    NextSifted(59, 61);
    NextSifted(61, 67);
    NextSifted(67, 71);
    NextSifted(71, 73);
    NextSifted(73, 79);
    NextSifted(79, 83);
    NextSifted(83, 89);
  }

  lemma Row3()
    ensures Next(89, 97) && CubeRootBits(97, 0x4983e5152, K3[0])
    ensures Next(97, 101) && CubeRootBits(101, 0x4a831c66d, K3[1])
    ensures Next(101, 103) && CubeRootBits(103, 0x4b00327c8, K3[2])
    ensures Next(103, 107) && CubeRootBits(107, 0x4bf597fc7, K3[3])
    ensures Next(107, 109) && CubeRootBits(109, 0x4c6e00bf3, K3[4])
    ensures Next(109, 113) && CubeRootBits(113, 0x4d5a79147, K3[5])
    ensures Next(113, 127) && CubeRootBits(127, 0x506ca6351, K3[6])
    ensures Next(127, 131) && CubeRootBits(131, 0x514292967, K3[7])
  {
    hide Next;
    NextSifted(89, 97);
    NextSifted(97, 101);
    NextSifted(101, 103);
    NextSifted(103, 107);
    NextSifted(107, 109);
    NextSifted(109, 113);
    NextSifted(113, 127);
    NextSifted(127, 131);
  }

  lemma Row4()
    ensures Next(131, 137) && CubeRootBits(137, 0x527b70a85, K4[0])
    ensures Next(137, 139) && CubeRootBits(139, 0x52e1b2138, K4[1])
    ensures Next(139, 149) && CubeRootBits(149, 0x54d2c6dfc, K4[2])
    ensures Next(149, 151) && CubeRootBits(151, 0x553380d13, K4[3])
    ensures Next(151, 157) && CubeRootBits(157, 0x5650a7354, K4[4])
    ensures Next(157, 163) && CubeRootBits(163, 0x5766a0abb, K4[5])
    ensures Next(163, 167) && CubeRootBits(167, 0x581c2c92e, K4[6])
    ensures Next(167, 173) && CubeRootBits(173, 0x592722c85, K4[7])
  {
    hide Next;
    NextSifted(131, 137);
    NextSifted(137, 139);
    NextSifted(139, 149);
    NextSifted(149, 151);
    NextSifted(151, 157);
    NextSifted(157, 163);
    NextSifted(163, 167);
    NextSifted(167, 173);
  }

  lemma Row5()
    ensures Next(173, 179) && CubeRootBits(179, 0x5a2bfe8a1, K5[0])
    ensures Next(179, 181) && CubeRootBits(181, 0x5a81a664b, K5[1])
    ensures Next(181, 191) && CubeRootBits(191, 0x5c24b8b70, K5[2])
    ensures Next(191, 193) && CubeRootBits(193, 0x5c76c51a3, K5[3])
    ensures Next(193, 197) && CubeRootBits(197, 0x5d192e819, K5[4])
    ensures Next(197, 199) && CubeRootBits(199, 0x5d6990624, K5[5])
    ensures Next(199, 211) && CubeRootBits(211, 0x5f40e3585, K5[6])
    ensures Next(211, 223) && CubeRootBits(223, 0x6106aa070, K5[7])
  {
    hide Next;
    NextSifted(173, 179);
    NextSifted(179, 181);
    NextSifted(181, 191);
    NextSifted(191, 193);
    NextSifted(193, 197);
    NextSifted(197, 199);
    NextSifted(199, 211);
    NextSifted(211, 223);
  }

  lemma Row6()
    ensures Next(223, 227) && CubeRootBits(227, 0x619a4c116, K6[0])
    ensures Next(227, 229) && CubeRootBits(229, 0x61e376c08, K6[1])
    ensures Next(229, 233) && CubeRootBits(233, 0x62748774c, K6[2])
    ensures Next(233, 239) && CubeRootBits(239, 0x634b0bcb5, K6[3])
    ensures Next(239, 241) && CubeRootBits(241, 0x6391c0cb3, K6[4])
    ensures Next(241, 251) && CubeRootBits(251, 0x64ed8aa4a, K6[5])
    ensures Next(251, 257) && CubeRootBits(257, 0x65b9cca4f, K6[6])
    ensures Next(257, 263) && CubeRootBits(263, 0x6682e6ff3, K6[7])
  {
    hide Next;
    NextSifted(223, 227);
    NextSifted(227, 229);
    NextSifted(229, 233);
    NextSifted(233, 239);
    NextSifted(239, 241);
    NextSifted(241, 251);
    NextSifted(251, 257);
    NextSifted(257, 263);
  }

  lemma Row7()
    ensures Next(263, 269) && CubeRootBits(269, 0x6748f82ee, K7[0])
    ensures Next(269, 271) && CubeRootBits(271, 0x678a5636f, K7[1])
    ensures Next(271, 277) && CubeRootBits(277, 0x684c87814, K7[2])
    ensures Next(277, 281) && CubeRootBits(281, 0x68cc70208, K7[3])
    ensures Next(281, 283) && CubeRootBits(283, 0x690befffa, K7[4])
    ensures Next(283, 293) && CubeRootBits(293, 0x6a4506ceb, K7[5])
    ensures Next(293, 307) && CubeRootBits(307, 0x6bef9a3f7, K7[6])
    ensures Next(307, 311) && CubeRootBits(311, 0x6c67178f2, K7[7])
  {
    hide Next;
    NextSifted(263, 269);
    NextSifted(269, 271);
    NextSifted(271, 277);
    NextSifted(277, 281);
    NextSifted(281, 283);
    NextSifted(283, 293);
    NextSifted(293, 307);
    NextSifted(307, 311);
  }

  lemma InitialHash()
    ensures Next(1, 2) && SquareRootBits(2, 0x16a09e667, H0.a)
    ensures Next(2, 3) && SquareRootBits(3, 0x1bb67ae85, H0.b)
    ensures Next(3, 5) && SquareRootBits(5, 0x23c6ef372, H0.c)
    ensures Next(5, 7) && SquareRootBits(7, 0x2a54ff53a, H0.d)
    ensures Next(7, 11) && SquareRootBits(11, 0x3510e527f, H0.e)
    ensures Next(11, 13) && SquareRootBits(13, 0x39b05688c, H0.f)
    ensures Next(13, 17) && SquareRootBits(17, 0x41f83d9ab, H0.g)
    ensures Next(17, 19) && SquareRootBits(19, 0x45be0cd19, H0.h)
  {
    hide Next;
    NextSifted(1, 2);
    NextSifted(2, 3);
    NextSifted(3, 5);
    NextSifted(5, 7);
    NextSifted(7, 11);
    NextSifted(11, 13);
    NextSifted(13, 17);
    NextSifted(17, 19);
  }
}
