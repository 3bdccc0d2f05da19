/** The constants of SHA-256 are what sections 4.2.2 and 5.3.3 of FIPS 180-4 say they are: the first 32 bits
    of the fractional parts of the cube roots of the first 64 primes, and of the square roots of the first
    eight. */
module FipsRoots {
  import opened Bytes
  import opened Fips180

  const P0: seq<nat> := [2, 3, 5, 7, 11, 13, 17, 19]
  const P1: seq<nat> := [23, 29, 31, 37, 41, 43, 47, 53]
  const P2: seq<nat> := [59, 61, 67, 71, 73, 79, 83, 89]
  const P3: seq<nat> := [97, 101, 103, 107, 109, 113, 127, 131]
  const P4: seq<nat> := [137, 139, 149, 151, 157, 163, 167, 173]
  const P5: seq<nat> := [179, 181, 191, 193, 197, 199, 211, 223]
  const P6: seq<nat> := [227, 229, 233, 239, 241, 251, 257, 263]
  const P7: seq<nat> := [269, 271, 277, 281, 283, 293, 307, 311]

  const PLow: seq<nat> := P0 + P1 + P2 + P3
  const PHigh: seq<nat> := P4 + P5 + P6 + P7
  const PRIMES: seq<nat> := PLow + PHigh

  /** `k` is the integer part of 2^32 times what the cube root of `p` exceeds `whole` by. */
  predicate IsCubeFraction(k: int, p: nat, whole: nat) {
    var x := whole * 0x1_0000_0000 + k;
    0 <= k < 0x1_0000_0000 && x * x * x <= p * 0x1_0000_0000_0000_0000_0000_0000 < (x + 1) * (x + 1) * (x + 1)
  }

  predicate IsSquareFraction(k: int, p: nat, whole: nat) {
    var x := whole * 0x1_0000_0000 + k;
    0 <= k < 0x1_0000_0000 && x * x <= p * 0x1_0000_0000_0000_0000 < (x + 1) * (x + 1)
  }

  /** The integer part of the cube root of a prime up to 311. */
  function Whole(p: nat): nat {
    if p < 8 then 1 else if p < 27 then 2 else if p < 64 then 3 else if p < 125 then 4 else if p < 216 then 5 else 6
  }

  lemma CubeRoots0(i: nat)
    requires i < 8
    ensures IsCubeFraction(K0[i] as int, P0[i], Whole(P0[i]))
  {
    assert IsCubeFraction(0x428a2f98, 2, 1);
    assert IsCubeFraction(0x71374491, 3, 1);
    assert IsCubeFraction(0xb5c0fbcf, 5, 1);
    assert IsCubeFraction(0xe9b5dba5, 7, 1);
    assert IsCubeFraction(0x3956c25b, 11, 2);
    assert IsCubeFraction(0x59f111f1, 13, 2);
    assert IsCubeFraction(0x923f82a4, 17, 2);
    assert IsCubeFraction(0xab1c5ed5, 19, 2);
    hide IsCubeFraction;
  }

  lemma CubeRoots1(i: nat)
    requires i < 8
    ensures IsCubeFraction(K1[i] as int, P1[i], Whole(P1[i]))
  {
    assert IsCubeFraction(0xd807aa98, 23, 2);
    assert IsCubeFraction(0x12835b01, 29, 3);
    assert IsCubeFraction(0x243185be, 31, 3);
    assert IsCubeFraction(0x550c7dc3, 37, 3);
    assert IsCubeFraction(0x72be5d74, 41, 3);
    assert IsCubeFraction(0x80deb1fe, 43, 3);
    assert IsCubeFraction(0x9bdc06a7, 47, 3);
    assert IsCubeFraction(0xc19bf174, 53, 3);
    hide IsCubeFraction;
  }

  lemma CubeRoots2(i: nat)
    requires i < 8
    ensures IsCubeFraction(K2[i] as int, P2[i], Whole(P2[i]))
  {
    assert IsCubeFraction(0xe49b69c1, 59, 3);
    assert IsCubeFraction(0xefbe4786, 61, 3);
    assert IsCubeFraction(0x0fc19dc6, 67, 4);
    assert IsCubeFraction(0x240ca1cc, 71, 4);
    assert IsCubeFraction(0x2de92c6f, 73, 4);
    assert IsCubeFraction(0x4a7484aa, 79, 4);
    assert IsCubeFraction(0x5cb0a9dc, 83, 4);
    assert IsCubeFraction(0x76f988da, 89, 4);
    hide IsCubeFraction;
  }

  lemma CubeRoots3(i: nat)
    requires i < 8
    ensures IsCubeFraction(K3[i] as int, P3[i], Whole(P3[i]))
  {
    assert IsCubeFraction(0x983e5152, 97, 4);
    assert IsCubeFraction(0xa831c66d, 101, 4);
    assert IsCubeFraction(0xb00327c8, 103, 4);
    assert IsCubeFraction(0xbf597fc7, 107, 4);
    assert IsCubeFraction(0xc6e00bf3, 109, 4);
    assert IsCubeFraction(0xd5a79147, 113, 4);
    assert IsCubeFraction(0x06ca6351, 127, 5);
    assert IsCubeFraction(0x14292967, 131, 5);
    hide IsCubeFraction;
  }

  lemma CubeRoots4(i: nat)
    requires i < 8
    ensures IsCubeFraction(K4[i] as int, P4[i], Whole(P4[i]))
  {
    assert IsCubeFraction(0x27b70a85, 137, 5);
    assert IsCubeFraction(0x2e1b2138, 139, 5);
    assert IsCubeFraction(0x4d2c6dfc, 149, 5);
    assert IsCubeFraction(0x53380d13, 151, 5);
    assert IsCubeFraction(0x650a7354, 157, 5);
    assert IsCubeFraction(0x766a0abb, 163, 5);
    assert IsCubeFraction(0x81c2c92e, 167, 5);
    assert IsCubeFraction(0x92722c85, 173, 5);
    hide IsCubeFraction;
  }

  lemma CubeRoots5(i: nat)
    requires i < 8
    ensures IsCubeFraction(K5[i] as int, P5[i], Whole(P5[i]))
  {
    assert IsCubeFraction(0xa2bfe8a1, 179, 5);
    assert IsCubeFraction(0xa81a664b, 181, 5);
    assert IsCubeFraction(0xc24b8b70, 191, 5);
    assert IsCubeFraction(0xc76c51a3, 193, 5);
    assert IsCubeFraction(0xd192e819, 197, 5);
    assert IsCubeFraction(0xd6990624, 199, 5);
    assert IsCubeFraction(0xf40e3585, 211, 5);
    assert IsCubeFraction(0x106aa070, 223, 6);
    hide IsCubeFraction;
  }

  lemma CubeRoots6(i: nat)
    requires i < 8
    ensures IsCubeFraction(K6[i] as int, P6[i], Whole(P6[i]))
  {
    assert IsCubeFraction(0x19a4c116, 227, 6);
    assert IsCubeFraction(0x1e376c08, 229, 6);
    assert IsCubeFraction(0x2748774c, 233, 6);
    assert IsCubeFraction(0x34b0bcb5, 239, 6);
    assert IsCubeFraction(0x391c0cb3, 241, 6);
    assert IsCubeFraction(0x4ed8aa4a, 251, 6);
    assert IsCubeFraction(0x5b9cca4f, 257, 6);
    assert IsCubeFraction(0x682e6ff3, 263, 6);
    hide IsCubeFraction;
  }

  lemma CubeRoots7(i: nat)
    requires i < 8
    ensures IsCubeFraction(K7[i] as int, P7[i], Whole(P7[i]))
  {
    assert IsCubeFraction(0x748f82ee, 269, 6);
    assert IsCubeFraction(0x78a5636f, 271, 6);
    assert IsCubeFraction(0x84c87814, 277, 6);
    assert IsCubeFraction(0x8cc70208, 281, 6);
    assert IsCubeFraction(0x90befffa, 283, 6);
    assert IsCubeFraction(0xa4506ceb, 293, 6);
    assert IsCubeFraction(0xbef9a3f7, 307, 6);
    assert IsCubeFraction(0xc67178f2, 311, 6);
    hide IsCubeFraction;
  }

  lemma Halves(i: nat)
    requires i < 32
    ensures |KLow| == |KHigh| == |PLow| == |PHigh| == 32 && |K| == |PRIMES| == 64
    ensures KLow[i]
      == (if i < 8 then K0[i] else if i < 16 then K1[i - 8] else if i < 24 then K2[i - 16] else K3[i - 24])
    ensures PLow[i]
      == (if i < 8 then P0[i] else if i < 16 then P1[i - 8] else if i < 24 then P2[i - 16] else P3[i - 24])
    ensures KHigh[i]
      == (if i < 8 then K4[i] else if i < 16 then K5[i - 8] else if i < 24 then K6[i - 16] else K7[i - 24])
    ensures PHigh[i]
      == (if i < 8 then P4[i] else if i < 16 then P5[i - 8] else if i < 24 then P6[i - 16] else P7[i - 24])
  {
  }

  lemma LowCubeRoots(i: nat)
    requires i < 32
    ensures |KLow| == |PLow| == 32 && IsCubeFraction(KLow[i] as int, PLow[i], Whole(PLow[i]))
  {
    Halves(i);
    hide IsCubeFraction, Whole, KLow, PLow, KHigh, PHigh, K, PRIMES;
    if i < 8 {
      CubeRoots0(i);
    } else if i < 16 {
      CubeRoots1(i - 8);
    } else if i < 24 {
      CubeRoots2(i - 16);
    } else {
      CubeRoots3(i - 24);
    }
  }

  lemma HighCubeRoots(i: nat)
    requires i < 32
    ensures |KHigh| == |PHigh| == 32 && IsCubeFraction(KHigh[i] as int, PHigh[i], Whole(PHigh[i]))
  {
    Halves(i);
    hide IsCubeFraction, Whole, KLow, PLow, KHigh, PHigh, K, PRIMES;
    if i < 8 {
      CubeRoots4(i);
    } else if i < 16 {
      CubeRoots5(i - 8);
    } else if i < 24 {
      CubeRoots6(i - 16);
    } else {
      CubeRoots7(i - 24);
    }
  }

  /** Every round constant. */
  lemma RoundConstantsAreCubeRoots(i: nat)
    requires i < 64
    ensures |K| == |PRIMES| == 64 && IsCubeFraction(K[i] as int, PRIMES[i], Whole(PRIMES[i]))
  {
    hide IsCubeFraction, Whole, KLow, PLow, KHigh, PHigh;
    Halves(0);
    if i < 32 {
      LowCubeRoots(i);
    } else {
      HighCubeRoots(i - 32);
    }
  }

  /** The initial value. */
  lemma InitialValueIsSquareRoots()
    ensures IsSquareFraction(H0.a as int, 2, 1) && IsSquareFraction(H0.b as int, 3, 1)
    ensures IsSquareFraction(H0.c as int, 5, 2) && IsSquareFraction(H0.d as int, 7, 2)
    ensures IsSquareFraction(H0.e as int, 11, 3) && IsSquareFraction(H0.f as int, 13, 3)
    ensures IsSquareFraction(H0.g as int, 17, 4) && IsSquareFraction(H0.h as int, 19, 4)
  {
  }
}
