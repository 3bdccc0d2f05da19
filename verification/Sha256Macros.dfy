/** The shift and mixing macros of `str_sha256`, and their agreement with the standard's functions. */
module Sha256Macros {
  import Fips180

  /** A C++ `long`, taken to be 32 bits wide in two's complement. */
  type long = bv32

  /** `a >> n` on a `long`: the sign is shifted in. */
  function Sar(a: long, n: long): long
    requires n < 32
  {
    if a & 0x8000_0000 == 0 then a >> n else (a >> n) | !(0xffff_ffff >> n)
  }

  function ROTL(a: long, b: long): long
    requires 0 < b < 32
  {
    (Sar(a, 32 - b) & (0x7fff_ffff >> (31 - b))) | (a << b)
  }

  function SR(a: long, b: long): long
    requires 0 < b < 32
  {
    Sar(a, b) & (0x7fff_ffff >> (b - 1))
  }

  // The table of the source, eight entries to a row.
  const K: seq<long> :=
    ([0x428a2f98, 0x71374491, 0xb5c0fbcf, 0xe9b5dba5, 0x3956c25b, 0x59f111f1, 0x923f82a4, 0xab1c5ed5]
    + [0xd807aa98, 0x12835b01, 0x243185be, 0x550c7dc3, 0x72be5d74, 0x80deb1fe, 0x9bdc06a7, 0xc19bf174]
    + [0xe49b69c1, 0xefbe4786, 0x0fc19dc6, 0x240ca1cc, 0x2de92c6f, 0x4a7484aa, 0x5cb0a9dc, 0x76f988da]
    + [0x983e5152, 0xa831c66d, 0xb00327c8, 0xbf597fc7, 0xc6e00bf3, 0xd5a79147, 0x06ca6351, 0x14292967])
    + ([0x27b70a85, 0x2e1b2138, 0x4d2c6dfc, 0x53380d13, 0x650a7354, 0x766a0abb, 0x81c2c92e, 0x92722c85]
    + [0xa2bfe8a1, 0xa81a664b, 0xc24b8b70, 0xc76c51a3, 0xd192e819, 0xd6990624, 0xf40e3585, 0x106aa070]
    + [0x19a4c116, 0x1e376c08, 0x2748774c, 0x34b0bcb5, 0x391c0cb3, 0x4ed8aa4a, 0x5b9cca4f, 0x682e6ff3]
    + [0x748f82ee, 0x78a5636f, 0x84c87814, 0x8cc70208, 0x90befffa, 0xa4506ceb, 0xbef9a3f7, 0xc67178f2])

  function CH(x: long, y: long, z: long): long { (x & y) ^ ((!x) & z) }
  function MAJ(x: long, y: long, z: long): long { (x & y) ^ (x & z) ^ (y & z) }
  function E0(x: long): long { ROTL(x, 30) ^ ROTL(x, 19) ^ ROTL(x, 10) }
  function E1(x: long): long { ROTL(x, 26) ^ ROTL(x, 21) ^ ROTL(x, 7) }
  function O0(x: long): long { ROTL(x, 25) ^ ROTL(x, 14) ^ SR(x, 3) }
  function O1(x: long): long { ROTL(x, 15) ^ ROTL(x, 13) ^ SR(x, 10) }

  lemma MaskClear(x: long, b: long, s: long)
    requires 0 < b < 32 && s == x >> b
    ensures s & (0x7fff_ffff >> (b - 1)) == x >> b
  {
  }

  lemma MaskSign(x: long, b: long, s: long)
    requires 0 < b < 32 && s == (x >> b) | !(0xffff_ffff >> b)
    ensures s & (0x7fff_ffff >> (b - 1)) == x >> b
  {
  }

  lemma SarCases(x: long, b: long)
    requires b < 32
    ensures Sar(x, b) == x >> b || Sar(x, b) == (x >> b) | !(0xffff_ffff >> b)
  {
  }

  lemma MaskEither(x: long, b: long, s: long)
    requires 0 < b < 32
    requires s == x >> b || s == (x >> b) | !(0xffff_ffff >> b)
    ensures s & (0x7fff_ffff >> (b - 1)) == x >> b
  {
    if s == x >> b {
      MaskClear(x, b, s);
    } else {
      MaskSign(x, b, s);
    }
  }

  /** Masking the sign copies out of an arithmetic shift leaves the logical shift, for every amount. */
  lemma MaskedShiftIsLogical(x: long, b: long)
    requires 0 < b < 32
    ensures Sar(x, b) & (0x7fff_ffff >> (b - 1)) == x >> b
  {
    SarCases(x, b);
    MaskEither(x, b, Sar(x, b));
  }

  lemma Rotl30(x: long) ensures ROTL(x, 30) == Fips180.Rotr(x, 2) { MaskedShiftIsLogical(x, 2); }
  lemma Rotl19(x: long) ensures ROTL(x, 19) == Fips180.Rotr(x, 13) { MaskedShiftIsLogical(x, 13); }
  lemma Rotl10(x: long) ensures ROTL(x, 10) == Fips180.Rotr(x, 22) { MaskedShiftIsLogical(x, 22); }
  lemma Rotl26(x: long) ensures ROTL(x, 26) == Fips180.Rotr(x, 6) { MaskedShiftIsLogical(x, 6); }
  lemma Rotl21(x: long) ensures ROTL(x, 21) == Fips180.Rotr(x, 11) { MaskedShiftIsLogical(x, 11); }
  lemma Rotl7(x: long) ensures ROTL(x, 7) == Fips180.Rotr(x, 25) { MaskedShiftIsLogical(x, 25); }
  lemma Rotl25(x: long) ensures ROTL(x, 25) == Fips180.Rotr(x, 7) { MaskedShiftIsLogical(x, 7); }
  lemma Rotl14(x: long) ensures ROTL(x, 14) == Fips180.Rotr(x, 18) { MaskedShiftIsLogical(x, 18); }
  lemma Rotl15(x: long) ensures ROTL(x, 15) == Fips180.Rotr(x, 17) { MaskedShiftIsLogical(x, 17); }
  lemma Rotl13(x: long) ensures ROTL(x, 13) == Fips180.Rotr(x, 19) { MaskedShiftIsLogical(x, 19); }
  lemma Sr3(x: long) ensures SR(x, 3) == x >> 3 { MaskedShiftIsLogical(x, 3); }
  lemma Sr10(x: long) ensures SR(x, 10) == x >> 10 { MaskedShiftIsLogical(x, 10); }

  lemma E0Agrees(x: long)
    ensures E0(x) == Fips180.BigSigma0(x)
  {
    hide ROTL, Sar, Fips180.Rotr;
    Rotl30(x); Rotl19(x); Rotl10(x);
  }

  lemma E1Agrees(x: long)
    ensures E1(x) == Fips180.BigSigma1(x)
  {
    hide ROTL, Sar, Fips180.Rotr;
    Rotl26(x); Rotl21(x); Rotl7(x);
  }

  lemma O0Agrees(x: long)
    ensures O0(x) == Fips180.SmallSigma0(x)
  {
    hide ROTL, SR, Sar, Fips180.Rotr;
    Rotl25(x); Rotl14(x); Sr3(x);
  }

  lemma O1Agrees(x: long)
    ensures O1(x) == Fips180.SmallSigma1(x)
  {
    hide ROTL, SR, Sar, Fips180.Rotr;
    Rotl15(x); Rotl13(x); Sr10(x);
  }

  lemma MixAgrees(x: long, y: long, z: long)
    ensures CH(x, y, z) == Fips180.Ch(x, y, z)
    ensures MAJ(x, y, z) == Fips180.Maj(x, y, z)
  {
  }

  lemma TableAgrees()
    ensures K == Fips180.K && |K| == 64
  {
  }
}
