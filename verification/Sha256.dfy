/** `str_sha256`: a buffer whose bytes are swapped in place so that little-endian loads yield
    big-endian words, then the schedule and round loops over mutable `long` variables. */
module Sha256 {
  import opened Bytes
  import opened Sha256Macros
  import Fips180

  /** Where the code stores byte `i` of the message. */
  function Swap(i: nat): (j: nat)
    ensures j / 4 == i / 4
  {
    i + 3 - 2 * (i % 4)
  }

  lemma SwapInvolutive(i: nat)
    ensures Swap(Swap(i)) == i
  {
  }

  /** The size of the buffer the code allocates. */
  function PaddedLength(n: nat): (l: nat)
    ensures l % 64 == 0 && n + 8 <= l
  {
    n + if n % 64 > 56 then 128 - n % 64 else 64 - n % 64
  }

  /** The message, the 0x80 byte and zeros, before the length is stored. */
  function Filled(m: seq<byte>): (p: seq<byte>)
    ensures |p| == PaddedLength(|m|)
  {
    m + [0x80] + Fips180.Zeros(PaddedLength(|m|) - |m| - 1)
  }

  /** The whole buffer, in message order: the last eight bytes hold the bit length. */
  function Padded(m: seq<byte>): (p: seq<byte>)
    ensures |p| == PaddedLength(|m|)
  {
    Filled(m)[..PaddedLength(|m|) - 8] + Fips180.BitLength(|m|)
  }

  /** The code's padding is the standard's padding except for messages of length 56 modulo 64,
      where the length overwrites the 0x80 byte and a block is missing. */
  lemma PaddedIsPad(m: seq<byte>)
    ensures Padded(m) == Fips180.Pad(m) <==> |m| % 64 != 56
  {
    var l := PaddedLength(|m|);
    if |m| % 64 != 56 {
      var z := Fips180.ZeroCount(|m|);
      assert l == |m| + 1 + z + 8;
      assert Filled(m)[..l - 8] == m + [0x80] + Fips180.Zeros(z);
    } else {
      assert |Fips180.Pad(m)| == |m| + 72;
    }
  }

  /** The buffer as laid out in memory. */
  ghost predicate Swapped(b: seq<byte>, p: seq<byte>) {
    |b| == |p| && |p| % 4 == 0 && forall i :: 0 <= i < |p| ==> Swap(i) < |p| && b[i] == p[Swap(i)]
  }

  lemma SwapFacts(l: nat)
    requires l % 4 == 0
    ensures forall k: nat :: Swap(Swap(k)) == k
    ensures forall k: nat :: k < l ==> Swap(k) < l
  {
  }

  method Fill(str: seq<byte>) returns (pp: array<byte>)
    ensures fresh(pp) && Swapped(pp[..], Filled(str))
  {
    hide Swap;
    var length := |str|;
    var l := PaddedLength(length);
    ghost var p := Filled(str);
    SwapFacts(l);
    pp := new byte[l];
    var i := 0;
    while i < length
      invariant 0 <= i <= length
      invariant forall k :: 0 <= k < l && Swap(k) < i ==> pp[k] == p[Swap(k)]
    {
      Put(pp, i, str[i]);
      i := i + 1;
    }
    Put(pp, i, 128);
    i := i + 1;
    while i < l
      invariant length + 1 <= i <= l
      invariant forall k :: 0 <= k < l && Swap(k) < i ==> pp[k] == p[Swap(k)]
    {
      Put(pp, i, 0);
      i := i + 1;
    }
  }

  /** `pp[i + 3 - 2 * (i % 4)] = c`, where `i` is a message position. */
  method Put(pp: array<byte>, i: nat, c: byte)
    requires i < pp.Length && pp.Length % 4 == 0
    modifies pp
    ensures forall k :: 0 <= k < pp.Length ==> pp[k] == if Swap(k) == i then c else old(pp[k])
  {
    SwapFacts(pp.Length);
    pp[i + 3 - 2 * (i % 4)] := c;
  }

  /** The two `long` stores write the bit length, byte-swapped word by word. */
  lemma StoredLength(n: nat, j: nat)
    requires j < 4
    ensures Put32(8 * n % U32_LIMIT)[j] == Fips180.BitLength(n)[7 - j]
    ensures Put32(n / 0x2000_0000 % U32_LIMIT)[j] == Fips180.BitLength(n)[3 - j]
  {
    var v := 8 * n;
    var lo, hi := v % U32_LIMIT, v / U32_LIMIT;
    assert hi == n / 0x2000_0000;
    Quotients(v);
    Bytes4(lo);
    Bytes4(hi % U32_LIMIT);
    ModBytes(v, hi, lo);
    ModBytes(hi, hi / U32_LIMIT, hi % U32_LIMIT);
  }

  lemma Quotients(v: nat)
    ensures v / 0x100_0000_0000_0000 == v / U32_LIMIT / 0x100_0000
    ensures v / 0x1_0000_0000_0000 == v / U32_LIMIT / 0x1_0000
    ensures v / 0x100_0000_0000 == v / U32_LIMIT / 0x100
  {
  }

  lemma Bytes4(x: u32)
    ensures x / 0x100_0000 == x / 0x100_0000 % 256
  {
  }

  lemma ModBytes(v: nat, q: nat, r: u32)
    requires v == q * U32_LIMIT + r
    ensures r % 256 == v % 256
    ensures r / 0x100 % 256 == v / 0x100 % 256
    ensures r / 0x1_0000 % 256 == v / 0x1_0000 % 256
    ensures r / 0x100_0000 % 256 == v / 0x100_0000 % 256
  {
    ModByte0(q, r);
    ModByte1(q, r);
    ModByte2(q, r);
    ModByte3(q, r);
  }

  lemma ModByte0(q: nat, r: nat)
    ensures (q * U32_LIMIT + r) % 256 == r % 256
  {
    var k, t := r / 0x100, r % 0x100;
    assert q * U32_LIMIT + r == 256 * (q * 0x100_0000 + k) + t;
  }

  lemma ModByte1(q: nat, r: nat)
    ensures (q * U32_LIMIT + r) / 0x100 % 256 == r / 0x100 % 256
  {
    var k, t := r / 0x100, r % 0x100;
    assert q * U32_LIMIT + r == 0x100 * (q * 0x100_0000 + k) + t;
    assert (q * U32_LIMIT + r) / 0x100 == 256 * (q * 0x1_0000) + k;
  }

  lemma ModByte2(q: nat, r: nat)
    ensures (q * U32_LIMIT + r) / 0x1_0000 % 256 == r / 0x1_0000 % 256
  {
    var k, t := r / 0x1_0000, r % 0x1_0000;
    assert q * U32_LIMIT + r == 0x1_0000 * (q * 0x1_0000 + k) + t;
    assert (q * U32_LIMIT + r) / 0x1_0000 == 256 * (q * 0x100) + k;
  }

  lemma ModByte3(q: nat, r: nat)
    ensures (q * U32_LIMIT + r) / 0x100_0000 % 256 == r / 0x100_0000 % 256
  {
    var k, t := r / 0x100_0000, r % 0x100_0000;
    assert q * U32_LIMIT + r == 0x100_0000 * (q * 0x100 + k) + t;
    assert (q * U32_LIMIT + r) / 0x100_0000 == 256 * q + k;
  }

  method StoreLength(pp: array<byte>, ghost str: seq<byte>, length: nat)
    requires length == |str| && Swapped(pp[..], Filled(str))
    modifies pp
    ensures Swapped(pp[..], Padded(str))
  {
    hide Swap;
    var l := PaddedLength(length);
    assert pp.Length == l;
    Store(pp, l - 4, Put32(8 * length % U32_LIMIT));
    Store(pp, l - 8, Put32(length / 0x2000_0000 % U32_LIMIT));
    forall i | 0 <= i < l
      ensures Swap(i) < l && pp[i] == Padded(str)[Swap(i)]
    {
      SwapFacts(l);
      if i >= l - 8 {
        var j := if i < l - 4 then i - (l - 8) else i - (l - 4);
        StoredLength(length, j);
        SwapInLast(l, i, j);
      } else {
        SwapBefore(l, i);
      }
    }
  }

  lemma SwapInLast(l: nat, i: nat, j: nat)
    requires l % 4 == 0 && l >= 8 && l - 8 <= i < l
    requires j == if i < l - 4 then i - (l - 8) else i - (l - 4)
    ensures Swap(i) == if i < l - 4 then l - 5 - j else l - 1 - j
  {
  }

  lemma SwapBefore(l: nat, i: nat)
    requires l % 4 == 0 && i < l - 8
    ensures Swap(i) < l - 8
  {
  }

  /** A little-endian load of a `long`. */
  function LittleEndian(b0: byte, b1: byte, b2: byte, b3: byte): long {
    ((b3 as long) << 24) | ((b2 as long) << 16) | ((b1 as long) << 8) | (b0 as long)
  }

  lemma LittleEndianIsWordOf(b0: byte, b1: byte, b2: byte, b3: byte)
    ensures LittleEndian(b0, b1, b2, b3) == Fips180.WordOf(b3, b2, b1, b0)
  {
  }

  /** `((long *)p)[i]`, with `at` the byte offset. */
  function LoadLong(b: seq<byte>, at: nat): long
    requires at + 4 <= |b|
  {
    LittleEndian(b[at], b[at + 1], b[at + 2], b[at + 3])
  }

  lemma SwapInWord(at: nat)
    requires at % 4 == 0
    ensures Swap(at) == at + 3 && Swap(at + 1) == at + 2 && Swap(at + 2) == at + 1 && Swap(at + 3) == at
  {
  }

  /** The swap and the little-endian load cancel: words come out big-endian. */
  lemma LoadIsBlockWord(b: seq<byte>, p: seq<byte>, off: nat, t: nat)
    requires Swapped(b, p) && off % 4 == 0 && off + 64 <= |p| && t < 16
    ensures LoadLong(b, off + 4 * t) == Fips180.BlockWord(p[off..off + 64], t)
  {
    hide LittleEndian, Fips180.WordOf, Swap;
    var at := off + 4 * t;
    SwapInWord(at);
    var block := p[off..off + 64];
    LittleEndianIsWordOf(b[at], b[at + 1], b[at + 2], b[at + 3]);
    assert block[4 * t] == p[at] && block[4 * t + 1] == p[at + 1];
    assert block[4 * t + 2] == p[at + 2] && block[4 * t + 3] == p[at + 3];
  }

  /** The schedule step of the code. */
  function Extend(w2: long, w7: long, w15: long, w16: long): long {
    Fips180.Add(Fips180.Add(Fips180.Add(O1(w2), w7), O0(w15)), w16)
  }

  lemma ScheduleAgrees(block: seq<byte>, t: nat, w2: long, w7: long, w15: long, w16: long)
    requires |block| == 64 && 16 <= t
    requires w2 == Fips180.Schedule(block, t - 2) && w7 == Fips180.Schedule(block, t - 7)
    requires w15 == Fips180.Schedule(block, t - 15) && w16 == Fips180.Schedule(block, t - 16)
    ensures Extend(w2, w7, w15, w16) == Fips180.Schedule(block, t)
  {
    hide O0, O1, Fips180.Add, Fips180.SmallSigma0, Fips180.SmallSigma1, Fips180.BlockWord;
    O1Agrees(w2);
    O0Agrees(w15);
  }

  lemma ScheduleStarts(block: seq<byte>, t: nat)
    requires |block| == 64 && t < 16
    ensures Fips180.Schedule(block, t) == Fips180.BlockWord(block, t)
  {
  }

  method LoadSchedule(pp: array<byte>, off: nat, ghost p: seq<byte>) returns (W: array<long>)
    requires Swapped(pp[..], p) && off % 4 == 0 && off + 64 <= |p|
    ensures fresh(W) && W.Length == 64
    ensures forall j :: 0 <= j < 64 ==> W[j] == Fips180.Schedule(p[off..off + 64], j)
  {
    hide LoadLong, Swapped, Swap, Fips180.BlockWord;
    hide Extend, Fips180.Schedule;
    ghost var block := p[off..off + 64];
    W := new long[64];
    var i := 0;
    while i < 16
      invariant 0 <= i <= 16
      invariant forall j :: 0 <= j < i ==> W[j] == Fips180.Schedule(block, j)
    {
      assert |pp[..]| == |p| by { SwappedLength(pp[..], p); }
      LoadIsBlockWord(pp[..], p, off, i);
      ScheduleStarts(block, i);
      W[i] := LoadLong(pp[..], off + 4 * i);
      i := i + 1;
    }
    while i < 64
      invariant 16 <= i <= 64
      invariant forall j :: 0 <= j < i ==> W[j] == Fips180.Schedule(block, j)
    {
      ScheduleAgrees(block, i, W[i - 2], W[i - 7], W[i - 15], W[i - 16]);
      W[i] := Extend(W[i - 2], W[i - 7], W[i - 15], W[i - 16]);
      i := i + 1;
    }
  }

  lemma SwappedLength(b: seq<byte>, p: seq<byte>)
    requires Swapped(b, p)
    ensures |b| == |p|
  {
  }

  /** The two temporaries of a round. */
  function Temp1(e: long, f: long, g: long, h: long, k: long, w: long): long {
    Fips180.Add(Fips180.Add(Fips180.Add(Fips180.Add(h, E1(e)), CH(e, f, g)), k), w)
  }

  function Temp2(a: long, b: long, c: long): long { Fips180.Add(E0(a), MAJ(a, b, c)) }

  lemma RoundAgrees(v: Fips180.Vars, k: long, w: long)
    ensures var t1, t2 := Temp1(v.e, v.f, v.g, v.h, k, w), Temp2(v.a, v.b, v.c);
      Fips180.Round(v, k, w) == Fips180.Vars(Fips180.Add(t1, t2), v.a, v.b, v.c, Fips180.Add(v.d, t1), v.e, v.f, v.g)
  {
    hide E0, E1, CH, MAJ, Fips180.Add, Fips180.BigSigma0, Fips180.BigSigma1, Fips180.Ch, Fips180.Maj;
    E1Agrees(v.e);
    E0Agrees(v.a);
    MixAgrees(v.e, v.f, v.g);
    MixAgrees(v.a, v.b, v.c);
  }

  /** One block: `A..H` start from the hash variables and are added to them at the end. */
  method Compress(W: array<long>, ghost block: seq<byte>, v: Fips180.Vars) returns (r: Fips180.Vars)
    requires W.Length == 64 && |block| == 64
    requires forall j :: 0 <= j < 64 ==> W[j] == Fips180.Schedule(block, j)
    ensures r == Fips180.AddVars(Fips180.Rounds(v, block, 64), v)
  {
    hide Temp1, Temp2, Fips180.Add, Fips180.Round, Fips180.Schedule, K, Fips180.K;
    TableAgrees();
    var A, B, C, D, E, F, G, H := v.a, v.b, v.c, v.d, v.e, v.f, v.g, v.h;
    var i := 0;
    while i < 64
      invariant 0 <= i <= 64
      invariant Fips180.Vars(A, B, C, D, E, F, G, H) == Fips180.Rounds(v, block, i)
    {
      RoundAgrees(Fips180.Vars(A, B, C, D, E, F, G, H), K[i], W[i]);
      var T1 := Temp1(E, F, G, H, K[i], W[i]);
      var T2 := Temp2(A, B, C);
      H := G;
      G := F;
      F := E;
      E := Fips180.Add(D, T1);
      D := C;
      C := B;
      B := A;
      A := Fips180.Add(T1, T2);
      i := i + 1;
    }
    r := Fips180.Vars(Fips180.Add(A, v.a), Fips180.Add(B, v.b), Fips180.Add(C, v.c), Fips180.Add(D, v.d),
                      Fips180.Add(E, v.e), Fips180.Add(F, v.f), Fips180.Add(G, v.g), Fips180.Add(H, v.h));
  }

  function HexDigit(d: nat): char
    requires d < 16
  {
    "0123456789ABCDEF"[d]
  }

  function HexValue(c: char): int {
    if '0' <= c <= '9' then c as int - '0' as int else c as int - 'A' as int + 10
  }

  /** `%0<width>X`. */
  function UpperHex(x: nat, width: nat): (s: string)
    ensures |s| == width
  {
    if width == 0 then "" else UpperHex(x / 16, width - 1) + [HexDigit(x % 16)]
  }

  /** `s` spells the bytes `b`, two digits each. */
  ghost predicate Spells(s: string, b: seq<byte>) {
    |s| == 2 * |b| && forall i :: 0 <= i < |b| ==> 16 * HexValue(s[2 * i]) + HexValue(s[2 * i + 1]) == b[i]
  }

  lemma HexDigitValue(d: nat)
    requires d < 16
    ensures HexValue(HexDigit(d)) == d
  {
  }

  lemma SpellsAppend(s: string, b: seq<byte>, t: string, c: seq<byte>)
    requires Spells(s, b) && Spells(t, c)
    ensures Spells(s + t, b + c)
  {
    forall i | 0 <= i < |b + c|
      ensures 16 * HexValue((s + t)[2 * i]) + HexValue((s + t)[2 * i + 1]) == (b + c)[i]
    {
      if i >= |b| {
        assert (s + t)[2 * i] == t[2 * (i - |b|)] && (s + t)[2 * i + 1] == t[2 * (i - |b|) + 1];
      }
    }
  }

  /** Printing a number in hexadecimal spells its big-endian bytes. */
  lemma UpperHexSpells(x: nat, n: nat)
    ensures Spells(UpperHex(x, 2 * n), Fips180.BigEndian(x, n))
  {
    if n > 0 {
      var b, rest := x % 256, x / 256;
      NibblesOf(x);
      PairSpells(b);
      UpperHexSpells(rest, n - 1);
      UpperHexStep(x, n);
      hide Spells, HexDigit, UpperHex;
      var pair := [HexDigit(b / 16), HexDigit(b % 16)];
      SpellsAppend(UpperHex(rest, 2 * (n - 1)), Fips180.BigEndian(rest, n - 1), pair, [b]);
    } else {
      assert UpperHex(x, 0) == "" && Fips180.BigEndian(x, 0) == [];
    }
  }

  lemma UpperHexStep(x: nat, n: nat)
    requires n > 0
    ensures UpperHex(x, 2 * n) == UpperHex(x / 256, 2 * (n - 1)) + [HexDigit(x % 256 / 16), HexDigit(x % 256 % 16)]
  {
    NibblesOf(x);
    hide HexDigit;
    var a := UpperHex(x / 256, 2 * n - 2);
    assert UpperHex(x / 16, 2 * n - 1) == UpperHex(x / 16 / 16, 2 * n - 2) + [HexDigit(x / 16 % 16)];
    assert UpperHex(x, 2 * n) == UpperHex(x / 16, 2 * n - 1) + [HexDigit(x % 16)];
  }

  lemma NibblesOf(x: nat)
    ensures x / 16 / 16 == x / 256 && x / 16 % 16 == x % 256 / 16 && x % 16 == x % 256 % 16
  {
    var q, b := x / 256, x % 256;
    assert x == 16 * (16 * q + b / 16) + b % 16;
  }

  lemma PairSpells(b: byte)
    ensures Spells([HexDigit(b / 16), HexDigit(b % 16)], [b])
  {
    HexDigitValue(b / 16);
    HexDigitValue(b % 16);
  }

  function WordHex(w: long): (s: string)
    ensures |s| == 8
  {
    UpperHex(w as nat, 8)
  }

  /** The closing `sprintf`. */
  function Print(v: Fips180.Vars): string {
    WordHex(v.a) + WordHex(v.b) + WordHex(v.c) + WordHex(v.d)
    + WordHex(v.e) + WordHex(v.f) + WordHex(v.g) + WordHex(v.h)
  }

  lemma WordSpelled(w: long)
    ensures Spells(WordHex(w), Fips180.WordBytes(w))
  {
    UpperHexSpells(w as nat, 4);
  }

  lemma PrintSpellsDigest(v: Fips180.Vars)
    ensures Spells(Print(v), Fips180.DigestOf(v))
  {
    hide Spells, WordHex, Fips180.WordBytes;
    var s, b := WordHex(v.a), Fips180.WordBytes(v.a);
    WordSpelled(v.a);
    s, b := ExtendSpelling(s, b, v.b);
    s, b := ExtendSpelling(s, b, v.c);
    s, b := ExtendSpelling(s, b, v.d);
    s, b := ExtendSpelling(s, b, v.e);
    s, b := ExtendSpelling(s, b, v.f);
    s, b := ExtendSpelling(s, b, v.g);
    s, b := ExtendSpelling(s, b, v.h);
  }

  lemma ExtendSpelling(s: string, b: seq<byte>, w: long) returns (s': string, b': seq<byte>)
    requires Spells(s, b)
    ensures s' == s + WordHex(w) && b' == b + Fips180.WordBytes(w)
    ensures Spells(s', b')
  {
    WordSpelled(w);
    SpellsAppend(s, b, WordHex(w), Fips180.WordBytes(w));
    s', b' := s + WordHex(w), b + Fips180.WordBytes(w);
  }

  /** The whole function. For every message it prints the hash of its own padded buffer; unless the
      length is 56 modulo 64 that is the digest FIPS 180-4 defines. */
  method StrSha256(str: seq<byte>) returns (sha256: string)
    requires |str| < 0x8000_0000 - 128
    ensures sha256 == Print(Fips180.HashBlocks(Padded(str), PaddedLength(|str|) / 64))
    ensures |str| % 64 != 56 ==> Spells(sha256, Fips180.Sha256(str))
  {
    hide Print, Swapped, Fips180.AddVars, Fips180.Rounds, Fips180.Schedule, PaddedLength, Fips180.Pad, Padded;
    hide Spells, Fips180.DigestOf;
    var l := PaddedLength(|str|);
    ghost var p := Padded(str);
    var pp := Fill(str);
    StoreLength(pp, str, |str|);
    var v := Fips180.Vars(0x6a09e667, 0xbb67ae85, 0x3c6ef372, 0xa54ff53a,
                          0x510e527f, 0x9b05688c, 0x1f83d9ab, 0x5be0cd19);
    ghost var n, count := 0, l / 64;
    assert l == 64 * count && count == |p| / 64;
    var off := 0;
    while off < l
      invariant 0 <= n <= count && off == 64 * n
      invariant v == Fips180.HashBlocks(p, n)
      invariant Swapped(pp[..], p)
    {
      assert p[off..off + 64] == p[64 * (n + 1 - 1)..64 * (n + 1)];
      var W := LoadSchedule(pp, off, p);
      v := Compress(W, p[off..off + 64], v);
      off, n := off + 64, n + 1;
    }
    assert n == count;
    sha256 := Print(v);
    PrintSpellsDigest(v);
    PaddedIsPad(str);
  }
}
