/** Bytes, fixed-width unsigned integers and their little-endian images. */
module Bytes {

  type byte = x: int | 0 <= x < 0x100
  type u8 = byte
  type u16 = x: int | 0 <= x < 0x1_0000
  type u32 = x: int | 0 <= x < 0x1_0000_0000

  const U32_LIMIT := 0x1_0000_0000

  /** C++ `x + 1` and `x - 1` on a `uint32_t`. */
  function Inc32(x: int): int { (x + 1) % 0x1_0000_0000 }
  function Dec32(x: int): int { (x - 1) % 0x1_0000_0000 }

  /** The image `memcpy_u` writes for a `uint16_t` and a `uint32_t` on a little-endian machine. */
  function Put16(x: int): (b: seq<byte>)
    ensures |b| == 2
  {
    [x % 256, x / 256 % 256]
  }

  function Put32(x: int): (b: seq<byte>)
    ensures |b| == 4
  {
    [x % 256, x / 256 % 256, x / 65536 % 256, x / 16777216 % 256]
  }

  /** What `memcpy_u` reads back from position `i`. */
  function Get16(b: seq<byte>, i: nat): u16
    requires i + 2 <= |b|
  {
    (b[i] as int) + 256 * (b[i + 1] as int)
  }

  function Get32(b: seq<byte>, i: nat): u32
    requires i + 4 <= |b|
  {
    (b[i] as int) + 256 * (b[i + 1] as int) + 65536 * (b[i + 2] as int) + 16777216 * (b[i + 3] as int)
  }

  lemma Get32Put32(pre: seq<byte>, x: int, post: seq<byte>)
    requires 0 <= x < U32_LIMIT
    ensures Get32(pre + Put32(x) + post, |pre|) == x
  {
    var b := pre + Put32(x) + post;
    assert b[|pre|..|pre| + 4] == Put32(x);
    assert forall k :: 0 <= k < 4 ==> b[|pre| + k] == Put32(x)[k];
    Digits(x);
  }

  lemma Digits(x: int)
    requires 0 <= x < U32_LIMIT
    ensures x == x % 256 + 256 * (x / 256 % 256) + 65536 * (x / 65536 % 256) + 16777216 * (x / 16777216 % 256)
  {
    var q := x / 256;
    var r := q / 256;
    assert x == x % 256 + 256 * q && q == q % 256 + 256 * r && r == r % 256 + 256 * (r / 256);
    assert x / 65536 == r && x / 16777216 == r / 256;
  }

  lemma Get16Put16(pre: seq<byte>, x: int, post: seq<byte>)
    requires 0 <= x < 0x1_0000
    ensures Get16(pre + Put16(x) + post, |pre|) == x
  {
    var b := pre + Put16(x) + post;
    assert forall k :: 0 <= k < 2 ==> b[|pre| + k] == Put16(x)[k];
  }

  /** `s` with the elements from position `i` on overwritten by `b`. */
  function Splice<T>(s: seq<T>, i: nat, b: seq<T>): (r: seq<T>)
    requires i + |b| <= |s|
    ensures |r| == |s|
  {
    s[..i] + b + s[i + |b|..]
  }

  lemma SpliceNothing<T>(s: seq<T>, i: nat)
    requires i <= |s|
    ensures Splice(s, i, []) == s
  {
  }

  /** Everything outside the overwritten region stays. */
  lemma SpliceFrame<T>(s: seq<T>, i: nat, b: seq<T>, len: nat)
    requires |b| <= len && i + len <= |s|
    ensures Splice(s, i, b)[..i] == s[..i] && Splice(s, i, b)[i + len..] == s[i + len..]
  {
  }

  lemma SpliceSplice<T>(s: seq<T>, i: nat, a: seq<T>, b: seq<T>)
    requires i + |a| + |b| <= |s|
    ensures Splice(Splice(s, i, a), i + |a|, b) == Splice(s, i, a + b)
  {
  }

  /** `memcpy` into a buffer. */
  method Store<T>(data: array<T>, at: nat, b: seq<T>)
    requires at + |b| <= data.Length
    modifies data
    ensures data[..] == Splice(old(data[..]), at, b)
  {
    forall k | 0 <= k < |b| {
      data[at + k] := b[k];
    }
  }

  /** A store that continues a region begun at `at`, of which `done` is already written. */
  method Emit<T>(data: array<T>, at: nat, ghost was: seq<T>, ghost done: seq<T>, index: nat, b: seq<T>)
    requires |was| == data.Length && index == |done| && at + index + |b| <= data.Length
    requires data[..] == Splice(was, at, done)
    modifies data
    ensures data[..] == Splice(was, at, done + b)
  {
    Store(data, at + index, b);
    SpliceSplice(was, at, done, b);
  }
}
