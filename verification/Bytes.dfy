/** Fixed-width integers and the byte layouts the harnesses build with `memcpy`
    (little-endian) and with the `pack_be*` helpers (big-endian). */
module Bytes {

  const TWO_16 := 0x1_0000
  const TWO_32 := 0x1_0000_0000
  const TWO_64 := 0x1_0000_0000_0000_0000

  type byte = x: int | 0 <= x < 0x100
  type u16 = x: int | 0 <= x < TWO_16
  type u32 = x: int | 0 <= x < TWO_32
  type u64 = x: int | 0 <= x < TWO_64

  /** A protobuf `bytes` field: never larger than 2 GiB. */
  type blob = s: seq<byte> | |s| < 0x8000_0000

  function Wrap16(x: nat): u16 { x % TWO_16 }

  function Wrap32(x: nat): u32 { x % TWO_32 }

  function Min(a: int, b: int): int { if a < b then a else b }

  function Max(a: int, b: int): int { if a < b then b else a }

  /** `std::clamp` */
  function Clamp(x: int, lo: int, hi: int): (r: int)
    requires lo <= hi
    ensures lo <= r <= hi
  {
    if x < lo then lo else if hi < x then hi else x
  }

  function Zeros(n: nat): (s: seq<byte>)
    ensures |s| == n && forall i :: 0 <= i < n ==> s[i] == 0
  {
    seq(n, _ => 0)
  }

  /** `std::string::resize(n, 0)`: cut or pad with zeros. */
  function Resize(s: seq<byte>, n: nat): (r: seq<byte>)
    ensures |r| == n
    ensures forall i :: 0 <= i < n ==> r[i] == if i < |s| then s[i] else 0
  {
    if n <= |s| then s[..n] else s + Zeros(n - |s|)
  }

  function Truncate(s: seq<byte>, cap: nat): (r: seq<byte>)
    ensures |r| == Min(|s|, cap) && r <= s
  {
    if |s| <= cap then s else s[..cap]
  }

  // Little-endian.

  function Le16(n: u16): (s: seq<byte>)
    ensures |s| == 2
  {
    [n % 0x100, n / 0x100]
  }

  function Le32(n: u32): (s: seq<byte>)
    ensures |s| == 4
  {
    Le16(n % TWO_16) + Le16(n / TWO_16)
  }

  function Le64(n: u64): (s: seq<byte>)
    ensures |s| == 8
  {
    Le32(n % TWO_32) + Le32(n / TWO_32)
  }

  function UnLe16(s: seq<byte>): u16
    requires |s| == 2
  {
    var lo: int, hi: int := s[0], s[1];
    lo + 0x100 * hi
  }

  function UnLe32(s: seq<byte>): u32
    requires |s| == 4
  {
    UnLe16(s[..2]) + TWO_16 * UnLe16(s[2..])
  }

  function UnLe64(s: seq<byte>): u64
    requires |s| == 8
  {
    UnLe32(s[..4]) + TWO_32 * UnLe32(s[4..])
  }

  lemma Le32RoundTrip(n: u32)
    ensures UnLe32(Le32(n)) == n
  {
    assert Le32(n)[..2] == Le16(n % TWO_16) && Le32(n)[2..] == Le16(n / TWO_16);
  }

  lemma Le64RoundTrip(n: u64)
    ensures UnLe64(Le64(n)) == n
  {
    assert Le64(n)[..4] == Le32(n % TWO_32) && Le64(n)[4..] == Le32(n / TWO_32);
    Le32RoundTrip(n % TWO_32);
    Le32RoundTrip(n / TWO_32);
  }

  // Big-endian (`pack_be16`, `pack_be32`, `pack_be64`).

  function Be16(n: u16): (s: seq<byte>)
    ensures |s| == 2
  {
    [n / 0x100, n % 0x100]
  }

  function Be32(n: u32): (s: seq<byte>)
    ensures |s| == 4
  {
    Be16(n / TWO_16) + Be16(n % TWO_16)
  }

  function Be64(n: u64): (s: seq<byte>)
    ensures |s| == 8
  {
    Be32(n / TWO_32) + Be32(n % TWO_32)
  }

  function UnBe16(s: seq<byte>): u16
    requires |s| == 2
  {
    var hi: int, lo: int := s[0], s[1];
    0x100 * hi + lo
  }

  function UnBe32(s: seq<byte>): u32
    requires |s| == 4
  {
    TWO_16 * UnBe16(s[..2]) + UnBe16(s[2..])
  }

  lemma Be32RoundTrip(n: u32)
    ensures UnBe32(Be32(n)) == n
  {
    assert Be32(n)[..2] == Be16(n / TWO_16) && Be32(n)[2..] == Be16(n % TWO_16);
  }

  // Byte order.

  /** The least significant byte comes first. */
  lemma LittleEndian(n: u32)
    ensures Le32(n) == [n % 256, n / 256 % 256, n / 0x1_0000 % 256, n / 0x100_0000]
    ensures n < 0x1_0000 ==> Le16(n) == [n % 256, n / 256]
  {
    Nested(n);
  }

  /** The most significant byte comes first. */
  lemma BigEndian(n: u32)
    ensures Be32(n) == [n / 0x100_0000, n / 0x1_0000 % 256, n / 256 % 256, n % 256]
    ensures n < 0x1_0000 ==> Be16(n) == [n / 256, n % 256]
  {
    Nested(n);
    TwoBytes(n / 0x100 % 0x100, n % 0x100);
  }

  lemma Nested(v: u32)
    ensures v / TWO_16 == v / 0x100 / 0x100 && v / 0x100_0000 == v / 0x100 / 0x100 / 0x100
    ensures v % TWO_16 == v / 0x100 % 0x100 * 0x100 + v % 0x100
  {
  }

  lemma TwoBytes(hi: byte, lo: byte)
    ensures (hi * 0x100 + lo) / 0x100 == hi && (hi * 0x100 + lo) % 0x100 == lo
  {
  }

  /** A 64-bit number is its two halves, the lower or the higher one first. */
  lemma Halves(n: u64)
    ensures Le64(n) == Le32(n % 0x1_0000_0000) + Le32(n / 0x1_0000_0000)
    ensures Be64(n) == Be32(n / 0x1_0000_0000) + Be32(n % 0x1_0000_0000)
  {
  }
}
