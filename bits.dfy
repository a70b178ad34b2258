// Bit-reversal of fixed-width words (Rust's `reverse_bits`) and the
// little-endian byte views the CRC engines use.
module Bits {

  /** `x.reverse_bits()` for a `u8`: bit i moves to bit 7 - i. */
  function Reverse8(x: bv8): bv8 {
    var a := ((x >> 1) & 0x55) | ((x & 0x55) << 1);
    var b := ((a >> 2) & 0x33) | ((a & 0x33) << 2);
    (b >> 4) | (b << 4)
  }

  /** `x.reverse_bits()` for a `u16`: bit i moves to bit 15 - i. */
  function Reverse16(x: bv16): bv16 {
    var a := ((x >> 1) & 0x5555) | ((x & 0x5555) << 1);
    var b := ((a >> 2) & 0x3333) | ((a & 0x3333) << 2);
    var c := ((b >> 4) & 0x0F0F) | ((b & 0x0F0F) << 4);
    (c >> 8) | (c << 8)
  }

  /** `x.reverse_bits()` for a `u32`: bit i moves to bit 31 - i. */
  function Reverse32(x: bv32): bv32 {
    var a := ((x >> 1) & 0x5555_5555) | ((x & 0x5555_5555) << 1);
    var b := ((a >> 2) & 0x3333_3333) | ((a & 0x3333_3333) << 2);
    var c := ((b >> 4) & 0x0F0F_0F0F) | ((b & 0x0F0F_0F0F) << 4);
    var d := ((c >> 8) & 0x00FF_00FF) | ((c & 0x00FF_00FF) << 8);
    (d >> 16) | (d << 16)
  }

  /** `x.reverse_bits()` for a `u64`: bit i moves to bit 63 - i. */
  function Reverse64(x: bv64): bv64 {
    var a := ((x >> 1) & 0x5555_5555_5555_5555) | ((x & 0x5555_5555_5555_5555) << 1);
    var b := ((a >> 2) & 0x3333_3333_3333_3333) | ((a & 0x3333_3333_3333_3333) << 2);
    var c := ((b >> 4) & 0x0F0F_0F0F_0F0F_0F0F) | ((b & 0x0F0F_0F0F_0F0F_0F0F) << 4);
    var d := ((c >> 8) & 0x00FF_00FF_00FF_00FF) | ((c & 0x00FF_00FF_00FF_00FF) << 8);
    var e := ((d >> 16) & 0x0000_FFFF_0000_FFFF) | ((d & 0x0000_FFFF_0000_FFFF) << 16);
    (e >> 32) | (e << 32)
  }

  // The swap networks above are bit reversals: each output bit is the
  // mirrored input bit.

  lemma Reverse8Bit(x: bv8, i: bv8)
    requires i < 8
    ensures (Reverse8(x) >> i) & 1 == (x >> (7 - i)) & 1
  {
  }

  lemma Reverse16Bit(x: bv16, i: bv16)
    requires i < 16
    ensures (Reverse16(x) >> i) & 1 == (x >> (15 - i)) & 1
  {
  }

  // The wider networks reverse each half and swap the halves, so every bit
  // lands where the 16- and 8-bit statements above put it.

  lemma Reverse32Halves(x: bv32)
    ensures Reverse32(x) == ((Reverse16((x & 0xFFFF) as bv16) as bv32) << 16) | (Reverse16((x >> 16) as bv16) as bv32)
  {
  }

  lemma Reverse64Halves(x: bv64)
    ensures Reverse64(x) == ((Reverse32((x & 0xFFFF_FFFF) as bv32) as bv64) << 32) | (Reverse32((x >> 32) as bv32) as bv64)
  {
  }

  // Reversal is an involution.

  lemma Reverse8Involutive(x: bv8)
    ensures Reverse8(Reverse8(x)) == x
  {
  }

  lemma Reverse16Involutive(x: bv16)
    ensures Reverse16(Reverse16(x)) == x
  {
  }

  lemma Reverse32Involutive(x: bv32)
    ensures Reverse32(Reverse32(x)) == x
  {
  }

  lemma Reverse64Involutive(x: bv64)
    ensures Reverse64(Reverse64(x)) == x
  {
  }

  /** XOR-ing the same mask twice cancels. */
  lemma XorCancel(x: bv64, y: bv64)
    ensures (x ^ y) ^ y == x
  {
  }

  /** Masking with `m` leaves nothing outside `m`, and changes nothing that has nothing there. */
  lemma NarrowWith(m: bv64, x: bv64)
    ensures (x & m) & !m == 0
    ensures x & !m == 0 ==> x & m == x
  {
  }

  /** The low 16 bits of a `u64` (Rust's `x as u16`). */
  function Low16(x: bv64): bv16 {
    (x & 0xFFFF) as bv16
  }

  /** The low 32 bits of a `u64` (Rust's `x as u32`). */
  function Low32(x: bv64): bv32 {
    (x & 0xFFFF_FFFF) as bv32
  }

  /** The high 32 bits of a `u64` (Rust's `(x >> 32) as u32`). */
  function High32(x: bv64): bv32 {
    (x >> 32) as bv32
  }

  /** The top 16 bits of a `u64` (Rust's `((x >> 32) >> 16) as u16`). */
  function High16(x: bv64): bv16 {
    ((x >> 32) >> 16) as bv16
  }

  /** Widening a `u16` to a `u64` and truncating back is the identity. */
  lemma Low16Widen(y: bv16)
    ensures Low16(y as bv64) == y
  {
  }

  /** A `u64` whose upper 48 bits are clear is the widening of its low 16 bits. */
  lemma Low16Narrow(x: bv64)
    requires x & !0xFFFF == 0
    ensures Low16(x) as bv64 == x
  {
  }

  lemma Low32Widen(y: bv32)
    ensures Low32(y as bv64) == y
  {
  }

  lemma Low32Narrow(x: bv64)
    requires x & !0xFFFF_FFFF == 0
    ensures Low32(x) as bv64 == x
  {
  }

  /** A `u32` assembled from four bytes, least significant first (`u32::from_le_bytes`). */
  function Le32(s: seq<bv8>): bv32
    requires |s| == 4
  {
    (s[0] as bv32) | ((s[1] as bv32) << 8) | ((s[2] as bv32) << 16) | ((s[3] as bv32) << 24)
  }

  /** A `u64` assembled from eight bytes, least significant first (`u64::from_le_bytes`). */
  function Le64(s: seq<bv8>): bv64
    requires |s| == 8
  {
    (Le32(s[..4]) as bv64) | ((Le32(s[4..]) as bv64) << 32)
  }

  /** Byte k of a `u32`, least significant first: the inverse of `Le32`. */
  function Byte32(x: bv32, k: nat): bv8
    requires k < 4
  {
    if k == 0 then (x & 0xFF) as bv8
    else if k == 1 then ((x >> 8) & 0xFF) as bv8
    else if k == 2 then ((x >> 16) & 0xFF) as bv8
    else ((x >> 24) & 0xFF) as bv8
  }

  lemma Le32Bytes(s: seq<bv8>)
    requires |s| == 4
    ensures Byte32(Le32(s), 0) == s[0] && Byte32(Le32(s), 1) == s[1]
    ensures Byte32(Le32(s), 2) == s[2] && Byte32(Le32(s), 3) == s[3]
  {
  }

  /** Reading a `u64` is reading its two `u32` halves, low half first. */
  lemma Le64Halves(s: seq<bv8>)
    requires |s| == 8
    ensures Low32(Le64(s)) == Le32(s[..4])
    ensures Low32(Le64(s) >> 32) == Le32(s[4..])
  {
  }

  /** The high half of a `u64` read from memory is the `u32` read from its last four bytes. */
  lemma Le64High(s: seq<bv8>)
    requires |s| == 8
    ensures Low32(Le64(s)) == Le32(s[..4])
    ensures High32(Le64(s)) == Le32(s[4..])
  {
    var lo, hi := Le32(s[..4]), Le32(s[4..]);
    assert Le64(s) == (lo as bv64) | ((hi as bv64) << 32);
    HalvesOf(lo, hi);
  }

  lemma HalvesOf(lo: bv32, hi: bv32)
    ensures Low32((lo as bv64) | ((hi as bv64) << 32)) == lo
    ensures High32((lo as bv64) | ((hi as bv64) << 32)) == hi
  {
  }

  /** Widening the low half is masking. */
  lemma Low32Mask(x: bv64)
    ensures Low32(x) as bv64 == x & 0xFFFF_FFFF
  {
  }

  /** Widening the high half is shifting. */
  lemma High32Shift(x: bv64)
    ensures High32(x) as bv64 == x >> 32
  {
  }
}
