// CRC-32C (the Castagnoli CRC of section 12.1 of RFC 3720) as the two
// hand-written iSCSI kernels compute it: the hardware CRC instructions
// (`_mm_crc32_u8/u32/u64`, `__crc32cb/cw/cd`), carry-less multiplication
// (`_mm_clmulepi64_si128`, `pmull`), the folding of vector lanes, `xnmodp`
// and `crc_shift`, and the alignment prologue and tail loops both kernels share.
module Crc32c {
  import opened Bits
  import opened Vectors
  import Rocksoft

  /** The CRC-32C polynomial 0x1EDC6F41 with its bits reversed, as the reflected register
    * divides by it. */
  const Poly: bv32 := 0x82F6_3B78

  /** One division step of the reflected register. */
  function Halve(crc: bv32): bv32 {
    if crc & 1 == 1 then (crc >> 1) ^ Poly else crc >> 1
  }

  /** `k` division steps. */
  function Halves(crc: bv32, k: nat): bv32 {
    if k == 0 then crc else Halve(Halves(crc, k - 1))
  }

  /** `_mm_crc32_u8` / `__crc32cb`: one byte into the register, least significant bit first. */
  function U8(crc: bv32, b: bv8): bv32 {
    Halves(crc ^ (b as bv32), 8)
  }

  /** The register after feeding `data`, byte by byte, into a register holding `crc`. */
  function Bytes(crc: bv32, data: seq<bv8>): bv32
    decreases |data|
  {
    if |data| == 0 then crc else Bytes(U8(crc, data[0]), data[1..])
  }

  /** Feeding `s` then `t` is feeding `s + t`. */
  lemma {:induction false} BytesAppend(crc: bv32, s: seq<bv8>, t: seq<bv8>)
    ensures Bytes(crc, s + t) == Bytes(Bytes(crc, s), t)
    decreases |s|
  {
    if |s| > 0 {
      assert (s + t)[0] == s[0];
      assert (s + t)[1..] == s[1..] + t;
      BytesAppend(U8(crc, s[0]), s[1..], t);
    } else {
      assert s + t == t;
    }
  }

  /** The register after feeding the low `k` bytes of `v`, least significant first. */
  function Feed(crc: bv32, v: bv64, k: nat): bv32
    decreases k
  {
    if k == 0 then crc else Feed(U8(crc, (v & 0xFF) as bv8), v >> 8, k - 1)
  }

  /** `_mm_crc32_u32` / `__crc32cw`: the four bytes of `v` in memory order. */
  function U32(crc: bv32, v: bv32): bv32 {
    Feed(crc, v as bv64, 4)
  }

  /** `_mm_crc32_u64` / `__crc32cd`: the eight bytes of `v` in memory order. */
  function U64(crc: bv32, v: bv64): bv32 {
    Feed(crc, v, 8)
  }

  /** `v` with its low `k` bytes shifted out. */
  function DropBytes(v: bv64, k: nat): bv64
    decreases k
  {
    if k == 0 then v else DropBytes(v >> 8, k - 1)
  }

  /** Feeding `k + m` bytes is feeding `k` and then the `m` after them. */
  lemma {:induction false} FeedSplit(crc: bv32, v: bv64, k: nat, m: nat)
    ensures Feed(crc, v, k + m) == Feed(Feed(crc, v, k), DropBytes(v, k), m)
    decreases k
  {
    if k > 0 {
      FeedSplit(U8(crc, (v & 0xFF) as bv8), v >> 8, k - 1, m);
    }
  }

  /** The low `k` bytes of `v` and `w` agree. */
  ghost predicate SameLowBytes(v: bv64, w: bv64, k: nat)
    decreases k
  {
    k == 0 || (v & 0xFF == w & 0xFF && SameLowBytes(v >> 8, w >> 8, k - 1))
  }

  /** Feeding reads only the bytes it feeds. */
  lemma {:induction false} FeedSame(crc: bv32, v: bv64, w: bv64, k: nat)
    requires SameLowBytes(v, w, k)
    ensures Feed(crc, v, k) == Feed(crc, w, k)
    decreases k
  {
    if k > 0 {
      FeedSame(U8(crc, (v & 0xFF) as bv8), v >> 8, w >> 8, k - 1);
    }
  }

  /** A 64-bit CRC step is two 32-bit steps, low half first. */
  lemma U64Halves(crc: bv32, v: bv64)
    ensures U64(crc, v) == U32(U32(crc, Low32(v)), High32(v))
  {
    FeedSplit(crc, v, 4, 4);
    LowHalfBytes(v);
    FeedSame(crc, v, Low32(v) as bv64, 4);
    HighHalfBytes(v);
    FeedSame(Feed(crc, v, 4), DropBytes(v, 4), High32(v) as bv64, 4);
  }

  lemma SameLowBytesStep(v: bv64, w: bv64, k: nat, m: nat)
    requires m == k + 1
    requires v & 0xFF == w & 0xFF && SameLowBytes(v >> 8, w >> 8, k)
    ensures SameLowBytes(v, w, m)
  {
  }

  /** The low four bytes of a `u64` are those of its low half. */
  lemma LowHalfBytes(v: bv64)
    ensures SameLowBytes(v, Low32(v) as bv64, 4)
  {
    MaskedBytes(v);
    Low32Mask(v);
  }

  lemma MaskedBytes(v: bv64)
    ensures SameLowBytes(v, v & 0xFFFF_FFFF, 4)
  {
    var w := v & 0xFFFF_FFFF;
    var v1, w1 := v >> 8, w >> 8;
    var v2, w2 := v1 >> 8, w1 >> 8;
    var v3, w3 := v2 >> 8, w2 >> 8;
    SameLowBytesStep(v3, w3, 0, 1);
    SameLowBytesStep(v2, w2, 1, 2);
    SameLowBytesStep(v1, w1, 2, 3);
    SameLowBytesStep(v, w, 3, 4);
  }

  /** The bytes after the fourth of a `u64` are those of its high half. */
  lemma HighHalfBytes(v: bv64)
    ensures SameLowBytes(DropBytes(v, 4), High32(v) as bv64, 4)
  {
    DropFour(v);
    SameLowBytesRefl(v >> 32, 4);
    High32Shift(v);
  }

  lemma DropFour(v: bv64)
    ensures DropBytes(v, 4) == v >> 32
  {
    assert DropBytes(v, 4) == (((v >> 8) >> 8) >> 8) >> 8;
  }

  lemma {:induction false} SameLowBytesRefl(v: bv64, k: nat)
    ensures SameLowBytes(v, v, k)
    decreases k
  {
    if k > 0 {
      SameLowBytesRefl(v >> 8, k - 1);
    }
  }

  /** `*(const uint64_t*)(buf + i)`: eight bytes read little-endian. */
  function Load64(data: seq<bv8>, i: nat): bv64
    requires i + 8 <= |data|
  {
    (data[i] as bv64) | ((data[i + 1] as bv64) << 8) | ((data[i + 2] as bv64) << 16)
    | ((data[i + 3] as bv64) << 24) | ((data[i + 4] as bv64) << 32) | ((data[i + 5] as bv64) << 40)
    | ((data[i + 6] as bv64) << 48) | ((data[i + 7] as bv64) << 56)
  }

  /** The low `n` bytes of `v`, least significant first, are `data[i..i + n]`. */
  ghost predicate BytesAt(v: bv64, data: seq<bv8>, i: nat, n: nat)
    requires i + n <= |data|
    decreases n
  {
    n == 0 || ((v & 0xFF) as bv8 == data[i] && BytesAt(v >> 8, data, i + 1, n - 1))
  }

  /** Feeding the bytes of a value is feeding them from memory. */
  lemma {:induction false} FeedBytesAt(crc: bv32, v: bv64, data: seq<bv8>, i: nat, n: nat)
    requires i + n <= |data| && BytesAt(v, data, i, n)
    ensures Feed(crc, v, n) == Bytes(crc, data[i..i + n])
    decreases n
  {
    if n > 0 {
      FeedBytesAt(U8(crc, data[i]), v >> 8, data, i + 1, n - 1);
      assert data[i..i + n][0] == data[i] && data[i..i + n][1..] == data[i + 1..i + n];
    }
  }

  lemma BytesAtStep(v: bv64, data: seq<bv8>, i: nat, n: nat, m: nat)
    requires i + m <= |data| && m == n + 1
    requires (v & 0xFF) as bv8 == data[i] && BytesAt(v >> 8, data, i + 1, n)
    ensures BytesAt(v, data, i, m)
  {
  }

  /** Byte `k` of a word read from memory is the byte at `i + k`. */
  ghost predicate LoadedBytes(v: bv64, data: seq<bv8>, i: nat)
    requires i + 8 <= |data|
  {
    (v & 0xFF) as bv8 == data[i]
    && ((v >> 8) & 0xFF) as bv8 == data[i + 1]
    && (((v >> 8) >> 8) & 0xFF) as bv8 == data[i + 2]
    && ((((v >> 8) >> 8) >> 8) & 0xFF) as bv8 == data[i + 3]
    && (((((v >> 8) >> 8) >> 8) >> 8) & 0xFF) as bv8 == data[i + 4]
    && ((((((v >> 8) >> 8) >> 8) >> 8) >> 8) & 0xFF) as bv8 == data[i + 5]
    && (((((((v >> 8) >> 8) >> 8) >> 8) >> 8) >> 8) & 0xFF) as bv8 == data[i + 6]
    && ((((((((v >> 8) >> 8) >> 8) >> 8) >> 8) >> 8) >> 8) & 0xFF) as bv8 == data[i + 7]
  }

  lemma Load64Bytes(data: seq<bv8>, i: nat)
    requires i + 8 <= |data|
    ensures LoadedBytes(Load64(data, i), data, i)
  {
  }

  lemma LoadedBytesAt(v: bv64, data: seq<bv8>, i: nat)
    requires i + 8 <= |data| && LoadedBytes(v, data, i)
    ensures BytesAt(v, data, i, 8)
  {
    var v1 := v >> 8;
    var v2 := v1 >> 8;
    var v3 := v2 >> 8;
    var v4 := v3 >> 8;
    var v5 := v4 >> 8;
    var v6 := v5 >> 8;
    var v7 := v6 >> 8;
    assert BytesAt(v7 >> 8, data, i + 8, 0);
    BytesAtStep(v7, data, i + 7, 0, 1);
    BytesAtStep(v6, data, i + 6, 1, 2);
    BytesAtStep(v5, data, i + 5, 2, 3);
    BytesAtStep(v4, data, i + 4, 3, 4);
    BytesAtStep(v3, data, i + 3, 4, 5);
    BytesAtStep(v2, data, i + 2, 5, 6);
    BytesAtStep(v1, data, i + 1, 6, 7);
    BytesAtStep(v, data, i, 7, 8);
  }

  /** A 64-bit CRC step over a word read from memory is eight byte steps over the same bytes. */
  lemma U64Load(crc: bv32, data: seq<bv8>, i: nat)
    requires i + 8 <= |data|
    ensures U64(crc, Load64(data, i)) == Bytes(crc, data[i..i + 8])
  {
    Load64Bytes(data, i);
    LoadedBytesAt(Load64(data, i), data, i);
    FeedBytesAt(crc, Load64(data, i), data, i, 8);
  }

  /** Feeding one more byte. */
  lemma BytesSnoc(crc: bv32, data: seq<bv8>, a: nat, i: nat)
    requires a <= i < |data|
    ensures Bytes(crc, data[a..i + 1]) == U8(Bytes(crc, data[a..i]), data[i])
  {
    assert data[a..i + 1] == data[a..i] + [data[i]];
    BytesAppend(crc, data[a..i], [data[i]]);
  }

  /** Feeding one more word read from memory. */
  lemma BytesWord(crc: bv32, data: seq<bv8>, a: nat, i: nat)
    requires a <= i && i + 8 <= |data|
    ensures Bytes(crc, data[a..i + 8]) == U64(Bytes(crc, data[a..i]), Load64(data, i))
  {
    assert data[a..i + 8] == data[a..i] + data[i..i + 8];
    BytesAppend(crc, data[a..i], data[i..i + 8]);
    U64Load(Bytes(crc, data[a..i]), data, i);
  }

  /** `_mm_loadu_si128` / `vld1q_u64`: sixteen bytes as two little-endian halves. */
  function Load128(data: seq<bv8>, i: nat): Vec128
    requires i + 16 <= |data|
  {
    Vec128(Load64(data, i), Load64(data, i + 8))
  }

  /** `_mm_xor_si128` / `veorq_u64`. */
  function Xor(a: Vec128, b: Vec128): Vec128 {
    Vec128(a.lo ^ b.lo, a.hi ^ b.hi)
  }

  /** `^` on 64-bit words. */
  function Xor64(a: bv64, b: bv64): bv64 {
    a ^ b
  }

  /** `_mm_cvtsi32_si128(c)` / `(uint64x2_t){c, 0}`: a CRC register in the low lane. */
  function Scalar(c: bv32): Vec128 {
    Vec128(c as bv64, 0)
  }

  /** The carry-less product of `a` with the low `i` bits of `b`: `a` is added for each set
    * bit of `b`, shifted up by that bit's position. */
  function ClMulBits(a: bv128, b: bv64, i: nat): bv128
    decreases i
  {
    if i == 0 then 0
    else (if b & 1 == 1 then a else 0) ^ ClMulBits(a << 1, b >> 1, i - 1)
  }

  /** `_mm_clmulepi64_si128` / `pmull`: the 128-bit carry-less product of two 64-bit
    * polynomials. */
  function ClMul(a: bv64, b: bv64): Vec128 {
    var p := ClMulBits(a as bv128, b, 64);
    Vec128((p & 0xFFFF_FFFF_FFFF_FFFF) as bv64, (p >> 64) as bv64)
  }

  /** One folding step of a lane: the low half times `k.lo` and the high half times `k.hi`,
    * added to `d`. It is `clmul_lo`/`clmul_hi` with two XORs in the SSE kernel, `veor3q_u64`
    * after `clmul_lo_eor3`/`clmul_hi_eor3` in NEON's large path, and `clmul_lo_e` then
    * `clmul_hi_e` in its small path. */
  function FoldLane(x: Vec128, k: Vec128, d: Vec128): Vec128 {
    Xor(ClMul(x.hi, k.hi), Xor(ClMul(x.lo, k.lo), d))
  }

  /** `n` lanes loaded from consecutive 16-byte slots at `at`. */
  function LoadLanes(data: seq<bv8>, at: nat, n: nat): (x: seq<Vec128>)
    requires at + 16 * n <= |data|
    ensures |x| == n
  {
    seq(n, i requires 0 <= i < n => Load128(data, at + 16 * i))
  }

  /** Every lane folded with the slot of the same index at `at`. */
  function FoldLanes(x: seq<Vec128>, k: Vec128, data: seq<bv8>, at: nat): (y: seq<Vec128>)
    requires at + 16 * |x| <= |data|
    ensures |y| == |x|
  {
    seq(|x|, i requires 0 <= i < |x| => FoldLane(x[i], k, Load128(data, at + 16 * i)))
  }

  /** `t` chunks are one chunk and `t - 1` more. */
  lemma PeelRound(stride: nat, t: nat)
    requires t >= 1
    ensures stride * t == stride + stride * (t - 1)
  {
  }

  /** The lanes after `t` rounds of folding over the chunks at `at`, `at + stride`, …,
    * where `stride = 16·|x|` is the size of one chunk. */
  function Lanes(x: seq<Vec128>, k: Vec128, data: seq<bv8>, at: nat, stride: nat, t: nat): (y: seq<Vec128>)
    requires stride == 16 * |x| && at + stride * t <= |data|
    ensures |y| == |x|
    decreases t
  {
    if t == 0 then x
    else
      PeelRound(stride, t);
      Lanes(FoldLanes(x, k, data, at), k, data, at + stride, stride, t - 1)
  }

  /** One more round of folding, taken from the front: if `t` rounds from `x` give `target`,
    * then `t - 1` rounds from the folded lanes, one chunk further, give it too. */
  lemma LanesAdvance(x: seq<Vec128>, y: seq<Vec128>, k: Vec128, data: seq<bv8>, at: nat, next: nat, stride: nat,
                     t: nat, u: nat, target: seq<Vec128>)
    requires stride == 16 * |x| && t == u + 1 && next == at + stride && at + stride * t <= |data|
    requires Lanes(x, k, data, at, stride, t) == target
    requires y == FoldLanes(x, k, data, at)
    ensures stride == 16 * |y| && next + stride * u <= |data|
    ensures Lanes(y, k, data, next, stride, u) == target
  {
    PeelRound(stride, t);
  }

  /** How `xnmodp` squares its accumulator: the SSE kernel with one 64-bit carry-less
    * multiplication, the NEON kernel with `vmull_p8`, eight independent 8-bit polynomial
    * multiplications of which the low four hold the bytes of the accumulator. */
  datatype Squaring = ClMul64 | PolyMul8

  /** The carry-less product of `a` with the low `i` bits of `b`, for 8-bit operands. */
  function PolyMulBits(a: bv16, b: bv8, i: nat): bv16
    decreases i
  {
    if i == 0 then 0
    else (if b & 1 == 1 then a else 0) ^ PolyMulBits(a << 1, b >> 1, i - 1)
  }

  /** One lane of `vmull_p8`: the 16-bit carry-less product of two bytes. */
  function PolyMul8Lane(a: bv8, b: bv8): bv16 {
    PolyMulBits(a as bv16, b, 8)
  }

  /** The square `xnmodp` reads back from the low 64 bits of the product. */
  function Square(sq: Squaring, acc: bv32): bv64 {
    match sq
    case ClMul64 => ClMul(acc as bv64, acc as bv64).lo
    case PolyMul8 =>
      (PolyMul8Lane(Byte32(acc, 0), Byte32(acc, 0)) as bv64)
      | ((PolyMul8Lane(Byte32(acc, 1), Byte32(acc, 1)) as bv64) << 16)
      | ((PolyMul8Lane(Byte32(acc, 2), Byte32(acc, 2)) as bv64) << 32)
      | ((PolyMul8Lane(Byte32(acc, 3), Byte32(acc, 3)) as bv64) << 48)
  }

  /** `k` CRC steps over a zero `u32`: each multiplies by x^32 modulo P. */
  function ZeroWords(acc: bv32, k: nat): bv32 {
    if k == 0 then acc else U32(ZeroWords(acc, k - 1), 0)
  }

  /** What `xnmodp(n)` returns, by the recursion its two loops unwind: below 192 the
    * monomial x^(n mod 32) shifted up by `n / 32` zero words; above, the square of the
    * result for `n / 2 - 16`, doubled once more when `n` is even, reduced by one 64-bit
    * CRC step. */
  function XnModP(sq: Squaring, n: nat): bv32
    decreases n
  {
    if n <= 191 then ZeroWords(Monomial(n % 32), n / 32)
    else U64(0, Doubled(Square(sq, XnModP(sq, n / 2 - 16)), 1 - n % 2))
  }

  /** The polynomial x^k in the bit-reflected register: the top bit moved down `k` places. */
  function Monomial(k: nat): bv32
    decreases k
  {
    if k == 0 then 0x8000_0000 else Monomial(k - 1) >> 1
  }

  /** `0x80000000 >> k` is x^k for every shift a `uint32_t` allows. */
  lemma {:induction false} MonomialShift(k: nat)
    requires k < 32
    ensures Monomial(k) == 0x8000_0000 >> k
    decreases k
  {
    if k > 0 {
      MonomialShift(k - 1);
    }
  }

  /** `y << low` for the one-bit `low` of `xnmodp`. */
  function Doubled(y: bv64, low: int): bv64 {
    if low == 1 then y << 1 else y
  }

  /** Below 192, one more zero word adds 32 to the exponent. */
  lemma XnModPZeroWord(sq: Squaring, n: nat)
    requires n + 32 <= 191
    ensures XnModP(sq, n + 32) == U32(XnModP(sq, n), 0)
  {
    assert (n + 32) / 32 == n / 32 + 1 && (n + 32) % 32 == n % 32;
  }

  /** The value of `n` after `t` rounds of the first loop of `xnmodp`. */
  ghost function Descend(n: int, t: nat): int {
    if t == 0 then n else Descend(n, t - 1) / 2 - 16
  }

  /** The complemented stack after `t` pushes: a leading 1 and then, for each round, the
    * complement of the bit pushed, the last round lowest. */
  ghost function Marks(n: int, t: nat): nat {
    if t == 0 then 1 else 2 * Marks(n, t - 1) + (1 - Descend(n, t - 1) % 2)
  }

  lemma MarksPositive(n: int, t: nat)
    ensures Marks(n, t) >= 1
  {
  }

  /** Only the leading 1 is left once every push has been popped. */
  lemma MarksLeading(n: int, t: nat)
    ensures Marks(n, t) / 2 == 0 <==> t == 0
  {
    if t > 0 {
      MarksPositive(n, t - 1);
    }
  }

  /** One push keeps the bound `(Marks + 1) · n ≤ 2 · n0` the first loop maintains. */
  lemma PushBound(m: nat, d: int, b: int)
    requires d > 191 && 0 <= b <= 1
    ensures (2 * m + b + 1) * (d / 2 - 16) <= (m + 1) * d
  {
    var h := d / 2 - 16;
    assert 2 * h <= d;
    assert (2 * m + b + 1) * h <= (2 * m + 2) * h;
    assert (2 * m + 2) * h == (m + 1) * (2 * h);
    assert (m + 1) * (2 * h) <= (m + 1) * d;
  }

  /** The stack stays below 2^63 while the first loop runs. */
  lemma MarksSmall(m: nat, d: int, n0: nat)
    requires d > 191 && (m + 1) * d <= 2 * n0 && n0 < 0x1_0000_0000_0000_0000
    ensures m < 0x4000_0000_0000_0000
  {
    var e := d - 192;
    assert (m + 1) * d == (m + 1) * 192 + (m + 1) * e;
    assert (m + 1) * e >= 0;
  }

  /** Pushing the parity of `n` onto the stack appends the complement of that bit to the
    * complemented stack. */
  lemma PushStep(n0: int, t: nat, stack: nat)
    requires Descend(n0, t) > 191 && Marks(n0, t) < 0x4000_0000_0000_0000
    requires stack == 0xFFFF_FFFF_FFFF_FFFF - Marks(n0, t)
    ensures (2 * stack + Descend(n0, t) % 2) % 0x1_0000_0000_0000_0000 == 0xFFFF_FFFF_FFFF_FFFF - Marks(n0, t + 1)
  {
    var m, b := Marks(n0, t), Descend(n0, t) % 2;
    assert Marks(n0, t + 1) == 2 * m + 1 - b;
    assert 2 * stack + b == 0x1_0000_0000_0000_0000 + (0xFFFF_FFFF_FFFF_FFFE - 2 * m + b);
  }

  /** Popping reads the complement of the last parity pushed and leaves the earlier ones. */
  lemma PopStep(n0: int, j: nat)
    requires j >= 1
    ensures Marks(n0, j) % 2 == 1 - Descend(n0, j - 1) % 2
    ensures Marks(n0, j) / 2 == Marks(n0, j - 1)
  {
  }

  /** One round of the third loop undoes one round of the first. */
  lemma XnModPRound(sq: Squaring, n0: int, j: nat)
    requires j >= 1 && Descend(n0, j - 1) > 191
    ensures Descend(n0, j) >= 0
    ensures XnModP(sq, Descend(n0, j - 1))
         == U64(0, Doubled(Square(sq, XnModP(sq, Descend(n0, j))), 1 - Descend(n0, j - 1) % 2))
  {
  }

  /** One round of the third loop of `xnmodp`: square, double when `low` is set, reduce. */
  method Pop(sq: Squaring, acc: bv32, low: nat, ghost n0: int, ghost j: nat) returns (r: bv32)
    requires j >= 1 && Descend(n0, j - 1) > 191 && low == 1 - Descend(n0, j - 1) % 2
    requires acc == XnModP(sq, Descend(n0, j))
    ensures Descend(n0, j) >= 0 && r == XnModP(sq, Descend(n0, j - 1))
  {
    XnModPRound(sq, n0, j);
    r := U64(0, Doubled(Square(sq, acc), low));
  }

  /** The first loop of `xnmodp`: halve `n` (less 16) until it is at most 191, pushing the
    * parity of each `n` onto a bit stack that starts as ~1, then complement the stack. The
    * `uint64_t` stack is a natural number kept below 2^64. */
  method PushParities(n0: nat) returns (n: nat, stack: nat, ghost t: nat)
    requires n0 < 0x1_0000_0000_0000_0000
    ensures n <= 191 && n == Descend(n0, t)
    ensures forall i :: 0 <= i < t ==> Descend(n0, i) > 191
    ensures stack == Marks(n0, t)
  {
    stack := 0xFFFF_FFFF_FFFF_FFFE;
    n := n0;
    t := 0;
    while n > 191
      invariant n == Descend(n0, t)
      invariant forall i :: 0 <= i < t ==> Descend(n0, i) > 191
      invariant (Marks(n0, t) + 1) * n <= 2 * n0
      invariant stack == 0xFFFF_FFFF_FFFF_FFFF - Marks(n0, t)
      decreases n
    {
      MarksSmall(Marks(n0, t), n, n0);
      PushBound(Marks(n0, t), n, 1 - n % 2);
      PushStep(n0, t, stack);
      stack := (2 * stack + n % 2) % 0x1_0000_0000_0000_0000;
      n := n / 2 - 16;
      t := t + 1;
    }
    stack := 0xFFFF_FFFF_FFFF_FFFF - stack;
  }

  /** The second loop of `xnmodp`: x^(n mod 32) shifted up by `n / 32` zero words. */
  method SmallPower(sq: Squaring, n: nat) returns (acc: bv32)
    requires n <= 191
    ensures acc == XnModP(sq, n)
  {
    acc := 0x8000_0000 >> (n % 32);
    MonomialShift(n % 32);
    ghost var x := acc;
    var k := n / 32;
    while k != 0
      invariant 0 <= k <= n / 32
      invariant acc == ZeroWords(x, n / 32 - k)
    {
      acc := U32(acc, 0);
      k := k - 1;
    }
  }

  /** The third loop of `xnmodp`: pop the stack down to its leading 1, squaring once per
    * pop; each round undoes one round of the first loop. */
  method PopSquares(sq: Squaring, acc0: bv32, stack0: nat, ghost n0: nat, ghost t: nat) returns (acc: bv32)
    requires stack0 == Marks(n0, t)
    requires forall i :: 0 <= i < t ==> Descend(n0, i) > 191
    requires Descend(n0, t) >= 0 && acc0 == XnModP(sq, Descend(n0, t))
    ensures acc == XnModP(sq, n0)
  {
    acc := acc0;
    ghost var j: nat := t;
    var low := stack0 % 2;
    var stack := stack0 / 2;
    while stack != 0
      invariant j <= t && Descend(n0, j) >= 0
      invariant stack == Marks(n0, j) / 2 && low == Marks(n0, j) % 2
      invariant acc == XnModP(sq, Descend(n0, j))
      decreases stack
    {
      MarksLeading(n0, j);
      PopStep(n0, j);
      acc := Pop(sq, acc, low, n0, j);
      j := j - 1;
      low := stack % 2;
      stack := stack / 2;
    }
    MarksLeading(n0, j);
  }

  /** `xnmodp`: x^n modulo P, by its three loops. */
  method XnModPLoop(sq: Squaring, n0: nat) returns (acc: bv32)
    requires n0 < 0x1_0000_0000_0000_0000
    ensures acc == XnModP(sq, n0)
  {
    var n, stack, t := PushParities(n0);
    acc := SmallPower(sq, n);
    acc := PopSquares(sq, acc, stack, n0, t);
  }

  /** The exponent `crc_shift` asks `xnmodp` for, `nbytes * 8 - 33` in `size_t` arithmetic. */
  function ShiftExponent(nbytes: nat): (e: nat)
    requires nbytes < 0x1_0000_0000_0000_0000
    ensures e < 0x1_0000_0000_0000_0000
    ensures 5 <= nbytes < 0x2000_0000_0000_0000 ==> e == 8 * nbytes - 33
  {
    ((nbytes * 8) % 0x1_0000_0000_0000_0000 - 33) % 0x1_0000_0000_0000_0000
  }

  /** What `crc_shift(crc, nbytes)` returns: the register times x^(8·nbytes − 33) modulo P,
    * as a 64-bit carry-less product. */
  function Shift(sq: Squaring, crc: bv32, nbytes: nat): Vec128
    requires nbytes < 0x1_0000_0000_0000_0000
  {
    ClMul(crc as bv64, XnModP(sq, ShiftExponent(nbytes)) as bv64)
  }

  /** `crc_shift`. */
  method CrcShift(sq: Squaring, crc: bv32, nbytes: nat) returns (v: Vec128)
    requires nbytes < 0x1_0000_0000_0000_0000
    ensures v == Shift(sq, crc, nbytes)
  {
    var p := XnModPLoop(sq, ShiftExponent(nbytes));
    v := ClMul(crc as bv64, p as bv64);
  }

  /** The number of bytes the alignment prologue consumes from a buffer at address `addr`
    * holding `len` bytes: single bytes up to the next multiple of 8, then one more 8-byte
    * word when the address has bit 3 set and at least 8 bytes remain. */
  function PrologueLen(addr: nat, len: nat): (n: nat)
    ensures n <= len && n <= 15
  {
    var a := ByteSteps(addr, len);
    if (addr + a) / 8 % 2 == 1 && len - a >= 8 then a + 8 else a
  }

  /** The single bytes of the prologue: up to the next multiple of 8, or the whole buffer
    * when it ends first. */
  function ByteSteps(addr: nat, len: nat): (a: nat)
    ensures a <= len && a < 8
    ensures a < len ==> (addr + a) % 8 == 0
  {
    if len < (8 - addr % 8) % 8 then len else (8 - addr % 8) % 8
  }

  /** The byte loop stops exactly after `ByteSteps` bytes: it never reaches an 8-aligned
    * address before. */
  lemma ByteStepsStop(addr: nat, len: nat, pos: nat)
    requires pos <= ByteSteps(addr, len) && (pos == len || (addr + pos) % 8 == 0)
    ensures pos == ByteSteps(addr, len)
  {
  }

  /** After the prologue the buffer is empty or 8-aligned, and 16-aligned when at least 8
    * bytes remain. */
  lemma PrologueAligns(addr: nat, len: nat)
    ensures PrologueLen(addr, len) < len ==> (addr + PrologueLen(addr, len)) % 8 == 0
    ensures len - PrologueLen(addr, len) >= 8 ==> (addr + PrologueLen(addr, len)) % 16 == 0
  {
    var a := ByteSteps(addr, len);
    if a < len {
      assert (addr + a) % 8 == 0;
    }
  }

  /** The prologue depends on the address only through its residue modulo 16. */
  lemma PrologueLenMod16(addr: nat, len: nat)
    ensures PrologueLen(addr, len) == PrologueLen(addr % 16, len)
  {
    var r := addr % 16;
    var a := ByteSteps(addr, len);
    Residues(addr / 16, r, 0);
    Residues(addr / 16, r, a);
  }

  lemma Residues(k: nat, r: nat, a: nat)
    ensures (16 * k + r + a) % 8 == (r + a) % 8
    ensures (16 * k + r + a) / 8 % 2 == (r + a) / 8 % 2
  {
    var y := r + a;
    assert 16 * k + y == 8 * (2 * k + y / 8) + y % 8;
  }

  /** The alignment prologue of both kernels: CRC steps over single bytes while the address
    * is not 8-aligned, then over one 8-byte word when bit 3 of the address is set. It
    * returns the register and the index of the first byte not consumed. */
  method Prologue(crc: bv32, data: seq<bv8>, addr: nat) returns (c: bv32, pos: nat)
    requires |data| < 0x1_0000_0000_0000_0000
    ensures pos == PrologueLen(addr, |data|) && c == Bytes(crc, data[..pos])
  {
    c := crc;
    pos := 0;
    var len := |data|;
    while len != 0 && (addr + pos) % 8 != 0
      invariant pos <= ByteSteps(addr, |data|) && len == |data| - pos
      invariant c == Bytes(crc, data[..pos])
    {
      BytesSnoc(crc, data, 0, pos);
      c := U8(c, data[pos]);
      pos := pos + 1;
      len := len - 1;
    }
    ByteStepsStop(addr, |data|, pos);
    if (addr + pos) / 8 % 2 == 1 && len >= 8 {
      BytesWord(crc, data, 0, pos);
      c := U64(c, Load64(data, pos));
      pos := pos + 8;
      len := len - 8;
    }
  }

  /** The two tail loops of both kernels: CRC steps over 8-byte words while at least 8
    * bytes remain, then over single bytes until none does. */
  method Tail(crc: bv32, data: seq<bv8>, from: nat) returns (c: bv32)
    requires from <= |data|
    ensures c == Bytes(crc, data[from..])
  {
    c := crc;
    var buf := from;
    var len := |data| - from;
    while len >= 8
      invariant from <= buf <= |data| && len == |data| - buf
      invariant c == Bytes(crc, data[from..buf])
    {
      BytesWord(crc, data, from, buf);
      c := U64(c, Load64(data, buf));
      buf := buf + 8;
      len := len - 8;
    }
    while len != 0
      invariant from <= buf <= |data| && len == |data| - buf
      invariant c == Bytes(crc, data[from..buf])
    {
      BytesSnoc(crc, data, from, buf);
      c := U8(c, data[buf]);
      buf := buf + 1;
      len := len - 1;
    }
    assert data[from..buf] == data[from..];
  }

  /** The folding constants both kernels share, named by the distance in bytes between the
    * lanes they combine: adjacent lanes, lanes two apart, lanes four apart. */
  const Fold16: Vec128 := Vec128(0xF20C_0DFE, 0x493C_7D27)
  const Fold32: Vec128 := Vec128(0x3DA6_D0CB, 0xBA4F_C28E)
  const Fold64: Vec128 := Vec128(0x740E_EF02, 0x9E4A_DDF8)

  /** The register added into the first lane (`x0 ^= {crc0, 0}`). */
  function Inject(x: seq<Vec128>, crc: bv32): (y: seq<Vec128>)
    requires |x| >= 1
    ensures |y| == |x| && y[1..] == x[1..]
    ensures y[0].lo == x[0].lo ^ crc as bv64 && y[0].hi == x[0].hi
  {
    x[0 := Xor(Scalar(crc), x[0])]
  }

  /** A lane reduced to a register: two 64-bit CRC steps from zero, low half first. */
  function Collapse(x: Vec128): bv32 {
    U64(U64(0, x.lo), x.hi)
  }

  /** Three scalar streams `klen` bytes apart have read everything from their starts up to
    * `buf`: stream 0, from `init`, the bytes `s..buf`; streams 1 and 2, from zero, the same
    * range moved `klen` and `2·klen` bytes on. */
  ghost predicate Streams(init: bv32, c0: bv32, c1: bv32, c2: bv32, data: seq<bv8>, s: nat, buf: nat, klen: nat) {
    s <= buf && buf + 2 * klen <= |data|
    && c0 == Bytes(init, data[s..buf])
    && c1 == Bytes(0, data[s + klen..buf + klen])
    && c2 == Bytes(0, data[s + 2 * klen..buf + 2 * klen])
  }

  /** Once the streams have reached `s + klen`, each has read its whole `klen` bytes. */
  lemma StreamsDone(init: bv32, c0: bv32, c1: bv32, c2: bv32, data: seq<bv8>, s: nat, e: nat, klen: nat)
    requires Streams(init, c0, c1, c2, data, s, e, klen) && e == s + klen
    ensures s + 3 * klen <= |data|
    ensures c0 == Bytes(init, data[s..s + klen])
    ensures c1 == Bytes(0, data[s + klen..s + 2 * klen])
    ensures c2 == Bytes(0, data[s + 2 * klen..s + 3 * klen])
  {
  }

  /** One round of the three scalar streams: each takes one 8-byte word, stream 1 `klen`
    * bytes after stream 0 and stream 2 `klen` bytes after stream 1. */
  method StreamRound(c0: bv32, c1: bv32, c2: bv32, data: seq<bv8>, buf: nat, klen: nat,
                     ghost s: nat, ghost init: bv32, ghost next: nat)
    returns (d0: bv32, d1: bv32, d2: bv32)
    requires next == buf + 8 && next + 2 * klen <= |data|
    requires Streams(init, c0, c1, c2, data, s, buf, klen)
    ensures Streams(init, d0, d1, d2, data, s, next, klen)
  {
    d0 := StreamWord(init, c0, data, s, buf, next);
    d1 := StreamWord(0, c1, data, s + klen, buf + klen, next + klen);
    d2 := StreamWord(0, c2, data, s + 2 * klen, buf + 2 * klen, next + 2 * klen);
  }

  /** One 8-byte CRC step of a stream that started at `a` from `init`. */
  method StreamWord(ghost init: bv32, c: bv32, data: seq<bv8>, ghost a: nat, i: nat, ghost b: nat) returns (d: bv32)
    requires a <= i && b == i + 8 && b <= |data| && c == Bytes(init, data[a..i])
    ensures d == Bytes(init, data[a..b])
  {
    BytesWord(init, data, a, i);
    d := U64(c, Load64(data, i));
  }

  lemma EightHalves(x: bv32)
    ensures Halves(x, 8) == Halve(Halve(Halve(Halve(Halve(Halve(Halve(Halve(x))))))))
  {
    assert Halves(x, 1) == Halve(Halves(x, 0));
    assert Halves(x, 2) == Halve(Halves(x, 1));
    assert Halves(x, 3) == Halve(Halves(x, 2));
    assert Halves(x, 4) == Halve(Halves(x, 3));
    assert Halves(x, 5) == Halve(Halves(x, 4));
    assert Halves(x, 6) == Halve(Halves(x, 5));
    assert Halves(x, 7) == Halve(Halves(x, 6));
    assert Halves(x, 8) == Halve(Halves(x, 7));
  }

  /** The register after each byte of "123456789", starting from all ones. */
  lemma CheckStepsLow()
    ensures U8(0xFFFF_FFFF, 0x31) == 0x6F0A_661C
    ensures U8(0x6F0A_661C, 0x32) == 0x8CAA_3B9F
    ensures U8(0x8CAA_3B9F, 0x33) == 0xEF84_D04D
    ensures U8(0xEF84_D04D, 0x34) == 0x09C5_0B11
    ensures U8(0x09C5_0B11, 0x35) == 0xE72E_DCCA
  {
    EightHalves(0xFFFF_FFCE);
    EightHalves(0x6F0A_662E);
    EightHalves(0x8CAA_3BAC);
    EightHalves(0xEF84_D079);
    EightHalves(0x09C5_0B24);
  }

  lemma CheckStepsHigh()
    ensures U8(0xE72E_DCCA, 0x36) == 0xBECA_8E79
    ensures U8(0xBECA_8E79, 0x37) == 0xEDBD_6815
    ensures U8(0xEDBD_6815, 0x38) == 0x9F78_7F65
    ensures U8(0x9F78_7F65, 0x39) == 0x1CF9_6D7C
  {
    EightHalves(0xE72E_DCFC);
    EightHalves(0xBECA_8E4E);
    EightHalves(0xEDBD_682D);
    EightHalves(0x9F78_7F5C);
  }

  /** CRC-32C of "123456789", complemented on entry and exit, is the check value of
    * CRC-32/ISCSI. */
  lemma CheckValue()
    ensures !Bytes(!0, Rocksoft.CheckInput) == 0xE306_9283
  {
    var s := Rocksoft.CheckInput;
    CheckStepsLow();
    CheckStepsHigh();
    assert s[..0] == [];
    BytesSnoc(!0, s, 0, 0);
    BytesSnoc(!0, s, 0, 1);
    BytesSnoc(!0, s, 0, 2);
    BytesSnoc(!0, s, 0, 3);
    BytesSnoc(!0, s, 0, 4);
    BytesSnoc(!0, s, 0, 5);
    BytesSnoc(!0, s, 0, 6);
    BytesSnoc(!0, s, 0, 7);
    BytesSnoc(!0, s, 0, 8);
    assert s[0..9] == s;
  }
}
