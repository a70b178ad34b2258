// The x86 CRC-32C kernel (`crc32_iscsi_impl`, SSE v4s3x3 variant): an alignment
// prologue, then, for at least 144 bytes, four 16-byte vector lanes folded in parallel
// with three scalar CRC streams and merged by `crc_shift`, then 8-byte words and single
// bytes. The buffer is a byte sequence and its address a natural number; positions in
// the buffer are indices from its start.
module SseKernel {
  import opened Bits
  import opened Vectors
  import opened Crc32c
  import Rocksoft

  /** The build the 64-bit helpers are compiled for: x86_64, or 32-bit x86 where the
    * 64-bit intrinsics are missing and the helpers work on 32-bit halves. */
  datatype Platform = X86_64 | X86_32

  /** `_mm_cvtsi32_si128`: a `u32` in the low lane, the rest zero. */
  function Cvtsi32Si128(a: bv32): Vec128 {
    Vec128(a as bv64, 0)
  }

  /** `_mm_slli_si128(v, 4)`: the 128-bit value shifted up by four bytes. */
  function Slli4(v: Vec128): Vec128 {
    Vec128(v.lo << 32, (v.hi << 32) | (v.lo >> 32))
  }

  /** `_mm_srli_si128(v, 8)`: the 128-bit value shifted down by eight bytes. */
  function Srli8(v: Vec128): Vec128 {
    Vec128(v.hi, 0)
  }

  /** `_mm_or_si128`. */
  function Or(a: Vec128, b: Vec128): Vec128 {
    Vec128(a.lo | b.lo, a.hi | b.hi)
  }

  /** `_mm_cvtsi128_si32` (`i == 0`) and `_mm_extract_epi32(v, i)`: 32-bit lane `i`. */
  function Extract32(v: Vec128, i: nat): bv32
    requires i < 4
  {
    if i == 0 then Low32(v.lo)
    else if i == 1 then High32(v.lo)
    else if i == 2 then Low32(v.hi)
    else High32(v.hi)
  }

  /** Two `u32` halves joined as `((uint64_t)high << 32) | low`. */
  function Join(low: bv32, high: bv32): bv64 {
    ((high as bv64) << 32) | (low as bv64)
  }

  /** `mm_cvtsi64_si128`: a `u64` in the low lane. On 32-bit x86 the two halves are moved
    * separately and the high one shifted into place. */
  function Cvtsi64Si128(pl: Platform, val: bv64): (r: Vec128)
    ensures r == Vec128(val, 0)
  {
    match pl
    case X86_64 => Vec128(val, 0)
    case X86_32 =>
      HalvesRejoin(val);
      Or(Cvtsi32Si128(Low32(val)), Slli4(Cvtsi32Si128(High32(val))))
  }

  /** `mm_cvtsi128_si64`: the low 64-bit lane. On 32-bit x86 it is joined from 32-bit
    * lanes 0 and 1. */
  function Cvtsi128Si64(pl: Platform, v: Vec128): (r: bv64)
    ensures r == v.lo
  {
    match pl
    case X86_64 => v.lo
    case X86_32 =>
      HalvesRejoin(v.lo);
      Join(Extract32(v, 0), Extract32(v, 1))
  }

  /** `mm_extract_epi64(v, idx)`: lane 0 for `idx == 0`, lane 1 otherwise. On x86_64 the
    * high lane is read after shifting it down; on 32-bit x86 each lane is joined from two
    * 32-bit lanes. */
  function ExtractEpi64(pl: Platform, v: Vec128, idx: int): (r: bv64)
    ensures r == if idx == 0 then v.lo else v.hi
  {
    match pl
    case X86_64 => if idx == 0 then v.lo else Srli8(v).lo
    case X86_32 =>
      HalvesRejoin(v.lo);
      HalvesRejoin(v.hi);
      if idx == 0 then Join(Extract32(v, 0), Extract32(v, 1))
      else Join(Extract32(v, 2), Extract32(v, 3))
  }

  /** `mm_crc32_u64`: one 64-bit CRC step, or on 32-bit x86 two 32-bit steps, low half
    * first. */
  function Crc32U64(pl: Platform, crc: bv32, val: bv64): (r: bv32)
    ensures r == U64(crc, val)
  {
    match pl
    case X86_64 => U64(crc, val)
    case X86_32 =>
      U64Halves(crc, val);
      U32(U32(crc, Low32(val)), High32(val))
  }

  /** A `u64` is the join of its halves. */
  lemma HalvesRejoin(x: bv64)
    ensures Join(Low32(x), High32(x)) == x
    ensures Or(Cvtsi32Si128(Low32(x)), Slli4(Cvtsi32Si128(High32(x)))) == Vec128(x, 0)
  {
    Low32Mask(x);
    High32Shift(x);
  }

  /** Moving a `u64` into a vector and back gives it back, on either build. */
  lemma Cvtsi64RoundTrip(pl: Platform, v: bv64)
    ensures Cvtsi128Si64(pl, Cvtsi64Si128(pl, v)) == v
  {
  }

  /** The 32-bit build computes every helper as the x86_64 build does. */
  lemma PlatformsAgree(v: Vec128, val: bv64, crc: bv32, idx: int)
    ensures Cvtsi64Si128(X86_32, val) == Cvtsi64Si128(X86_64, val)
    ensures Cvtsi128Si64(X86_32, v) == Cvtsi128Si64(X86_64, v)
    ensures ExtractEpi64(X86_32, v, idx) == ExtractEpi64(X86_64, v, idx)
    ensures Crc32U64(X86_32, crc, val) == Crc32U64(X86_64, crc, val)
  {
  }

  /** The bytes the block path consumes from `len` remaining: 136 per block, 64 in vector
    * lanes and 72 in the three scalar streams, plus the final 8-byte word. */
  function BlockLen(len: nat): (n: nat)
    requires len >= 144
    ensures 144 <= n <= len && len - n < 136 && (n - 8) % 136 == 0
  {
    136 * ((len - 8) / 136) + 8
  }

  /** Every `crc_shift` of the block path asks for at least 8 bytes and at most the
    * length, so the exponent `nbytes * 8 - 33` is `8 * nbytes - 33`, without wrapping, for
    * any buffer below 2^61 bytes. */
  lemma ShiftSizes(len: nat)
    requires 144 <= len < 0x2000_0000_0000_0000
    ensures var klen := 24 * ((len - 8) / 136);
      8 <= klen + 8 && 3 * klen + 8 <= len
      && ShiftExponent(2 * klen + 8) == 8 * (2 * klen + 8) - 33
      && ShiftExponent(klen + 8) == 8 * (klen + 8) - 33
      && ShiftExponent(3 * klen + 8) == 8 * (3 * klen + 8) - 33
  {
  }

  /** The vector lanes after the block loop: four lanes loaded at `p`, the register added
    * into the first, folded `blk - 1` times over the following 64-byte chunks. */
  function BlockLanes(crc: bv32, data: seq<bv8>, p: nat, blk: nat): (x: seq<Vec128>)
    requires blk >= 1 && p + 64 * blk <= |data|
    ensures |x| == 4
  {
    Lanes(Inject(LoadLanes(data, p, 4), crc), Fold64, data, p + 64, 64, blk - 1)
  }

  /** Four lanes reduced to one: adjacent pairs with `Fold16`, then the two results with
    * `Fold32`. */
  function Reduce(x: seq<Vec128>): Vec128
    requires |x| == 4
  {
    FoldLane(FoldLane(x[0], Fold16, x[1]), Fold32, FoldLane(x[2], Fold16, x[3]))
  }

  /** The word added into the final 8 bytes: streams 0 and 1 and the reduced lanes,
    * collapsed to a register, each shifted over the bytes that follow it, low halves
    * added. */
  function Correction(x0: Vec128, c0: bv32, c1: bv32, klen: nat): bv64
    requires 3 * klen + 8 < 0x1_0000_0000_0000_0000
  {
    Xor64(Xor(Shift(ClMul64, c0, klen * 2 + 8), Shift(ClMul64, c1, klen + 8)).lo,
          Shift(ClMul64, Collapse(x0), klen * 3 + 8).lo)
  }

  /** The merge after the block loop: the correction added into the final word, which the
    * register of stream 2 takes in one 64-bit step. */
  function Merge(x0: Vec128, c0: bv32, c1: bv32, c2: bv32, last: bv64, klen: nat): bv32
    requires 3 * klen + 8 < 0x1_0000_0000_0000_0000
  {
    U64(c2, Xor64(last, Correction(x0, c0, c1, klen)))
  }

  /** The values the merge combines. */
  datatype MergeInputs = MergeInputs(x0: Vec128, c0: bv32, c1: bv32, c2: bv32, last: bv64, klen: nat)

  /** The merge inputs of the block path for a register `crc` at position `p`: with
    * `blk = (len - 8) / 136` and `klen = 24 * blk`, the vector lanes read
    * `[p, p + 64·blk)` and are reduced, the three streams read `klen` bytes each from
    * `p + 64·blk`, all from zero, and the final word follows them. */
  function BlockInputs(crc: bv32, data: seq<bv8>, p: nat): (m: MergeInputs)
    requires p + 144 <= |data| < 0x1_0000_0000_0000_0000
    ensures 3 * m.klen + 8 <= |data| - p - 64 * ((|data| - p - 8) / 136)
  {
    var blk := (|data| - p - 8) / 136;
    InputsAt(crc, data, p, blk, 24 * blk, p + 64 * blk)
  }

  /** `BlockInputs` with its block count `blk`, stream length `klen` and stream start `s`. */
  function InputsAt(crc: bv32, data: seq<bv8>, p: nat, blk: nat, klen: nat, s: nat): (m: MergeInputs)
    requires blk >= 1 && s == p + 64 * blk && s + 3 * klen + 8 <= |data|
    ensures m.klen == klen
  {
    MergeInputs(Reduce(BlockLanes(crc, data, p, blk)),
                Bytes(0, data[s..s + klen]), Bytes(0, data[s + klen..s + 2 * klen]),
                Bytes(0, data[s + 2 * klen..s + 3 * klen]), Load64(data, s + 3 * klen), klen)
  }

  /** What the block path returns for a register `crc` at position `p`. */
  function Block(crc: bv32, data: seq<bv8>, p: nat): bv32
    requires p + 144 <= |data| < 0x1_0000_0000_0000_0000
  {
    var m := BlockInputs(crc, data, p);
    Merge(m.x0, m.c0, m.c1, m.c2, m.last, m.klen)
  }

  /** `BlockInputs` names its block count, stream length and stream start. */
  lemma BlockInputsAt(crc: bv32, data: seq<bv8>, p: nat, blk: nat, klen: nat, s: nat)
    requires p + 144 <= |data| < 0x1_0000_0000_0000_0000
    requires blk == (|data| - p - 8) / 136 && klen == 24 * blk && s == p + 64 * blk
    ensures blk >= 1 && s + 3 * klen + 8 <= |data|
    ensures BlockInputs(crc, data, p) == InputsAt(crc, data, p, blk, klen, s)
  {
    BlockFits(|data| - p, blk);
  }

  /** At least one block of 136 bytes fits, and the lanes, the three streams and the final
    * word of `blk` blocks take at most `len` bytes. */
  lemma BlockFits(len: nat, blk: nat)
    requires len >= 144 && blk == (len - 8) / 136
    ensures blk >= 1 && 64 * blk + 3 * (24 * blk) + 8 <= len
  {
    assert 136 * blk <= len - 8;
  }

  /** The merge inputs, given one by one. */
  lemma InputsAre(crc: bv32, data: seq<bv8>, p: nat, blk: nat, klen: nat, s: nat, at: nat,
                  x0: Vec128, c0: bv32, c1: bv32, c2: bv32, last: bv64)
    requires blk >= 1 && s == p + 64 * blk && at == s + 3 * klen && at + 8 <= |data|
    requires x0 == Reduce(BlockLanes(crc, data, p, blk))
    requires c0 == Bytes(0, data[s..s + klen]) && c1 == Bytes(0, data[s + klen..s + 2 * klen])
    requires c2 == Bytes(0, data[s + 2 * klen..s + 3 * klen]) && last == Load64(data, at)
    ensures InputsAt(crc, data, p, blk, klen, s) == MergeInputs(x0, c0, c1, c2, last, klen)
  {
  }

  /** What `crc32_iscsi_impl(crc, buf, len)` returns for a buffer at address `addr`: the
    * prologue bytewise, the block path when at least 144 bytes remain, the rest bytewise,
    * all on the complemented register, complemented at the end. */
  function Crc32Iscsi(crc: bv32, data: seq<bv8>, addr: nat): bv32
    requires |data| < 0x1_0000_0000_0000_0000
  {
    !Rest(Bytes(!crc, data[..PrologueLen(addr, |data|)]), data, PrologueLen(addr, |data|))
  }

  /** The register after everything that follows the prologue at position `p`. */
  function Rest(c: bv32, data: seq<bv8>, p: nat): bv32
    requires p <= |data| < 0x1_0000_0000_0000_0000
  {
    if |data| - p >= 144 then Bytes(Block(c, data, p), data[p + BlockLen(|data| - p)..])
    else Bytes(c, data[p..])
  }

  /** With `blk = (L - 8) / 136`, at least 144 bytes are left after `i + 1` chunks of 136
    * exactly when `i + 1 < blk`: the main loop runs `blk - 1` times. */
  lemma RoundsLeft(L: nat, i: nat)
    requires L >= 144 && i + 1 <= (L - 8) / 136
    ensures L - 136 * (i + 1) >= 144 <==> i + 1 < (L - 8) / 136
  {
    var blk := (L - 8) / 136;
    assert 136 * blk <= L - 8 < 136 * blk + 136;
  }

  /** One pass of the main loop: the four lanes folded over the next 64 bytes, each of the
    * three streams three words further. */
  method MainRound(x: seq<Vec128>, c0: bv32, c1: bv32, c2: bv32, data: seq<bv8>, buf: nat, buf2: nat,
                   klen: nat, ghost s: nat, ghost next: nat)
    returns (y: seq<Vec128>, d0: bv32, d1: bv32, d2: bv32)
    requires |x| == 4 && buf2 + 64 <= |data|
    requires next == buf + 24 && next + 2 * klen <= |data| && Streams(0, c0, c1, c2, data, s, buf, klen)
    ensures y == FoldLanes(x, Fold64, data, buf2)
    ensures Streams(0, d0, d1, d2, data, s, next, klen)
  {
    y := FoldLanes(x, Fold64, data, buf2);
    d0, d1, d2 := ScalarChunk(c0, c1, c2, data, buf, klen, s, next);
  }

  /** Three rounds of the scalar streams: 24 more bytes each. */
  method ScalarChunk(c0: bv32, c1: bv32, c2: bv32, data: seq<bv8>, buf: nat, klen: nat, ghost s: nat, ghost next: nat)
    returns (d0: bv32, d1: bv32, d2: bv32)
    requires next == buf + 24 && next + 2 * klen <= |data| && Streams(0, c0, c1, c2, data, s, buf, klen)
    ensures Streams(0, d0, d1, d2, data, s, next, klen)
  {
    d0, d1, d2 := StreamRound(c0, c1, c2, data, buf, klen, s, 0, buf + 8);
    d0, d1, d2 := StreamRound(d0, d1, d2, data, buf + 8, klen, s, 0, buf + 16);
    d0, d1, d2 := StreamRound(d0, d1, d2, data, buf + 16, klen, s, 0, next);
  }

  /** The first vector chunk and the main loop of the block path: the lanes hold the
    * register added into the first 64 bytes, folded over every later chunk below
    * `p + 64·blk`; the three streams, from zero, have read all but the last 24 bytes of
    * their `klen`. */
  method BlockLoop(crc: bv32, data: seq<bv8>, p: nat, blk: nat, klen: nat)
    returns (x: seq<Vec128>, crc0: bv32, crc1: bv32, crc2: bv32, buf: nat, ghost s: nat)
    requires p + 144 <= |data| && blk == (|data| - p - 8) / 136 && klen == 24 * blk
    ensures blk >= 1 && s == p + 64 * blk && buf + 24 == s + klen && s + 3 * klen + 8 <= |data|
    ensures x == BlockLanes(crc, data, p, blk)
    ensures Streams(0, crc0, crc1, crc2, data, s, buf, klen)
  {
    var len := |data| - p;
    assert 136 * blk <= len - 8;
    buf := p;
    var buf2 := p;
    crc1 := 0;
    crc2 := 0;
    x := LoadLanes(data, buf2, 4);
    x := Inject(x, crc);
    crc0 := 0;
    buf2 := buf2 + 64;
    len := len - 136;
    buf := buf + 64 * blk;
    s := buf;
    ghost var i := 0;
    ghost var rest := blk - 1;
    while len >= 144
      invariant i + 1 <= blk && len == |data| - p - 136 * (i + 1) && rest == blk - 1 - i
      invariant p + 136 * blk + 8 <= |data|
      invariant buf == s + 24 * i && buf2 == p + 64 + 64 * i
      invariant |x| == 4 && Lanes(x, Fold64, data, buf2, 64, rest) == BlockLanes(crc, data, p, blk)
      invariant Streams(0, crc0, crc1, crc2, data, s, buf, klen)
      decreases len
    {
      RoundsLeft(|data| - p, i);
      ghost var x0, at, t := x, buf2, rest;
      var next := buf + 24;
      x, crc0, crc1, crc2 := MainRound(x, crc0, crc1, crc2, data, buf, buf2, klen, s, next);
      buf := next;
      buf2 := buf2 + 64;
      len := len - 136;
      i := i + 1;
      rest := rest - 1;
      LanesAdvance(x0, x, Fold64, data, at, buf2, 64, t, rest, BlockLanes(crc, data, p, blk));
    }
    RoundsLeft(|data| - p, i);
  }

  /** The shifts of the merge: streams 0 and 1 and the reduced lanes moved over the bytes
    * that follow them with `crc_shift`, low halves added. */
  method ShiftStreams(pl: Platform, x0: Vec128, crc0: bv32, crc1: bv32, klen: nat) returns (vc: bv64)
    requires 3 * klen + 8 < 0x1_0000_0000_0000_0000
    ensures vc == Correction(x0, crc0, crc1, klen)
  {
    var vc0 := CrcShift(ClMul64, crc0, klen * 2 + 8);
    var vc1 := CrcShift(ClMul64, crc1, klen + 8);
    vc := ExtractEpi64(pl, Xor(vc0, vc1), 0);
    var x0Low := ExtractEpi64(pl, x0, 0);
    var x0High := ExtractEpi64(pl, x0, 1);
    var shifted := CrcShift(ClMul64, Crc32U64(pl, Crc32U64(pl, 0, x0Low), x0High), klen * 3 + 8);
    vc := Xor64(vc, ExtractEpi64(pl, shifted, 0));
  }

  /** The block path of `crc32_iscsi_impl`, from the first vector chunk to the final 8
    * bytes. */
  method BlockPath(pl: Platform, crc: bv32, data: seq<bv8>, p: nat) returns (c: bv32, q: nat)
    requires p + 144 <= |data| < 0x1_0000_0000_0000_0000
    ensures q == p + BlockLen(|data| - p) && c == Block(crc, data, p)
  {
    var len := |data| - p;
    var blk := (len - 8) / 136;
    var klen := blk * 24;
    var x, crc0, crc1, crc2, buf, s := BlockLoop(crc, data, p, blk, klen);
    var x0 := FoldLane(x[0], Fold16, x[1]);
    var x2 := FoldLane(x[2], Fold16, x[3]);
    x0 := FoldLane(x0, Fold32, x2);
    var next := buf + 24;
    crc0, crc1, crc2 := ScalarChunk(crc0, crc1, crc2, data, buf, klen, s, next);
    buf := next;
    StreamsDone(0, crc0, crc1, crc2, data, s, buf, klen);
    var vc := ShiftStreams(pl, x0, crc0, crc1, klen);
    buf := buf + klen * 2;
    var last := Load64(data, buf);
    BlockInputsAt(crc, data, p, blk, klen, s);
    InputsAre(crc, data, p, blk, klen, s, buf, x0, crc0, crc1, crc2, last);
    crc0 := crc2;
    crc0 := Crc32U64(pl, crc0, Xor64(last, vc));
    buf := buf + 8;
    c, q := crc0, buf;
  }

  /** Everything after the prologue: the block path when at least 144 bytes remain, then
    * the tail loops. */
  method RestPath(pl: Platform, crc: bv32, data: seq<bv8>, p: nat) returns (c: bv32)
    requires p <= |data| < 0x1_0000_0000_0000_0000
    ensures c == Rest(crc, data, p)
  {
    if |data| - p >= 144 {
      c := RestLong(pl, crc, data, p);
    } else {
      c := Tail(crc, data, p);
    }
  }

  /** The block path followed by the tail loops. */
  method RestLong(pl: Platform, crc: bv32, data: seq<bv8>, p: nat) returns (c: bv32)
    requires p + 144 <= |data| < 0x1_0000_0000_0000_0000
    ensures c == Rest(crc, data, p)
  {
    var b, q := BlockPath(pl, crc, data, p);
    c := Tail(b, data, q);
  }

  /** `crc32_iscsi_impl`. */
  method Impl(pl: Platform, crc: bv32, data: seq<bv8>, addr: nat) returns (r: bv32)
    requires |data| < 0x1_0000_0000_0000_0000
    ensures r == Crc32Iscsi(crc, data, addr)
  {
    var c, pos := Prologue(!crc, data, addr);
    c := RestPath(pl, c, data, pos);
    r := !c;
  }

  /** Without the block path the kernel is the bytewise CRC-32C of the whole buffer. */
  lemma ShortIsBytewise(crc: bv32, data: seq<bv8>, addr: nat)
    requires |data| < 0x1_0000_0000_0000_0000
    requires |data| - PrologueLen(addr, |data|) < 144
    ensures Crc32Iscsi(crc, data, addr) == !Bytes(!crc, data)
  {
    var p := PrologueLen(addr, |data|);
    PrologueAligns(addr, |data|);
    assert data == data[..p] + data[p..];
    BytesAppend(!crc, data[..p], data[p..]);
  }

  /** Buffers shorter than 144 bytes never reach the block path. */
  lemma ShortBuffer(crc: bv32, data: seq<bv8>, addr: nat)
    requires |data| < 144
    ensures Crc32Iscsi(crc, data, addr) == !Bytes(!crc, data)
  {
    ShortIsBytewise(crc, data, addr);
  }

  /** An empty buffer leaves the CRC unchanged. */
  lemma EmptyBuffer(crc: bv32, addr: nat)
    ensures Crc32Iscsi(crc, [], addr) == crc
  {
    ShortBuffer(crc, [], addr);
  }

  /** Over "123456789" from zero the kernel returns the CRC-32/ISCSI check value,
    * wherever the buffer sits. */
  lemma CheckInputValue(addr: nat)
    ensures Crc32Iscsi(0, Rocksoft.CheckInput, addr) == 0xE306_9283
  {
    ShortBuffer(0, Rocksoft.CheckInput, addr);
    CheckValue();
  }

  /** The result depends on the buffer's address only through the address modulo 16. */
  lemma AddressMod16(crc: bv32, data: seq<bv8>, addr: nat)
    requires |data| < 0x1_0000_0000_0000_0000
    ensures Crc32Iscsi(crc, data, addr) == Crc32Iscsi(crc, data, addr % 16)
  {
    PrologueLenMod16(addr, |data|);
  }
}
