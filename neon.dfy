// The aarch64 CRC-32C kernel (`crc32_iscsi_impl`, NEON "blended" variant). Buffers of at
// most 1 KiB take the small implementation: the alignment prologue, twelve vector lanes
// folded over 192-byte chunks, one lane folded over 16-byte chunks, then 8-byte words and
// single bytes. Longer buffers take the large one: the prologue, three scalar streams
// running beside nine vector lanes over 192-byte blocks, a three-stream pass over what is
// left of at least 32 bytes, then 8-byte words and single bytes. The buffer is a byte
// sequence and its address a natural number; positions are indices from its start.
module NeonKernel {
  import opened Bits
  import opened Vectors
  import opened Crc32c
  import Rocksoft

  /** Buffers of at most this many bytes take the small implementation. */
  const LargeBufferThreshold: nat := 1024

  /** The folding constants of the two main loops, named like the shared ones by the
    * distance between the data a lane combines: nine lanes 144 bytes apart in the large
    * path, twelve lanes 192 bytes apart in the small one. */
  const Fold144: Vec128 := Vec128(0x7E90_8048, 0xC96C_FDC0)
  const Fold192: Vec128 := Vec128(0xA87A_B8A8, 0xAB7A_FF2A)

  /** Where a path over whole 192-byte chunks from `p` stops: at most 191 bytes are left
    * behind. */
  function ChunkEnd(data: seq<bv8>, p: nat): (e: nat)
    requires p + 192 <= |data|
    ensures p + 192 <= e <= |data| && |data| - e < 192 && (e - p) % 192 == 0
  {
    p + 192 * ((|data| - p) / 192)
  }

  // ---------------------------------------------------------------------------------
  // The large implementation.

  /** The lanes of the large path after its main loop: nine lanes loaded at `at`, after
    * the three streams, folded `blk - 1` times over the following 144-byte chunks. */
  function LargeLanes(data: seq<bv8>, at: nat, blk: nat): (x: seq<Vec128>)
    requires blk >= 1 && at + 144 * blk <= |data|
    ensures |x| == 9
  {
    Lanes(LoadLanes(data, at, 9), Fold144, data, at + 144, 144, blk - 1)
  }

  /** Nine lanes reduced to one: the first folded with the next two, the other six in
    * pairs, all with `Fold16`; then pairs of those with `Fold32`; then the two results
    * with `Fold64`. */
  function Reduce9(x: seq<Vec128>): Vec128
    requires |x| == 9
  {
    var x0 := FoldLane(FoldLane(x[0], Fold16, x[1]), Fold16, x[2]);
    var x2 := FoldLane(x[3], Fold16, x[4]);
    var x4 := FoldLane(x[5], Fold16, x[6]);
    var x6 := FoldLane(x[7], Fold16, x[8]);
    FoldLane(FoldLane(x0, Fold32, x2), Fold64, FoldLane(x4, Fold32, x6))
  }

  /** The values the merge of the large path combines. */
  datatype LargeInputs = LargeInputs(x0: Vec128, c0: bv32, c1: bv32, c2: bv32, klen: nat, blk: nat)

  /** The merge inputs with block count `blk` and stream length `klen`: the streams read
    * `klen` bytes each from `p`, stream 0 from `crc` and the others from zero; the lanes
    * read the `144·blk` bytes after them and are reduced. */
  function LargeInputsAt(crc: bv32, data: seq<bv8>, p: nat, blk: nat, klen: nat): (m: LargeInputs)
    requires blk >= 1 && klen == 16 * blk && p + 3 * klen + 144 * blk <= |data|
    ensures m.klen == klen && m.blk == blk
  {
    LargeInputs(Reduce9(LargeLanes(data, p + 3 * klen, blk)),
                Bytes(crc, data[p..p + klen]), Bytes(0, data[p + klen..p + 2 * klen]),
                Bytes(0, data[p + 2 * klen..p + 3 * klen]), klen, blk)
  }

  /** The merge inputs of the large path at `p`: `blk = len / 192` blocks and
    * `klen = 16·blk`. */
  function LargeBlockInputs(crc: bv32, data: seq<bv8>, p: nat): (m: LargeInputs)
    requires p + 192 <= |data|
    ensures p + 192 * m.blk == ChunkEnd(data, p) && m.blk >= 1 && m.klen == 16 * m.blk
  {
    var blk := (|data| - p) / 192;
    LargeInputsAt(crc, data, p, blk, 16 * blk)
  }

  /** The word added into the high half of the reduced lanes: each stream shifted over
    * every byte that follows it in the blocks, low halves added. */
  function LargeCorrection(c0: bv32, c1: bv32, c2: bv32, klen: nat, blk: nat): bv64
    requires klen * 2 + blk * 144 < 0x1_0000_0000_0000_0000
  {
    Xor(Xor(Shift(PolyMul8, c0, klen * 2 + blk * 144), Shift(PolyMul8, c1, klen + blk * 144)),
        Shift(PolyMul8, c2, blk * 144)).lo
  }

  /** The merge of the large path: the reduced lanes collapsed to a register, with the
    * correction added into their high half. */
  function LargeMerge(m: LargeInputs): bv32
    requires m.klen * 2 + m.blk * 144 < 0x1_0000_0000_0000_0000
  {
    U64(U64(0, m.x0.lo), Xor64(LargeCorrection(m.c0, m.c1, m.c2, m.klen, m.blk), m.x0.hi))
  }

  /** What the block path of the large implementation returns for a register `crc` at `p`. */
  function LargeBlock(crc: bv32, data: seq<bv8>, p: nat): bv32
    requires p + 192 <= |data| < 0x1_0000_0000_0000_0000
  {
    LargeMerge(LargeBlockInputs(crc, data, p))
  }

  /** The stream length of the three-stream pass for `len` remaining bytes: one 8-byte
    * word per round, `(len - 8) / 24` rounds. */
  function MidKlen(len: nat): (klen: nat)
    requires len >= 32
    ensures klen >= 8 && klen % 8 == 0 && 3 * klen + 8 <= len
  {
    ((len - 8) / 24) * 8
  }

  /** Where the three-stream pass from `q` stops: after three streams and the final word,
    * at most 23 bytes before the end. */
  function MidEnd(data: seq<bv8>, q: nat): (e: nat)
    requires q + 32 <= |data|
    ensures q + 32 <= e <= |data| && |data| - e < 24
  {
    q + 3 * MidKlen(|data| - q) + 8
  }

  /** The values the merge of the three-stream pass combines. */
  datatype MidInputs = MidInputs(c0: bv32, c1: bv32, c2: bv32, last: bv64, klen: nat)

  /** The merge inputs of the three-stream pass with stream length `klen` at `q`. */
  function MidInputsAt(crc: bv32, data: seq<bv8>, q: nat, klen: nat): (m: MidInputs)
    requires q + 3 * klen + 8 <= |data|
    ensures m.klen == klen
  {
    MidInputs(Bytes(crc, data[q..q + klen]), Bytes(0, data[q + klen..q + 2 * klen]),
              Bytes(0, data[q + 2 * klen..q + 3 * klen]), Load64(data, q + 3 * klen), klen)
  }

  /** The word added into the final 8 bytes: streams 0 and 1 shifted over the bytes that
    * follow them, low halves added. */
  function MidCorrection(c0: bv32, c1: bv32, klen: nat): bv64
    requires klen * 2 + 8 < 0x1_0000_0000_0000_0000
  {
    Xor(Shift(PolyMul8, c0, klen * 2 + 8), Shift(PolyMul8, c1, klen + 8)).lo
  }

  /** The merge of the three-stream pass: the correction added into the final word, which
    * stream 2's register takes in one 64-bit step. */
  function MidMerge(m: MidInputs): bv32
    requires m.klen * 2 + 8 < 0x1_0000_0000_0000_0000
  {
    U64(m.c2, Xor64(m.last, MidCorrection(m.c0, m.c1, m.klen)))
  }

  /** The merge inputs of the three-stream pass for a register `crc` at `q`. */
  function MidInputsOf(crc: bv32, data: seq<bv8>, q: nat): (m: MidInputs)
    requires q + 32 <= |data|
    ensures m.klen == MidKlen(|data| - q)
  {
    MidInputsAt(crc, data, q, MidKlen(|data| - q))
  }

  /** What the three-stream pass returns for a register `crc` at `q`. */
  function Mid(crc: bv32, data: seq<bv8>, q: nat): bv32
    requires q + 32 <= |data| < 0x1_0000_0000_0000_0000
  {
    MidMerge(MidInputsOf(crc, data, q))
  }

  /** The register after the three-stream pass, when at least 32 bytes remain, and the
    * tail loops. */
  function MidRest(c: bv32, data: seq<bv8>, q: nat): bv32
    requires q <= |data| < 0x1_0000_0000_0000_0000
  {
    if |data| - q >= 32 then Bytes(Mid(c, data, q), data[MidEnd(data, q)..])
    else Bytes(c, data[q..])
  }

  /** The register after everything the large implementation does past the prologue. */
  function LargeRest(c: bv32, data: seq<bv8>, p: nat): bv32
    requires p <= |data| < 0x1_0000_0000_0000_0000
  {
    if |data| - p >= 192 then MidRest(LargeBlock(c, data, p), data, ChunkEnd(data, p))
    else MidRest(c, data, p)
  }

  /** What `crc32_iscsi_large_impl(crc, buf, len)` returns for a buffer at `addr`. */
  function Large(crc: bv32, data: seq<bv8>, addr: nat): bv32
    requires |data| < 0x1_0000_0000_0000_0000
  {
    !LargeRest(Bytes(!crc, data[..PrologueLen(addr, |data|)]), data, PrologueLen(addr, |data|))
  }

  // ---------------------------------------------------------------------------------
  // The small implementation.

  /** The lanes of the small path after its main loop: twelve lanes loaded at `p`, the
    * register added into the first, folded `m - 1` times over the following 192-byte
    * chunks. */
  function SmallLanes(crc: bv32, data: seq<bv8>, p: nat, m: nat): (x: seq<Vec128>)
    requires m >= 1 && p + 192 * m <= |data|
    ensures |x| == 12
  {
    Lanes(Inject(LoadLanes(data, p, 12), crc), Fold192, data, p + 192, 192, m - 1)
  }

  /** Twelve lanes reduced to one: adjacent pairs with `Fold16`, then pairs of those with
    * `Fold32`, then the first with each of the other two with `Fold64`. */
  function Reduce12(x: seq<Vec128>): Vec128
    requires |x| == 12
  {
    var x0 := FoldLane(x[0], Fold16, x[1]);
    var x2 := FoldLane(x[2], Fold16, x[3]);
    var x4 := FoldLane(x[4], Fold16, x[5]);
    var x6 := FoldLane(x[6], Fold16, x[7]);
    var x8 := FoldLane(x[8], Fold16, x[9]);
    var x10 := FoldLane(x[10], Fold16, x[11]);
    FoldLane(FoldLane(FoldLane(x0, Fold32, x2), Fold64, FoldLane(x4, Fold32, x6)), Fold64,
             FoldLane(x8, Fold32, x10))
  }

  /** What the 192-byte path of the small implementation returns for a register `crc` at
    * `p`. */
  function SmallBlock(crc: bv32, data: seq<bv8>, p: nat): bv32
    requires p + 192 <= |data|
  {
    Collapse(Reduce12(SmallLanes(crc, data, p, (|data| - p) / 192)))
  }

  /** The single lane of the 16-byte path: loaded at `q`, the register added into it,
    * folded `m - 1` times over the following 16-byte chunks. */
  function SixteenLanes(crc: bv32, data: seq<bv8>, q: nat, m: nat): (x: seq<Vec128>)
    requires m >= 1 && q + 16 * m <= |data|
    ensures |x| == 1
  {
    Lanes(Inject(LoadLanes(data, q, 1), crc), Fold16, data, q + 16, 16, m - 1)
  }

  /** What the 16-byte path returns for a register `crc` at `q`. */
  function Sixteen(crc: bv32, data: seq<bv8>, q: nat): bv32
    requires q + 16 <= |data|
  {
    Collapse(SixteenLanes(crc, data, q, (|data| - q) / 16)[0])
  }

  /** Where the 16-byte path from `q` stops: after whole 16-byte chunks, at most 15 bytes
    * before the end. */
  function SixteenEnd(data: seq<bv8>, q: nat): (e: nat)
    requires q + 16 <= |data|
    ensures q + 16 <= e <= |data| && |data| - e < 16 && (e - q) % 16 == 0
  {
    q + 16 * ((|data| - q) / 16)
  }

  /** The register after the 16-byte path, when at least 16 bytes remain, and the tail
    * loops. */
  function SixteenRest(c: bv32, data: seq<bv8>, q: nat): bv32
    requires q <= |data|
  {
    if |data| - q >= 16 then Bytes(Sixteen(c, data, q), data[SixteenEnd(data, q)..])
    else Bytes(c, data[q..])
  }

  /** The register after everything the small implementation does past the prologue. */
  function SmallRest(c: bv32, data: seq<bv8>, p: nat): bv32
    requires p <= |data|
  {
    if |data| - p >= 192 then SixteenRest(SmallBlock(c, data, p), data, ChunkEnd(data, p))
    else SixteenRest(c, data, p)
  }

  /** What `crc32_iscsi_small_impl(crc, buf, len)` returns for a buffer at `addr`. */
  function Small(crc: bv32, data: seq<bv8>, addr: nat): bv32
    requires |data| < 0x1_0000_0000_0000_0000
  {
    !SmallRest(Bytes(!crc, data[..PrologueLen(addr, |data|)]), data, PrologueLen(addr, |data|))
  }

  /** What `crc32_iscsi_impl(crc, buf, len)` returns: the small implementation up to the
    * threshold, the large one above. */
  function Crc32Iscsi(crc: bv32, data: seq<bv8>, addr: nat): bv32
    requires |data| < 0x1_0000_0000_0000_0000
  {
    if |data| <= LargeBufferThreshold then Small(crc, data, addr) else Large(crc, data, addr)
  }

  // ---------------------------------------------------------------------------------
  // The large implementation, step by step.

  /** Two rounds of the scalar streams: 16 more bytes each. */
  method StreamPair(c0: bv32, c1: bv32, c2: bv32, data: seq<bv8>, buf: nat, klen: nat,
                    ghost s: nat, ghost init: bv32, ghost next: nat)
    returns (d0: bv32, d1: bv32, d2: bv32)
    requires next == buf + 16 && next + 2 * klen <= |data| && Streams(init, c0, c1, c2, data, s, buf, klen)
    ensures Streams(init, d0, d1, d2, data, s, next, klen)
  {
    d0, d1, d2 := StreamRound(c0, c1, c2, data, buf, klen, s, init, buf + 8);
    d0, d1, d2 := StreamRound(d0, d1, d2, data, buf + 8, klen, s, init, next);
  }

  /** One pass of the large main loop: the nine lanes folded over the next 144 bytes, two
    * words into each stream. */
  method LargeRound(x: seq<Vec128>, c0: bv32, c1: bv32, c2: bv32, data: seq<bv8>, buf: nat, buf2: nat,
                    klen: nat, ghost s: nat, ghost init: bv32, ghost next: nat)
    returns (y: seq<Vec128>, d0: bv32, d1: bv32, d2: bv32)
    requires |x| == 9 && buf2 + 144 <= |data|
    requires next == buf + 16 && next + 2 * klen <= |data| && Streams(init, c0, c1, c2, data, s, buf, klen)
    ensures y == FoldLanes(x, Fold144, data, buf2)
    ensures Streams(init, d0, d1, d2, data, s, next, klen)
  {
    y := FoldLanes(x, Fold144, data, buf2);
    d0, d1, d2 := StreamPair(c0, c1, c2, data, buf, klen, s, init, next);
  }

  /** The first vector chunk and the main loop of the large path: the lanes hold the nine
    * lanes after the streams folded over every later 144-byte chunk; the streams, stream 0
    * from `crc`, have read all but their last 16 bytes. */
  method LargeLoop(crc: bv32, data: seq<bv8>, p: nat, blk: nat, klen: nat)
    returns (x: seq<Vec128>, crc0: bv32, crc1: bv32, crc2: bv32, buf: nat, buf2: nat)
    requires blk >= 1 && klen == 16 * blk && p + 3 * klen + 144 * blk <= |data|
    ensures buf + 16 == p + klen && buf2 == p + 3 * klen + 144 * blk
    ensures x == LargeLanes(data, p + 3 * klen, blk)
    ensures Streams(crc, crc0, crc1, crc2, data, p, buf, klen)
  {
    buf := p;
    buf2 := buf + klen * 3;
    var limit: int := buf + klen - 32;
    crc0 := crc;
    crc1 := 0;
    crc2 := 0;
    ghost var target := LargeLanes(data, p + 3 * klen, blk);
    x := LoadLanes(data, buf2, 9);
    var next := buf2 + 144;
    buf2 := next;
    ghost var i := 0;
    ghost var rest := blk - 1;
    while buf <= limit
      invariant i + 1 <= blk && rest == blk - 1 - i
      invariant buf == p + 16 * i && buf2 == p + 3 * klen + 144 + 144 * i
      invariant |x| == 9 && Lanes(x, Fold144, data, buf2, 144, rest) == target
      invariant Streams(crc, crc0, crc1, crc2, data, p, buf, klen)
      decreases rest
    {
      ghost var x0, at, t := x, buf2, rest;
      var next := buf + 16;
      x, crc0, crc1, crc2 := LargeRound(x, crc0, crc1, crc2, data, buf, buf2, klen, p, crc, next);
      buf := next;
      buf2 := buf2 + 144;
      i := i + 1;
      rest := rest - 1;
      LanesAdvance(x0, x, Fold144, data, at, buf2, 144, t, rest, target);
    }
  }

  /** In the large path the three streams and the lanes together take exactly
    * `192·blk` bytes, and every shift distance is at least 144 bytes, so the exponent
    * `8·nbytes − 33` of `crc_shift` never wraps. */
  lemma LargeShiftSizes(len: nat)
    requires 192 <= len < 0x2000_0000_0000_0000
    ensures var blk := len / 192; var klen := 16 * blk;
      3 * klen + 144 * blk == 192 * blk <= len
      && ShiftExponent(klen * 2 + blk * 144) == 8 * (klen * 2 + blk * 144) - 33
      && ShiftExponent(klen + blk * 144) == 8 * (klen + blk * 144) - 33
      && ShiftExponent(blk * 144) == 8 * (blk * 144) - 33
  {
  }

  /** The shifts of the large merge: each stream moved over every byte that follows it,
    * low halves added. */
  method LargeShifts(c0: bv32, c1: bv32, c2: bv32, klen: nat, blk: nat) returns (vc: bv64)
    requires klen * 2 + blk * 144 < 0x1_0000_0000_0000_0000
    ensures vc == LargeCorrection(c0, c1, c2, klen, blk)
  {
    var vc0 := CrcShift(PolyMul8, c0, klen * 2 + blk * 144);
    var vc1 := CrcShift(PolyMul8, c1, klen + blk * 144);
    var vc2 := CrcShift(PolyMul8, c2, 0 + blk * 144);
    vc := Xor(Xor(vc0, vc1), vc2).lo;
  }

  /** `LargeBlockInputs` names its block count and stream length. */
  lemma LargeBlockInputsAt(crc: bv32, data: seq<bv8>, p: nat, blk: nat, klen: nat)
    requires p + 192 <= |data| && blk == (|data| - p) / 192 && klen == 16 * blk
    ensures blk >= 1 && p + 3 * klen + 144 * blk == ChunkEnd(data, p)
    ensures LargeBlockInputs(crc, data, p) == LargeInputsAt(crc, data, p, blk, klen)
  {
    assert 192 * blk <= |data| - p;
  }

  /** The merge inputs of the large path, given one by one. */
  lemma LargeInputsAre(crc: bv32, data: seq<bv8>, p: nat, blk: nat, klen: nat,
                       x0: Vec128, c0: bv32, c1: bv32, c2: bv32)
    requires blk >= 1 && klen == 16 * blk && p + 3 * klen + 144 * blk <= |data|
    requires x0 == Reduce9(LargeLanes(data, p + 3 * klen, blk))
    requires c0 == Bytes(crc, data[p..p + klen]) && c1 == Bytes(0, data[p + klen..p + 2 * klen])
    requires c2 == Bytes(0, data[p + 2 * klen..p + 3 * klen])
    ensures LargeInputsAt(crc, data, p, blk, klen) == LargeInputs(x0, c0, c1, c2, klen, blk)
  {
  }

  /** The block path of `crc32_iscsi_large_impl`, for at least 192 bytes. */
  method LargePath(crc: bv32, data: seq<bv8>, p: nat) returns (c: bv32, q: nat)
    requires p + 192 <= |data| < 0x1_0000_0000_0000_0000
    ensures q == ChunkEnd(data, p) && c == LargeBlock(crc, data, p)
  {
    var len := |data| - p;
    var blk := len / 192;
    var klen := blk * 16;
    LargeBlockInputsAt(crc, data, p, blk, klen);
    var x, crc0, crc1, crc2, buf, buf2 := LargeLoop(crc, data, p, blk, klen);
    // Reduce the nine lanes to one.
    var x0 := FoldLane(x[0], Fold16, x[1]);
    x0 := FoldLane(x0, Fold16, x[2]);
    var x2 := FoldLane(x[3], Fold16, x[4]);
    var x4 := FoldLane(x[5], Fold16, x[6]);
    var x6 := FoldLane(x[7], Fold16, x[8]);
    x0 := FoldLane(x0, Fold32, x2);
    x4 := FoldLane(x4, Fold32, x6);
    x0 := FoldLane(x0, Fold64, x4);
    // The final scalar chunk.
    var next := buf + 16;
    crc0, crc1, crc2 := StreamPair(crc0, crc1, crc2, data, buf, klen, p, crc, next);
    buf := next;
    StreamsDone(crc, crc0, crc1, crc2, data, p, buf, klen);
    var vc := LargeShifts(crc0, crc1, crc2, klen, blk);
    LargeInputsAre(crc, data, p, blk, klen, x0, crc0, crc1, crc2);
    crc0 := U64(0, x0.lo);
    crc0 := U64(crc0, Xor64(vc, x0.hi));
    c, q := crc0, buf2;
  }

  /** The rounds of the three-stream pass: the body of the `do … while` runs once, then
    * again while at least 32 bytes remain, `(len - 8) / 24` times in all; each stream,
    * stream 0 from `crc`, reads `klen` bytes. */
  method MidLoop(crc: bv32, data: seq<bv8>, q: nat, klen: nat)
    returns (crc0: bv32, crc1: bv32, crc2: bv32, buf: nat)
    requires q + 32 <= |data| && klen == MidKlen(|data| - q)
    ensures buf == q + klen && Streams(crc, crc0, crc1, crc2, data, q, buf, klen)
  {
    var len := |data| - q;
    ghost var n := (len - 8) / 24;
    crc0, crc1, crc2 := crc, 0, 0;
    buf := q;
    var next := buf + 8;
    crc0, crc1, crc2 := StreamRound(crc0, crc1, crc2, data, buf, klen, q, crc, next);
    buf := next;
    len := len - 24;
    ghost var i := 1;
    while len >= 32
      invariant 1 <= i <= n && len == |data| - q - 24 * i && buf == q + 8 * i
      invariant Streams(crc, crc0, crc1, crc2, data, q, buf, klen)
      decreases len
    {
      next := buf + 8;
      crc0, crc1, crc2 := StreamRound(crc0, crc1, crc2, data, buf, klen, q, crc, next);
      buf := next;
      len := len - 24;
      i := i + 1;
    }
  }

  /** `MidInputsOf` and `MidEnd` with the stream length computed from `len` remaining. */
  lemma MidInputsOfAt(crc: bv32, data: seq<bv8>, q: nat, len: nat, klen: nat)
    requires q + 32 <= |data| && len == |data| - q && klen == ((len - 8) / 24) * 8
    ensures klen == MidKlen(|data| - q) && MidEnd(data, q) == q + 3 * klen + 8
    ensures MidInputsOf(crc, data, q) == MidInputsAt(crc, data, q, klen)
  {
  }

  /** In the three-stream pass both shift distances are at least 16 bytes, so the
    * exponent `8·nbytes − 33` of `crc_shift` never wraps. */
  lemma MidShiftSizes(len: nat)
    requires 32 <= len < 0x2000_0000_0000_0000
    ensures var klen := MidKlen(len);
      ShiftExponent(klen * 2 + 8) == 8 * (klen * 2 + 8) - 33
      && ShiftExponent(klen + 8) == 8 * (klen + 8) - 33
  {
  }

  /** The shifts of the three-stream merge: streams 0 and 1 moved over the bytes that
    * follow them, low halves added. */
  method MidShifts(c0: bv32, c1: bv32, klen: nat) returns (vc: bv64)
    requires klen * 2 + 8 < 0x1_0000_0000_0000_0000
    ensures vc == MidCorrection(c0, c1, klen)
  {
    var vc0 := CrcShift(PolyMul8, c0, klen * 2 + 8);
    var vc1 := CrcShift(PolyMul8, c1, klen + 8);
    vc := Xor(vc0, vc1).lo;
  }

  /** The merge inputs of the three-stream pass, given one by one. */
  lemma MidInputsAre(crc: bv32, data: seq<bv8>, q: nat, klen: nat, at: nat, c0: bv32, c1: bv32, c2: bv32, last: bv64)
    requires at == q + 3 * klen && at + 8 <= |data|
    requires c0 == Bytes(crc, data[q..q + klen]) && c1 == Bytes(0, data[q + klen..q + 2 * klen])
    requires c2 == Bytes(0, data[q + 2 * klen..q + 3 * klen]) && last == Load64(data, at)
    ensures MidInputsAt(crc, data, q, klen) == MidInputs(c0, c1, c2, last, klen)
  {
  }

  /** The three-stream pass of `crc32_iscsi_large_impl`, for at least 32 bytes. */
  method MidPath(crc: bv32, data: seq<bv8>, q: nat) returns (c: bv32, r: nat)
    requires q + 32 <= |data| < 0x1_0000_0000_0000_0000
    ensures r == MidEnd(data, q) && c == Mid(crc, data, q)
  {
    var len := |data| - q;
    var klen := ((len - 8) / 24) * 8;
    MidInputsOfAt(crc, data, q, len, klen);
    var crc0, crc1, crc2, buf := MidLoop(crc, data, q, klen);
    StreamsDone(crc, crc0, crc1, crc2, data, q, buf, klen);
    var vc := MidShifts(crc0, crc1, klen);
    buf := buf + klen * 2;
    var last := Load64(data, buf);
    MidInputsAre(crc, data, q, klen, buf, crc0, crc1, crc2, last);
    crc0 := crc2;
    crc0 := U64(crc0, Xor64(last, vc));
    buf := buf + 8;
    c, r := crc0, buf;
  }

  /** The three-stream pass when at least 32 bytes remain, then the tail loops. */
  method MidRestPath(crc: bv32, data: seq<bv8>, q: nat) returns (c: bv32)
    requires q <= |data| < 0x1_0000_0000_0000_0000
    ensures c == MidRest(crc, data, q)
  {
    if |data| - q >= 32 {
      var m, r := MidPath(crc, data, q);
      c := Tail(m, data, r);
    } else {
      c := Tail(crc, data, q);
    }
  }

  /** Everything the large implementation does past the prologue. */
  method LargeRestPath(crc: bv32, data: seq<bv8>, p: nat) returns (c: bv32)
    requires p <= |data| < 0x1_0000_0000_0000_0000
    ensures c == LargeRest(crc, data, p)
  {
    if |data| - p >= 192 {
      c := LargeRestLong(crc, data, p);
    } else {
      c := MidRestPath(crc, data, p);
    }
  }

  /** The block path of the large implementation, then the three-stream pass and the tail
    * loops. */
  method LargeRestLong(crc: bv32, data: seq<bv8>, p: nat) returns (c: bv32)
    requires p + 192 <= |data| < 0x1_0000_0000_0000_0000
    ensures c == LargeRest(crc, data, p)
  {
    var b, q := LargePath(crc, data, p);
    c := MidRestPath(b, data, q);
  }

  /** `crc32_iscsi_large_impl`. */
  method LargeImpl(crc: bv32, data: seq<bv8>, addr: nat) returns (r: bv32)
    requires |data| < 0x1_0000_0000_0000_0000
    ensures r == Large(crc, data, addr)
  {
    var c, pos := Prologue(!crc, data, addr);
    c := LargeRestPath(c, data, pos);
    r := !c;
  }

  // ---------------------------------------------------------------------------------
  // The small implementation, step by step.

  /** The first vector chunk and the main loop of the small path: the twelve lanes, the
    * register added into the first, folded over every later whole 192-byte chunk. */
  method SmallLoop(crc: bv32, data: seq<bv8>, p: nat) returns (x: seq<Vec128>, buf: nat)
    requires p + 192 <= |data|
    ensures buf == ChunkEnd(data, p)
    ensures x == SmallLanes(crc, data, p, (|data| - p) / 192)
  {
    var len := |data| - p;
    buf := p;
    var limit := buf + len - 192;
    x := LoadLanes(data, buf, 12);
    x := Inject(x, crc);
    buf := buf + 192;
    ghost var m := len / 192;
    ghost var target := SmallLanes(crc, data, p, m);
    ghost var i := 0;
    ghost var rest := m - 1;
    while buf <= limit
      invariant i + 1 <= m && rest == m - 1 - i && buf == p + 192 + 192 * i
      invariant |x| == 12 && Lanes(x, Fold192, data, buf, 192, rest) == target
      decreases rest
    {
      ghost var x0, at, t := x, buf, rest;
      x := FoldLanes(x, Fold192, data, buf);
      buf := buf + 192;
      i := i + 1;
      rest := rest - 1;
      LanesAdvance(x0, x, Fold192, data, at, buf, 192, t, rest, target);
    }
  }

  /** The 192-byte path of `crc32_iscsi_small_impl`. */
  method SmallPath(crc: bv32, data: seq<bv8>, p: nat) returns (c: bv32, q: nat)
    requires p + 192 <= |data|
    ensures q == ChunkEnd(data, p) && c == SmallBlock(crc, data, p)
  {
    var x, buf := SmallLoop(crc, data, p);
    // Reduce the twelve lanes to one.
    var x0 := FoldLane(x[0], Fold16, x[1]);
    var x2 := FoldLane(x[2], Fold16, x[3]);
    var x4 := FoldLane(x[4], Fold16, x[5]);
    var x6 := FoldLane(x[6], Fold16, x[7]);
    var x8 := FoldLane(x[8], Fold16, x[9]);
    var x10 := FoldLane(x[10], Fold16, x[11]);
    x0 := FoldLane(x0, Fold32, x2);
    x4 := FoldLane(x4, Fold32, x6);
    x8 := FoldLane(x8, Fold32, x10);
    x0 := FoldLane(x0, Fold64, x4);
    x4 := x8;
    x0 := FoldLane(x0, Fold64, x4);
    c := U64(0, x0.lo);
    c := U64(c, x0.hi);
    q := buf;
  }

  /** The 16-byte path of `crc32_iscsi_small_impl`: one lane, the register added into the
    * first 16 bytes, folded over every later whole 16-byte chunk. */
  method SixteenPath(crc: bv32, data: seq<bv8>, q: nat) returns (c: bv32, r: nat)
    requires q + 16 <= |data|
    ensures r == SixteenEnd(data, q) && c == Sixteen(crc, data, q)
  {
    var len := |data| - q;
    var buf := q;
    var x := LoadLanes(data, buf, 1);
    x := Inject(x, crc);
    buf := buf + 16;
    len := len - 16;
    ghost var m := (|data| - q) / 16;
    ghost var target := SixteenLanes(crc, data, q, m);
    ghost var i := 0;
    ghost var rest := m - 1;
    while len >= 16
      invariant i + 1 <= m && rest == m - 1 - i && buf == q + 16 + 16 * i && len == |data| - buf
      invariant |x| == 1 && Lanes(x, Fold16, data, buf, 16, rest) == target
      decreases len
    {
      ghost var x0, at, t := x, buf, rest;
      x := FoldLanes(x, Fold16, data, buf);
      buf := buf + 16;
      len := len - 16;
      i := i + 1;
      rest := rest - 1;
      LanesAdvance(x0, x, Fold16, data, at, buf, 16, t, rest, target);
    }
    c := U64(0, x[0].lo);
    c := U64(c, x[0].hi);
    r := buf;
  }

  /** The 16-byte path when at least 16 bytes remain, then the tail loops. */
  method SixteenRestPath(crc: bv32, data: seq<bv8>, q: nat) returns (c: bv32)
    requires q <= |data|
    ensures c == SixteenRest(crc, data, q)
  {
    if |data| - q >= 16 {
      var s, r := SixteenPath(crc, data, q);
      c := Tail(s, data, r);
    } else {
      c := Tail(crc, data, q);
    }
  }

  /** Everything the small implementation does past the prologue. */
  method SmallRestPath(crc: bv32, data: seq<bv8>, p: nat) returns (c: bv32)
    requires p <= |data|
    ensures c == SmallRest(crc, data, p)
  {
    if |data| - p >= 192 {
      c := SmallRestLong(crc, data, p);
    } else {
      c := SixteenRestPath(crc, data, p);
    }
  }

  /** The 192-byte path of the small implementation, then the 16-byte path and the tail
    * loops. */
  method SmallRestLong(crc: bv32, data: seq<bv8>, p: nat) returns (c: bv32)
    requires p + 192 <= |data|
    ensures c == SmallRest(crc, data, p)
  {
    var b, q := SmallPath(crc, data, p);
    c := SixteenRestPath(b, data, q);
  }

  /** `crc32_iscsi_small_impl`. */
  method SmallImpl(crc: bv32, data: seq<bv8>, addr: nat) returns (r: bv32)
    requires |data| < 0x1_0000_0000_0000_0000
    ensures r == Small(crc, data, addr)
  {
    var c, pos := Prologue(!crc, data, addr);
    c := SmallRestPath(c, data, pos);
    r := !c;
  }

  /** `crc32_iscsi_impl`: the dispatch on the 1 KiB threshold. */
  method Impl(crc: bv32, data: seq<bv8>, addr: nat) returns (r: bv32)
    requires |data| < 0x1_0000_0000_0000_0000
    ensures r == Crc32Iscsi(crc, data, addr)
    ensures |data| <= LargeBufferThreshold ==> r == Small(crc, data, addr)
    ensures |data| > LargeBufferThreshold ==> r == Large(crc, data, addr)
  {
    if |data| <= LargeBufferThreshold {
      r := SmallImpl(crc, data, addr);
    } else {
      r := LargeImpl(crc, data, addr);
    }
  }

  // ---------------------------------------------------------------------------------
  // Properties.

  /** When fewer than 16 bytes follow the prologue, the small implementation is the
    * bytewise CRC-32C of the whole buffer. */
  lemma SmallShortIsBytewise(crc: bv32, data: seq<bv8>, addr: nat)
    requires |data| < 0x1_0000_0000_0000_0000
    requires |data| - PrologueLen(addr, |data|) < 16
    ensures Small(crc, data, addr) == !Bytes(!crc, data)
  {
    var p := PrologueLen(addr, |data|);
    assert data == data[..p] + data[p..];
    BytesAppend(!crc, data[..p], data[p..]);
  }

  /** When fewer than 32 bytes follow the prologue, the large implementation is the
    * bytewise CRC-32C of the whole buffer. */
  lemma LargeShortIsBytewise(crc: bv32, data: seq<bv8>, addr: nat)
    requires |data| < 0x1_0000_0000_0000_0000
    requires |data| - PrologueLen(addr, |data|) < 32
    ensures Large(crc, data, addr) == !Bytes(!crc, data)
  {
    var p := PrologueLen(addr, |data|);
    assert data == data[..p] + data[p..];
    BytesAppend(!crc, data[..p], data[p..]);
  }

  /** Buffers shorter than 16 bytes get the bytewise CRC-32C from either implementation,
    * so the threshold does not matter for them. */
  lemma ShortBuffer(crc: bv32, data: seq<bv8>, addr: nat)
    requires |data| < 16
    ensures Crc32Iscsi(crc, data, addr) == !Bytes(!crc, data)
    ensures Small(crc, data, addr) == Large(crc, data, addr)
  {
    SmallShortIsBytewise(crc, data, addr);
    LargeShortIsBytewise(crc, data, addr);
  }

  /** An empty buffer leaves the CRC unchanged. */
  lemma EmptyBuffer(crc: bv32, addr: nat)
    ensures Crc32Iscsi(crc, [], addr) == crc
  {
    ShortBuffer(crc, [], addr);
  }

  /** Over "123456789" from zero the kernel returns the CRC-32/ISCSI check value,
    * wherever the buffer sits. */
  lemma CheckInputValue(addr: nat)
    ensures Crc32Iscsi(0, Rocksoft.CheckInput, addr) == 0xE306_9283
  {
    ShortBuffer(0, Rocksoft.CheckInput, addr);
    CheckValue();
  }

  /** The result depends on the buffer's address only through the address modulo 16. */
  lemma AddressMod16(crc: bv32, data: seq<bv8>, addr: nat)
    requires |data| < 0x1_0000_0000_0000_0000
    ensures Crc32Iscsi(crc, data, addr) == Crc32Iscsi(crc, data, addr % 16)
  {
    PrologueLenMod16(addr, |data|);
  }
}
