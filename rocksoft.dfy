// The parameterised CRC model of the `crc` crate (Williams' "Rocksoft" model):
// the reference implementation every accelerated path in this library is
// measured against, and the engine of the software fallback.
module Rocksoft {
  import opened Bits
  import opened Results

  /** The three register widths the library supports. */
  datatype Width = W16 | W32 | W64

  function WidthBits(w: Width): (n: nat)
    ensures n == 16 || n == 32 || n == 64
  {
    match w
    case W16 => 16
    case W32 => 32
    case W64 => 64
  }

  /** The width of a register given as a number of bits, if it is one of the three. */
  function WidthOf(bits: nat): (w: Option<Width>)
    ensures w.Some? <==> bits == 16 || bits == 32 || bits == 64
    ensures w.Some? ==> WidthBits(w.value) == bits
  {
    if bits == 16 then Some(W16)
    else if bits == 32 then Some(W32)
    else if bits == 64 then Some(W64)
    else None
  }

  /** All-ones in the low `WidthBits(w)` bits. */
  function Mask(w: Width): bv64 {
    match w
    case W16 => 0xFFFF
    case W32 => 0xFFFF_FFFF
    case W64 => 0xFFFF_FFFF_FFFF_FFFF
  }

  /** The most significant bit of a `w`-bit register. */
  function TopBit(w: Width): bv64 {
    match w
    case W16 => 0x8000
    case W32 => 0x8000_0000
    case W64 => 0x8000_0000_0000_0000
  }

  /** `x` is a value of the `w`-bit register type (`u16`, `u32` or `u64`). */
  predicate Fits(w: Width, x: bv64) {
    x & !Mask(w) == 0
  }

  /** `reverse_bits` on the `w`-bit type, for a value held in a `u64`. */
  function Reflect(w: Width, x: bv64): (r: bv64)
    ensures Fits(w, r)
  {
    match w
    case W16 => Reflect16(x)
    case W32 => Reflect32(x)
    case W64 => Reverse64(x)
  }

  /** `(x as u16).reverse_bits() as u64`. */
  function Reflect16(x: bv64): bv64 {
    Reverse16(Low16(x)) as bv64
  }

  /** `(x as u32).reverse_bits() as u64`. */
  function Reflect32(x: bv64): bv64 {
    Reverse32(Low32(x)) as bv64
  }

  lemma ReflectInvolutive(w: Width, x: bv64)
    requires Fits(w, x)
    ensures Reflect(w, Reflect(w, x)) == x
  {
    match w
    case W16 => Reflect16Involutive(x);
    case W32 => Reflect32Involutive(x);
    case W64 => Reverse64Involutive(x);
  }

  lemma Reflect16Involutive(x: bv64)
    requires x & !0xFFFF == 0
    ensures Reflect16(Reflect16(x)) == x
  {
  }

  lemma Reflect32Involutive(x: bv64)
    requires x & !0xFFFF_FFFF == 0
    ensures Reflect32(Reflect32(x)) == x
  {
  }

  /** `crc::Algorithm<W>`: the catalogue description of one CRC. */
  datatype Algorithm = Algorithm(
    width: Width,
    poly: bv64,
    init: bv64,
    refin: bool,
    refout: bool,
    xorout: bv64,
    check: bv64,
    residue: bv64)

  /** Every numeric field is a value of the register type. */
  predicate WellFormed(a: Algorithm) {
    Fits(a.width, a.poly) && Fits(a.width, a.init) && Fits(a.width, a.xorout)
    && Fits(a.width, a.check) && Fits(a.width, a.residue)
  }

  /** One step of polynomial division in `w`-bit arithmetic: shift the register left by one
    * bit, subtracting (XOR-ing) the polynomial when the bit shifted out was set. */
  function Shift(w: Width, poly: bv64, reg: bv64): (r: bv64)
    ensures Fits(w, r)
  {
    var shifted := if reg & TopBit(w) != 0 then (reg << 1) ^ poly else reg << 1;
    shifted & Mask(w)
  }

  /** A byte placed in the top eight bits of a `w`-bit register. */
  function Lift(w: Width, b: bv8): bv64 {
    match w
    case W16 => (b as bv64) << 8
    case W32 => (b as bv64) << 24
    case W64 => (b as bv64) << 56
  }

  /** An input byte in the order its bits enter the register: reflected when `refin`. */
  function InputByte(refin: bool, b: bv8): bv8 {
    if refin then Reverse8(b) else b
  }

  /** Feed one input byte into the register, one division step per bit. Only the width,
    * the polynomial and `refin` take part. */
  function Absorb(w: Width, poly: bv64, refin: bool, reg: bv64, b: bv8): (r: bv64)
    ensures Fits(w, r)
  {
    Shift(w, poly, Shift(w, poly, Shift(w, poly, Shift(w, poly,
      Shift(w, poly, Shift(w, poly, Shift(w, poly, Shift(w, poly,
        reg ^ Lift(w, InputByte(refin, b))))))))))
  }

  /** The division register of a `w`-bit CRC with polynomial `poly` after feeding `data`
    * into a register holding `reg`. */
  function Run(w: Width, poly: bv64, refin: bool, reg: bv64, data: seq<bv8>): bv64
    decreases |data|
  {
    if |data| == 0 then reg else Run(w, poly, refin, Absorb(w, poly, refin, reg, data[0]), data[1..])
  }

  /** The division register of algorithm `a`: only the width, the polynomial and `refin`
    * take part, so two algorithms that agree on those agree here by construction. */
  function Register(a: Algorithm, reg: bv64, data: seq<bv8>): bv64 {
    Run(a.width, a.poly, a.refin, reg, data)
  }

  /** XOR with `xorout`: `finalize` applies it, and `update_u16`/`u32`/`u64` take it off
    * again with the same operation. */
  function Xorout(xorout: bv64, v: bv64): bv64 {
    v ^ xorout
  }

  /** Applying `xorout` twice leaves the value unchanged. */
  lemma XoroutTwice(xorout: bv64, v: bv64)
    ensures Xorout(xorout, Xorout(xorout, v)) == v
  {
    XorCancel(v, xorout);
  }

  /** The value read out of a register: reflected when `refout`, then XOR-ed with `xorout`. */
  function Output(w: Width, refout: bool, xorout: bv64, reg: bv64): bv64 {
    Xorout(xorout, if refout then Reflect(w, reg) else reg)
  }

  /** Taking `xorout` off an output leaves the (reflected, when `refout`) register. */
  lemma OutputStrip(w: Width, refout: bool, xorout: bv64, reg: bv64)
    ensures Xorout(xorout, Output(w, refout, xorout, reg)) == if refout then Reflect(w, reg) else reg
  {
    XoroutTwice(xorout, if refout then Reflect(w, reg) else reg);
  }

  /** The checksum read out of the register of `a`. */
  function Finalize(a: Algorithm, reg: bv64): bv64 {
    Output(a.width, a.refout, a.xorout, reg)
  }

  /** `Crc::checksum(data)`. */
  function Checksum(a: Algorithm, data: seq<bv8>): bv64 {
    Finalize(a, Register(a, a.init, data))
  }

  /** `digest_with_initial(initial)`, then `update(data)`, then `finalize()`: the same
    * computation with the register starting from `initial` instead of `init`. */
  function DigestWithInitial(a: Algorithm, initial: bv64, data: seq<bv8>): bv64 {
    Finalize(a, Register(a, initial, data))
  }

  /** The register never holds bits above the width of the CRC. */
  lemma {:induction false} RunFits(w: Width, poly: bv64, refin: bool, reg: bv64, data: seq<bv8>)
    requires Fits(w, reg)
    ensures Fits(w, Run(w, poly, refin, reg, data))
    decreases |data|
  {
    if |data| > 0 {
      RunFits(w, poly, refin, Absorb(w, poly, refin, reg, data[0]), data[1..]);
    }
  }

  lemma RegisterFits(a: Algorithm, reg: bv64, data: seq<bv8>)
    requires Fits(a.width, reg)
    ensures Fits(a.width, Register(a, reg, data))
  {
    RunFits(a.width, a.poly, a.refin, reg, data);
  }

  /** Feeding `s` then `t` is feeding `s + t`: the register is all the state a CRC has. */
  lemma {:induction false} RunAppend(w: Width, poly: bv64, refin: bool, reg: bv64, s: seq<bv8>, t: seq<bv8>)
    ensures Run(w, poly, refin, reg, s + t) == Run(w, poly, refin, Run(w, poly, refin, reg, s), t)
    decreases |s|
  {
    if |s| > 0 {
      assert (s + t)[0] == s[0];
      assert (s + t)[1..] == s[1..] + t;
      RunAppend(w, poly, refin, Absorb(w, poly, refin, reg, s[0]), s[1..], t);
    } else {
      assert s + t == t;
    }
  }

  lemma RegisterAppend(a: Algorithm, reg: bv64, s: seq<bv8>, t: seq<bv8>)
    ensures Register(a, reg, s + t) == Register(a, Register(a, reg, s), t)
  {
    RunAppend(a.width, a.poly, a.refin, reg, s, t);
  }

  /** Masking to the width gives a value of the register type. */
  lemma MaskFits(w: Width, x: bv64)
    ensures Fits(w, x & Mask(w))
  {
  }

  /** The string every catalogue check value is computed over. */
  const CheckInput: seq<bv8> := [0x31, 0x32, 0x33, 0x34, 0x35, 0x36, 0x37, 0x38, 0x39]
}
