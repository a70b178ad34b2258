// The 128-bit folding register, the `CrcState` wrapper around it, and the
// operations the CRC-16 and CRC-32 widths hand over to `width32_ops`. The
// bodies of `width32_ops` and of the architecture's vector operations are not
// part of this model: they enter as the fields of `Width32Ops`.
module Vectors {
  import opened Bits
  import opened Structs

  /** A 128-bit SIMD register as the two `u64` halves `extract_u64s` returns, low half first. */
  datatype Vec128 = Vec128(lo: bv64, hi: bv64)

  /** `CrcState`: the folding register and whether the CRC is reflected. */
  datatype CrcState = CrcState(value: Vec128, reflected: bool)

  /** `create_vector_from_u32(value, high)`: without `high` the value is the low 32 bits
    * of the register; with `high` it is the top 32 bits of the high half (a 12-byte
    * shift). Every other bit is zero. */
  function FromU32(value: bv32, high: bool): (v: Vec128)
    ensures high ==> v.lo == 0 && v.hi & 0xFFFF_FFFF == 0 && High32(v.hi) == value
    ensures !high ==> v.hi == 0 && v.lo & !0xFFFF_FFFF == 0 && Low32(v.lo) == value
  {
    if high then Vec128(0, (value as bv64) << 32) else Vec128(value as bv64, 0)
  }

  /** The two halves exchanged. */
  function Swap(v: Vec128): Vec128 {
    Vec128(v.hi, v.lo)
  }

  /** The four constant pairs `load_constants` returns (`[[u64; 2]; 4]`). */
  type Constants = s: seq<Vec128> | |s| == 4
    witness [Vec128(0, 0), Vec128(0, 0), Vec128(0, 0), Vec128(0, 0)]

  /** The `width32_ops` operations both narrow widths delegate to. `fold16` and `foldWidth`
    * give the state they leave behind; the reductions give the two `u64` halves they
    * compute; `lastBytesTable` gives the table position and length for a remaining length. */
  datatype Width32Ops = Width32Ops(
    loadConstants: bool -> Constants,
    fold16: (CrcState, Vec128, Vec128) -> CrcState,
    foldWidth: (CrcState, bv64, bv64) -> CrcState,
    barrettReduction: (CrcState, bv64, bv64) -> Vec128,
    createCoefficient: (bv64, bv64) -> Vec128,
    finalReduction: (Vec128, bool, KeyArray) -> Vec128,
    lastBytesTable: (bool, nat) -> (nat, nat))

  /** A `&mut CrcState`: the folding operations update both fields in place. */
  class CrcStateCell {
    var value: Vec128
    var reflected: bool

    constructor (s: CrcState)
      ensures value == s.value && reflected == s.reflected
    {
      value := s.value;
      reflected := s.reflected;
    }

    function State(): CrcState
      reads this
    {
      CrcState(value, reflected)
    }
  }
}

// `EnhancedCrcWidth for Width32`: where a 32-bit register value sits in the
// 128-bit state, where it is read back, and the delegation to `width32_ops`.
module Crc32Width {
  import opened Bits
  import opened Structs
  import opened Vectors

  /** `load_constants`. */
  function LoadConstants(ops: Width32Ops, reflected: bool): Constants {
    ops.loadConstants(reflected)
  }

  /** `create_state`: a reflected value goes in the low 32 bits, a forward one in the top
    * 32 bits of the high half, and the state records which. */
  function CreateState(value: bv32, reflected: bool): (s: CrcState)
    ensures s.reflected == reflected
    ensures reflected ==> s.value.hi == 0 && s.value.lo & !0xFFFF_FFFF == 0 && Low32(s.value.lo) == value
    ensures !reflected ==> s.value.lo == 0 && s.value.hi & 0xFFFF_FFFF == 0 && High32(s.value.hi) == value
  {
    CrcState(FromU32(value, !reflected), reflected)
  }

  /** `extract_result`: the low 32 bits of the low half when reflected, the top 32 bits of
    * the high half otherwise. */
  function ExtractResult(v: Vec128, reflected: bool): bv32 {
    if reflected then Low32(v.lo) else High32(v.hi)
  }

  /** Reading the two halves a reduction returns: the low 32 bits of the high half when
    * reflected, the top 32 bits of the low half otherwise. */
  function ReductionResult(u64s: Vec128, reflected: bool): bv32 {
    if reflected then Low32(u64s.hi) else High32(u64s.lo)
  }

  /** `barrett_reduction`, reading the lane the state's own reflection selects. */
  function BarrettReduction(ops: Width32Ops, state: CrcState, poly: bv64, mu: bv64): bv32 {
    ReductionResult(ops.barrettReduction(state, poly, mu), state.reflected)
  }

  /** `perform_final_reduction`. */
  function PerformFinalReduction(ops: Width32Ops, v: Vec128, reflected: bool, keys: KeyArray): bv32 {
    ReductionResult(ops.finalReduction(v, reflected, keys), reflected)
  }

  /** `create_coefficient`: the reflection argument is not used. */
  function CreateCoefficient(ops: Width32Ops, high: bv64, low: bv64, reflected: bool): Vec128 {
    ops.createCoefficient(high, low)
  }

  /** `get_last_bytes_table_ptr`. */
  function LastBytesTable(ops: Width32Ops, reflected: bool, remaining: nat): (nat, nat) {
    ops.lastBytesTable(reflected, remaining)
  }

  /** `fold_16`: the state becomes what `width32_ops::fold_16` leaves. */
  method Fold16(ops: Width32Ops, state: CrcStateCell, coeff: Vec128, data: Vec128)
    modifies state
    ensures state.State() == ops.fold16(old(state.State()), coeff, data)
  {
    var s := ops.fold16(state.State(), coeff, data);
    state.value, state.reflected := s.value, s.reflected;
  }

  /** `fold_width`: the state becomes what `width32_ops::fold_width` leaves. */
  method FoldWidth(ops: Width32Ops, state: CrcStateCell, high: bv64, low: bv64)
    modifies state
    ensures state.State() == ops.foldWidth(old(state.State()), high, low)
  {
    var s := ops.foldWidth(state.State(), high, low);
    state.value, state.reflected := s.value, s.reflected;
  }

  /** The value put into a state is the value read out of it, in both modes. */
  lemma ExtractCreate(value: bv32, reflected: bool)
    ensures ExtractResult(CreateState(value, reflected).value, reflected) == value
  {
  }

  /** Two states of the same mode that read out the same value are built from the same
    * value: `create_state` is injective in each mode. */
  lemma CreateStateInjective(v1: bv32, v2: bv32, reflected: bool)
    requires CreateState(v1, reflected) == CreateState(v2, reflected)
    ensures v1 == v2
  {
    ExtractCreate(v1, reflected);
    ExtractCreate(v2, reflected);
  }

  /** A reduction reads the lane of the other half from the one `extract_result` reads:
    * exchanging the halves of a state turns one reading into the other. */
  lemma ReductionReadsSwapped(u64s: Vec128, reflected: bool)
    ensures ReductionResult(u64s, reflected) == ExtractResult(Swap(u64s), reflected)
  {
  }

  /** Barrett and final reduction read the same lanes: equal halves give equal results. */
  lemma ReductionsAgree(ops: Width32Ops, state: CrcState, poly: bv64, mu: bv64, keys: KeyArray)
    requires ops.finalReduction(state.value, state.reflected, keys) == ops.barrettReduction(state, poly, mu)
    ensures PerformFinalReduction(ops, state.value, state.reflected, keys) == BarrettReduction(ops, state, poly, mu)
  {
  }
}

// `EnhancedCrcWidth for Width16`: a 16-bit register is scaled into the 32-bit
// layout, every operation is the CRC-32 one, and results are scaled back.
module Crc16Width {
  import opened Bits
  import opened Structs
  import opened Vectors
  import Crc32Width

  /** The 32-bit value a 16-bit register stands for: itself when reflected, shifted into
    * the top half (`(value as u32) << 16`) when forward. */
  function Scale(value: bv16, reflected: bool): bv32 {
    if reflected then value as bv32 else (value as bv32) << 16
  }

  /** The 16-bit value read back from a 32-bit lane: its low half (`as u16`) when
    * reflected, its top half (`>> 16`) when forward. */
  function Unscale(x: bv32, reflected: bool): bv16 {
    if reflected then (x & 0xFFFF) as bv16 else (x >> 16) as bv16
  }

  /** Scaling a 16-bit value into the 32-bit layout loses nothing. */
  lemma UnscaleScale(value: bv16, reflected: bool)
    ensures Unscale(Scale(value, reflected), reflected) == value
  {
  }

  /** `create_state`: the CRC-32 state of the scaled value. */
  function CreateState(value: bv16, reflected: bool): (s: CrcState)
    ensures s == Crc32Width.CreateState(Scale(value, reflected), reflected)
    ensures s.reflected == reflected
    ensures reflected ==> s.value.hi == 0 && s.value.lo & !0xFFFF == 0 && Low16(s.value.lo) == value
    ensures !reflected ==> s.value.lo == 0 && s.value.hi & !0xFFFF_0000_0000_0000 == 0 && High16(s.value.hi) == value
  {
    var v := if reflected then FromU32(value as bv32, false) else FromU32((value as bv32) << 16, true);
    CrcState(v, reflected)
  }

  /** `extract_result`: the low 16 bits of the low half when reflected, the top 16 bits of
    * the high half otherwise. */
  function ExtractResult(v: Vec128, reflected: bool): bv16 {
    if reflected then Low16(v.lo) else High16(v.hi)
  }

  /** `barrett_reduction`: the low 16 bits of the high half when reflected, the top 16 bits
    * of the low half otherwise. */
  function BarrettReduction(ops: Width32Ops, state: CrcState, poly: bv64, mu: bv64): bv16 {
    var u64s := ops.barrettReduction(state, poly, mu);
    if state.reflected then Low16(u64s.hi) else High16(u64s.lo)
  }

  /** `perform_final_reduction`, reading the same lanes as `barrett_reduction`. */
  function PerformFinalReduction(ops: Width32Ops, v: Vec128, reflected: bool, keys: KeyArray): bv16 {
    var u64s := ops.finalReduction(v, reflected, keys);
    if reflected then Low16(u64s.hi) else High16(u64s.lo)
  }

  /** `load_constants`, `create_coefficient` and `get_last_bytes_table_ptr` hand over to
    * `width32_ops` exactly as the CRC-32 width does. */
  function LoadConstants(ops: Width32Ops, reflected: bool): Constants {
    ops.loadConstants(reflected)
  }

  function CreateCoefficient(ops: Width32Ops, high: bv64, low: bv64, reflected: bool): Vec128 {
    ops.createCoefficient(high, low)
  }

  function LastBytesTable(ops: Width32Ops, reflected: bool, remaining: nat): (nat, nat) {
    ops.lastBytesTable(reflected, remaining)
  }

  /** `fold_16`: the state becomes what `width32_ops::fold_16` leaves. */
  method Fold16(ops: Width32Ops, state: CrcStateCell, coeff: Vec128, data: Vec128)
    modifies state
    ensures state.State() == ops.fold16(old(state.State()), coeff, data)
  {
    var s := ops.fold16(state.State(), coeff, data);
    state.value, state.reflected := s.value, s.reflected;
  }

  /** `fold_width`: the state becomes what `width32_ops::fold_width` leaves. */
  method FoldWidth(ops: Width32Ops, state: CrcStateCell, high: bv64, low: bv64)
    modifies state
    ensures state.State() == ops.foldWidth(old(state.State()), high, low)
  {
    var s := ops.foldWidth(state.State(), high, low);
    state.value, state.reflected := s.value, s.reflected;
  }

  /** The value put into a state is the value read out of it, in both modes. */
  lemma ExtractCreate(value: bv16, reflected: bool)
    ensures ExtractResult(CreateState(value, reflected).value, reflected) == value
  {
    Crc32Width.ExtractCreate(Scale(value, reflected), reflected);
    UnscaleScale(value, reflected);
    ExtractIsScaled(CreateState(value, reflected).value, reflected);
  }

  /** Every 16-bit reading is the CRC-32 reading of the same state, scaled back. */
  lemma ExtractIsScaled(v: Vec128, reflected: bool)
    ensures ExtractResult(v, reflected) == Unscale(Crc32Width.ExtractResult(v, reflected), reflected)
  {
    LaneIsScaled(v.lo);
    LaneIsScaled(v.hi);
  }

  /** Reading 16 bits of a `u64` lane is reading 32 and scaling back. */
  lemma LaneIsScaled(x: bv64)
    ensures Unscale(Low32(x), true) == Low16(x)
    ensures Unscale(High32(x), false) == High16(x)
  {
  }

  /** Both 16-bit reductions are the CRC-32 ones, scaled back. */
  lemma ReductionsAreScaled(ops: Width32Ops, state: CrcState, poly: bv64, mu: bv64, v: Vec128, reflected: bool, keys: KeyArray)
    ensures BarrettReduction(ops, state, poly, mu)
         == Unscale(Crc32Width.BarrettReduction(ops, state, poly, mu), state.reflected)
    ensures PerformFinalReduction(ops, v, reflected, keys)
         == Unscale(Crc32Width.PerformFinalReduction(ops, v, reflected, keys), reflected)
  {
    var b := ops.barrettReduction(state, poly, mu);
    var f := ops.finalReduction(v, reflected, keys);
    LaneIsScaled(b.hi);
    LaneIsScaled(b.lo);
    LaneIsScaled(f.hi);
    LaneIsScaled(f.lo);
  }

  /** Everything else is the CRC-32 width's operation, unchanged. */
  lemma DelegatesLikeCrc32(ops: Width32Ops, reflected: bool, high: bv64, low: bv64, remaining: nat)
    ensures LoadConstants(ops, reflected) == Crc32Width.LoadConstants(ops, reflected)
    ensures CreateCoefficient(ops, high, low, reflected) == Crc32Width.CreateCoefficient(ops, high, low, !reflected)
    ensures LastBytesTable(ops, reflected, remaining) == Crc32Width.LastBytesTable(ops, reflected, remaining)
  {
  }
}
