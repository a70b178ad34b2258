// `CrcParams`: the parameter set every entry point is driven by, its
// constructor for caller-supplied parameters, and folding-key access.
module Structs {
  import opened Bits
  import opened Results
  import opened Enums

  /** The 23 folding keys of one parameter set (`[u64; 23]`). */
  type KeyArray = s: seq<bv64> | |s| == 23 witness seq(23, i => 0)

  /** `CrcKeysStorage::from_keys_fold_256`: the stored key table. */
  datatype CrcKeysStorage = KeysFold256(table: KeyArray)

  /** `CrcParams`. `width` is the `u8` bit width; `initAlgorithm` is the starting value of
    * the register in the form the SIMD code expects. */
  datatype CrcParams = CrcParams(
    algorithm: CrcAlgorithm,
    name: string,
    width: bv8,
    poly: bv64,
    init: bv64,
    initAlgorithm: bv64,
    refin: bool,
    refout: bool,
    xorout: bv64,
    check: bv64,
    keys: CrcKeysStorage)

  /** `CrcKeysStorage::key_count`. */
  function KeyCount(p: CrcParams): nat {
    |p.keys.table|
  }

  /** `CrcParams::get_key`: key `index`, or 0 when the index is out of range. */
  function GetKey(p: CrcParams, index: nat): (k: bv64)
    ensures index < KeyCount(p) ==> k == p.keys.table[index]
    ensures index >= KeyCount(p) ==> k == 0
  {
    if index < |p.keys.table| then p.keys.table[index] else 0
  }

  /** `CrcParams::get_key_checked`: key `index`, or `None` when the index is out of range. */
  function GetKeyChecked(p: CrcParams, index: nat): (k: Option<bv64>)
    ensures k.Some? <==> index < KeyCount(p)
    ensures k.Some? ==> k.value == p.keys.table[index]
  {
    if index < KeyCount(p) then Some(GetKey(p, index)) else None
  }

  /** The two accessors agree wherever the checked one answers, and the unchecked one
    * answers 0 everywhere else. */
  lemma GetKeyAccessorsAgree(p: CrcParams, index: nat)
    ensures GetKeyChecked(p, index) == Some(GetKey(p, index)) || (GetKeyChecked(p, index) == None && GetKey(p, index) == 0)
  {
  }

  /** The register start value `new` stores: the bit-reversed low 16 bits of `init` for a
    * reflected CRC-16, `init` itself otherwise. */
  function InitAlgorithm(width: bv8, init: bv64, reflected: bool): bv64 {
    if width == 16 && reflected then Reverse16(Low16(init)) as bv64 else init
  }

  /** `CrcParams::new`. `keysFor` stands for `cache::get_or_generate_keys`, which derives
    * the folding keys from the width, polynomial and reflection; an unsupported width
    * panics. */
  function New(
    name: string, width: bv8, poly: bv64, init: bv64, reflected: bool, xorout: bv64, check: bv64,
    keysFor: (bv8, bv64, bool) -> KeyArray): (r: Result<CrcParams>)
    ensures r.Panic? <==> width != 16 && width != 32 && width != 64
    ensures r.Ok? ==> r.value.algorithm == CrcCustom && r.value.refin == reflected && r.value.refout == reflected
    ensures r.Ok? ==> (r.value.name == name && r.value.width == width && r.value.poly == poly
                       && r.value.init == init && r.value.xorout == xorout && r.value.check == check)
    ensures r.Ok? ==> KeyCount(r.value) == 23
  {
    var keys := KeysFold256(keysFor(width, poly, reflected));
    if width != 16 && width != 32 && width != 64 then
      Panic("Unsupported width: " + Decimal(width as nat))
    else
      Ok(CrcParams(CrcCustom, name, width, poly, init, InitAlgorithm(width, init, reflected),
                   reflected, reflected, xorout, check, keys))
  }

  /** For a reflected CRC-16 the stored start value is the reflection of `init`; reflecting
    * it again recovers the low 16 bits of `init`. Every other start value is `init`. */
  lemma NewInitAlgorithm(
    name: string, width: bv8, poly: bv64, init: bv64, reflected: bool, xorout: bv64, check: bv64,
    keysFor: (bv8, bv64, bool) -> KeyArray)
    requires New(name, width, poly, init, reflected, xorout, check, keysFor).Ok?
    ensures var p := New(name, width, poly, init, reflected, xorout, check, keysFor).value;
      if width == 16 && reflected then
        p.initAlgorithm & !0xFFFF == 0 && Reverse16(Low16(p.initAlgorithm)) == Low16(init)
      else p.initAlgorithm == init
  {
    if width == 16 && reflected {
      Low16Widen(Reverse16(Low16(init)));
      Reverse16Involutive(Low16(init));
    }
  }

  /** The folding keys depend on nothing but the width, polynomial and reflection. */
  lemma NewKeysDependOnShape(
    width: bv8, poly: bv64, reflected: bool, keysFor: (bv8, bv64, bool) -> KeyArray,
    name1: string, init1: bv64, xorout1: bv64, check1: bv64,
    name2: string, init2: bv64, xorout2: bv64, check2: bv64)
    requires New(name1, width, poly, init1, reflected, xorout1, check1, keysFor).Ok?
    ensures New(name2, width, poly, init2, reflected, xorout2, check2, keysFor).Ok?
    ensures New(name1, width, poly, init1, reflected, xorout1, check1, keysFor).value.keys
         == New(name2, width, poly, init2, reflected, xorout2, check2, keysFor).value.keys
  {
  }
}
