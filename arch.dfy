// The accelerated entry point (`arch::update`): which backend runs for a build
// configuration and an input length, the width dispatch, and the identifier
// `get_target` reports. The generic folding engine (`algorithm::update`) and
// the backends' vector code are not part of this model; the engine is a
// parameter, and `EnginesMatch` says when it computes what the software
// fallback computes.
module Arch {
  import opened Bits
  import opened Results
  import opened Rocksoft
  import opened Structs
  import opened Catalogue
  import Software
  import Crc16Consts

  /** The compile-time configuration: the target architecture and, on x86_64, whether the
    * `vpclmulqdq` feature is enabled. */
  datatype Build = AArch64 | X86 | X86_64(vpclmulqdq: bool)

  /** The `ArchOps` implementation a call runs on. */
  datatype Backend = AArch64Ops | X86Ops | VpclmulqdqOps

  /** `algorithm::update::<Ops, Width64>` and `algorithm::update::<Ops, Width32>` for each
    * backend. */
  datatype Engine = Engine(
    update64: (Backend, bv64, seq<bv8>, CrcParams) -> bv64,
    update32: (Backend, bv32, seq<bv8>, CrcParams) -> bv32,
    update16: (Backend, bv16, seq<bv8>, CrcParams) -> bv16)

  /** The backend of a call: the AVX-512 one only on an x86_64 build with the feature, for
    * at least 256 bytes, when the CPU reports `vpclmulqdq`; the SSE one on every other x86
    * build or call; NEON on aarch64. */
  function SelectBackend(build: Build, len: nat, detected: bool): (b: Backend)
    ensures b == VpclmulqdqOps <==> build == X86_64(true) && len >= 256 && detected
    ensures b == AArch64Ops <==> build == AArch64
    ensures b == X86Ops <==> build != AArch64 && !(build == X86_64(true) && len >= 256 && detected)
  {
    match build
    case AArch64 => AArch64Ops
    case X86_64(true) => if len >= 256 && detected then VpclmulqdqOps else X86Ops
    case _ => X86Ops
  }

  /** `update(state, bytes, params)`: width 64 runs the 64-bit engine on the state; width 32
    * runs the 32-bit engine on `state as u32` and widens the result; every other width,
    * 16 included, panics. */
  function Update(build: Build, detected: bool, e: Engine, state: bv64, bytes: seq<bv8>, params: CrcParams): (r: Result<bv64>)
    ensures r.Panic? <==> params.width != 32 && params.width != 64
    ensures r.Panic? ==> r.message == "Unsupported CRC width: " + Decimal(params.width as nat)
    ensures params.width == 32 && r.Ok? ==> r.value & !0xFFFF_FFFF == 0
  {
    var b := SelectBackend(build, |bytes|, detected);
    if params.width == 64 then Ok(e.update64(b, state, bytes, params))
    else if params.width == 32 then Ok(e.update32(b, Low32(state), bytes, params) as bv64)
    else Panic("Unsupported CRC width: " + Decimal(params.width as nat))
  }

  /** `get_target`: one identifier per build configuration. */
  function GetTarget(build: Build): string {
    match build
    case AArch64 => "internal-aarch64-neon"
    case X86_64(true) => "internal-x86_64-avx512-vpclmulqdq"
    case _ => "internal-x86-sse-pclmulqdq"
  }

  /** The identifier naming each backend. */
  function TargetOf(b: Backend): string {
    match b
    case AArch64Ops => "internal-aarch64-neon"
    case VpclmulqdqOps => "internal-x86_64-avx512-vpclmulqdq"
    case X86Ops => "internal-x86-sse-pclmulqdq"
  }

  /** The reported target names the backend a call runs on, except on an x86_64 build with
    * `vpclmulqdq`: there it names the AVX-512 backend also for the short inputs, and on the
    * CPUs without the feature, that the SSE backend handles. */
  lemma TargetNamesBackend(build: Build, len: nat, detected: bool)
    ensures GetTarget(build) == TargetOf(SelectBackend(build, len, detected))
        <==> !(build == X86_64(true) && (len < 256 || !detected))
  {
    var b := SelectBackend(build, len, detected);
    if build == X86_64(true) && (len < 256 || !detected) {
      assert GetTarget(build)[12] == '_' && TargetOf(b)[12] == '-';
    }
  }

  /** At width 32 only the low 32 bits of the state take part. */
  lemma UpdateTruncatesState(build: Build, detected: bool, e: Engine, state: bv64, bytes: seq<bv8>, params: CrcParams)
    requires params.width == 32
    ensures Update(build, detected, e, state, bytes, params) == Update(build, detected, e, Low32(state) as bv64, bytes, params)
  {
    Low32Widen(Low32(state));
  }

  /** `get_or_generate_keys`: the folding keys of a width, polynomial and reflection. */
  type KeyGen = (bv8, bv64, bool) -> KeyArray

  /** A parameter set built the way the crate builds its own: its keys are those `keysFor`
    * derives from its width, polynomial and reflection, it reflects its output exactly when
    * it reflects its input, and when its selector names a catalogue algorithm of its width
    * it carries that algorithm's fields. */
  predicate Coherent(p: CrcParams, keysFor: KeyGen) {
    p.keys.table == keysFor(p.width, p.poly, p.refin)
    && p.refin == p.refout
    && match WidthOf(p.width as nat)
       case None => true
       case Some(w) => Named(w, p.algorithm).Some? ==> Software.Describes(p, Named(w, p.algorithm).value)
  }

  /** The engine computes what the software fallback computes, on every backend, for every
    * coherent parameter set the fallback accepts, at each width. */
  ghost predicate EnginesMatch(e: Engine, f: Software.Features, keysFor: KeyGen) {
    (forall b: Backend, s: bv64, data: seq<bv8>, p: CrcParams
       | p.width == 64 && Coherent(p, keysFor) && Software.Update(s, data, p, f).Ok? ::
       e.update64(b, s, data, p) == Software.Update(s, data, p, f).value)
    && (forall b: Backend, s: bv32, data: seq<bv8>, p: CrcParams
          | p.width == 32 && Coherent(p, keysFor) && Software.Update(s as bv64, data, p, f).Ok? ::
       e.update32(b, s, data, p) as bv64 == Software.Update(s as bv64, data, p, f).value)
    && (forall b: Backend, s: bv16, data: seq<bv8>, p: CrcParams
          | p.width == 16 && Coherent(p, keysFor) && Software.Update(s as bv64, data, p, f).Ok? ::
       e.update16(b, s, data, p) as bv64 == Software.Update(s as bv64, data, p, f).value)
  }

  /** A 32-bit state truncated by `as u32` narrows to what the fallback narrows it to. */
  lemma NarrowLow32(state: bv64)
    ensures Software.Narrow(W32, Low32(state) as bv64) == Software.Narrow(W32, state)
  {
  }

  /** At width 32 the software fallback, too, reads only the low 32 bits of the state. */
  lemma SoftwareTruncatesState(state: bv64, bytes: seq<bv8>, p: CrcParams, f: Software.Features)
    requires p.width == 32
    ensures Software.Update(Low32(state) as bv64, bytes, p, f) == Software.Update(state, bytes, p, f)
  {
    var r := Software.Select(p, f);
    if r.Ok? {
      Software.SelectWidth(p, f);
      NarrowLow32(state);
    }
  }

  /** With an engine that matches the software fallback, the accelerated `update` is the
    * fallback's `update` for every coherent parameter set the fallback accepts at widths 32
    * and 64, whichever backend runs. */
  lemma UpdateMatchesSoftware(build: Build, detected: bool, e: Engine, f: Software.Features, keysFor: KeyGen,
                              state: bv64, bytes: seq<bv8>, p: CrcParams)
    requires EnginesMatch(e, f, keysFor) && Coherent(p, keysFor)
    requires p.width == 32 || p.width == 64
    requires Software.Update(state, bytes, p, f).Ok?
    ensures Update(build, detected, e, state, bytes, p) == Software.Update(state, bytes, p, f)
  {
    var b := SelectBackend(build, |bytes|, detected);
    var sw := Software.Update(state, bytes, p, f);
    if p.width == 32 {
      var low := Low32(state);
      SoftwareTruncatesState(state, bytes, p, f);
      assert Update(build, detected, e, state, bytes, p) == Ok(e.update32(b, low, bytes, p) as bv64);
      assert e.update32(b, low, bytes, p) as bv64 == sw.value;
    } else {
      assert Update(build, detected, e, state, bytes, p) == Ok(e.update64(b, state, bytes, p));
      assert e.update64(b, state, bytes, p) == sw.value;
    }
  }

  /** With a matching engine, a 32- or 64-bit `update` started from the seed of the
    * algorithm it runs gives, with `xorout` applied, the checksum of the data; over
    * "123456789" that is the recorded check value of every catalogue entry. */
  lemma UpdateSeeded(build: Build, detected: bool, e: Engine, f: Software.Features, keysFor: KeyGen,
                     p: CrcParams, data: seq<bv8>)
    requires EnginesMatch(e, f, keysFor) && Coherent(p, keysFor)
    requires p.width == 32 || p.width == 64
    requires Software.Select(p, f).Ok?
    ensures var a := Software.Select(p, f).value;
      Update(build, detected, e, Software.Seed(a), data, p).Ok?
      && Xorout(a.xorout, Update(build, detected, e, Software.Seed(a), data, p).value) == Checksum(a, data)
  {
    var a := Software.Select(p, f).value;
    Software.UpdateSeeded(p, f, data);
    UpdateMatchesSoftware(build, detected, e, f, keysFor, Software.Seed(a), data, p);
    XoroutTwice(a.xorout, Checksum(a, data));
  }

  /** The check-value test of `update` runs every CRC-16 configuration as well; the first,
    * CRC-16/ARC over "123456789", reaches the panic arm. */
  lemma Crc16CheckValuePanics(build: Build, detected: bool, e: Engine)
    ensures Update(build, detected, e, Crc16Consts.Crc16ArcParams.init, CheckInput, Crc16Consts.Crc16ArcParams)
         == Panic("Unsupported CRC width: 16")
  {
    assert Decimal(16) == "16";
  }

  /** `update` with the width-16 arm that the 16-bit width implementation (`Width16`) calls
    * for: width 16 runs the 16-bit engine on `state as u16` and widens the result; the
    * 32- and 64-bit arms and the panic are those of `Update`. */
  function UpdateAllWidths(build: Build, detected: bool, e: Engine, state: bv64, bytes: seq<bv8>, params: CrcParams): (r: Result<bv64>)
    ensures r.Panic? <==> params.width != 16 && params.width != 32 && params.width != 64
    ensures params.width == 16 && r.Ok? ==> r.value & !0xFFFF == 0
    ensures params.width != 16 ==> r == Update(build, detected, e, state, bytes, params)
  {
    if params.width == 16 then
      var b := SelectBackend(build, |bytes|, detected);
      Ok(e.update16(b, Low16(state), bytes, params) as bv64)
    else Update(build, detected, e, state, bytes, params)
  }

  /** At width 16 the software fallback reads only the low 16 bits of the state. */
  lemma SoftwareTruncatesState16(state: bv64, bytes: seq<bv8>, p: CrcParams, f: Software.Features)
    requires p.width == 16
    ensures Software.Update(Low16(state) as bv64, bytes, p, f) == Software.Update(state, bytes, p, f)
  {
    var r := Software.Select(p, f);
    if r.Ok? {
      Software.SelectWidth(p, f);
      assert Software.Narrow(W16, Low16(state) as bv64) == Software.Narrow(W16, state);
    }
  }

  /** With a matching engine, the corrected `update` is the software fallback's `update` for
    * every coherent parameter set at every width the fallback accepts, 16 included. */
  lemma UpdateAllWidthsMatchesSoftware(build: Build, detected: bool, e: Engine, f: Software.Features, keysFor: KeyGen,
                                       state: bv64, bytes: seq<bv8>, p: CrcParams)
    requires EnginesMatch(e, f, keysFor) && Coherent(p, keysFor)
    requires Software.Update(state, bytes, p, f).Ok?
    ensures UpdateAllWidths(build, detected, e, state, bytes, p) == Software.Update(state, bytes, p, f)
  {
    Software.SelectWidth(p, f);
    if p.width == 16 {
      var b := SelectBackend(build, |bytes|, detected);
      SoftwareTruncatesState16(state, bytes, p, f);
      Engine16Matches(e, f, keysFor, b, Low16(state), bytes, p);
    } else {
      UpdateMatchesSoftware(build, detected, e, f, keysFor, state, bytes, p);
    }
  }

  /** The 16-bit clause of `EnginesMatch` at one state and input. */
  lemma Engine16Matches(e: Engine, f: Software.Features, keysFor: KeyGen, b: Backend, s: bv16, data: seq<bv8>, p: CrcParams)
    requires EnginesMatch(e, f, keysFor) && Coherent(p, keysFor)
    requires p.width == 16 && Software.Update(s as bv64, data, p, f).Ok?
    ensures e.update16(b, s, data, p) as bv64 == Software.Update(s as bv64, data, p, f).value
  {
  }

  /** With a matching engine, the corrected `update` started from the seed of the algorithm
    * it runs gives, with `xorout` applied, the checksum of the data at every width, so the
    * check-value test holds for the CRC-16 configurations too. */
  lemma UpdateAllWidthsSeeded(build: Build, detected: bool, e: Engine, f: Software.Features, keysFor: KeyGen,
                              p: CrcParams, data: seq<bv8>)
    requires EnginesMatch(e, f, keysFor) && Coherent(p, keysFor)
    requires Software.Select(p, f).Ok?
    ensures var a := Software.Select(p, f).value;
      UpdateAllWidths(build, detected, e, Software.Seed(a), data, p).Ok?
      && Xorout(a.xorout, UpdateAllWidths(build, detected, e, Software.Seed(a), data, p).value) == Checksum(a, data)
  {
    var a := Software.Select(p, f).value;
    Software.UpdateSeeded(p, f, data);
    UpdateAllWidthsMatchesSoftware(build, detected, e, f, keysFor, Software.Seed(a), data, p);
    XoroutTwice(a.xorout, Checksum(a, data));
  }

  /** The CRC-16/ARC case of the check-value test passes with the corrected `update`, when
    * the key derivation gives the tabulated CRC-16/ARC keys. */
  lemma Crc16CheckValueCorrected(build: Build, detected: bool, e: Engine, f: Software.Features, keysFor: KeyGen)
    requires EnginesMatch(e, f, keysFor)
    requires keysFor(16, 0x8005, true) == Crc16Consts.Keys8005Reflected
    ensures var p := Crc16Consts.Crc16ArcParams;
      var r := UpdateAllWidths(build, detected, e, p.init, CheckInput, p);
      r.Ok? && Xorout(p.xorout, r.value) == p.check
  {
    var p := Crc16Consts.Crc16ArcParams;
    Crc16Consts.Crc16ArcConsistent();
    assert Software.Select(p, f) == Ok(RustCrc16Arc);
    assert Software.Seed(RustCrc16Arc) == p.init;
    UpdateAllWidthsSeeded(build, detected, e, f, keysFor, p, CheckInput);
    ChecksCrc16Arc();
  }

  /** `u32::swap_bytes`. */
  function SwapBytes32(x: bv32): bv32 {
    ((x & 0xFF) << 24) | ((x & 0xFF00) << 8) | ((x >> 8) & 0xFF00) | (x >> 24)
  }

  /** Swapping the bytes twice gives the value back. */
  lemma SwapBytes32Involutive(x: bv32)
    ensures SwapBytes32(SwapBytes32(x)) == x
  {
  }

  /** PHP's `hash("crc32", …)`: CRC-32/BZIP2 with its bytes in the opposite order. */
  function PhpCrc32(data: seq<bv8>): bv32 {
    SwapBytes32(Low32(Checksum(RustCrc32Bzip2, data)))
  }

  /** "hello, world!" in ASCII, and its two parts "hello, " and "world!". */
  const HelloWorld: seq<bv8> := [0x68, 0x65, 0x6C, 0x6C, 0x6F, 0x2C, 0x20, 0x77, 0x6F, 0x72, 0x6C, 0x64, 0x21]
  const Hello: seq<bv8> := [0x68, 0x65, 0x6C, 0x6C, 0x6F, 0x2C, 0x20]
  const World: seq<bv8> := [0x77, 0x6F, 0x72, 0x6C, 0x64, 0x21]

  // The CRC-64/NVME vectors of the accelerated entry point's tests, as checksums of the
  // reference algorithm; `UpdateSeeded` carries them over to `update`.

  lemma NvmeEmpty()
    ensures Checksum(RustCrc64Nvme, []) == 0
  {
  }

  lemma NvmeOneByte()
    ensures Checksum(RustCrc64Nvme, [0x40]) == 0x0280_8AFA_9582_AA47
  {
  }

  lemma NvmeTwoBytes()
    ensures Checksum(RustCrc64Nvme, [0x31, 0x97]) == 0xB4AF_0AE0_FEB0_8E0F
  {
  }

  lemma NvmeThreeBytes()
    ensures Checksum(RustCrc64Nvme, [0x4D, 0x22, 0xDF]) == 0x85D7_CD04_1A2A_8A5D
  {
  }

  lemma NvmeFourBytes()
    ensures Checksum(RustCrc64Nvme, [0x6C, 0xCD, 0x13, 0xD7]) == 0x1860_820E_A79B_0FA3
  {
  }

  lemma NvmeHelloWorld()
    ensures Checksum(RustCrc64Nvme, HelloWorld) == 0xF804_6E40_C403_F1D0
  {
    var a := RustCrc64Nvme;
    assert HelloWorld == Hello + World;
    RegisterAppend(a, a.init, Hello, World);
    NvmeHello();
    NvmeWorld();
  }

  lemma NvmeHello()
    ensures Register(RustCrc64Nvme, RustCrc64Nvme.init, Hello) == 0x8613_C9AA_D1DA_F4C4
  {
  }

  lemma NvmeWorld()
    ensures Register(RustCrc64Nvme, 0x8613_C9AA_D1DA_F4C4, World) == 0xF470_3FDC_FD89_DFE0
  {
  }

  // PHP's "crc32" vectors.

  lemma PhpCheck()
    ensures PhpCrc32(CheckInput) == 0x1819_89FC
  {
  }

  lemma PhpHelloWorld()
    ensures PhpCrc32(HelloWorld) == 0x05EA_CCE7
  {
    var a := RustCrc32Bzip2;
    assert HelloWorld == Hello + World;
    RegisterAppend(a, a.init, Hello, World);
    Bzip2Hello();
    Bzip2World();
    assert Checksum(a, HelloWorld) == 0xE7CC_EA05;
  }

  lemma Bzip2Hello()
    ensures Register(RustCrc32Bzip2, RustCrc32Bzip2.init, Hello) == 0x8A95_EFFA
  {
  }

  lemma Bzip2World()
    ensures Register(RustCrc32Bzip2, 0x8A95_EFFA, World) == 0x1833_15FA
  {
  }
}
