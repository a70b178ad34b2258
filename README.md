# crc-fast: a verified model of the dispatch, the software fallback and the CRC-32C kernels

crc-fast computes CRC-16, CRC-32 and CRC-64 checksums of the Rocksoft family (width,
polynomial, initial value, input and output reflection, final XOR). This model covers
the parts of the crate that decide *which* computation runs and what it returns:

- the algorithm selector (`CrcAlgorithm`), its display names and its `from_str` parser,
  and the chunk-size classifier `DataChunkProcessor::for_length` (`Enums`);
- the parameter record `CrcParams`, its key accessors and the `CrcParams::new`
  constructor for custom parameters (`Structs`);
- the 31 predefined CRC-16 parameter records with their folding-key tables
  (`Crc16Consts`);
- the software fallback `arch::software::update`: the catalogue of `crc` crate
  algorithms it dispatches to (`Catalogue`), the per-width `update_u16/u32/u64`
  helpers, and the process-wide caches of custom algorithms, modelled as a class
  whose three map fields the lookup method updates (`Software`);
- a reference bitwise Rocksoft CRC engine standing in for the `crc` crate (`Rocksoft`);
- the architecture dispatcher `arch::update`, `get_target` and the published test
  vectors for CRC-64/NVME and PHP's `crc32` (`Arch`);
- the 128-bit state handling of the 32-bit and 16-bit SIMD width strategies
  (`Vectors`, `Crc32Width`, `Crc16Width`);
- the two hand-written CRC-32C (iSCSI, section 12.1 of RFC 3720) C kernels: the x86
  SSE4.2 "v4s3x3" kernel (`SseKernel`) and the aarch64 NEON "blended" kernel
  (`NeonKernel`), with their shared scalar machinery, `xnmodp` and `crc_shift`
  (`Crc32c`);
- the test-suite helpers `miri_compatible_proptest_config` and `create_aligned_data`
  (`TestSupport`).

A CPU feature that the program probes at run time, or a `cfg` that it decides at build
time, is a parameter (`Arch.Build`, the `detected` flag, `Software.Features`,
`SseKernel.Platform`). The SIMD primitives that the generic folding algorithm calls
enter as function-valued fields (`Arch.Engine`, `Vectors.Width32Ops`). A panic is the
`Panic(message)` case of `Results.Result`.

The kernels are modelled loop by loop as methods over a byte sequence. Each method
is proved equal to a function that describes the whole path (prologue, folded block,
three-stream pass, 8-byte words, tail bytes). The scalar streams are proved to hold
the bytewise CRC-32C of their slices. For short inputs the kernels are proved to
compute the bytewise CRC-32C of the whole buffer. The check value of "123456789" is
proved at every buffer address.

## Model

| member | source | states |
|---|---|---|
| Enums.FromStr | src/enums.rs:11-65 | a name that parses never yields one of the three custom variants |
| Enums.FromStrDisplay | src/enums.rs:13-126 | every predefined variant parses back from its display name |
| Enums.DisplayFromStr | src/enums.rs:13-126 | a parsed name is exactly the display name of the variant it yields, and that variant is predefined |
| Enums.FromStrRejects | src/enums.rs:63 | parsing fails exactly when no predefined variant displays as the given string |
| Enums.CustomNamesRejected | src/enums.rs:111-119 | the display names of `Crc32Custom`, `Crc64Custom` and `CrcCustom` do not parse |
| Enums.X25NotRecognised | src/consts.rs:40 | the name constant "CRC-16/X-25" is not accepted by `from_str` |
| Enums.DisplayInjective | src/enums.rs:69-128 | distinct variants have distinct display names |
| Enums.ForLengthRange | src/enums.rs:150-157 | `for_length` yields a class exactly when the length lies in that class's bounds (0-15, 16, 17-31, 32-255) and panics exactly when the length exceeds 255 |
| Enums.ForLengthMonotone | src/enums.rs:150-157 | a longer input (up to 255) never gets a class with a lower upper bound |
| Structs.GetKey | src/structs.rs:134-136 | an index inside the key table yields that key; any other index yields 0 |
| Structs.GetKeyChecked | src/structs.rs:141-147 | the checked accessor yields a key exactly for indices inside the table, and then the stored key |
| Structs.GetKeyAccessorsAgree | src/structs.rs:134-147 | the checked accessor is `Some` of the unchecked one, or `None` where the unchecked one yields 0 |
| Structs.New | src/structs.rs:92-129 | `CrcParams::new` panics exactly for widths other than 16, 32 and 64; otherwise it stores name, width, polynomial, init, xorout and check, tags the record `CrcCustom`, sets both reflection flags to `reflected` and stores a 23-key table |
| Structs.NewInitAlgorithm | src/structs.rs:109-114 | the stored register start value is the 16-bit bit reversal of `init` for reflected CRC-16 and `init` itself otherwise |
| Structs.NewKeysDependOnShape | src/structs.rs:101 | the key table depends only on width, polynomial and reflection, not on name, init, xorout or check |
| Crc16Consts.RecordsFaithful | src/crc16/consts.rs:25-491 | each of the 31 CRC-16 records has width 16, one reflection flag for input and output, the register start value `CrcParams::new` would compute, a key table of its own polynomial in its own direction (key 0 zero, key 1 equal to key 5, key 8 the polynomial with its leading bit, folding keys of the expected shape) and the display name of its selector, and it carries the fields of the catalogue algorithm its selector names |
| Catalogue.Named16 | src/arch/software.rs:258-289 | the CRC-16 arms of the dispatch yield only 16-bit catalogue algorithms, for predefined selectors only, with an initial value that fits the width; which selectors they take is fixed by `Catalogue.NamedByPrefix` |
| Catalogue.Named32 | src/arch/software.rs:384-395 | the CRC-32 arms yield only 32-bit algorithms, for predefined selectors only, with a fitting initial value; which selectors they take is fixed by `Catalogue.NamedByPrefix` |
| Catalogue.Named64 | src/arch/software.rs:580-586 | the CRC-64 arms yield only 64-bit algorithms, for predefined selectors only, with a fitting initial value; which selectors they take is fixed by `Catalogue.NamedByPrefix` |
| Catalogue.PrefixOfNamed | src/arch/software.rs:256-586 | every selector an arm takes prints (`Display`) a name with that arm's width prefix "CRC-16/", "CRC-32/" or "CRC-64/" |
| Catalogue.NamedByPrefix | src/arch/software.rs:256-586 | for every predefined selector, the arm of a width takes it exactly when its printed name carries that width's prefix: no selector is missing from its arm and none sits in another width's arm |
| Catalogue.Named | src/arch/software.rs:256-586 | the width's arm yields only algorithms of that width, for predefined selectors only, with a fitting initial value |
| Catalogue.ChecksCrc16Arc | src/arch/software.rs:64 | `RUST_CRC16_ARC` (poly 0x8005, init 0x0000, refin true) is well formed, reflects its output exactly when it reflects its input, and its check value 0xBB3D is the reference CRC of "123456789" |
| Catalogue.ChecksCrc16Cdma2000 | src/arch/software.rs:67 | `RUST_CRC16_CDMA2000` (poly 0xC867, init 0xFFFF, refin false) is well formed, reflects its output exactly when it reflects its input, and its check value 0x4C06 is the reference CRC of "123456789" |
| Catalogue.ChecksCrc16Cms | src/arch/software.rs:71 | `RUST_CRC16_CMS` (poly 0x8005, init 0xFFFF, refin false) is well formed, reflects its output exactly when it reflects its input, and its check value 0xAEE7 is the reference CRC of "123456789" |
| Catalogue.ChecksCrc16Dds110 | src/arch/software.rs:74 | `RUST_CRC16_DDS_110` (poly 0x8005, init 0x800D, refin false) is well formed, reflects its output exactly when it reflects its input, and its check value 0x9ECF is the reference CRC of "123456789" |
| Catalogue.ChecksCrc16DectR | src/arch/software.rs:78 | `RUST_CRC16_DECT_R` (poly 0x0589, init 0x0000, refin false) is well formed, reflects its output exactly when it reflects its input, and its check value 0x007E is the reference CRC of "123456789" |
| Catalogue.ChecksCrc16DectX | src/arch/software.rs:82 | `RUST_CRC16_DECT_X` (poly 0x0589, init 0x0000, refin false) is well formed, reflects its output exactly when it reflects its input, and its check value 0x007F is the reference CRC of "123456789" |
| Catalogue.ChecksCrc16Dnp | src/arch/software.rs:86 | `RUST_CRC16_DNP` (poly 0x3D65, init 0x0000, refin true) is well formed, reflects its output exactly when it reflects its input, and its check value 0xEA82 is the reference CRC of "123456789" |
| Catalogue.ChecksCrc16En13757 | src/arch/software.rs:89 | `RUST_CRC16_EN_13757` (poly 0x3D65, init 0x0000, refin false) is well formed, reflects its output exactly when it reflects its input, and its check value 0xC2B7 is the reference CRC of "123456789" |
| Catalogue.ChecksCrc16Genibus | src/arch/software.rs:93 | `RUST_CRC16_GENIBUS` (poly 0x1021, init 0xFFFF, refin false) is well formed, reflects its output exactly when it reflects its input, and its check value 0xD64E is the reference CRC of "123456789" |
| Catalogue.ChecksCrc16Gsm | src/arch/software.rs:97 | `RUST_CRC16_GSM` (poly 0x1021, init 0x0000, refin false) is well formed, reflects its output exactly when it reflects its input, and its check value 0xCE3C is the reference CRC of "123456789" |
| Catalogue.ChecksCrc16Ibm3740 | src/arch/software.rs:100 | `RUST_CRC16_IBM_3740` (poly 0x1021, init 0xFFFF, refin false) is well formed, reflects its output exactly when it reflects its input, and its check value 0x29B1 is the reference CRC of "123456789" |
| Catalogue.ChecksCrc16IbmSdlc | src/arch/software.rs:104 | `RUST_CRC16_IBM_SDLC` (poly 0x1021, init 0xFFFF, refin true) is well formed, reflects its output exactly when it reflects its input, and its check value 0x906E is the reference CRC of "123456789" |
| Catalogue.ChecksCrc16IsoIec144433A | src/arch/software.rs:108 | `RUST_CRC16_ISO_IEC_14443_3_A` (poly 0x1021, init 0xC6C6, refin true) is well formed, reflects its output exactly when it reflects its input, and its check value 0xBF05 is the reference CRC of "123456789" |
| Catalogue.ChecksCrc16Kermit | src/arch/software.rs:112 | `RUST_CRC16_KERMIT` (poly 0x1021, init 0x0000, refin true) is well formed, reflects its output exactly when it reflects its input, and its check value 0x2189 is the reference CRC of "123456789" |
| Catalogue.ChecksCrc16Lj1200 | src/arch/software.rs:116 | `RUST_CRC16_LJ1200` (poly 0x6F63, init 0x0000, refin false) is well formed, reflects its output exactly when it reflects its input, and its check value 0xBDF4 is the reference CRC of "123456789" |
| Catalogue.ChecksCrc16M17 | src/arch/software.rs:120 | `RUST_CRC16_M17` (poly 0x5935, init 0xFFFF, refin false) is well formed, reflects its output exactly when it reflects its input, and its check value 0x772B is the reference CRC of "123456789" |
| Catalogue.ChecksCrc16MaximDow | src/arch/software.rs:123 | `RUST_CRC16_MAXIM_DOW` (poly 0x8005, init 0x0000, refin true) is well formed, reflects its output exactly when it reflects its input, and its check value 0x44C2 is the reference CRC of "123456789" |
| Catalogue.ChecksCrc16Mcrf4xx | src/arch/software.rs:127 | `RUST_CRC16_MCRF4XX` (poly 0x1021, init 0xFFFF, refin true) is well formed, reflects its output exactly when it reflects its input, and its check value 0x6F91 is the reference CRC of "123456789" |
| Catalogue.ChecksCrc16Modbus | src/arch/software.rs:131 | `RUST_CRC16_MODBUS` (poly 0x8005, init 0xFFFF, refin true) is well formed, reflects its output exactly when it reflects its input, and its check value 0x4B37 is the reference CRC of "123456789" |
| Catalogue.ChecksCrc16Nrsc5 | src/arch/software.rs:135 | `RUST_CRC16_NRSC_5` (poly 0x080B, init 0xFFFF, refin true) is well formed, reflects its output exactly when it reflects its input, and its check value 0xA066 is the reference CRC of "123456789" |
| Catalogue.ChecksCrc16OpensafetyA | src/arch/software.rs:139 | `RUST_CRC16_OPENSAFETY_A` (poly 0x5935, init 0x0000, refin false) is well formed, reflects its output exactly when it reflects its input, and its check value 0x5D38 is the reference CRC of "123456789" |
| Catalogue.ChecksCrc16OpensafetyB | src/arch/software.rs:143 | `RUST_CRC16_OPENSAFETY_B` (poly 0x755B, init 0x0000, refin false) is well formed, reflects its output exactly when it reflects its input, and its check value 0x20FE is the reference CRC of "123456789" |
| Catalogue.ChecksCrc16Profibus | src/arch/software.rs:147 | `RUST_CRC16_PROFIBUS` (poly 0x1DCF, init 0xFFFF, refin false) is well formed, reflects its output exactly when it reflects its input, and its check value 0xA819 is the reference CRC of "123456789" |
| Catalogue.ChecksCrc16Riello | src/arch/software.rs:151 | `RUST_CRC16_RIELLO` (poly 0x1021, init 0xB2AA, refin true) is well formed, reflects its output exactly when it reflects its input, and its check value 0x63D0 is the reference CRC of "123456789" |
| Catalogue.ChecksCrc16SpiFujitsu | src/arch/software.rs:155 | `RUST_CRC16_SPI_FUJITSU` (poly 0x1021, init 0x1D0F, refin false) is well formed, reflects its output exactly when it reflects its input, and its check value 0xE5CC is the reference CRC of "123456789" |
| Catalogue.ChecksCrc16T10Dif | src/arch/software.rs:159 | `RUST_CRC16_T10_DIF` (poly 0x8BB7, init 0x0000, refin false) is well formed, reflects its output exactly when it reflects its input, and its check value 0xD0DB is the reference CRC of "123456789" |
| Catalogue.ChecksCrc16Teledisk | src/arch/software.rs:163 | `RUST_CRC16_TELEDISK` (poly 0xA097, init 0x0000, refin false) is well formed, reflects its output exactly when it reflects its input, and its check value 0x0FB3 is the reference CRC of "123456789" |
| Catalogue.ChecksCrc16Tms37157 | src/arch/software.rs:167 | `RUST_CRC16_TMS37157` (poly 0x1021, init 0x89EC, refin true) is well formed, reflects its output exactly when it reflects its input, and its check value 0x26B1 is the reference CRC of "123456789" |
| Catalogue.ChecksCrc16Umts | src/arch/software.rs:171 | `RUST_CRC16_UMTS` (poly 0x8005, init 0x0000, refin false) is well formed, reflects its output exactly when it reflects its input, and its check value 0xFEE8 is the reference CRC of "123456789" |
| Catalogue.ChecksCrc16Usb | src/arch/software.rs:175 | `RUST_CRC16_USB` (poly 0x8005, init 0xFFFF, refin true) is well formed, reflects its output exactly when it reflects its input, and its check value 0xB4C8 is the reference CRC of "123456789" |
| Catalogue.ChecksCrc16Xmodem | src/arch/software.rs:178 | `RUST_CRC16_XMODEM` (poly 0x1021, init 0x0000, refin false) is well formed, reflects its output exactly when it reflects its input, and its check value 0x31C3 is the reference CRC of "123456789" |
| Catalogue.ChecksCrc32Aixm | src/arch/software.rs:182 | `RUST_CRC32_AIXM` (poly 0x8141_41AB, init 0x0000_0000, refin false) is well formed, reflects its output exactly when it reflects its input, and its check value 0x3010_BF7F is the reference CRC of "123456789" |
| Catalogue.ChecksCrc32Autosar | src/arch/software.rs:186 | `RUST_CRC32_AUTOSAR` (poly 0xF4AC_FB13, init 0xFFFF_FFFF, refin true) is well formed, reflects its output exactly when it reflects its input, and its check value 0x1697_D06A is the reference CRC of "123456789" |
| Catalogue.ChecksCrc32Base91D | src/arch/software.rs:190 | `RUST_CRC32_BASE91_D` (poly 0xA833_982B, init 0xFFFF_FFFF, refin true) is well formed, reflects its output exactly when it reflects its input, and its check value 0x8731_5576 is the reference CRC of "123456789" |
| Catalogue.ChecksCrc32Bzip2 | src/arch/software.rs:194 | `RUST_CRC32_BZIP2` (poly 0x04C1_1DB7, init 0xFFFF_FFFF, refin false) is well formed, reflects its output exactly when it reflects its input, and its check value 0xFC89_1918 is the reference CRC of "123456789" |
| Catalogue.ChecksCrc32CdRomEdc | src/arch/software.rs:198 | `RUST_CRC32_CD_ROM_EDC` (poly 0x8001_801B, init 0x0000_0000, refin true) is well formed, reflects its output exactly when it reflects its input, and its check value 0x6EC2_EDC4 is the reference CRC of "123456789" |
| Catalogue.ChecksCrc32Cksum | src/arch/software.rs:202 | `RUST_CRC32_CKSUM` (poly 0x04C1_1DB7, init 0x0000_0000, refin false) is well formed, reflects its output exactly when it reflects its input, and its check value 0x765E_7680 is the reference CRC of "123456789" |
| Catalogue.ChecksCrc32Iscsi | src/arch/software.rs:206 | `RUST_CRC32_ISCSI` (poly 0x1EDC_6F41, init 0xFFFF_FFFF, refin true) is well formed, reflects its output exactly when it reflects its input, and its check value 0xE306_9283 is the reference CRC of "123456789" |
| Catalogue.ChecksCrc32IsoHdlc | src/arch/software.rs:210 | `RUST_CRC32_ISO_HDLC` (poly 0x04C1_1DB7, init 0xFFFF_FFFF, refin true) is well formed, reflects its output exactly when it reflects its input, and its check value 0xCBF4_3926 is the reference CRC of "123456789" |
| Catalogue.ChecksCrc32Jamcrc | src/arch/software.rs:214 | `RUST_CRC32_JAMCRC` (poly 0x04C1_1DB7, init 0xFFFF_FFFF, refin true) is well formed, reflects its output exactly when it reflects its input, and its check value 0x340B_C6D9 is the reference CRC of "123456789" |
| Catalogue.ChecksCrc32Mef | src/arch/software.rs:218 | `RUST_CRC32_MEF` (poly 0x741B_8CD7, init 0xFFFF_FFFF, refin true) is well formed, reflects its output exactly when it reflects its input, and its check value 0xD2C2_2F51 is the reference CRC of "123456789" |
| Catalogue.ChecksCrc32Mpeg2 | src/arch/software.rs:221 | `RUST_CRC32_MPEG_2` (poly 0x04C1_1DB7, init 0xFFFF_FFFF, refin false) is well formed, reflects its output exactly when it reflects its input, and its check value 0x0376_E6E7 is the reference CRC of "123456789" |
| Catalogue.ChecksCrc32Xfer | src/arch/software.rs:225 | `RUST_CRC32_XFER` (poly 0x0000_00AF, init 0x0000_0000, refin false) is well formed, reflects its output exactly when it reflects its input, and its check value 0xBD0B_E338 is the reference CRC of "123456789" |
| Catalogue.ChecksCrc64GoIso | src/arch/software.rs:233 | `RUST_CRC64_GO_ISO` (poly 0x0000_0000_0000_001B, init 0xFFFF_FFFF_FFFF_FFFF, refin true) is well formed, reflects its output exactly when it reflects its input, and its check value 0xB909_56C7_75A4_1001 is the reference CRC of "123456789" |
| Catalogue.ChecksCrc64Ms | src/arch/software.rs:237 | `RUST_CRC64_MS` (poly 0x259C_84CB_A642_6349, init 0xFFFF_FFFF_FFFF_FFFF, refin true) is well formed, reflects its output exactly when it reflects its input, and its check value 0x75D4_B74F_024E_CEEA is the reference CRC of "123456789" |
| Catalogue.ChecksCrc64Nvme | src/arch/software.rs:240 | `RUST_CRC64_NVME` (poly 0xAD93_D235_94C9_3659, init 0xFFFF_FFFF_FFFF_FFFF, refin true) is well formed, reflects its output exactly when it reflects its input, and its check value 0xAE8B_1486_0A79_9888 is the reference CRC of "123456789" |
| Catalogue.ChecksCrc64Redis | src/arch/software.rs:243 | `RUST_CRC64_REDIS` (poly 0xAD93_D235_94C9_35A9, init 0x0000_0000_0000_0000, refin true) is well formed, reflects its output exactly when it reflects its input, and its check value 0xE9C6_D914_C4B8_D9CA is the reference CRC of "123456789" |
| Catalogue.ChecksCrc64Xz | src/arch/software.rs:250 | `RUST_CRC64_XZ` (poly 0x42F0_E1EB_A9EA_3693, init 0xFFFF_FFFF_FFFF_FFFF, refin true) is well formed, reflects its output exactly when it reflects its input, and its check value 0x995D_C9BB_DF19_39FA is the reference CRC of "123456789" |
| Catalogue.ChecksCrc64Ecma182 | src/arch/software.rs:229 | `RUST_CRC64_ECMA_182` (poly 0x42F0_E1EB_A9EA_3693, init 0x0000_0000_0000_0000, refin false) is well formed, reflects its output exactly when it reflects its input, and its check value 0x6C40_DF5F_0B49_7347 is the reference CRC of "123456789" |
| Catalogue.ChecksCrc64We | src/arch/software.rs:247 | `RUST_CRC64_WE` (poly 0x42F0_E1EB_A9EA_3693, init 0xFFFF_FFFF_FFFF_FFFF, refin false) is well formed, reflects its output exactly when it reflects its input, and its check value 0x62EC_59E3_F1A4_F00A is the reference CRC of "123456789" |
| Software.Narrow | src/arch/software.rs:380 | the `as u16`/`as u32` cast of the state gives a value that fits the width and leaves a fitting value unchanged |
| Software.UpdateNamed | src/arch/software.rs:256-289 | a predefined selector of the record's width runs its catalogue algorithm on the state cut to the width, and touches no cache |
| Software.UpdateCustom | src/arch/software.rs:290-377 | a custom selector (with allocation available) runs the algorithm rebuilt from the record's poly/init/refin/refout/xorout/check on the state cut to the width, and uses the cache of its width under exactly that key when caching is built in |
| Software.UpdateWidthDigest | src/arch/software.rs:774-789 | `update_uN` is the reference `digest_with_initial` seeded with the state (bit-reversed when `refin`), with xorout applied once more |
| Software.UpdateWidthRegister | src/arch/software.rs:774-789 | `update_uN` is the raw shift register run from the (reflected) state, reflected on output when `refout`, with no final XOR left over |
| Software.UpdateWidthFits | src/arch/software.rs:792-807 | the result of `update_uN` fits the width |
| Software.UpdateWidthSeeded | src/arch/software.rs:787-788 | seeded with the algorithm's register start value, `update_uN` followed by xorout is the algorithm's checksum of the data |
| Software.UpdateWidthChains | src/arch/software.rs:774-823 | for algorithms reflecting input and output alike, updating with `s` then `t` equals updating with `s + t` |
| Software.UpdateWidthDependsOnShape | src/arch/software.rs:315-324 | `update_uN` reads only width, polynomial, reflection and xorout, so init, check and residue do not change it |
| Software.SelectPanics | src/arch/software.rs:255-770 | the software dispatch panics exactly for an unsupported width, or a selector that is neither predefined for the width nor custom for it, or a custom selector without allocation |
| Software.SelectWidth | src/arch/software.rs:256-586 | a selected algorithm has the record's width, and for a predefined selector it is that selector's catalogue entry |
| Software.UpdateFits | src/arch/software.rs:380 | the value `update` returns fits the selected width |
| Software.UpdateSeeded | src/arch/software.rs:786-788 | `update` from the selected algorithm's start value, followed by xorout, is the algorithm's checksum |
| Software.UpdateChains | src/arch/software.rs:782-783 | when input and output reflection agree, `update` over `s` then `t` equals `update` over `s + t` |
| Software.CustomMatchesNamed | src/arch/software.rs:313-328 | a custom record with the shape of a predefined one computes the same value as the predefined one |
| Software.Crc32CustomShared | src/arch/software.rs:396-506 | at width 32, `Crc32Custom` and `CrcCustom` select the same algorithm and use the same cache entry |
| Software.KeyOfSeparatesCheck | src/arch/software.rs:298-305 | two records that differ only in their check values share a cache key exactly when the check values agree once cut to the width |
| Software.CustomCaches.constructor | src/arch/software.rs:41-61 | the three caches start empty |
| Software.CustomCaches.Entry | src/arch/software.rs:313-326 | `entry(key).or_insert_with` returns the algorithm built from the key, adds it to this width's cache under the key (an existing entry is the same value) and leaves the other caches unchanged |
| Software.CustomCaches.UpdateWithCache | src/arch/software.rs:290-376 | the cached dispatch returns what the uncached `update` returns; it adds exactly the key `update` uses to that width's cache and changes nothing else |
| Rocksoft.WidthOf | src/arch/software.rs:255-770 | a width is supported exactly when it is 16, 32 or 64 bits |
| Rocksoft.ReflectInvolutive | src/arch/software.rs:776-780 | reversing the bits of a value of the width twice gives it back |
| Rocksoft.XoroutTwice | src/arch/software.rs:787-788 | applying the final XOR twice cancels it |
| Rocksoft.OutputStrip | src/arch/software.rs:785-788 | removing xorout from `finalize` leaves the register, reflected when `refout` |
| Rocksoft.RunAppend | src/arch/software.rs:782-783 | the shift register over `s + t` is the register over `t` started where `s` left it |
| Arch.SelectBackend | src/arch/mod.rs:30-71 | VPCLMULQDQ is chosen exactly on x86_64 builds with the feature when the input has at least 256 bytes and the CPU has it; aarch64 builds always use AArch64Ops; every other case uses X86Ops |
| Arch.Update | src/arch/mod.rs:30-77 | `arch::update` panics with "Unsupported CRC width: N" exactly when the width is neither 32 nor 64, and a 32-bit result fits in 32 bits |
| Arch.TargetNamesBackend | src/arch/mod.rs:79-92 | `get_target` names the backend `update` uses, except on VPCLMULQDQ-enabled x86_64 builds for inputs under 256 bytes or without the CPU feature |
| Arch.UpdateTruncatesState | src/arch/mod.rs:37-39 | at width 32, only the low 32 bits of the state matter |
| Arch.SoftwareTruncatesState | src/arch/software.rs:576 | at width 32 the software fallback also reads only the low 32 bits of the state |
| Arch.UpdateMatchesSoftware | src/arch/mod.rs:30-77 | for a coherent record (`Arch.Coherent`: keys derived from width, polynomial and reflection, `refin == refout`, a catalogue selector carrying its entry's fields) and engines assumed to agree with the software fallback on coherent records (`EnginesMatch`), `arch::update` equals `software::update` at widths 32 and 64 |
| Arch.UpdateSeeded | src/arch/mod.rs:103-120 | under the `EnginesMatch` hypothesis, for every coherent 32- or 64-bit record, `arch::update` from the algorithm's start value followed by xorout is the catalogue checksum |
| Arch.NvmeEmpty | src/arch/mod.rs:142 | CRC-64/NVME of the empty input is 0 |
| Arch.NvmeOneByte | src/arch/mod.rs:143 | CRC-64/NVME of "@" is 0x02808AFA9582AA47 |
| Arch.NvmeTwoBytes | src/arch/mod.rs:144 | CRC-64/NVME of 0x31 0x97 is 0xB4AF0AE0FEB08E0F |
| Arch.NvmeThreeBytes | src/arch/mod.rs:145 | CRC-64/NVME of 0x4D 0x22 0xDF is 0x85D7CD041A2A8A5D |
| Arch.NvmeFourBytes | src/arch/mod.rs:146 | CRC-64/NVME of 0x6C 0xCD 0x13 0xD7 is 0x1860820EA79B0FA3 |
| Arch.NvmeHelloWorld | src/arch/mod.rs:151 | CRC-64/NVME of "hello, world!" is 0xF8046E40C403F1D0 |
| Arch.SwapBytes32Involutive | src/arch/mod.rs:187 | swapping the bytes of a 32-bit value twice gives it back |
| Arch.PhpCheck | src/arch/mod.rs:175 | PHP's `crc32` (byte-swapped CRC-32/BZIP2) of "123456789" is 0x181989FC |
| Arch.PhpHelloWorld | src/arch/mod.rs:178 | PHP's `crc32` of "hello, world!" is 0x05EACCE7 |
| Arch.Crc16CheckValuePanics | src/arch/mod.rs:103-120 | as written, the check-value test's call for CRC-16/ARC panics with "Unsupported CRC width: 16" |
| Arch.UpdateAllWidths | src/arch/mod.rs:35-41 | with a 16-bit arm added, the dispatcher panics exactly for widths other than 16, 32 and 64, a 16-bit result fits in 16 bits, and the 32- and 64-bit arms are unchanged |
| Arch.SoftwareTruncatesState16 | src/arch/software.rs:380 | at width 16 the software fallback reads only the low 16 bits of the state |
| Arch.UpdateAllWidthsMatchesSoftware | src/arch/mod.rs:30-77 | with the 16-bit arm and under the `EnginesMatch` hypothesis, the dispatcher equals the software fallback for every coherent record at every supported width |
| Arch.UpdateAllWidthsSeeded | src/arch/mod.rs:103-120 | with the 16-bit arm and under the `EnginesMatch` hypothesis, the check-value test's equation holds for every coherent record at every width |
| Arch.Crc16CheckValueCorrected | src/arch/mod.rs:103-120 | with the 16-bit arm, under the `EnginesMatch` hypothesis and when key generation yields the tabulated CRC-16/ARC keys, CRC-16/ARC of "123456789" is its recorded check value 0xBB3D |
| Vectors.FromU32 | src/crc32/algorithm.rs:27-34 | a 32-bit value loaded into a 128-bit register sits in the low 32 bits of the low lane, or in the high 32 bits of the high lane, with every other bit zero |
| Vectors.CrcStateCell.constructor | src/crc32/algorithm.rs:36-39 | a new state cell holds the given state |
| Crc32Width.CreateState | src/crc32/algorithm.rs:19-40 | `create_state` keeps the reflection flag and places the value in the low 32 bits (reflected) or the top 32 bits (forward) of the register, with every other bit zero |
| Crc32Width.ExtractCreate | src/crc32/algorithm.rs:43-57 | `extract_result` recovers the value `create_state` stored, in both directions |
| Crc32Width.CreateStateInjective | src/crc32/algorithm.rs:19-40 | different values give different initial states |
| Crc32Width.ReductionReadsSwapped | src/crc32/algorithm.rs:81-96 | the final reduction reads its result from the lane-swapped register, as `extract_result` would |
| Crc32Width.ReductionsAgree | src/crc32/algorithm.rs:112-127 | when the backend's final reduction and its Barrett reduction agree, so do `perform_final_reduction` and `barrett_reduction` |
| Crc32Width.Fold16 | src/crc32/algorithm.rs:60-69 | `fold_16` replaces the state with the backend's fold of the old state, the coefficient and the data |
| Crc32Width.FoldWidth | src/crc32/algorithm.rs:73-78 | `fold_width` replaces the state with the backend's width fold of the old state |
| Crc16Width.UnscaleScale | src/crc16/algorithm.rs:35-59 | the 16-bit value moved into 32-bit position and read back is unchanged |
| Crc16Width.CreateState | src/crc16/algorithm.rs:21-43 | the 16-bit state is the 32-bit state of the scaled value: low 16 bits of the low lane (reflected) or top 16 bits of the high lane (forward), every other bit zero |
| Crc16Width.ExtractCreate | src/crc16/algorithm.rs:46-61 | `extract_result` recovers the 16-bit value `create_state` stored |
| Crc16Width.ExtractIsScaled | src/crc16/algorithm.rs:46-61 | the 16-bit result is the 32-bit one moved back down |
| Crc16Width.ReductionsAreScaled | src/crc16/algorithm.rs:84-132 | both 16-bit reductions are the 32-bit ones moved back down |
| Crc16Width.Fold16 | src/crc16/algorithm.rs:64-73 | `fold_16` replaces the state with the backend's fold |
| Crc16Width.FoldWidth | src/crc16/algorithm.rs:76-81 | `fold_width` replaces the state with the backend's width fold |
| Crc16Width.DelegatesLikeCrc32 | src/crc16/algorithm.rs:16-137 | constants and last-bytes tables are those of the 32-bit strategy, and the coefficient is the 32-bit one with the direction flipped |
| Crc32c.BytesAppend | include/crc32_iscsi_sse_v4s3x3.c:219-221 | the bytewise CRC-32C of `s + t` continues from the CRC of `s` |
| Crc32c.U64Halves | include/crc32_iscsi_sse_v4s3x3.c:92-97 | the 8-byte CRC instruction equals two 4-byte ones, low half first |
| Crc32c.U64Load | include/crc32_iscsi_sse_v4s3x3.c:216-218 | the 8-byte CRC instruction on a little-endian load equals eight byte steps over the same bytes |
| Crc32c.MonomialShift | include/crc32_iscsi_sse_v4s3x3.c:111 | the monomial x^k for k < 32 is the top bit shifted right by k |
| Crc32c.XnModPZeroWord | include/crc32_iscsi_sse_v4s3x3.c:112-114 | in the small-exponent loop, 32 more powers of x are one CRC step over a zero word |
| Crc32c.PushParities | include/crc32_iscsi_sse_v4s3x3.c:107-109 | the first `xnmodp` loop halves n down to at most 191 and records on `stack` the parity of every step it took |
| Crc32c.SmallPower | include/crc32_iscsi_sse_v4s3x3.c:110-114 | the second loop computes x^n mod P for n up to 191 |
| Crc32c.PopSquares | include/crc32_iscsi_sse_v4s3x3.c:115-119 | the third loop squares back up along the recorded parities and reaches the value of the halving-and-squaring recurrence `XnModP` at n0 |
| Crc32c.XnModPLoop | include/crc32_iscsi_sse_v4s3x3.c:104-121 | `xnmodp(n)` returns the value of the halving-and-squaring recurrence `XnModP(n)` for every 64-bit n, with either squaring routine; that value is x^n mod P for n ≤ 191 |
| Crc32c.ShiftExponent | include/crc32_iscsi_sse_v4s3x3.c:123-125 | the exponent `nbytes * 8 - 33` wraps modulo 2^64 and equals 8·nbytes − 33 whenever it does not wrap |
| Crc32c.CrcShift | include/crc32_iscsi_sse_v4s3x3.c:123-125 | `crc_shift` is the carry-less product of the CRC with `XnModP` at the exponent 8·nbytes − 33, computed with `size_t` wrap-around |
| Crc32c.PrologueLen | include/crc32_iscsi_sse_v4s3x3.c:129-136 | the alignment prologue consumes at most 15 bytes and never more than the buffer |
| Crc32c.ByteSteps | include/crc32_iscsi_sse_v4s3x3.c:129-131 | the byte loop stops at the first 8-byte aligned address or at the end of the buffer, within 7 steps |
| Crc32c.PrologueAligns | include/crc32_iscsi_sse_v4s3x3.c:129-136 | after the prologue the pointer is 8-byte aligned, and 16-byte aligned when at least 8 bytes are left |
| Crc32c.PrologueLenMod16 | include/crc32_iscsi_sse_v4s3x3.c:129-136 | the prologue length depends on the address only modulo 16 |
| Crc32c.Prologue | include/crc32_iscsi_sse_v4s3x3.c:129-136 | the prologue method consumes `PrologueLen` bytes and returns their bytewise CRC-32C |
| Crc32c.Tail | include/crc32_iscsi_sse_v4s3x3.c:216-221 | the word loop and the byte loop together compute the bytewise CRC-32C of the rest of the buffer |
| Crc32c.Inject | include/crc32_iscsi_sse_v4s3x3.c:153 | XOR-ing the CRC into the first lane changes only the low half of lane 0 |
| Crc32c.StreamsDone | include/crc32_iscsi_sse_v4s3x3.c:191-199 | when the stream loops finish, each of the three scalar CRCs is the bytewise CRC-32C of its own third |
| Crc32c.StreamRound | include/crc32_iscsi_sse_v4s3x3.c:168-176 | one 8-byte step of the three streams keeps each stream the CRC of its slice so far |
| Crc32c.LanesAdvance | include/crc32_iscsi_sse_v4s3x3.c:159-167 | one round of lane folding moves on to the next chunk without changing where the fold ends |
| Crc32c.CheckValue | include/crc32_iscsi_sse_v4s3x3.c:219-222 | the bytewise CRC-32C of "123456789" is the RFC 3720 check value 0xE3069283 |
| SseKernel.Cvtsi64Si128 | include/crc32_iscsi_sse_v4s3x3.c:56-68 | on both platforms, loading a 64-bit value gives the register with that value low and zero high |
| SseKernel.Cvtsi128Si64 | include/crc32_iscsi_sse_v4s3x3.c:70-75 | on both platforms, reading the low 64 bits gives the low lane |
| SseKernel.ExtractEpi64 | include/crc32_iscsi_sse_v4s3x3.c:77-90 | on both platforms, lane 0 is the low lane and any other index the high lane |
| SseKernel.Crc32U64 | include/crc32_iscsi_sse_v4s3x3.c:92-97 | the 32-bit platform's two 4-byte CRC instructions equal the 8-byte one |
| SseKernel.Cvtsi64RoundTrip | include/crc32_iscsi_sse_v4s3x3.c:56-75 | loading a 64-bit value into a register and reading it back gives it unchanged |
| SseKernel.PlatformsAgree | include/crc32_iscsi_sse_v4s3x3.c:31-97 | the 32-bit x86 fallbacks compute what the x86_64 intrinsics compute |
| SseKernel.BlockLen | include/crc32_iscsi_sse_v4s3x3.c:137-215 | the block path consumes at least 144 bytes, leaves fewer than 136 and consumes 8 more than a multiple of 136 |
| SseKernel.ShiftSizes | include/crc32_iscsi_sse_v4s3x3.c:201-208 | the three streams fit in the buffer and none of the shift exponents wraps |
| SseKernel.RoundsLeft | include/crc32_iscsi_sse_v4s3x3.c:156-180 | the main loop runs exactly as many rounds as there are whole 136-byte blocks |
| SseKernel.MainRound | include/crc32_iscsi_sse_v4s3x3.c:159-180 | one main-loop round folds the four lanes over the next 64 bytes and advances all three streams |
| SseKernel.ScalarChunk | include/crc32_iscsi_sse_v4s3x3.c:191-200 | the scalar-only loop advances all three streams by one 8-byte step each |
| SseKernel.BlockLoop | include/crc32_iscsi_sse_v4s3x3.c:137-199 | the block loop leaves the four lanes folded over the whole vector region and the three streams holding the CRCs of their slices |
| SseKernel.ShiftStreams | include/crc32_iscsi_sse_v4s3x3.c:201-209 | the merge adds stream 0 shifted over what follows it and stream 1 likewise |
| SseKernel.BlockPath | include/crc32_iscsi_sse_v4s3x3.c:137-215 | the block path ends `BlockLen` bytes on and returns the merged CRC of the lanes and the streams |
| SseKernel.RestPath | include/crc32_iscsi_sse_v4s3x3.c:216-221 | after the prologue, the method computes the block path when at least 144 bytes remain and then the tail |
| SseKernel.Impl | include/crc32_iscsi_sse_v4s3x3.c:127-223 | `crc32_iscsi_impl` returns the complement of the kernel run on the complemented CRC: prologue, block path, words and bytes |
| SseKernel.ShortIsBytewise | include/crc32_iscsi_sse_v4s3x3.c:127-223 | when fewer than 144 bytes follow the prologue, the kernel returns the bytewise CRC-32C |
| SseKernel.ShortBuffer | include/crc32_iscsi_sse_v4s3x3.c:127-223 | buffers under 144 bytes get the bytewise CRC-32C at every address |
| SseKernel.EmptyBuffer | include/crc32_iscsi_sse_v4s3x3.c:127-223 | an empty buffer leaves the CRC unchanged |
| SseKernel.CheckInputValue | include/crc32_iscsi_sse_v4s3x3.c:127-223 | CRC-32C of "123456789" from 0 is 0xE3069283 at every address |
| SseKernel.AddressMod16 | include/crc32_iscsi_sse_v4s3x3.c:129-136 | the kernel's result depends on the buffer address only modulo 16 |
| NeonKernel.ChunkEnd | include/crc32_iscsi_neon_blended.c:77-168 | a path over whole 192-byte chunks consumes at least one chunk, a multiple of 192 bytes, and leaves fewer than 192 |
| NeonKernel.MidKlen | include/crc32_iscsi_neon_blended.c:169-170 | the three-stream pass's stream length is a positive multiple of 8 and the three streams plus a final word fit |
| NeonKernel.MidEnd | include/crc32_iscsi_neon_blended.c:169-192 | the three-stream pass consumes at least 32 bytes and leaves fewer than 24 |
| NeonKernel.SixteenEnd | include/crc32_iscsi_neon_blended.c:282-299 | the 16-byte lane consumes at least one block, a multiple of 16, and leaves fewer than 16 bytes |
| NeonKernel.StreamPair | include/crc32_iscsi_neon_blended.c:112-117 | two 8-byte steps of the three streams keep each stream the CRC of its slice so far |
| NeonKernel.LargeRound | include/crc32_iscsi_neon_blended.c:103-130 | one large-loop round folds the nine lanes 144 bytes on and advances the three streams |
| NeonKernel.LargeLoop | include/crc32_iscsi_neon_blended.c:77-130 | the large loop leaves the nine lanes folded over the vector region and the three streams holding the CRCs of their slices |
| NeonKernel.LargeShiftSizes | include/crc32_iscsi_neon_blended.c:159-161 | streams and lanes take exactly 192·blk bytes and no shift exponent wraps |
| NeonKernel.LargeShifts | include/crc32_iscsi_neon_blended.c:159-162 | the large merge shifts each stream over every byte that follows it |
| NeonKernel.LargePath | include/crc32_iscsi_neon_blended.c:77-168 | the large block path ends at `ChunkEnd` and returns the merged CRC of the lanes and the streams |
| NeonKernel.MidLoop | include/crc32_iscsi_neon_blended.c:169-183 | the three-stream loop leaves each stream holding the CRC of its slice |
| NeonKernel.MidShiftSizes | include/crc32_iscsi_neon_blended.c:184-185 | neither shift exponent of the three-stream merge wraps |
| NeonKernel.MidShifts | include/crc32_iscsi_neon_blended.c:184-186 | the three-stream merge shifts streams 0 and 1 over what follows them |
| NeonKernel.MidPath | include/crc32_iscsi_neon_blended.c:169-192 | the three-stream pass ends at `MidEnd` and returns the merged CRC |
| NeonKernel.MidRestPath | include/crc32_iscsi_neon_blended.c:169-198 | from a position, the method takes the three-stream pass when at least 32 bytes remain, then the tail |
| NeonKernel.LargeRestPath | include/crc32_iscsi_neon_blended.c:77-198 | after the prologue, the large implementation takes the 192-byte path when at least 192 bytes remain, then the rest |
| NeonKernel.LargeImpl | include/crc32_iscsi_neon_blended.c:67-200 | `crc32_iscsi_large_impl` returns the complement of prologue, large path, three-stream pass, words and bytes over the complemented CRC |
| NeonKernel.SmallLoop | include/crc32_iscsi_neon_blended.c:225-260 | the small main loop leaves the twelve lanes folded over every whole 192-byte chunk |
| NeonKernel.SmallPath | include/crc32_iscsi_neon_blended.c:225-281 | the small block path ends at `ChunkEnd` and returns the reduced lanes |
| NeonKernel.SixteenPath | include/crc32_iscsi_neon_blended.c:282-299 | the 16-byte lane path ends at `SixteenEnd` and returns the reduced lane |
| NeonKernel.SixteenRestPath | include/crc32_iscsi_neon_blended.c:282-305 | from a position, the method takes the 16-byte path when at least 16 bytes remain, then the tail |
| NeonKernel.SmallRestPath | include/crc32_iscsi_neon_blended.c:225-305 | after the prologue, the small implementation takes the 192-byte path when at least 192 bytes remain, then the rest |
| NeonKernel.SmallImpl | include/crc32_iscsi_neon_blended.c:215-307 | `crc32_iscsi_small_impl` returns the complement of prologue, small path, 16-byte lane, words and bytes over the complemented CRC |
| NeonKernel.Impl | include/crc32_iscsi_neon_blended.c:309-319 | buffers of at most 1024 bytes take the small implementation and longer ones the large |
| NeonKernel.SmallShortIsBytewise | include/crc32_iscsi_neon_blended.c:215-307 | when fewer than 16 bytes follow the prologue, the small implementation returns the bytewise CRC-32C |
| NeonKernel.LargeShortIsBytewise | include/crc32_iscsi_neon_blended.c:67-200 | when fewer than 32 bytes follow the prologue, the large implementation returns the bytewise CRC-32C |
| NeonKernel.ShortBuffer | include/crc32_iscsi_neon_blended.c:309-319 | buffers under 16 bytes get the bytewise CRC-32C, whichever implementation runs |
| NeonKernel.EmptyBuffer | include/crc32_iscsi_neon_blended.c:309-319 | an empty buffer leaves the CRC unchanged |
| NeonKernel.CheckInputValue | include/crc32_iscsi_neon_blended.c:309-319 | CRC-32C of "123456789" from 0 is 0xE3069283 at every address |
| NeonKernel.AddressMod16 | include/crc32_iscsi_neon_blended.c:69-76 | the kernel's result depends on the buffer address only modulo 16 |
| TestSupport.WithCases | src/test/mod.rs:19 | the configuration has the requested case count and keeps the default failure persistence |
| TestSupport.MiriCompatibleProptestConfig | src/test/mod.rs:18-32 | 100 cases with default persistence normally; under Miri one case and no failure persistence |
| TestSupport.AlignOffset | src/test/mod.rs:43-44 | the offset is below 64 and lands on a 64-byte aligned address |
| TestSupport.AlignOffsetFirst | src/test/mod.rs:42-44 | no address before the offset is aligned, so the offset picks the first aligned position |
| TestSupport.CreateAlignedData | src/test/mod.rs:35-52 | the copy starts at a 64-byte aligned address within 64 bytes of the buffer start and holds the input unchanged |

## Left out

- `src/ffi.rs`, the C-facing wrappers, is not part of this model.
- The locks around the custom-algorithm caches (`Mutex`, `OnceLock`, `spin::Once`) and the `Box::leak` of cached algorithms are left out. The caches are modelled single-threaded, as one object with three map fields.
- The `std`, `spin` and no-cache builds of the caches are collapsed into `Software.Features(alloc, cache)`.
- CPU feature probing (`is_x86_feature_detected!`) and `target_arch`/`feature` configuration are parameters (`Arch.Build`, `detected`), not modelled.
- The `crc` crate is replaced by a bitwise reference engine following Williams, "A Painless Guide to CRC Error Detection Algorithms" (the Rocksoft model). Its table-driven `Table<16>` implementation is not modelled.
- `src/crc32/consts.rs` and `src/crc64/consts.rs` are not part of this model. The CRC-32 and CRC-64 catalogue parameters are the published Rocksoft parameters of the named algorithms. The `Catalogue.Checks*` lemmas prove each check value against the reference engine.
- The generic folding algorithm (`algorithm::update`), the bodies of the backends' SIMD operations and `process_0_to_15` are not modelled. They enter as the function-valued parameters `Arch.Engine` and `Vectors.Width32Ops`. The `Arch` lemmas about the engines therefore assume, through `EnginesMatch`, that the engines agree with the software fallback on every coherent record.
- The comment on `extract_result` in `src/crc32/algorithm.rs` says that a forward CRC is read from the low lane, but the code reads the high lane. The model follows the code.
- The GF(2) algebra of the kernels' folding paths is not proved: that lane folding, the carry-less products and the `crc_shift` merge compute the polynomial remainder. This includes the equivalence of the two squaring routines of `xnmodp` (`PolyMul8` and `ClMul64`). The paths are proved equal to their step-by-step specifications, and the scalar streams are proved to be bytewise CRC-32C. The whole kernels are proved to be bytewise CRC-32C only when no block path runs (`SseKernel.ShortIsBytewise`, `NeonKernel.SmallShortIsBytewise`, `NeonKernel.LargeShortIsBytewise`).
- Arch.UpdateMatchesSoftware: the agreement of `arch::update` with `software::update` rests on the `EnginesMatch` hypothesis; that the folding engine computes the CRC is not proved.
- Arch.UpdateSeeded: holds only under the `EnginesMatch` hypothesis, for coherent records.
- Arch.UpdateAllWidthsMatchesSoftware: holds only under the `EnginesMatch` hypothesis, for coherent records.
- Arch.UpdateAllWidthsSeeded: holds only under the `EnginesMatch` hypothesis, for coherent records.
- Arch.Crc16CheckValueCorrected: holds only under the `EnginesMatch` hypothesis and with key generation assumed to give the tabulated CRC-16/ARC keys, since `get_or_generate_keys` is not modelled.
- Catalogue.Named32, Catalogue.Named64: which catalogue constant each selector maps to is transcribed from the dispatch arms. `Catalogue.NamedByPrefix` rules out a missing arm or an arm of the wrong width, but two selectors of the same width with their algorithms exchanged would not be detected.
- Crc32c.XnModPLoop, Crc32c.PopSquares, Crc32c.CrcShift: the result is x^n mod P only for n ≤ 191. Above that the recurrence `XnModP` is x^n mod P only if `Square` squares modulo P, which is not proved.
- Structs.New: key generation (`get_or_generate_keys`, src/structs.rs:101) runs before the width check at lines 104-107. The model takes it to return for every width, so a panic that key generation might raise for an unsupported width is not modelled.
- Pointer addresses are unbounded naturals, and 8- and 16-byte loads are little-endian.
- The `size_t` wrap-around is written out only where the kernels can reach it: the exponent of `crc_shift` (`Crc32c.ShiftExponent`). Lengths are bounded by 2^64.
- Of the CRC-64/NVME vectors, the 4096-, 1024-, 256- and 32-byte inputs are not proved; the short ones and "hello, world!" are. Of PHP's `crc32` vectors, the 4096-byte inputs are not proved.
- Of the property-test configuration, only `cases` and `failure_persistence` are modelled.
- `Enums.X25NotRecognised`: `from_str` has no arm for the "CRC-16/X-25" name constant, so it rejects that name. This is modelled as written.
- TestSupport.CreateAlignedData: the vector that `create_aligned_data` returns is a fresh `to_vec` copy at an address the allocator picks. `alignedAddr` is the aligned position inside the padded buffer, which the source drops, so the contract does not promise anything about the returned vector's own alignment.
- The Barrett-reduction keys (key 7 and the `mu` keys) of the CRC-16 tables are not checked against their polynomial; only their placement is.
- Operations of the crate outside the dispatch, software fallback and kernels are not part of this model: the `Digest` type, the public `checksum*` functions, file hashing, `combine` and the other width strategies.

## Findings

| source | as written | input that shows it | evidently intended | confidence | as-written member | corrected member |
|---|---|---|---|---|---|---|
| src/arch/mod.rs:35-41 | `arch::update` has arms for widths 64 and 32 only (also at lines 51-58 and 66-70), so every CRC-16 record panics with "Unsupported CRC width: 16". Yet `test_check_value` (src/arch/mod.rs:103-120) runs it over `TEST_ALL_CONFIGS`, which includes the CRC-16 records (src/test/consts.rs:443-473) | CRC-16/ARC over "123456789" | a 16-bit arm dispatching to the 16-bit width strategy of `src/crc16/algorithm.rs`, so that the check value 0xBB3D comes out | medium, not executed | Arch.Crc16CheckValuePanics | Arch.UpdateAllWidths |
