// The CRC-16 parameter records (`CRC16_ARC` through `CRC16_XMODEM`) and the
// folding-key tables they carry, with the invariants the accelerated CRC-16
// path relies on: each record agrees with its catalogue algorithm and with
// `CrcParams::new`, and each key table has the shape of its direction.
module Crc16Consts {
  import opened Bits
  import opened Results
  import opened Rocksoft
  import opened Consts
  import opened Enums
  import opened Structs
  import opened Catalogue
  import Software

  /** A `CRC16_*` record: the catalogue algorithm's fields widened to `u64`, the register
    * start value the folding code uses, and the record's key table. */
  function Record(tag: CrcAlgorithm, name: string, a: Algorithm, initAlgorithm: bv64, keys: KeyArray): CrcParams {
    CrcParams(tag, name, 16, a.poly, a.init, initAlgorithm, a.refin, a.refout, a.xorout, a.check, KeysFold256(keys))
  }

  const Crc16ArcParams: CrcParams := Record(Crc16Arc, NameCrc16Arc, RustCrc16Arc, RustCrc16Arc.init, Keys8005Reflected)
  const Crc16Cdma2000Params: CrcParams := Record(Crc16Cdma2000, NameCrc16Cdma2000, RustCrc16Cdma2000, RustCrc16Cdma2000.init, KeysC867Forward)
  const Crc16CmsParams: CrcParams := Record(Crc16Cms, NameCrc16Cms, RustCrc16Cms, RustCrc16Cms.init, Keys8005Forward)
  const Crc16Dds110Params: CrcParams := Record(Crc16Dds110, NameCrc16Dds110, RustCrc16Dds110, RustCrc16Dds110.init, Keys8005Forward)
  const Crc16DectRParams: CrcParams := Record(Crc16DectR, NameCrc16DectR, RustCrc16DectR, RustCrc16DectR.init, Keys0589Forward)
  const Crc16DectXParams: CrcParams := Record(Crc16DectX, NameCrc16DectX, RustCrc16DectX, RustCrc16DectX.init, Keys0589Forward)
  const Crc16DnpParams: CrcParams := Record(Crc16Dnp, NameCrc16Dnp, RustCrc16Dnp, RustCrc16Dnp.init, Keys3D65Reflected)
  const Crc16En13757Params: CrcParams := Record(Crc16En13757, NameCrc16En13757, RustCrc16En13757, RustCrc16En13757.init, Keys3D65Forward)
  const Crc16GenibusParams: CrcParams := Record(Crc16Genibus, NameCrc16Genibus, RustCrc16Genibus, RustCrc16Genibus.init, Keys1021Forward)
  const Crc16GsmParams: CrcParams := Record(Crc16Gsm, NameCrc16Gsm, RustCrc16Gsm, RustCrc16Gsm.init, Keys1021Forward)
  const Crc16Ibm3740Params: CrcParams := Record(Crc16Ibm3740, NameCrc16Ibm3740, RustCrc16Ibm3740, RustCrc16Ibm3740.init, Keys1021Forward)
  const Crc16IbmSdlcParams: CrcParams := Record(Crc16IbmSdlc, NameCrc16IbmSdlc, RustCrc16IbmSdlc, RustCrc16IbmSdlc.init, Keys1021Reverse)
  const Crc16IsoIec144433AParams: CrcParams := Record(Crc16IsoIec144433A, NameCrc16IsoIec144433A, RustCrc16IsoIec144433A, 0x6363, Keys1021Reverse)
  const Crc16KermitParams: CrcParams := Record(Crc16Kermit, NameCrc16Kermit, RustCrc16Kermit, RustCrc16Kermit.init, Keys1021Reverse)
  const Crc16Lj1200Params: CrcParams := Record(Crc16Lj1200, NameCrc16Lj1200, RustCrc16Lj1200, RustCrc16Lj1200.init, Keys6F63Forward)
  const Crc16M17Params: CrcParams := Record(Crc16M17, NameCrc16M17, RustCrc16M17, RustCrc16M17.init, Keys5935Forward)
  const Crc16MaximDowParams: CrcParams := Record(Crc16MaximDow, NameCrc16MaximDow, RustCrc16MaximDow, RustCrc16MaximDow.init, Keys8005Reflected)
  const Crc16Mcrf4xxParams: CrcParams := Record(Crc16Mcrf4xx, NameCrc16Mcrf4xx, RustCrc16Mcrf4xx, RustCrc16Mcrf4xx.init, Keys1021Reverse)
  const Crc16ModbusParams: CrcParams := Record(Crc16Modbus, NameCrc16Modbus, RustCrc16Modbus, RustCrc16Modbus.init, Keys8005Reflected)
  const Crc16Nrsc5Params: CrcParams := Record(Crc16Nrsc5, NameCrc16Nrsc5, RustCrc16Nrsc5, RustCrc16Nrsc5.init, Keys080BReflected)
  const Crc16OpensafetyAParams: CrcParams := Record(Crc16OpensafetyA, NameCrc16OpensafetyA, RustCrc16OpensafetyA, RustCrc16OpensafetyA.init, Keys5935Forward)
  const Crc16OpensafetyBParams: CrcParams := Record(Crc16OpensafetyB, NameCrc16OpensafetyB, RustCrc16OpensafetyB, RustCrc16OpensafetyB.init, Keys755BForward)
  const Crc16ProfibusParams: CrcParams := Record(Crc16Profibus, NameCrc16Profibus, RustCrc16Profibus, RustCrc16Profibus.init, Keys1DCFForward)
  const Crc16RielloParams: CrcParams := Record(Crc16Riello, NameCrc16Riello, RustCrc16Riello, 0x554D, Keys1021Reverse)
  const Crc16SpiFujitsuParams: CrcParams := Record(Crc16SpiFujitsu, NameCrc16SpiFujitsu, RustCrc16SpiFujitsu, RustCrc16SpiFujitsu.init, Keys1021Forward)
  const Crc16T10DifParams: CrcParams := Record(Crc16T10Dif, NameCrc16T10Dif, RustCrc16T10Dif, RustCrc16T10Dif.init, Keys8BB7Forward)
  const Crc16TelediskParams: CrcParams := Record(Crc16Teledisk, NameCrc16Teledisk, RustCrc16Teledisk, RustCrc16Teledisk.init, KeysA097Forward)
  const Crc16Tms37157Params: CrcParams := Record(Crc16Tms37157, NameCrc16Tms37157, RustCrc16Tms37157, 0x3791, Keys1021Reverse)
  const Crc16UmtsParams: CrcParams := Record(Crc16Umts, NameCrc16Umts, RustCrc16Umts, RustCrc16Umts.init, Keys8005Forward)
  const Crc16UsbParams: CrcParams := Record(Crc16Usb, NameCrc16Usb, RustCrc16Usb, RustCrc16Usb.init, Keys8005Reflected)
  const Crc16XmodemParams: CrcParams := Record(Crc16Xmodem, NameCrc16Xmodem, RustCrc16Xmodem, RustCrc16Xmodem.init, Keys1021Forward)

  const Keys8005Forward: KeyArray :=
    [0x0000_0000_0000_0000, 0x8663_0000_0000_0000, 0x8617_0000_0000_0000, 0x8665_0000_0000_0000,
     0x8077_0000_0000_0000, 0x8663_0000_0000_0000, 0x807B_0000_0000_0000, 0x0000_0001_FFFB_FFE7] +
    [0x0000_0001_8005_0000, 0x6A7A_0000_0000_0000, 0x5CCB_0000_0000_0000, 0x006B_0000_0000_0000,
     0xEDB3_0000_0000_0000, 0xF997_0000_0000_0000, 0x8C47_0000_0000_0000, 0xBFFA_0000_0000_0000] +
    [0x861B_0000_0000_0000, 0xEAC3_0000_0000_0000, 0xED6B_0000_0000_0000, 0xF557_0000_0000_0000,
     0x806F_0000_0000_0000, 0xF337_0000_0000_0000, 0x867B_0000_0000_0000]

  const Keys8005Reflected: KeyArray :=
    [0x0000_0000_0000_0000, 0x0000_0000_0001_8CC2, 0x0000_0000_0001_D0C2, 0x0000_0000_0001_4CC2,
     0x0000_0000_0001_DC02, 0x0000_0000_0001_8CC2, 0x0000_0000_0001_BC02, 0x0000_0001_CFFF_BFFF] +
    [0x0000_0000_0001_4003, 0x0000_0000_0000_BCAC, 0x0000_0000_0001_A674, 0x0000_0000_0001_AC00,
     0x0000_0000_0001_9B6E, 0x0000_0000_0001_D33E, 0x0000_0000_0001_C462, 0x0000_0000_0000_BFFA] +
    [0x0000_0000_0001_B0C2, 0x0000_0000_0001_86AE, 0x0000_0000_0001_AD6E, 0x0000_0000_0001_D55E,
     0x0000_0000_0001_EC02, 0x0000_0000_0001_D99E, 0x0000_0000_0001_BCC2]

  const KeysC867Forward: KeyArray :=
    [0x0000_0000_0000_0000, 0x1473_0000_0000_0000, 0x7386_0000_0000_0000, 0x8388_0000_0000_0000,
     0x1494_0000_0000_0000, 0x1473_0000_0000_0000, 0xB4EB_0000_0000_0000, 0x0000_0001_BCF9_CCB5] +
    [0x0000_0001_C867_0000, 0x7B7C_0000_0000_0000, 0xE363_0000_0000_0000, 0x594F_0000_0000_0000,
     0xD7BC_0000_0000_0000, 0x47CA_0000_0000_0000, 0x971E_0000_0000_0000, 0x6ACB_0000_0000_0000] +
    [0xBD49_0000_0000_0000, 0x9F17_0000_0000_0000, 0x1DB5_0000_0000_0000, 0xD834_0000_0000_0000,
     0x70C7_0000_0000_0000, 0xB010_0000_0000_0000, 0x7D8B_0000_0000_0000]

  const Keys0589Forward: KeyArray :=
    [0x0000_0000_0000_0000, 0xC2EE_0000_0000_0000, 0xF795_0000_0000_0000, 0x58E7_0000_0000_0000,
     0x9AAD_0000_0000_0000, 0xC2EE_0000_0000_0000, 0xA847_0000_0000_0000, 0x0000_0001_0598_1D3F] +
    [0x0000_0001_0589_0000, 0x5230_0000_0000_0000, 0x3315_0000_0000_0000, 0xD59F_0000_0000_0000,
     0x67C9_0000_0000_0000, 0x148C_0000_0000_0000, 0x4DA7_0000_0000_0000, 0xF6C1_0000_0000_0000] +
    [0x5890_0000_0000_0000, 0x0523_0000_0000_0000, 0xD0CF_0000_0000_0000, 0x7CD2_0000_0000_0000,
     0x1624_0000_0000_0000, 0xF411_0000_0000_0000, 0x1D58_0000_0000_0000]

  const Keys3D65Reflected: KeyArray :=
    [0x0000_0000_0000_0000, 0x0000_0000_0000_1612, 0x0000_0000_0000_4D8C, 0x0000_0000_0001_7D88,
     0x0000_0000_0001_B860, 0x0000_0000_0000_1612, 0x0000_0000_0000_C2E8, 0x0000_0000_F81E_8E39] +
    [0x0000_0000_0001_4D79, 0x0000_0000_0001_B406, 0x0000_0000_0000_0400, 0x0000_0000_0000_C654,
     0x0000_0000_0000_6F94, 0x0000_0000_0001_40BA, 0x0000_0000_0000_AA92, 0x0000_0000_0000_0020] +
    [0x0000_0000_0000_58B2, 0x0000_0000_0001_C116, 0x0000_0000_0000_9664, 0x0000_0000_0001_5CFA,
     0x0000_0000_0001_C458, 0x0000_0000_0000_CDC0, 0x0000_0000_0000_B470]

  const Keys3D65Forward: KeyArray :=
    [0x0000_0000_0000_0000, 0x90D0_0000_0000_0000, 0x6364_0000_0000_0000, 0x237D_0000_0000_0000,
     0x0C3B_0000_0000_0000, 0x90D0_0000_0000_0000, 0x2E86_0000_0000_0000, 0x0000_0001_38E2_F03E] +
    [0x0000_0001_3D65_0000, 0xC05B_0000_0000_0000, 0x0040_0000_0000_0000, 0x54C6_0000_0000_0000,
     0x53EC_0000_0000_0000, 0xBA05_0000_0000_0000, 0x92AA_0000_0000_0000, 0x0800_0000_0000_0000] +
    [0x9A34_0000_0000_0000, 0xD107_0000_0000_0000, 0x4CD2_0000_0000_0000, 0xBE75_0000_0000_0000,
     0x3447_0000_0000_0000, 0x0766_0000_0000_0000, 0x1C5A_0000_0000_0000]

  const Keys1021Forward: KeyArray :=
    [0x0000_0000_0000_0000, 0xEB23_0000_0000_0000, 0x10E2_0000_0000_0000, 0xFA0D_0000_0000_0000,
     0x36FB_0000_0000_0000, 0xEB23_0000_0000_0000, 0xAA51_0000_0000_0000, 0x0000_0001_1130_3471] +
    [0x0000_0001_1021_0000, 0xF4E7_0000_0000_0000, 0x4347_0000_0000_0000, 0x15B7_0000_0000_0000,
     0x9E3A_0000_0000_0000, 0x8420_0000_0000_0000, 0x9C1A_0000_0000_0000, 0x9FE5_0000_0000_0000] +
    [0x78B3_0000_0000_0000, 0xB8E0_0000_0000_0000, 0xBD64_0000_0000_0000, 0x45B4_0000_0000_0000,
     0x8DDC_0000_0000_0000, 0x2093_0000_0000_0000, 0x3F68_0000_0000_0000]

  const Keys6F63Forward: KeyArray :=
    [0x0000_0000_0000_0000, 0xE601_0000_0000_0000, 0xF83F_0000_0000_0000, 0x29C0_0000_0000_0000,
     0xFA19_0000_0000_0000, 0xE601_0000_0000_0000, 0x4DD4_0000_0000_0000, 0x0000_0001_7D0B_9ECC] +
    [0x0000_0001_6F63_0000, 0x5342_0000_0000_0000, 0xA2B2_0000_0000_0000, 0x14E0_0000_0000_0000,
     0xCABD_0000_0000_0000, 0x29A1_0000_0000_0000, 0x5159_0000_0000_0000, 0x0A70_0000_0000_0000] +
    [0xD2EF_0000_0000_0000, 0xA361_0000_0000_0000, 0x9F1D_0000_0000_0000, 0x0538_0000_0000_0000,
     0xDEC6_0000_0000_0000, 0x42C6_0000_0000_0000, 0x0867_0000_0000_0000]

  const Keys5935Forward: KeyArray :=
    [0x0000_0000_0000_0000, 0x0D0E_0000_0000_0000, 0x5163_0000_0000_0000, 0x1286_0000_0000_0000,
     0x1000_0000_0000_0000, 0x0D0E_0000_0000_0000, 0x5866_0000_0000_0000, 0x0000_0001_4CE5_C8BE] +
    [0x0000_0001_5935_0000, 0xFB76_0000_0000_0000, 0xDBDD_0000_0000_0000, 0x250C_0000_0000_0000,
     0x2000_0000_0000_0000, 0xAFD9_0000_0000_0000, 0xEE8F_0000_0000_0000, 0x4A18_0000_0000_0000] +
    [0x4000_0000_0000_0000, 0x0687_0000_0000_0000, 0x842B_0000_0000_0000, 0x9430_0000_0000_0000,
     0x8000_0000_0000_0000, 0xD0D9_0000_0000_0000, 0x0100_0000_0000_0000]

  const Keys080BReflected: KeyArray :=
    [0x0000_0000_0000_0000, 0x0000_0000_0001_986C, 0x0000_0000_0000_6B98, 0x0000_0000_0000_16A8,
     0x0000_0000_0001_1EF6, 0x0000_0000_0001_986C, 0x0000_0000_0001_70FA, 0x0000_0001_8091_2421] +
    [0x0000_0000_0001_A021, 0x0000_0000_0001_F852, 0x0000_0000_0001_B176, 0x0000_0000_0000_183C,
     0x0000_0000_0001_6FFC, 0x0000_0000_0000_15F4, 0x0000_0000_0000_3308, 0x0000_0000_0000_18A4] +
    [0x0000_0000_0000_CD12, 0x0000_0000_0001_0052, 0x0000_0000_0001_FAAA, 0x0000_0000_0001_3E86,
     0x0000_0000_0000_9BC4, 0x0000_0000_0000_5F3A, 0x0000_0000_0001_C124]

  const Keys755BForward: KeyArray :=
    [0x0000_0000_0000_0000, 0x0E5F_0000_0000_0000, 0x21D3_0000_0000_0000, 0x16BF_0000_0000_0000,
     0x8E20_0000_0000_0000, 0x0E5F_0000_0000_0000, 0x3C73_0000_0000_0000, 0x0000_0001_67C8_63D9] +
    [0x0000_0001_755B_0000, 0xA8CB_0000_0000_0000, 0x7562_0000_0000_0000, 0x0F7D_0000_0000_0000,
     0x8C80_0000_0000_0000, 0x6285_0000_0000_0000, 0x8C37_0000_0000_0000, 0x06A7_0000_0000_0000] +
    [0x937D_0000_0000_0000, 0x9AAC_0000_0000_0000, 0xB5B7_0000_0000_0000, 0xFF2F_0000_0000_0000,
     0xF1DF_0000_0000_0000, 0x407D_0000_0000_0000, 0x597E_0000_0000_0000]

  const Keys1DCFForward: KeyArray :=
    [0x0000_0000_0000_0000, 0x4EE2_0000_0000_0000, 0x8462_0000_0000_0000, 0xFE12_0000_0000_0000,
     0x2690_0000_0000_0000, 0x4EE2_0000_0000_0000, 0x19AE_0000_0000_0000, 0x0000_0001_1C84_2752] +
    [0x0000_0001_1DCF_0000, 0xE047_0000_0000_0000, 0x0AD2_0000_0000_0000, 0x4C6C_0000_0000_0000,
     0xE7E9_0000_0000_0000, 0x1940_0000_0000_0000, 0x22A2_0000_0000_0000, 0xADDD_0000_0000_0000] +
    [0x5FD5_0000_0000_0000, 0x28C9_0000_0000_0000, 0x6186_0000_0000_0000, 0xEB76_0000_0000_0000,
     0x1DB2_0000_0000_0000, 0xA36B_0000_0000_0000, 0x3557_0000_0000_0000]

  const KeysA097Forward: KeyArray :=
    [0x0000_0000_0000_0000, 0x4C3F_0000_0000_0000, 0xC8AA_0000_0000_0000, 0x6E48_0000_0000_0000,
     0x6C83_0000_0000_0000, 0x4C3F_0000_0000_0000, 0xF15F_0000_0000_0000, 0x0000_0001_D31C_0419] +
    [0x0000_0001_A097_0000, 0x8CFA_0000_0000_0000, 0x3A08_0000_0000_0000, 0xFF4F_0000_0000_0000,
     0x872C_0000_0000_0000, 0xE3AC_0000_0000_0000, 0x38D7_0000_0000_0000, 0xD7AE_0000_0000_0000] +
    [0x5BE1_0000_0000_0000, 0xB5E1_0000_0000_0000, 0x2A65_0000_0000_0000, 0x2922_0000_0000_0000,
     0x7D9D_0000_0000_0000, 0xF735_0000_0000_0000, 0xB9E2_0000_0000_0000]

  const Keys8BB7Forward: KeyArray :=
    [0x0000_0000_0000_0000, 0x2D56_0000_0000_0000, 0x06DF_0000_0000_0000, 0x9D9D_0000_0000_0000,
     0x7CF5_0000_0000_0000, 0x2D56_0000_0000_0000, 0x1368_0000_0000_0000, 0x0000_0001_F65A_57F8] +
    [0x0000_0001_8BB7_0000, 0xCEAE_0000_0000_0000, 0xBFD6_0000_0000_0000, 0x1E16_0000_0000_0000,
     0x713C_0000_0000_0000, 0xF7F9_0000_0000_0000, 0x80A6_0000_0000_0000, 0x044C_0000_0000_0000] +
    [0xE658_0000_0000_0000, 0xAD18_0000_0000_0000, 0xA497_0000_0000_0000, 0x6EE3_0000_0000_0000,
     0xE7B5_0000_0000_0000, 0xDCCF_0000_0000_0000, 0x4B0B_0000_0000_0000]

  const Keys1021Reverse: KeyArray :=
    [0x0000_0000_0000_0000, 0x0000_0000_0001_89AE, 0x0000_0000_0000_8E10, 0x0000_0000_0001_60BE,
     0x0000_0000_0001_BED8, 0x0000_0000_0001_89AE, 0x0000_0000_0001_14AA, 0x0000_0001_1C58_1911] +
    [0x0000_0000_0001_0811, 0x0000_0000_0001_CE5E, 0x0000_0000_0001_C584, 0x0000_0000_0001_DB50,
     0x0000_0000_0000_B8F2, 0x0000_0000_0000_0842, 0x0000_0000_0000_B072, 0x0000_0000_0001_4FF2] +
    [0x0000_0000_0001_9A3C, 0x0000_0000_0000_0E3A, 0x0000_0000_0000_4D7A, 0x0000_0000_0000_5B44,
     0x0000_0000_0000_7762, 0x0000_0000_0001_9208, 0x0000_0000_0000_2DF8]

  /** The 17-bit bit reversal of `x`: bit `i` moves to bit `16 - i`. */
  function Reflect17(x: bv64): bv64 {
    (Reverse32(Low32(x)) >> 15) as bv64
  }

  /** A forward folding key: a 16-bit value in the top bits of the `u64`. */
  predicate Top16(x: bv64) {
    x & 0xFFFF_FFFF_FFFF == 0
  }

  /** A reflected folding key: a value of at most 17 bits. */
  predicate Low17(x: bv64) {
    x & !0x1_FFFF == 0
  }

  /** Every folding key (all but the Barrett constant at 7 and the polynomial at 8) has
    * property `p`. */
  predicate FoldingKeys(k: KeyArray, p: bv64 -> bool) {
    p(k[0]) && p(k[1]) && p(k[2]) && p(k[3]) && p(k[4]) && p(k[5]) && p(k[6]) && p(k[9]) && p(k[10]) && p(k[11]) && p(k[12]) && p(k[13]) && p(k[14]) && p(k[15]) && p(k[16]) && p(k[17]) && p(k[18]) && p(k[19]) && p(k[20]) && p(k[21]) && p(k[22])
  }

  /** The shape of a forward table for `poly`: key 0 is zero, key 5 repeats key 1, key 8 is
    * the 17-bit polynomial `0x1_0000 | poly` scaled into 32-bit space (`<< 16`), and every
    * folding key is a 16-bit value in the top bits (its low 48 bits are zero). */
  predicate ForwardKeys(poly: bv64, k: KeyArray) {
    k[0] == 0 && k[1] == k[5] && k[8] == (0x1_0000 | poly) << 16
    && FoldingKeys(k, Top16)
  }

  /** The shape of a reflected table for `poly`: key 0 is zero, key 5 repeats key 1, key 8 is
    * the 17-bit reversal of `0x1_0000 | poly`, and every folding key fits in 17 bits. */
  predicate ReflectedKeys(poly: bv64, k: KeyArray) {
    k[0] == 0 && k[1] == k[5] && k[8] == Reflect17(0x1_0000 | poly)
    && FoldingKeys(k, Low17)
  }

  /** A well-built CRC-16 record: width 16, one reflection flag, the register start value
    * `CrcParams::new` would compute, a key table of its own polynomial in its own direction,
    * and the name its selector displays as. */
  predicate Consistent(r: CrcParams) {
    r.width == 16 && r.refin == r.refout
    && r.initAlgorithm == InitAlgorithm(16, r.init, r.refin)
    && (if r.refin then ReflectedKeys(r.poly, r.keys.table) else ForwardKeys(r.poly, r.keys.table))
    && Display(r.algorithm) == r.name
  }

  /** Record `r` is well built and carries the fields of the catalogue algorithm `a` its
    * selector names. */
  predicate Faithful(r: CrcParams, a: Algorithm) {
    Consistent(r) && Named16(r.algorithm) == Some(a) && Software.Describes(r, a)
  }

  lemma Keys8005ForwardShape() ensures ForwardKeys(0x8005, Keys8005Forward) {}
  lemma Keys8005ReflectedShape() ensures ReflectedKeys(0x8005, Keys8005Reflected) {}
  lemma KeysC867ForwardShape() ensures ForwardKeys(0xC867, KeysC867Forward) {}
  lemma Keys0589ForwardShape() ensures ForwardKeys(0x0589, Keys0589Forward) {}
  lemma Keys3D65ReflectedShape() ensures ReflectedKeys(0x3D65, Keys3D65Reflected) {}
  lemma Keys3D65ForwardShape() ensures ForwardKeys(0x3D65, Keys3D65Forward) {}
  lemma Keys1021ForwardShape() ensures ForwardKeys(0x1021, Keys1021Forward) {}
  lemma Keys6F63ForwardShape() ensures ForwardKeys(0x6F63, Keys6F63Forward) {}
  lemma Keys5935ForwardShape() ensures ForwardKeys(0x5935, Keys5935Forward) {}
  lemma Keys080BReflectedShape() ensures ReflectedKeys(0x080B, Keys080BReflected) {}
  lemma Keys755BForwardShape() ensures ForwardKeys(0x755B, Keys755BForward) {}
  lemma Keys1DCFForwardShape() ensures ForwardKeys(0x1DCF, Keys1DCFForward) {}
  lemma KeysA097ForwardShape() ensures ForwardKeys(0xA097, KeysA097Forward) {}
  lemma Keys8BB7ForwardShape() ensures ForwardKeys(0x8BB7, Keys8BB7Forward) {}
  lemma Keys1021ReverseShape() ensures ReflectedKeys(0x1021, Keys1021Reverse) {}

  lemma Crc16ArcConsistent()
    ensures Faithful(Crc16ArcParams, RustCrc16Arc)
  {
    Keys8005ReflectedShape();
    assert Display(Crc16Arc) == NameCrc16Arc;
    assert InitAlgorithm(16, RustCrc16Arc.init, RustCrc16Arc.refin) == RustCrc16Arc.init;
  }

  lemma Crc16Cdma2000Consistent()
    ensures Faithful(Crc16Cdma2000Params, RustCrc16Cdma2000)
  {
    KeysC867ForwardShape();
    assert Display(Crc16Cdma2000) == NameCrc16Cdma2000;
    assert InitAlgorithm(16, RustCrc16Cdma2000.init, RustCrc16Cdma2000.refin) == RustCrc16Cdma2000.init;
  }

  lemma Crc16CmsConsistent()
    ensures Faithful(Crc16CmsParams, RustCrc16Cms)
  {
    Keys8005ForwardShape();
    assert Display(Crc16Cms) == NameCrc16Cms;
    assert InitAlgorithm(16, RustCrc16Cms.init, RustCrc16Cms.refin) == RustCrc16Cms.init;
  }

  lemma Crc16Dds110Consistent()
    ensures Faithful(Crc16Dds110Params, RustCrc16Dds110)
  {
    Keys8005ForwardShape();
    assert Display(Crc16Dds110) == NameCrc16Dds110;
    assert InitAlgorithm(16, RustCrc16Dds110.init, RustCrc16Dds110.refin) == RustCrc16Dds110.init;
  }

  lemma Crc16DectRConsistent()
    ensures Faithful(Crc16DectRParams, RustCrc16DectR)
  {
    Keys0589ForwardShape();
    assert Display(Crc16DectR) == NameCrc16DectR;
    assert InitAlgorithm(16, RustCrc16DectR.init, RustCrc16DectR.refin) == RustCrc16DectR.init;
  }

  lemma Crc16DectXConsistent()
    ensures Faithful(Crc16DectXParams, RustCrc16DectX)
  {
    Keys0589ForwardShape();
    assert Display(Crc16DectX) == NameCrc16DectX;
    assert InitAlgorithm(16, RustCrc16DectX.init, RustCrc16DectX.refin) == RustCrc16DectX.init;
  }

  lemma Crc16DnpConsistent()
    ensures Faithful(Crc16DnpParams, RustCrc16Dnp)
  {
    Keys3D65ReflectedShape();
    assert Display(Crc16Dnp) == NameCrc16Dnp;
    assert InitAlgorithm(16, RustCrc16Dnp.init, RustCrc16Dnp.refin) == RustCrc16Dnp.init;
  }

  lemma Crc16En13757Consistent()
    ensures Faithful(Crc16En13757Params, RustCrc16En13757)
  {
    Keys3D65ForwardShape();
    assert Display(Crc16En13757) == NameCrc16En13757;
    assert InitAlgorithm(16, RustCrc16En13757.init, RustCrc16En13757.refin) == RustCrc16En13757.init;
  }

  lemma Crc16GenibusConsistent()
    ensures Faithful(Crc16GenibusParams, RustCrc16Genibus)
  {
    Keys1021ForwardShape();
    assert Display(Crc16Genibus) == NameCrc16Genibus;
    assert InitAlgorithm(16, RustCrc16Genibus.init, RustCrc16Genibus.refin) == RustCrc16Genibus.init;
  }

  lemma Crc16GsmConsistent()
    ensures Faithful(Crc16GsmParams, RustCrc16Gsm)
  {
    Keys1021ForwardShape();
    assert Display(Crc16Gsm) == NameCrc16Gsm;
    assert InitAlgorithm(16, RustCrc16Gsm.init, RustCrc16Gsm.refin) == RustCrc16Gsm.init;
  }

  lemma Crc16Ibm3740Consistent()
    ensures Faithful(Crc16Ibm3740Params, RustCrc16Ibm3740)
  {
    Keys1021ForwardShape();
    assert Display(Crc16Ibm3740) == NameCrc16Ibm3740;
    assert InitAlgorithm(16, RustCrc16Ibm3740.init, RustCrc16Ibm3740.refin) == RustCrc16Ibm3740.init;
  }

  lemma Crc16IbmSdlcConsistent()
    ensures Faithful(Crc16IbmSdlcParams, RustCrc16IbmSdlc)
  {
    Keys1021ReverseShape();
    assert Display(Crc16IbmSdlc) == NameCrc16IbmSdlc;
    assert InitAlgorithm(16, RustCrc16IbmSdlc.init, RustCrc16IbmSdlc.refin) == RustCrc16IbmSdlc.init;
  }

  lemma Crc16IsoIec144433AConsistent()
    ensures Faithful(Crc16IsoIec144433AParams, RustCrc16IsoIec144433A)
  {
    Keys1021ReverseShape();
    assert Display(Crc16IsoIec144433A) == NameCrc16IsoIec144433A;
    assert InitAlgorithm(16, RustCrc16IsoIec144433A.init, RustCrc16IsoIec144433A.refin) == 0x6363;
  }

  lemma Crc16KermitConsistent()
    ensures Faithful(Crc16KermitParams, RustCrc16Kermit)
  {
    Keys1021ReverseShape();
    assert Display(Crc16Kermit) == NameCrc16Kermit;
    assert InitAlgorithm(16, RustCrc16Kermit.init, RustCrc16Kermit.refin) == RustCrc16Kermit.init;
  }

  lemma Crc16Lj1200Consistent()
    ensures Faithful(Crc16Lj1200Params, RustCrc16Lj1200)
  {
    Keys6F63ForwardShape();
    assert Display(Crc16Lj1200) == NameCrc16Lj1200;
    assert InitAlgorithm(16, RustCrc16Lj1200.init, RustCrc16Lj1200.refin) == RustCrc16Lj1200.init;
  }

  lemma Crc16M17Consistent()
    ensures Faithful(Crc16M17Params, RustCrc16M17)
  {
    Keys5935ForwardShape();
    assert Display(Crc16M17) == NameCrc16M17;
    assert InitAlgorithm(16, RustCrc16M17.init, RustCrc16M17.refin) == RustCrc16M17.init;
  }

  lemma Crc16MaximDowConsistent()
    ensures Faithful(Crc16MaximDowParams, RustCrc16MaximDow)
  {
    Keys8005ReflectedShape();
    assert Display(Crc16MaximDow) == NameCrc16MaximDow;
    assert InitAlgorithm(16, RustCrc16MaximDow.init, RustCrc16MaximDow.refin) == RustCrc16MaximDow.init;
  }

  lemma Crc16Mcrf4xxConsistent()
    ensures Faithful(Crc16Mcrf4xxParams, RustCrc16Mcrf4xx)
  {
    Keys1021ReverseShape();
    assert Display(Crc16Mcrf4xx) == NameCrc16Mcrf4xx;
    assert InitAlgorithm(16, RustCrc16Mcrf4xx.init, RustCrc16Mcrf4xx.refin) == RustCrc16Mcrf4xx.init;
  }

  lemma Crc16ModbusConsistent()
    ensures Faithful(Crc16ModbusParams, RustCrc16Modbus)
  {
    Keys8005ReflectedShape();
    assert Display(Crc16Modbus) == NameCrc16Modbus;
    assert InitAlgorithm(16, RustCrc16Modbus.init, RustCrc16Modbus.refin) == RustCrc16Modbus.init;
  }

  lemma Crc16Nrsc5Consistent()
    ensures Faithful(Crc16Nrsc5Params, RustCrc16Nrsc5)
  {
    Keys080BReflectedShape();
    assert Display(Crc16Nrsc5) == NameCrc16Nrsc5;
    assert InitAlgorithm(16, RustCrc16Nrsc5.init, RustCrc16Nrsc5.refin) == RustCrc16Nrsc5.init;
  }

  lemma Crc16OpensafetyAConsistent()
    ensures Faithful(Crc16OpensafetyAParams, RustCrc16OpensafetyA)
  {
    Keys5935ForwardShape();
    assert Display(Crc16OpensafetyA) == NameCrc16OpensafetyA;
    assert InitAlgorithm(16, RustCrc16OpensafetyA.init, RustCrc16OpensafetyA.refin) == RustCrc16OpensafetyA.init;
  }

  lemma Crc16OpensafetyBConsistent()
    ensures Faithful(Crc16OpensafetyBParams, RustCrc16OpensafetyB)
  {
    Keys755BForwardShape();
    assert Display(Crc16OpensafetyB) == NameCrc16OpensafetyB;
    assert InitAlgorithm(16, RustCrc16OpensafetyB.init, RustCrc16OpensafetyB.refin) == RustCrc16OpensafetyB.init;
  }

  lemma Crc16ProfibusConsistent()
    ensures Faithful(Crc16ProfibusParams, RustCrc16Profibus)
  {
    Keys1DCFForwardShape();
    assert Display(Crc16Profibus) == NameCrc16Profibus;
    assert InitAlgorithm(16, RustCrc16Profibus.init, RustCrc16Profibus.refin) == RustCrc16Profibus.init;
  }

  lemma Crc16RielloConsistent()
    ensures Faithful(Crc16RielloParams, RustCrc16Riello)
  {
    Keys1021ReverseShape();
    assert Display(Crc16Riello) == NameCrc16Riello;
    assert InitAlgorithm(16, RustCrc16Riello.init, RustCrc16Riello.refin) == 0x554D;
  }

  lemma Crc16SpiFujitsuConsistent()
    ensures Faithful(Crc16SpiFujitsuParams, RustCrc16SpiFujitsu)
  {
    Keys1021ForwardShape();
    assert Display(Crc16SpiFujitsu) == NameCrc16SpiFujitsu;
    assert InitAlgorithm(16, RustCrc16SpiFujitsu.init, RustCrc16SpiFujitsu.refin) == RustCrc16SpiFujitsu.init;
  }

  lemma Crc16T10DifConsistent()
    ensures Faithful(Crc16T10DifParams, RustCrc16T10Dif)
  {
    Keys8BB7ForwardShape();
    assert Display(Crc16T10Dif) == NameCrc16T10Dif;
    assert InitAlgorithm(16, RustCrc16T10Dif.init, RustCrc16T10Dif.refin) == RustCrc16T10Dif.init;
  }

  lemma Crc16TelediskConsistent()
    ensures Faithful(Crc16TelediskParams, RustCrc16Teledisk)
  {
    KeysA097ForwardShape();
    assert Display(Crc16Teledisk) == NameCrc16Teledisk;
    assert InitAlgorithm(16, RustCrc16Teledisk.init, RustCrc16Teledisk.refin) == RustCrc16Teledisk.init;
  }

  lemma Crc16Tms37157Consistent()
    ensures Faithful(Crc16Tms37157Params, RustCrc16Tms37157)
  {
    Keys1021ReverseShape();
    assert Display(Crc16Tms37157) == NameCrc16Tms37157;
    assert InitAlgorithm(16, RustCrc16Tms37157.init, RustCrc16Tms37157.refin) == 0x3791;
  }

  lemma Crc16UmtsConsistent()
    ensures Faithful(Crc16UmtsParams, RustCrc16Umts)
  {
    Keys8005ForwardShape();
    assert Display(Crc16Umts) == NameCrc16Umts;
    assert InitAlgorithm(16, RustCrc16Umts.init, RustCrc16Umts.refin) == RustCrc16Umts.init;
  }

  lemma Crc16UsbConsistent()
    ensures Faithful(Crc16UsbParams, RustCrc16Usb)
  {
    Keys8005ReflectedShape();
    assert Display(Crc16Usb) == NameCrc16Usb;
    assert InitAlgorithm(16, RustCrc16Usb.init, RustCrc16Usb.refin) == RustCrc16Usb.init;
  }

  lemma Crc16XmodemConsistent()
    ensures Faithful(Crc16XmodemParams, RustCrc16Xmodem)
  {
    Keys1021ForwardShape();
    assert Display(Crc16Xmodem) == NameCrc16Xmodem;
    assert InitAlgorithm(16, RustCrc16Xmodem.init, RustCrc16Xmodem.refin) == RustCrc16Xmodem.init;
  }

  /** Every `CRC16_*` record is well built and describes its catalogue algorithm. */
  lemma RecordsFaithful()
    ensures
      Faithful(Crc16ArcParams, RustCrc16Arc) &&
      Faithful(Crc16Cdma2000Params, RustCrc16Cdma2000) &&
      Faithful(Crc16CmsParams, RustCrc16Cms) &&
      Faithful(Crc16Dds110Params, RustCrc16Dds110) &&
      Faithful(Crc16DectRParams, RustCrc16DectR) &&
      Faithful(Crc16DectXParams, RustCrc16DectX) &&
      Faithful(Crc16DnpParams, RustCrc16Dnp) &&
      Faithful(Crc16En13757Params, RustCrc16En13757) &&
      Faithful(Crc16GenibusParams, RustCrc16Genibus) &&
      Faithful(Crc16GsmParams, RustCrc16Gsm) &&
      Faithful(Crc16Ibm3740Params, RustCrc16Ibm3740) &&
      Faithful(Crc16IbmSdlcParams, RustCrc16IbmSdlc) &&
      Faithful(Crc16IsoIec144433AParams, RustCrc16IsoIec144433A) &&
      Faithful(Crc16KermitParams, RustCrc16Kermit) &&
      Faithful(Crc16Lj1200Params, RustCrc16Lj1200) &&
      Faithful(Crc16M17Params, RustCrc16M17) &&
      Faithful(Crc16MaximDowParams, RustCrc16MaximDow) &&
      Faithful(Crc16Mcrf4xxParams, RustCrc16Mcrf4xx) &&
      Faithful(Crc16ModbusParams, RustCrc16Modbus) &&
      Faithful(Crc16Nrsc5Params, RustCrc16Nrsc5) &&
      Faithful(Crc16OpensafetyAParams, RustCrc16OpensafetyA) &&
      Faithful(Crc16OpensafetyBParams, RustCrc16OpensafetyB) &&
      Faithful(Crc16ProfibusParams, RustCrc16Profibus) &&
      Faithful(Crc16RielloParams, RustCrc16Riello) &&
      Faithful(Crc16SpiFujitsuParams, RustCrc16SpiFujitsu) &&
      Faithful(Crc16T10DifParams, RustCrc16T10Dif) &&
      Faithful(Crc16TelediskParams, RustCrc16Teledisk) &&
      Faithful(Crc16Tms37157Params, RustCrc16Tms37157) &&
      Faithful(Crc16UmtsParams, RustCrc16Umts) &&
      Faithful(Crc16UsbParams, RustCrc16Usb) &&
      Faithful(Crc16XmodemParams, RustCrc16Xmodem)
  {
    Crc16ArcConsistent();
    Crc16Cdma2000Consistent();
    Crc16CmsConsistent();
    Crc16Dds110Consistent();
    Crc16DectRConsistent();
    Crc16DectXConsistent();
    Crc16DnpConsistent();
    Crc16En13757Consistent();
    Crc16GenibusConsistent();
    Crc16GsmConsistent();
    Crc16Ibm3740Consistent();
    Crc16IbmSdlcConsistent();
    Crc16IsoIec144433AConsistent();
    Crc16KermitConsistent();
    Crc16Lj1200Consistent();
    Crc16M17Consistent();
    Crc16MaximDowConsistent();
    Crc16Mcrf4xxConsistent();
    Crc16ModbusConsistent();
    Crc16Nrsc5Consistent();
    Crc16OpensafetyAConsistent();
    Crc16OpensafetyBConsistent();
    Crc16ProfibusConsistent();
    Crc16RielloConsistent();
    Crc16SpiFujitsuConsistent();
    Crc16T10DifConsistent();
    Crc16TelediskConsistent();
    Crc16Tms37157Consistent();
    Crc16UmtsConsistent();
    Crc16UsbConsistent();
    Crc16XmodemConsistent();
  }
}
