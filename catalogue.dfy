// The catalogue algorithms of the `crc` crate that the software fallback runs
// (`RUST_CRC16_ARC` through `RUST_CRC64_XZ`), which catalogue selector names
// which of them at each width, and the proof that every recorded check value
// agrees with the parameters beside it.
module Catalogue {
  import opened Results
  import opened Rocksoft
  import opened Enums

  const RustCrc16Arc: Algorithm := Algorithm(W16, 0x8005, 0x0000, true, true, 0x0000, 0xBB3D, 0x0000)
  const RustCrc16Cdma2000: Algorithm := Algorithm(W16, 0xC867, 0xFFFF, false, false, 0x0000, 0x4C06, 0x0000)
  const RustCrc16Cms: Algorithm := Algorithm(W16, 0x8005, 0xFFFF, false, false, 0x0000, 0xAEE7, 0x0000)
  const RustCrc16Dds110: Algorithm := Algorithm(W16, 0x8005, 0x800D, false, false, 0x0000, 0x9ECF, 0x0000)
  const RustCrc16DectR: Algorithm := Algorithm(W16, 0x0589, 0x0000, false, false, 0x0001, 0x007E, 0x0589)
  const RustCrc16DectX: Algorithm := Algorithm(W16, 0x0589, 0x0000, false, false, 0x0000, 0x007F, 0x0000)
  const RustCrc16Dnp: Algorithm := Algorithm(W16, 0x3D65, 0x0000, true, true, 0xFFFF, 0xEA82, 0x66C5)
  const RustCrc16En13757: Algorithm := Algorithm(W16, 0x3D65, 0x0000, false, false, 0xFFFF, 0xC2B7, 0xA366)
  const RustCrc16Genibus: Algorithm := Algorithm(W16, 0x1021, 0xFFFF, false, false, 0xFFFF, 0xD64E, 0x1D0F)
  const RustCrc16Gsm: Algorithm := Algorithm(W16, 0x1021, 0x0000, false, false, 0xFFFF, 0xCE3C, 0x1D0F)
  const RustCrc16Ibm3740: Algorithm := Algorithm(W16, 0x1021, 0xFFFF, false, false, 0x0000, 0x29B1, 0x0000)
  const RustCrc16IbmSdlc: Algorithm := Algorithm(W16, 0x1021, 0xFFFF, true, true, 0xFFFF, 0x906E, 0xF0B8)
  const RustCrc16IsoIec144433A: Algorithm := Algorithm(W16, 0x1021, 0xC6C6, true, true, 0x0000, 0xBF05, 0x0000)
  const RustCrc16Kermit: Algorithm := Algorithm(W16, 0x1021, 0x0000, true, true, 0x0000, 0x2189, 0x0000)
  const RustCrc16Lj1200: Algorithm := Algorithm(W16, 0x6F63, 0x0000, false, false, 0x0000, 0xBDF4, 0x0000)
  const RustCrc16M17: Algorithm := Algorithm(W16, 0x5935, 0xFFFF, false, false, 0x0000, 0x772B, 0x0000)
  const RustCrc16MaximDow: Algorithm := Algorithm(W16, 0x8005, 0x0000, true, true, 0xFFFF, 0x44C2, 0xB001)
  const RustCrc16Mcrf4xx: Algorithm := Algorithm(W16, 0x1021, 0xFFFF, true, true, 0x0000, 0x6F91, 0x0000)
  const RustCrc16Modbus: Algorithm := Algorithm(W16, 0x8005, 0xFFFF, true, true, 0x0000, 0x4B37, 0x0000)
  const RustCrc16Nrsc5: Algorithm := Algorithm(W16, 0x080B, 0xFFFF, true, true, 0x0000, 0xA066, 0x0000)
  const RustCrc16OpensafetyA: Algorithm := Algorithm(W16, 0x5935, 0x0000, false, false, 0x0000, 0x5D38, 0x0000)
  const RustCrc16OpensafetyB: Algorithm := Algorithm(W16, 0x755B, 0x0000, false, false, 0x0000, 0x20FE, 0x0000)
  const RustCrc16Profibus: Algorithm := Algorithm(W16, 0x1DCF, 0xFFFF, false, false, 0xFFFF, 0xA819, 0xE394)
  const RustCrc16Riello: Algorithm := Algorithm(W16, 0x1021, 0xB2AA, true, true, 0x0000, 0x63D0, 0x0000)
  const RustCrc16SpiFujitsu: Algorithm := Algorithm(W16, 0x1021, 0x1D0F, false, false, 0x0000, 0xE5CC, 0x0000)
  const RustCrc16T10Dif: Algorithm := Algorithm(W16, 0x8BB7, 0x0000, false, false, 0x0000, 0xD0DB, 0x0000)
  const RustCrc16Teledisk: Algorithm := Algorithm(W16, 0xA097, 0x0000, false, false, 0x0000, 0x0FB3, 0x0000)
  const RustCrc16Tms37157: Algorithm := Algorithm(W16, 0x1021, 0x89EC, true, true, 0x0000, 0x26B1, 0x0000)
  const RustCrc16Umts: Algorithm := Algorithm(W16, 0x8005, 0x0000, false, false, 0x0000, 0xFEE8, 0x0000)
  const RustCrc16Usb: Algorithm := Algorithm(W16, 0x8005, 0xFFFF, true, true, 0xFFFF, 0xB4C8, 0xB001)
  const RustCrc16Xmodem: Algorithm := Algorithm(W16, 0x1021, 0x0000, false, false, 0x0000, 0x31C3, 0x0000)
  const RustCrc32Aixm: Algorithm := Algorithm(W32, 0x8141_41AB, 0x0000_0000, false, false, 0x0000_0000, 0x3010_BF7F, 0x0000_0000)
  const RustCrc32Autosar: Algorithm := Algorithm(W32, 0xF4AC_FB13, 0xFFFF_FFFF, true, true, 0xFFFF_FFFF, 0x1697_D06A, 0x904C_DDBF)
  const RustCrc32Base91D: Algorithm := Algorithm(W32, 0xA833_982B, 0xFFFF_FFFF, true, true, 0xFFFF_FFFF, 0x8731_5576, 0x4527_0551)
  const RustCrc32Bzip2: Algorithm := Algorithm(W32, 0x04C1_1DB7, 0xFFFF_FFFF, false, false, 0xFFFF_FFFF, 0xFC89_1918, 0xC704_DD7B)
  const RustCrc32CdRomEdc: Algorithm := Algorithm(W32, 0x8001_801B, 0x0000_0000, true, true, 0x0000_0000, 0x6EC2_EDC4, 0x0000_0000)
  const RustCrc32Cksum: Algorithm := Algorithm(W32, 0x04C1_1DB7, 0x0000_0000, false, false, 0xFFFF_FFFF, 0x765E_7680, 0xC704_DD7B)
  const RustCrc32Iscsi: Algorithm := Algorithm(W32, 0x1EDC_6F41, 0xFFFF_FFFF, true, true, 0xFFFF_FFFF, 0xE306_9283, 0xB798_B438)
  const RustCrc32IsoHdlc: Algorithm := Algorithm(W32, 0x04C1_1DB7, 0xFFFF_FFFF, true, true, 0xFFFF_FFFF, 0xCBF4_3926, 0xDEBB_20E3)
  const RustCrc32Jamcrc: Algorithm := Algorithm(W32, 0x04C1_1DB7, 0xFFFF_FFFF, true, true, 0x0000_0000, 0x340B_C6D9, 0x0000_0000)
  const RustCrc32Mef: Algorithm := Algorithm(W32, 0x741B_8CD7, 0xFFFF_FFFF, true, true, 0x0000_0000, 0xD2C2_2F51, 0x0000_0000)
  const RustCrc32Mpeg2: Algorithm := Algorithm(W32, 0x04C1_1DB7, 0xFFFF_FFFF, false, false, 0x0000_0000, 0x0376_E6E7, 0x0000_0000)
  const RustCrc32Xfer: Algorithm := Algorithm(W32, 0x0000_00AF, 0x0000_0000, false, false, 0x0000_0000, 0xBD0B_E338, 0x0000_0000)
  const RustCrc64GoIso: Algorithm := Algorithm(W64, 0x0000_0000_0000_001B, 0xFFFF_FFFF_FFFF_FFFF, true, true, 0xFFFF_FFFF_FFFF_FFFF, 0xB909_56C7_75A4_1001, 0x5300_0000_0000_0000)
  const RustCrc64Ms: Algorithm := Algorithm(W64, 0x259C_84CB_A642_6349, 0xFFFF_FFFF_FFFF_FFFF, true, true, 0x0000_0000_0000_0000, 0x75D4_B74F_024E_CEEA, 0x0000_0000_0000_0000)
  const RustCrc64Nvme: Algorithm := Algorithm(W64, 0xAD93_D235_94C9_3659, 0xFFFF_FFFF_FFFF_FFFF, true, true, 0xFFFF_FFFF_FFFF_FFFF, 0xAE8B_1486_0A79_9888, 0xF310_303B_2B6F_6E42)
  const RustCrc64Redis: Algorithm := Algorithm(W64, 0xAD93_D235_94C9_35A9, 0x0000_0000_0000_0000, true, true, 0x0000_0000_0000_0000, 0xE9C6_D914_C4B8_D9CA, 0x0000_0000_0000_0000)
  const RustCrc64Xz: Algorithm := Algorithm(W64, 0x42F0_E1EB_A9EA_3693, 0xFFFF_FFFF_FFFF_FFFF, true, true, 0xFFFF_FFFF_FFFF_FFFF, 0x995D_C9BB_DF19_39FA, 0x4995_8C9A_BD7D_353F)
  const RustCrc64Ecma182: Algorithm := Algorithm(W64, 0x42F0_E1EB_A9EA_3693, 0x0000_0000_0000_0000, false, false, 0x0000_0000_0000_0000, 0x6C40_DF5F_0B49_7347, 0x0000_0000_0000_0000)
  const RustCrc64We: Algorithm := Algorithm(W64, 0x42F0_E1EB_A9EA_3693, 0xFFFF_FFFF_FFFF_FFFF, false, false, 0xFFFF_FFFF_FFFF_FFFF, 0x62EC_59E3_F1A4_F00A, 0xFCAC_BEBD_5931_A992)

  /** The `u16` arm of `update`: the catalogue algorithm of a 16-bit selector. */
  function Named16(tag: CrcAlgorithm): (r: Option<Algorithm>)
    ensures r.Some? ==> r.value.width == W16 && !IsCustom(tag) && Fits(W16, r.value.init)
  {
    match tag
    case Crc16Arc => Some(RustCrc16Arc)
    case Crc16Cdma2000 => Some(RustCrc16Cdma2000)
    case Crc16Cms => Some(RustCrc16Cms)
    case Crc16Dds110 => Some(RustCrc16Dds110)
    case Crc16DectR => Some(RustCrc16DectR)
    case Crc16DectX => Some(RustCrc16DectX)
    case Crc16Dnp => Some(RustCrc16Dnp)
    case Crc16En13757 => Some(RustCrc16En13757)
    case Crc16Genibus => Some(RustCrc16Genibus)
    case Crc16Gsm => Some(RustCrc16Gsm)
    case Crc16Ibm3740 => Some(RustCrc16Ibm3740)
    case Crc16IbmSdlc => Some(RustCrc16IbmSdlc)
    case Crc16IsoIec144433A => Some(RustCrc16IsoIec144433A)
    case Crc16Kermit => Some(RustCrc16Kermit)
    case Crc16Lj1200 => Some(RustCrc16Lj1200)
    case Crc16M17 => Some(RustCrc16M17)
    case Crc16MaximDow => Some(RustCrc16MaximDow)
    case Crc16Mcrf4xx => Some(RustCrc16Mcrf4xx)
    case Crc16Modbus => Some(RustCrc16Modbus)
    case Crc16Nrsc5 => Some(RustCrc16Nrsc5)
    case Crc16OpensafetyA => Some(RustCrc16OpensafetyA)
    case Crc16OpensafetyB => Some(RustCrc16OpensafetyB)
    case Crc16Profibus => Some(RustCrc16Profibus)
    case Crc16Riello => Some(RustCrc16Riello)
    case Crc16SpiFujitsu => Some(RustCrc16SpiFujitsu)
    case Crc16T10Dif => Some(RustCrc16T10Dif)
    case Crc16Teledisk => Some(RustCrc16Teledisk)
    case Crc16Tms37157 => Some(RustCrc16Tms37157)
    case Crc16Umts => Some(RustCrc16Umts)
    case Crc16Usb => Some(RustCrc16Usb)
    case Crc16Xmodem => Some(RustCrc16Xmodem)
    case _ => None
  }

  /** The `u32` arm of `update`: the catalogue algorithm of a 32-bit selector. */
  function Named32(tag: CrcAlgorithm): (r: Option<Algorithm>)
    ensures r.Some? ==> r.value.width == W32 && !IsCustom(tag) && Fits(W32, r.value.init)
  {
    match tag
    case Crc32Aixm => Some(RustCrc32Aixm)
    case Crc32Autosar => Some(RustCrc32Autosar)
    case Crc32Base91D => Some(RustCrc32Base91D)
    case Crc32Bzip2 => Some(RustCrc32Bzip2)
    case Crc32CdRomEdc => Some(RustCrc32CdRomEdc)
    case Crc32Cksum => Some(RustCrc32Cksum)
    case Crc32Iscsi => Some(RustCrc32Iscsi)
    case Crc32IsoHdlc => Some(RustCrc32IsoHdlc)
    case Crc32Jamcrc => Some(RustCrc32Jamcrc)
    case Crc32Mef => Some(RustCrc32Mef)
    case Crc32Mpeg2 => Some(RustCrc32Mpeg2)
    case Crc32Xfer => Some(RustCrc32Xfer)
    case _ => None
  }

  /** The `u64` arm of `update`: the catalogue algorithm of a 64-bit selector. */
  function Named64(tag: CrcAlgorithm): (r: Option<Algorithm>)
    ensures r.Some? ==> r.value.width == W64 && !IsCustom(tag) && Fits(W64, r.value.init)
  {
    match tag
    case Crc64GoIso => Some(RustCrc64GoIso)
    case Crc64Ms => Some(RustCrc64Ms)
    case Crc64Nvme => Some(RustCrc64Nvme)
    case Crc64Redis => Some(RustCrc64Redis)
    case Crc64Xz => Some(RustCrc64Xz)
    case Crc64Ecma182 => Some(RustCrc64Ecma182)
    case Crc64We => Some(RustCrc64We)
    case _ => None
  }

  /** The catalogue algorithm a selector names in the arm of width `w`, if any. */
  function Named(w: Width, tag: CrcAlgorithm): (r: Option<Algorithm>)
    ensures r.Some? ==> r.value.width == w && !IsCustom(tag) && Fits(w, r.value.init)
  {
    match w
    case W16 => Named16(tag)
    case W32 => Named32(tag)
    case W64 => Named64(tag)
  }

  /** The prefix of the printed names of the `w`-bit catalogue algorithms. */
  function WidthPrefix(w: Width): string {
    match w
    case W16 => "CRC-16/"
    case W32 => "CRC-32/"
    case W64 => "CRC-64/"
  }

  /** Every catalogue selector is taken by the arm of one width or another. */
  lemma NamedSomewhere(tag: CrcAlgorithm) returns (v: Width)
    requires !IsCustom(tag)
    ensures Named(v, tag).Some?
  {
    v := if Named16(tag).Some? then W16 else if Named32(tag).Some? then W32 else W64;
  }

  /** The selector an arm takes prints the name of an algorithm of that arm's width. */
  lemma PrefixOfNamed(w: Width, tag: CrcAlgorithm)
    requires Named(w, tag).Some?
    ensures WidthPrefix(w) <= Display(tag)
  {
    match w
    case W16 => Named16Listed(tag); Listed16Prefix(tag);
    case W32 => Named32Listed(tag); Listed32Prefix(tag);
    case W64 => Named64Listed(tag); Listed64Prefix(tag);
  }

  /** The selectors the `u16` arm lists. */
  predicate Listed16(tag: CrcAlgorithm) {
    tag == Crc16Arc || tag == Crc16Cdma2000 || tag == Crc16Cms || tag == Crc16Dds110 ||
    tag == Crc16DectR || tag == Crc16DectX || tag == Crc16Dnp || tag == Crc16En13757 ||
    tag == Crc16Genibus || tag == Crc16Gsm || tag == Crc16Ibm3740 || tag == Crc16IbmSdlc ||
    tag == Crc16IsoIec144433A || tag == Crc16Kermit || tag == Crc16Lj1200 || tag == Crc16M17 ||
    tag == Crc16MaximDow || tag == Crc16Mcrf4xx || tag == Crc16Modbus || tag == Crc16Nrsc5 ||
    tag == Crc16OpensafetyA || tag == Crc16OpensafetyB || tag == Crc16Profibus ||
    tag == Crc16Riello || tag == Crc16SpiFujitsu || tag == Crc16T10Dif ||
    tag == Crc16Teledisk || tag == Crc16Tms37157 || tag == Crc16Umts || tag == Crc16Usb ||
    tag == Crc16Xmodem
  }

  lemma Named16Listed(tag: CrcAlgorithm)
    requires Named16(tag).Some?
    ensures Listed16(tag)
  {
  }

  lemma Listed16Prefix(tag: CrcAlgorithm)
    requires Listed16(tag)
    ensures WidthPrefix(W16) <= Display(tag)
  {
    match tag
    case Crc16Arc => PrintsCrc16Arc();
    case Crc16Cdma2000 => PrintsCrc16Cdma2000();
    case Crc16Cms => PrintsCrc16Cms();
    case Crc16Dds110 => PrintsCrc16Dds110();
    case Crc16DectR => PrintsCrc16DectR();
    case Crc16DectX => PrintsCrc16DectX();
    case Crc16Dnp => PrintsCrc16Dnp();
    case Crc16En13757 => PrintsCrc16En13757();
    case Crc16Genibus => PrintsCrc16Genibus();
    case Crc16Gsm => PrintsCrc16Gsm();
    case Crc16Ibm3740 => PrintsCrc16Ibm3740();
    case Crc16IbmSdlc => PrintsCrc16IbmSdlc();
    case Crc16IsoIec144433A => PrintsCrc16IsoIec144433A();
    case Crc16Kermit => PrintsCrc16Kermit();
    case Crc16Lj1200 => PrintsCrc16Lj1200();
    case Crc16M17 => PrintsCrc16M17();
    case Crc16MaximDow => PrintsCrc16MaximDow();
    case Crc16Mcrf4xx => PrintsCrc16Mcrf4xx();
    case Crc16Modbus => PrintsCrc16Modbus();
    case Crc16Nrsc5 => PrintsCrc16Nrsc5();
    case Crc16OpensafetyA => PrintsCrc16OpensafetyA();
    case Crc16OpensafetyB => PrintsCrc16OpensafetyB();
    case Crc16Profibus => PrintsCrc16Profibus();
    case Crc16Riello => PrintsCrc16Riello();
    case Crc16SpiFujitsu => PrintsCrc16SpiFujitsu();
    case Crc16T10Dif => PrintsCrc16T10Dif();
    case Crc16Teledisk => PrintsCrc16Teledisk();
    case Crc16Tms37157 => PrintsCrc16Tms37157();
    case Crc16Umts => PrintsCrc16Umts();
    case Crc16Usb => PrintsCrc16Usb();
    case Crc16Xmodem => PrintsCrc16Xmodem();
  }

  /** The selectors the `u32` arm lists. */
  predicate Listed32(tag: CrcAlgorithm) {
    tag == Crc32Aixm || tag == Crc32Autosar || tag == Crc32Base91D || tag == Crc32Bzip2 ||
    tag == Crc32CdRomEdc || tag == Crc32Cksum || tag == Crc32Iscsi || tag == Crc32IsoHdlc ||
    tag == Crc32Jamcrc || tag == Crc32Mef || tag == Crc32Mpeg2 || tag == Crc32Xfer
  }

  lemma Named32Listed(tag: CrcAlgorithm)
    requires Named32(tag).Some?
    ensures Listed32(tag)
  {
  }

  lemma Listed32Prefix(tag: CrcAlgorithm)
    requires Listed32(tag)
    ensures WidthPrefix(W32) <= Display(tag)
  {
    match tag
    case Crc32Aixm => PrintsCrc32Aixm();
    case Crc32Autosar => PrintsCrc32Autosar();
    case Crc32Base91D => PrintsCrc32Base91D();
    case Crc32Bzip2 => PrintsCrc32Bzip2();
    case Crc32CdRomEdc => PrintsCrc32CdRomEdc();
    case Crc32Cksum => PrintsCrc32Cksum();
    case Crc32Iscsi => PrintsCrc32Iscsi();
    case Crc32IsoHdlc => PrintsCrc32IsoHdlc();
    case Crc32Jamcrc => PrintsCrc32Jamcrc();
    case Crc32Mef => PrintsCrc32Mef();
    case Crc32Mpeg2 => PrintsCrc32Mpeg2();
    case Crc32Xfer => PrintsCrc32Xfer();
  }

  /** The selectors the `u64` arm lists. */
  predicate Listed64(tag: CrcAlgorithm) {
    tag == Crc64GoIso || tag == Crc64Ms || tag == Crc64Nvme || tag == Crc64Redis ||
    tag == Crc64Xz || tag == Crc64Ecma182 || tag == Crc64We
  }

  lemma Named64Listed(tag: CrcAlgorithm)
    requires Named64(tag).Some?
    ensures Listed64(tag)
  {
  }

  lemma Listed64Prefix(tag: CrcAlgorithm)
    requires Listed64(tag)
    ensures WidthPrefix(W64) <= Display(tag)
  {
    match tag
    case Crc64GoIso => PrintsCrc64GoIso();
    case Crc64Ms => PrintsCrc64Ms();
    case Crc64Nvme => PrintsCrc64Nvme();
    case Crc64Redis => PrintsCrc64Redis();
    case Crc64Xz => PrintsCrc64Xz();
    case Crc64Ecma182 => PrintsCrc64Ecma182();
    case Crc64We => PrintsCrc64We();
  }

  /** The printed name of each selector an arm lists. */
  lemma PrintsCrc16Arc() ensures WidthPrefix(W16) <= Display(Crc16Arc) {}
  lemma PrintsCrc16Cdma2000() ensures WidthPrefix(W16) <= Display(Crc16Cdma2000) {}
  lemma PrintsCrc16Cms() ensures WidthPrefix(W16) <= Display(Crc16Cms) {}
  lemma PrintsCrc16Dds110() ensures WidthPrefix(W16) <= Display(Crc16Dds110) {}
  lemma PrintsCrc16DectR() ensures WidthPrefix(W16) <= Display(Crc16DectR) {}
  lemma PrintsCrc16DectX() ensures WidthPrefix(W16) <= Display(Crc16DectX) {}
  lemma PrintsCrc16Dnp() ensures WidthPrefix(W16) <= Display(Crc16Dnp) {}
  lemma PrintsCrc16En13757() ensures WidthPrefix(W16) <= Display(Crc16En13757) {}
  lemma PrintsCrc16Genibus() ensures WidthPrefix(W16) <= Display(Crc16Genibus) {}
  lemma PrintsCrc16Gsm() ensures WidthPrefix(W16) <= Display(Crc16Gsm) {}
  lemma PrintsCrc16Ibm3740() ensures WidthPrefix(W16) <= Display(Crc16Ibm3740) {}
  lemma PrintsCrc16IbmSdlc() ensures WidthPrefix(W16) <= Display(Crc16IbmSdlc) {}
  lemma PrintsCrc16IsoIec144433A() ensures WidthPrefix(W16) <= Display(Crc16IsoIec144433A) {}
  lemma PrintsCrc16Kermit() ensures WidthPrefix(W16) <= Display(Crc16Kermit) {}
  lemma PrintsCrc16Lj1200() ensures WidthPrefix(W16) <= Display(Crc16Lj1200) {}
  lemma PrintsCrc16M17() ensures WidthPrefix(W16) <= Display(Crc16M17) {}
  lemma PrintsCrc16MaximDow() ensures WidthPrefix(W16) <= Display(Crc16MaximDow) {}
  lemma PrintsCrc16Mcrf4xx() ensures WidthPrefix(W16) <= Display(Crc16Mcrf4xx) {}
  lemma PrintsCrc16Modbus() ensures WidthPrefix(W16) <= Display(Crc16Modbus) {}
  lemma PrintsCrc16Nrsc5() ensures WidthPrefix(W16) <= Display(Crc16Nrsc5) {}
  lemma PrintsCrc16OpensafetyA() ensures WidthPrefix(W16) <= Display(Crc16OpensafetyA) {}
  lemma PrintsCrc16OpensafetyB() ensures WidthPrefix(W16) <= Display(Crc16OpensafetyB) {}
  lemma PrintsCrc16Profibus() ensures WidthPrefix(W16) <= Display(Crc16Profibus) {}
  lemma PrintsCrc16Riello() ensures WidthPrefix(W16) <= Display(Crc16Riello) {}
  lemma PrintsCrc16SpiFujitsu() ensures WidthPrefix(W16) <= Display(Crc16SpiFujitsu) {}
  lemma PrintsCrc16T10Dif() ensures WidthPrefix(W16) <= Display(Crc16T10Dif) {}
  lemma PrintsCrc16Teledisk() ensures WidthPrefix(W16) <= Display(Crc16Teledisk) {}
  lemma PrintsCrc16Tms37157() ensures WidthPrefix(W16) <= Display(Crc16Tms37157) {}
  lemma PrintsCrc16Umts() ensures WidthPrefix(W16) <= Display(Crc16Umts) {}
  lemma PrintsCrc16Usb() ensures WidthPrefix(W16) <= Display(Crc16Usb) {}
  lemma PrintsCrc16Xmodem() ensures WidthPrefix(W16) <= Display(Crc16Xmodem) {}
  lemma PrintsCrc32Aixm() ensures WidthPrefix(W32) <= Display(Crc32Aixm) {}
  lemma PrintsCrc32Autosar() ensures WidthPrefix(W32) <= Display(Crc32Autosar) {}
  lemma PrintsCrc32Base91D() ensures WidthPrefix(W32) <= Display(Crc32Base91D) {}
  lemma PrintsCrc32Bzip2() ensures WidthPrefix(W32) <= Display(Crc32Bzip2) {}
  lemma PrintsCrc32CdRomEdc() ensures WidthPrefix(W32) <= Display(Crc32CdRomEdc) {}
  lemma PrintsCrc32Cksum() ensures WidthPrefix(W32) <= Display(Crc32Cksum) {}
  lemma PrintsCrc32Iscsi() ensures WidthPrefix(W32) <= Display(Crc32Iscsi) {}
  lemma PrintsCrc32IsoHdlc() ensures WidthPrefix(W32) <= Display(Crc32IsoHdlc) {}
  lemma PrintsCrc32Jamcrc() ensures WidthPrefix(W32) <= Display(Crc32Jamcrc) {}
  lemma PrintsCrc32Mef() ensures WidthPrefix(W32) <= Display(Crc32Mef) {}
  lemma PrintsCrc32Mpeg2() ensures WidthPrefix(W32) <= Display(Crc32Mpeg2) {}
  lemma PrintsCrc32Xfer() ensures WidthPrefix(W32) <= Display(Crc32Xfer) {}
  lemma PrintsCrc64GoIso() ensures WidthPrefix(W64) <= Display(Crc64GoIso) {}
  lemma PrintsCrc64Ms() ensures WidthPrefix(W64) <= Display(Crc64Ms) {}
  lemma PrintsCrc64Nvme() ensures WidthPrefix(W64) <= Display(Crc64Nvme) {}
  lemma PrintsCrc64Redis() ensures WidthPrefix(W64) <= Display(Crc64Redis) {}
  lemma PrintsCrc64Xz() ensures WidthPrefix(W64) <= Display(Crc64Xz) {}
  lemma PrintsCrc64Ecma182() ensures WidthPrefix(W64) <= Display(Crc64Ecma182) {}
  lemma PrintsCrc64We() ensures WidthPrefix(W64) <= Display(Crc64We) {}

  /** The arm of width `w` accepts exactly the catalogue selectors whose printed name is that
    * of a `w`-bit algorithm: no selector is missing from its arm, and no arm takes a selector
    * of another width. */
  lemma NamedByPrefix(w: Width, tag: CrcAlgorithm)
    requires !IsCustom(tag)
    ensures Named(w, tag).Some? <==> WidthPrefix(w) <= Display(tag)
  {
    if Named(w, tag).Some? {
      PrefixOfNamed(w, tag);
    } else {
      var v := NamedSomewhere(tag);
      PrefixOfNamed(v, tag);
      assert WidthPrefix(w)[4] != WidthPrefix(v)[4];
    }
  }

  /** A catalogue entry whose recorded check value is that of its parameters,
    * and which reflects its output exactly when it reflects its input. */
  predicate Catalogued(a: Algorithm) {
    WellFormed(a) && a.refin == a.refout && Checksum(a, CheckInput) == a.check
  }

  lemma ChecksCrc16Arc() ensures Catalogued(RustCrc16Arc) {}
  lemma ChecksCrc16Cdma2000() ensures Catalogued(RustCrc16Cdma2000) {}
  lemma ChecksCrc16Cms() ensures Catalogued(RustCrc16Cms) {}
  lemma ChecksCrc16Dds110() ensures Catalogued(RustCrc16Dds110) {}
  lemma ChecksCrc16DectR() ensures Catalogued(RustCrc16DectR) {}
  lemma ChecksCrc16DectX() ensures Catalogued(RustCrc16DectX) {}
  lemma ChecksCrc16Dnp() ensures Catalogued(RustCrc16Dnp) {}
  lemma ChecksCrc16En13757() ensures Catalogued(RustCrc16En13757) {}
  lemma ChecksCrc16Genibus() ensures Catalogued(RustCrc16Genibus) {}
  lemma ChecksCrc16Gsm() ensures Catalogued(RustCrc16Gsm) {}
  lemma ChecksCrc16Ibm3740() ensures Catalogued(RustCrc16Ibm3740) {}
  lemma ChecksCrc16IbmSdlc() ensures Catalogued(RustCrc16IbmSdlc) {}
  lemma ChecksCrc16IsoIec144433A() ensures Catalogued(RustCrc16IsoIec144433A) {}
  lemma ChecksCrc16Kermit() ensures Catalogued(RustCrc16Kermit) {}
  lemma ChecksCrc16Lj1200() ensures Catalogued(RustCrc16Lj1200) {}
  lemma ChecksCrc16M17() ensures Catalogued(RustCrc16M17) {}
  lemma ChecksCrc16MaximDow() ensures Catalogued(RustCrc16MaximDow) {}
  lemma ChecksCrc16Mcrf4xx() ensures Catalogued(RustCrc16Mcrf4xx) {}
  lemma ChecksCrc16Modbus() ensures Catalogued(RustCrc16Modbus) {}
  lemma ChecksCrc16Nrsc5() ensures Catalogued(RustCrc16Nrsc5) {}
  lemma ChecksCrc16OpensafetyA() ensures Catalogued(RustCrc16OpensafetyA) {}
  lemma ChecksCrc16OpensafetyB() ensures Catalogued(RustCrc16OpensafetyB) {}
  lemma ChecksCrc16Profibus() ensures Catalogued(RustCrc16Profibus) {}
  lemma ChecksCrc16Riello() ensures Catalogued(RustCrc16Riello) {}
  lemma ChecksCrc16SpiFujitsu() ensures Catalogued(RustCrc16SpiFujitsu) {}
  lemma ChecksCrc16T10Dif() ensures Catalogued(RustCrc16T10Dif) {}
  lemma ChecksCrc16Teledisk() ensures Catalogued(RustCrc16Teledisk) {}
  lemma ChecksCrc16Tms37157() ensures Catalogued(RustCrc16Tms37157) {}
  lemma ChecksCrc16Umts() ensures Catalogued(RustCrc16Umts) {}
  lemma ChecksCrc16Usb() ensures Catalogued(RustCrc16Usb) {}
  lemma ChecksCrc16Xmodem() ensures Catalogued(RustCrc16Xmodem) {}
  lemma ChecksCrc32Aixm() ensures Catalogued(RustCrc32Aixm) {}
  lemma ChecksCrc32Autosar() ensures Catalogued(RustCrc32Autosar) {}
  lemma ChecksCrc32Base91D() ensures Catalogued(RustCrc32Base91D) {}
  lemma ChecksCrc32Bzip2() ensures Catalogued(RustCrc32Bzip2) {}
  lemma ChecksCrc32CdRomEdc() ensures Catalogued(RustCrc32CdRomEdc) {}
  lemma ChecksCrc32Cksum() ensures Catalogued(RustCrc32Cksum) {}
  lemma ChecksCrc32Iscsi() ensures Catalogued(RustCrc32Iscsi) {}
  lemma ChecksCrc32IsoHdlc() ensures Catalogued(RustCrc32IsoHdlc) {}
  lemma ChecksCrc32Jamcrc() ensures Catalogued(RustCrc32Jamcrc) {}
  lemma ChecksCrc32Mef() ensures Catalogued(RustCrc32Mef) {}
  lemma ChecksCrc32Mpeg2() ensures Catalogued(RustCrc32Mpeg2) {}
  lemma ChecksCrc32Xfer() ensures Catalogued(RustCrc32Xfer) {}
  lemma ChecksCrc64GoIso() ensures Catalogued(RustCrc64GoIso) {}
  lemma ChecksCrc64Ms() ensures Catalogued(RustCrc64Ms) {}
  lemma ChecksCrc64Nvme() ensures Catalogued(RustCrc64Nvme) {}
  lemma ChecksCrc64Redis() ensures Catalogued(RustCrc64Redis) {}
  lemma ChecksCrc64Xz() ensures Catalogued(RustCrc64Xz) {}
  lemma ChecksCrc64Ecma182() ensures Catalogued(RustCrc64Ecma182) {}
  lemma ChecksCrc64We() ensures Catalogued(RustCrc64We) {}
}
