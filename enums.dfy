// The algorithm selector (`CrcAlgorithm`), its conversions to and from the
// catalogue names, and the length classes of the short-input paths.
module Enums {
  import opened Consts
  import opened Results

  /** `CrcAlgorithm`: one variant per catalogue algorithm, plus the three custom selectors. */
  datatype CrcAlgorithm =
      Crc16Arc
    | Crc16Cdma2000
    | Crc16Cms
    | Crc16Dds110
    | Crc16DectR
    | Crc16DectX
    | Crc16Dnp
    | Crc16En13757
    | Crc16Genibus
    | Crc16Gsm
    | Crc16Ibm3740
    | Crc16IbmSdlc
    | Crc16IsoIec144433A
    | Crc16Kermit
    | Crc16Lj1200
    | Crc16M17
    | Crc16MaximDow
    | Crc16Mcrf4xx
    | Crc16Modbus
    | Crc16Nrsc5
    | Crc16OpensafetyA
    | Crc16OpensafetyB
    | Crc16Profibus
    | Crc16Riello
    | Crc16SpiFujitsu
    | Crc16T10Dif
    | Crc16Teledisk
    | Crc16Tms37157
    | Crc16Umts
    | Crc16Usb
    | Crc16Xmodem
    | Crc32Aixm
    | Crc32Autosar
    | Crc32Base91D
    | Crc32Bzip2
    | Crc32CdRomEdc
    | Crc32Cksum
    | Crc32Custom
    | Crc32Iscsi
    | Crc32IsoHdlc
    | Crc32Jamcrc
    | Crc32Mef
    | Crc32Mpeg2
    | Crc32Xfer
    | CrcCustom
    | Crc64Custom
    | Crc64GoIso
    | Crc64Ms
    | Crc64Nvme
    | Crc64Redis
    | Crc64Xz
    | Crc64Ecma182
    | Crc64We

  /** The variants that stand for caller-supplied parameters rather than a catalogue entry. */
  predicate IsCustom(a: CrcAlgorithm) {
    a == Crc32Custom || a == CrcCustom || a == Crc64Custom
  }

  /** `CrcAlgorithm::from_str`: the variant whose catalogue name is `s`; `None` is `Err(())`. */
  function FromStr(s: string): (r: Option<CrcAlgorithm>)
    ensures r.Some? ==> !IsCustom(r.value)
  {
    if s == NameCrc16Arc then Some(Crc16Arc)
    else if s == NameCrc16Cdma2000 then Some(Crc16Cdma2000)
    else if s == NameCrc16Cms then Some(Crc16Cms)
    else if s == NameCrc16Dds110 then Some(Crc16Dds110)
    else if s == NameCrc16DectR then Some(Crc16DectR)
    else if s == NameCrc16DectX then Some(Crc16DectX)
    else if s == NameCrc16Dnp then Some(Crc16Dnp)
    else if s == NameCrc16En13757 then Some(Crc16En13757)
    else if s == NameCrc16Genibus then Some(Crc16Genibus)
    else if s == NameCrc16Gsm then Some(Crc16Gsm)
    else if s == NameCrc16Ibm3740 then Some(Crc16Ibm3740)
    else if s == NameCrc16IbmSdlc then Some(Crc16IbmSdlc)
    else if s == NameCrc16IsoIec144433A then Some(Crc16IsoIec144433A)
    else if s == NameCrc16Kermit then Some(Crc16Kermit)
    else if s == NameCrc16Lj1200 then Some(Crc16Lj1200)
    else if s == NameCrc16M17 then Some(Crc16M17)
    else if s == NameCrc16MaximDow then Some(Crc16MaximDow)
    else if s == NameCrc16Mcrf4xx then Some(Crc16Mcrf4xx)
    else if s == NameCrc16Modbus then Some(Crc16Modbus)
    else if s == NameCrc16Nrsc5 then Some(Crc16Nrsc5)
    else if s == NameCrc16OpensafetyA then Some(Crc16OpensafetyA)
    else if s == NameCrc16OpensafetyB then Some(Crc16OpensafetyB)
    else if s == NameCrc16Profibus then Some(Crc16Profibus)
    else if s == NameCrc16Riello then Some(Crc16Riello)
    else if s == NameCrc16SpiFujitsu then Some(Crc16SpiFujitsu)
    else if s == NameCrc16T10Dif then Some(Crc16T10Dif)
    else if s == NameCrc16Teledisk then Some(Crc16Teledisk)
    else if s == NameCrc16Tms37157 then Some(Crc16Tms37157)
    else if s == NameCrc16Umts then Some(Crc16Umts)
    else if s == NameCrc16Usb then Some(Crc16Usb)
    else if s == NameCrc16Xmodem then Some(Crc16Xmodem)
    else if s == NameCrc32Aixm then Some(Crc32Aixm)
    else if s == NameCrc32Autosar then Some(Crc32Autosar)
    else if s == NameCrc32Base91D then Some(Crc32Base91D)
    else if s == NameCrc32Bzip2 then Some(Crc32Bzip2)
    else if s == NameCrc32CdRomEdc then Some(Crc32CdRomEdc)
    else if s == NameCrc32Cksum then Some(Crc32Cksum)
    else if s == NameCrc32Iscsi then Some(Crc32Iscsi)
    else if s == NameCrc32IsoHdlc then Some(Crc32IsoHdlc)
    else if s == NameCrc32Jamcrc then Some(Crc32Jamcrc)
    else if s == NameCrc32Mef then Some(Crc32Mef)
    else if s == NameCrc32Mpeg2 then Some(Crc32Mpeg2)
    else if s == NameCrc32Xfer then Some(Crc32Xfer)
    else if s == NameCrc64GoIso then Some(Crc64GoIso)
    else if s == NameCrc64Ms then Some(Crc64Ms)
    else if s == NameCrc64Nvme then Some(Crc64Nvme)
    else if s == NameCrc64Redis then Some(Crc64Redis)
    else if s == NameCrc64Xz then Some(Crc64Xz)
    else if s == NameCrc64Ecma182 then Some(Crc64Ecma182)
    else if s == NameCrc64We then Some(Crc64We)
    else None
  }

  /** `Display for CrcAlgorithm`: the text the variant prints. */
  function Display(a: CrcAlgorithm): string {
    match a
    case Crc16Arc => NameCrc16Arc
    case Crc16Cdma2000 => NameCrc16Cdma2000
    case Crc16Cms => NameCrc16Cms
    case Crc16Dds110 => NameCrc16Dds110
    case Crc16DectR => NameCrc16DectR
    case Crc16DectX => NameCrc16DectX
    case Crc16Dnp => NameCrc16Dnp
    case Crc16En13757 => NameCrc16En13757
    case Crc16Genibus => NameCrc16Genibus
    case Crc16Gsm => NameCrc16Gsm
    case Crc16Ibm3740 => NameCrc16Ibm3740
    case Crc16IbmSdlc => NameCrc16IbmSdlc
    case Crc16IsoIec144433A => NameCrc16IsoIec144433A
    case Crc16Kermit => NameCrc16Kermit
    case Crc16Lj1200 => NameCrc16Lj1200
    case Crc16M17 => NameCrc16M17
    case Crc16MaximDow => NameCrc16MaximDow
    case Crc16Mcrf4xx => NameCrc16Mcrf4xx
    case Crc16Modbus => NameCrc16Modbus
    case Crc16Nrsc5 => NameCrc16Nrsc5
    case Crc16OpensafetyA => NameCrc16OpensafetyA
    case Crc16OpensafetyB => NameCrc16OpensafetyB
    case Crc16Profibus => NameCrc16Profibus
    case Crc16Riello => NameCrc16Riello
    case Crc16SpiFujitsu => NameCrc16SpiFujitsu
    case Crc16T10Dif => NameCrc16T10Dif
    case Crc16Teledisk => NameCrc16Teledisk
    case Crc16Tms37157 => NameCrc16Tms37157
    case Crc16Umts => NameCrc16Umts
    case Crc16Usb => NameCrc16Usb
    case Crc16Xmodem => NameCrc16Xmodem
    case Crc32Aixm => NameCrc32Aixm
    case Crc32Autosar => NameCrc32Autosar
    case Crc32Base91D => NameCrc32Base91D
    case Crc32Bzip2 => NameCrc32Bzip2
    case Crc32CdRomEdc => NameCrc32CdRomEdc
    case Crc32Cksum => NameCrc32Cksum
    case Crc32Custom => "CRC-32/CUSTOM"
    case Crc32Iscsi => NameCrc32Iscsi
    case Crc32IsoHdlc => NameCrc32IsoHdlc
    case Crc32Jamcrc => NameCrc32Jamcrc
    case Crc32Mef => NameCrc32Mef
    case Crc32Mpeg2 => NameCrc32Mpeg2
    case Crc32Xfer => NameCrc32Xfer
    case CrcCustom => "CRC/CUSTOM"
    case Crc64Custom => "CRC-64/CUSTOM"
    case Crc64GoIso => NameCrc64GoIso
    case Crc64Ms => NameCrc64Ms
    case Crc64Nvme => NameCrc64Nvme
    case Crc64Redis => NameCrc64Redis
    case Crc64Xz => NameCrc64Xz
    case Crc64Ecma182 => NameCrc64Ecma182
    case Crc64We => NameCrc64We
  }

  /** Parsing inverts printing on every catalogue variant. */
  lemma FromStrDisplay(a: CrcAlgorithm)
    requires !IsCustom(a)
    ensures FromStr(Display(a)) == Some(a)
  {
    match a
    case Crc16Arc => ParsesCrc16Arc();
    case Crc16Cdma2000 => ParsesCrc16Cdma2000();
    case Crc16Cms => ParsesCrc16Cms();
    case Crc16Dds110 => ParsesCrc16Dds110();
    case Crc16DectR => ParsesCrc16DectR();
    case Crc16DectX => ParsesCrc16DectX();
    case Crc16Dnp => ParsesCrc16Dnp();
    case Crc16En13757 => ParsesCrc16En13757();
    case Crc16Genibus => ParsesCrc16Genibus();
    case Crc16Gsm => ParsesCrc16Gsm();
    case Crc16Ibm3740 => ParsesCrc16Ibm3740();
    case Crc16IbmSdlc => ParsesCrc16IbmSdlc();
    case Crc16IsoIec144433A => ParsesCrc16IsoIec144433A();
    case Crc16Kermit => ParsesCrc16Kermit();
    case Crc16Lj1200 => ParsesCrc16Lj1200();
    case Crc16M17 => ParsesCrc16M17();
    case Crc16MaximDow => ParsesCrc16MaximDow();
    case Crc16Mcrf4xx => ParsesCrc16Mcrf4xx();
    case Crc16Modbus => ParsesCrc16Modbus();
    case Crc16Nrsc5 => ParsesCrc16Nrsc5();
    case Crc16OpensafetyA => ParsesCrc16OpensafetyA();
    case Crc16OpensafetyB => ParsesCrc16OpensafetyB();
    case Crc16Profibus => ParsesCrc16Profibus();
    case Crc16Riello => ParsesCrc16Riello();
    case Crc16SpiFujitsu => ParsesCrc16SpiFujitsu();
    case Crc16T10Dif => ParsesCrc16T10Dif();
    case Crc16Teledisk => ParsesCrc16Teledisk();
    case Crc16Tms37157 => ParsesCrc16Tms37157();
    case Crc16Umts => ParsesCrc16Umts();
    case Crc16Usb => ParsesCrc16Usb();
    case Crc16Xmodem => ParsesCrc16Xmodem();
    case Crc32Aixm => ParsesCrc32Aixm();
    case Crc32Autosar => ParsesCrc32Autosar();
    case Crc32Base91D => ParsesCrc32Base91D();
    case Crc32Bzip2 => ParsesCrc32Bzip2();
    case Crc32CdRomEdc => ParsesCrc32CdRomEdc();
    case Crc32Cksum => ParsesCrc32Cksum();
    case Crc32Iscsi => ParsesCrc32Iscsi();
    case Crc32IsoHdlc => ParsesCrc32IsoHdlc();
    case Crc32Jamcrc => ParsesCrc32Jamcrc();
    case Crc32Mef => ParsesCrc32Mef();
    case Crc32Mpeg2 => ParsesCrc32Mpeg2();
    case Crc32Xfer => ParsesCrc32Xfer();
    case Crc64GoIso => ParsesCrc64GoIso();
    case Crc64Ms => ParsesCrc64Ms();
    case Crc64Nvme => ParsesCrc64Nvme();
    case Crc64Redis => ParsesCrc64Redis();
    case Crc64Xz => ParsesCrc64Xz();
    case Crc64Ecma182 => ParsesCrc64Ecma182();
    case Crc64We => ParsesCrc64We();
  }

  /** Printing inverts parsing: whatever `s` parses to prints as `s`, and is never custom. */
  lemma DisplayFromStr(s: string)
    requires FromStr(s).Some?
    ensures Display(FromStr(s).value) == s
    ensures !IsCustom(FromStr(s).value)
  {
    match FromStr(s).value
    case Crc16Arc => ArmCrc16Arc(s);
    case Crc16Cdma2000 => ArmCrc16Cdma2000(s);
    case Crc16Cms => ArmCrc16Cms(s);
    case Crc16Dds110 => ArmCrc16Dds110(s);
    case Crc16DectR => ArmCrc16DectR(s);
    case Crc16DectX => ArmCrc16DectX(s);
    case Crc16Dnp => ArmCrc16Dnp(s);
    case Crc16En13757 => ArmCrc16En13757(s);
    case Crc16Genibus => ArmCrc16Genibus(s);
    case Crc16Gsm => ArmCrc16Gsm(s);
    case Crc16Ibm3740 => ArmCrc16Ibm3740(s);
    case Crc16IbmSdlc => ArmCrc16IbmSdlc(s);
    case Crc16IsoIec144433A => ArmCrc16IsoIec144433A(s);
    case Crc16Kermit => ArmCrc16Kermit(s);
    case Crc16Lj1200 => ArmCrc16Lj1200(s);
    case Crc16M17 => ArmCrc16M17(s);
    case Crc16MaximDow => ArmCrc16MaximDow(s);
    case Crc16Mcrf4xx => ArmCrc16Mcrf4xx(s);
    case Crc16Modbus => ArmCrc16Modbus(s);
    case Crc16Nrsc5 => ArmCrc16Nrsc5(s);
    case Crc16OpensafetyA => ArmCrc16OpensafetyA(s);
    case Crc16OpensafetyB => ArmCrc16OpensafetyB(s);
    case Crc16Profibus => ArmCrc16Profibus(s);
    case Crc16Riello => ArmCrc16Riello(s);
    case Crc16SpiFujitsu => ArmCrc16SpiFujitsu(s);
    case Crc16T10Dif => ArmCrc16T10Dif(s);
    case Crc16Teledisk => ArmCrc16Teledisk(s);
    case Crc16Tms37157 => ArmCrc16Tms37157(s);
    case Crc16Umts => ArmCrc16Umts(s);
    case Crc16Usb => ArmCrc16Usb(s);
    case Crc16Xmodem => ArmCrc16Xmodem(s);
    case Crc32Aixm => ArmCrc32Aixm(s);
    case Crc32Autosar => ArmCrc32Autosar(s);
    case Crc32Base91D => ArmCrc32Base91D(s);
    case Crc32Bzip2 => ArmCrc32Bzip2(s);
    case Crc32CdRomEdc => ArmCrc32CdRomEdc(s);
    case Crc32Cksum => ArmCrc32Cksum(s);
    case Crc32Iscsi => ArmCrc32Iscsi(s);
    case Crc32IsoHdlc => ArmCrc32IsoHdlc(s);
    case Crc32Jamcrc => ArmCrc32Jamcrc(s);
    case Crc32Mef => ArmCrc32Mef(s);
    case Crc32Mpeg2 => ArmCrc32Mpeg2(s);
    case Crc32Xfer => ArmCrc32Xfer(s);
    case Crc64GoIso => ArmCrc64GoIso(s);
    case Crc64Ms => ArmCrc64Ms(s);
    case Crc64Nvme => ArmCrc64Nvme(s);
    case Crc64Redis => ArmCrc64Redis(s);
    case Crc64Xz => ArmCrc64Xz(s);
    case Crc64Ecma182 => ArmCrc64Ecma182(s);
    case Crc64We => ArmCrc64We(s);
  }

  /** A string is rejected exactly when no catalogue variant prints as it. */
  lemma FromStrRejects(s: string)
    ensures FromStr(s) == None <==> forall a :: !IsCustom(a) ==> Display(a) != s
  {
    if FromStr(s) == None {
      forall a | !IsCustom(a) ensures Display(a) != s {
        FromStrDisplay(a);
      }
    } else {
      DisplayFromStr(s);
    }
  }

  /** The names printed for the custom selectors are not parsed back. */
  lemma CustomNamesRejected(a: CrcAlgorithm)
    requires IsCustom(a)
    ensures FromStr(Display(a)) == None
  {
    match a
    case Crc32Custom => RejectsCrc32Custom();
    case CrcCustom => RejectsCrcCustom();
    case Crc64Custom => RejectsCrc64Custom();
  }

  /** The CRC-16/X-25 name is defined but not recognised by `from_str`. */
  lemma X25NotRecognised()
    ensures FromStr(NameCrc16X25) == None
  {
    assert NameCrc16X25[8] == '-';
  }

  /** No two variants print the same text. */
  lemma DisplayInjective(a: CrcAlgorithm, b: CrcAlgorithm)
    requires Display(a) == Display(b)
    ensures a == b
  {
    if !IsCustom(a) && !IsCustom(b) {
      NamedDisplayInjective(a, b);
    } else if !IsCustom(a) {
      CustomDisplayDistinct(a, b);
    } else if !IsCustom(b) {
      CustomDisplayDistinct(b, a);
    } else {
      CustomDisplayInjective(a, b);
    }
  }

  lemma NamedDisplayInjective(a: CrcAlgorithm, b: CrcAlgorithm)
    requires !IsCustom(a) && !IsCustom(b) && Display(a) == Display(b)
    ensures a == b
  {
    FromStrDisplay(a);
    FromStrDisplay(b);
  }

  /** A custom selector never prints as a catalogue variant does. */
  lemma CustomDisplayDistinct(a: CrcAlgorithm, b: CrcAlgorithm)
    requires !IsCustom(a) && IsCustom(b)
    ensures Display(a) != Display(b)
  {
    FromStrDisplay(a);
    CustomNamesRejected(b);
  }

  lemma CustomDisplayInjective(a: CrcAlgorithm, b: CrcAlgorithm)
    requires IsCustom(a) && IsCustom(b) && Display(a) == Display(b)
    ensures a == b
  {
  }

  /** `DataChunkProcessor`: the strategy chosen for a short input. */
  datatype DataChunkProcessor = From0To15 | From16 | From17To31 | From32To255

  /** The lengths a strategy is written for: `Lo(p) <= len <= Hi(p)`. */
  function Lo(p: DataChunkProcessor): nat {
    match p
    case From0To15 => 0
    case From16 => 16
    case From17To31 => 17
    case From32To255 => 32
  }

  function Hi(p: DataChunkProcessor): nat {
    match p
    case From0To15 => 15
    case From16 => 16
    case From17To31 => 31
    case From32To255 => 255
  }

  /** `DataChunkProcessor::for_length`; lengths above 255 panic. */
  function ForLength(len: nat): Result<DataChunkProcessor> {
    if len <= 15 then Ok(From0To15)
    else if len == 16 then Ok(From16)
    else if len <= 31 then Ok(From17To31)
    else if len <= 255 then Ok(From32To255)
    else Panic("data length too large")
  }

  /** The strategy chosen is the one whose range holds the length, and every length up
    * to 255 has one. */
  lemma ForLengthRange(len: nat, p: DataChunkProcessor)
    ensures ForLength(len) == Ok(p) <==> Lo(p) <= len <= Hi(p)
    ensures ForLength(len).Panic? <==> len > 255
  {
  }

  /** The ranges are disjoint and ordered: a longer input never gets an earlier strategy. */
  lemma ForLengthMonotone(m: nat, n: nat)
    requires m <= n <= 255
    ensures ForLength(m).Ok? && ForLength(n).Ok?
    ensures Hi(ForLength(m).value) <= Hi(ForLength(n).value)
  {
  }

  // One parse per name: the chain of comparisons in `FromStr` is checked name by name.

  lemma ParsesCrc16Arc() ensures FromStr(NameCrc16Arc) == Some(Crc16Arc) {}
  lemma ParsesCrc16Cdma2000() ensures FromStr(NameCrc16Cdma2000) == Some(Crc16Cdma2000) {}
  lemma ParsesCrc16Cms() ensures FromStr(NameCrc16Cms) == Some(Crc16Cms) {}
  lemma ParsesCrc16Dds110() ensures FromStr(NameCrc16Dds110) == Some(Crc16Dds110) {}
  lemma ParsesCrc16DectR() ensures FromStr(NameCrc16DectR) == Some(Crc16DectR) {}
  lemma ParsesCrc16DectX() ensures FromStr(NameCrc16DectX) == Some(Crc16DectX) {}
  lemma ParsesCrc16Dnp() ensures FromStr(NameCrc16Dnp) == Some(Crc16Dnp) {}
  lemma ParsesCrc16En13757() ensures FromStr(NameCrc16En13757) == Some(Crc16En13757) {}
  lemma ParsesCrc16Genibus() ensures FromStr(NameCrc16Genibus) == Some(Crc16Genibus) {}
  lemma ParsesCrc16Gsm() ensures FromStr(NameCrc16Gsm) == Some(Crc16Gsm) {}
  lemma ParsesCrc16Ibm3740() ensures FromStr(NameCrc16Ibm3740) == Some(Crc16Ibm3740) {}
  lemma ParsesCrc16IbmSdlc() ensures FromStr(NameCrc16IbmSdlc) == Some(Crc16IbmSdlc) {}
  lemma ParsesCrc16IsoIec144433A() ensures FromStr(NameCrc16IsoIec144433A) == Some(Crc16IsoIec144433A) {}
  lemma ParsesCrc16Kermit() ensures FromStr(NameCrc16Kermit) == Some(Crc16Kermit) {}
  lemma ParsesCrc16Lj1200() ensures FromStr(NameCrc16Lj1200) == Some(Crc16Lj1200) {}
  lemma ParsesCrc16M17() ensures FromStr(NameCrc16M17) == Some(Crc16M17) {}
  lemma ParsesCrc16MaximDow() ensures FromStr(NameCrc16MaximDow) == Some(Crc16MaximDow) {}
  lemma ParsesCrc16Mcrf4xx() ensures FromStr(NameCrc16Mcrf4xx) == Some(Crc16Mcrf4xx) {}
  lemma ParsesCrc16Modbus() ensures FromStr(NameCrc16Modbus) == Some(Crc16Modbus) {}
  lemma ParsesCrc16Nrsc5() ensures FromStr(NameCrc16Nrsc5) == Some(Crc16Nrsc5) {}
  lemma ParsesCrc16OpensafetyA() ensures FromStr(NameCrc16OpensafetyA) == Some(Crc16OpensafetyA) {}
  lemma ParsesCrc16OpensafetyB() ensures FromStr(NameCrc16OpensafetyB) == Some(Crc16OpensafetyB) {}
  lemma ParsesCrc16Profibus() ensures FromStr(NameCrc16Profibus) == Some(Crc16Profibus) {}
  lemma ParsesCrc16Riello() ensures FromStr(NameCrc16Riello) == Some(Crc16Riello) {}
  lemma ParsesCrc16SpiFujitsu() ensures FromStr(NameCrc16SpiFujitsu) == Some(Crc16SpiFujitsu) {}
  lemma ParsesCrc16T10Dif() ensures FromStr(NameCrc16T10Dif) == Some(Crc16T10Dif) {}
  lemma ParsesCrc16Teledisk() ensures FromStr(NameCrc16Teledisk) == Some(Crc16Teledisk) {}
  lemma ParsesCrc16Tms37157() ensures FromStr(NameCrc16Tms37157) == Some(Crc16Tms37157) {}
  lemma ParsesCrc16Umts() ensures FromStr(NameCrc16Umts) == Some(Crc16Umts) {}
  lemma ParsesCrc16Usb() ensures FromStr(NameCrc16Usb) == Some(Crc16Usb) {}
  lemma ParsesCrc16Xmodem() ensures FromStr(NameCrc16Xmodem) == Some(Crc16Xmodem) {}
  lemma ParsesCrc32Aixm() ensures FromStr(NameCrc32Aixm) == Some(Crc32Aixm) {}
  lemma ParsesCrc32Autosar() ensures FromStr(NameCrc32Autosar) == Some(Crc32Autosar) {}
  lemma ParsesCrc32Base91D() ensures FromStr(NameCrc32Base91D) == Some(Crc32Base91D) {}
  lemma ParsesCrc32Bzip2() ensures FromStr(NameCrc32Bzip2) == Some(Crc32Bzip2) {}
  lemma ParsesCrc32CdRomEdc() ensures FromStr(NameCrc32CdRomEdc) == Some(Crc32CdRomEdc) {}
  lemma ParsesCrc32Cksum() ensures FromStr(NameCrc32Cksum) == Some(Crc32Cksum) {}
  lemma ParsesCrc32Iscsi() ensures FromStr(NameCrc32Iscsi) == Some(Crc32Iscsi) {}
  lemma ParsesCrc32IsoHdlc() ensures FromStr(NameCrc32IsoHdlc) == Some(Crc32IsoHdlc) {}
  lemma ParsesCrc32Jamcrc() ensures FromStr(NameCrc32Jamcrc) == Some(Crc32Jamcrc) {}
  lemma ParsesCrc32Mef() ensures FromStr(NameCrc32Mef) == Some(Crc32Mef) {}
  lemma ParsesCrc32Mpeg2() ensures FromStr(NameCrc32Mpeg2) == Some(Crc32Mpeg2) {}
  lemma ParsesCrc32Xfer() ensures FromStr(NameCrc32Xfer) == Some(Crc32Xfer) {}
  lemma ParsesCrc64GoIso() ensures FromStr(NameCrc64GoIso) == Some(Crc64GoIso) {}
  lemma ParsesCrc64Ms() ensures FromStr(NameCrc64Ms) == Some(Crc64Ms) {}
  lemma ParsesCrc64Nvme() ensures FromStr(NameCrc64Nvme) == Some(Crc64Nvme) {}
  lemma ParsesCrc64Redis() ensures FromStr(NameCrc64Redis) == Some(Crc64Redis) {}
  lemma ParsesCrc64Xz() ensures FromStr(NameCrc64Xz) == Some(Crc64Xz) {}
  lemma ParsesCrc64Ecma182() ensures FromStr(NameCrc64Ecma182) == Some(Crc64Ecma182) {}
  lemma ParsesCrc64We() ensures FromStr(NameCrc64We) == Some(Crc64We) {}

  // Each custom name differs from every catalogue name of its length at the
  // character checked below.

  lemma RejectsCrc32Custom() ensures FromStr(Display(Crc32Custom)) == None {
    assert Display(Crc32Custom)[7] == 'C';
  }
  lemma RejectsCrcCustom() ensures FromStr(Display(CrcCustom)) == None {
    assert Display(CrcCustom)[3] == '/';
  }
  lemma RejectsCrc64Custom() ensures FromStr(Display(Crc64Custom)) == None {
    assert Display(Crc64Custom)[7] == 'C';
  }

  // One arm per name: each parsed variant came from its own comparison.


  lemma ArmCrc16Arc(s: string) requires FromStr(s) == Some(Crc16Arc) ensures s == NameCrc16Arc {}
  lemma ArmCrc16Cdma2000(s: string) requires FromStr(s) == Some(Crc16Cdma2000) ensures s == NameCrc16Cdma2000 {}
  lemma ArmCrc16Cms(s: string) requires FromStr(s) == Some(Crc16Cms) ensures s == NameCrc16Cms {}
  lemma ArmCrc16Dds110(s: string) requires FromStr(s) == Some(Crc16Dds110) ensures s == NameCrc16Dds110 {}
  lemma ArmCrc16DectR(s: string) requires FromStr(s) == Some(Crc16DectR) ensures s == NameCrc16DectR {}
  lemma ArmCrc16DectX(s: string) requires FromStr(s) == Some(Crc16DectX) ensures s == NameCrc16DectX {}
  lemma ArmCrc16Dnp(s: string) requires FromStr(s) == Some(Crc16Dnp) ensures s == NameCrc16Dnp {}
  lemma ArmCrc16En13757(s: string) requires FromStr(s) == Some(Crc16En13757) ensures s == NameCrc16En13757 {}
  lemma ArmCrc16Genibus(s: string) requires FromStr(s) == Some(Crc16Genibus) ensures s == NameCrc16Genibus {}
  lemma ArmCrc16Gsm(s: string) requires FromStr(s) == Some(Crc16Gsm) ensures s == NameCrc16Gsm {}
  lemma ArmCrc16Ibm3740(s: string) requires FromStr(s) == Some(Crc16Ibm3740) ensures s == NameCrc16Ibm3740 {}
  lemma ArmCrc16IbmSdlc(s: string) requires FromStr(s) == Some(Crc16IbmSdlc) ensures s == NameCrc16IbmSdlc {}
  lemma ArmCrc16IsoIec144433A(s: string) requires FromStr(s) == Some(Crc16IsoIec144433A) ensures s == NameCrc16IsoIec144433A {}
  lemma ArmCrc16Kermit(s: string) requires FromStr(s) == Some(Crc16Kermit) ensures s == NameCrc16Kermit {}
  lemma ArmCrc16Lj1200(s: string) requires FromStr(s) == Some(Crc16Lj1200) ensures s == NameCrc16Lj1200 {}
  lemma ArmCrc16M17(s: string) requires FromStr(s) == Some(Crc16M17) ensures s == NameCrc16M17 {}
  lemma ArmCrc16MaximDow(s: string) requires FromStr(s) == Some(Crc16MaximDow) ensures s == NameCrc16MaximDow {}
  lemma ArmCrc16Mcrf4xx(s: string) requires FromStr(s) == Some(Crc16Mcrf4xx) ensures s == NameCrc16Mcrf4xx {}
  lemma ArmCrc16Modbus(s: string) requires FromStr(s) == Some(Crc16Modbus) ensures s == NameCrc16Modbus {}
  lemma ArmCrc16Nrsc5(s: string) requires FromStr(s) == Some(Crc16Nrsc5) ensures s == NameCrc16Nrsc5 {}
  lemma ArmCrc16OpensafetyA(s: string) requires FromStr(s) == Some(Crc16OpensafetyA) ensures s == NameCrc16OpensafetyA {}
  lemma ArmCrc16OpensafetyB(s: string) requires FromStr(s) == Some(Crc16OpensafetyB) ensures s == NameCrc16OpensafetyB {}
  lemma ArmCrc16Profibus(s: string) requires FromStr(s) == Some(Crc16Profibus) ensures s == NameCrc16Profibus {}
  lemma ArmCrc16Riello(s: string) requires FromStr(s) == Some(Crc16Riello) ensures s == NameCrc16Riello {}
  lemma ArmCrc16SpiFujitsu(s: string) requires FromStr(s) == Some(Crc16SpiFujitsu) ensures s == NameCrc16SpiFujitsu {}
  lemma ArmCrc16T10Dif(s: string) requires FromStr(s) == Some(Crc16T10Dif) ensures s == NameCrc16T10Dif {}
  lemma ArmCrc16Teledisk(s: string) requires FromStr(s) == Some(Crc16Teledisk) ensures s == NameCrc16Teledisk {}
  lemma ArmCrc16Tms37157(s: string) requires FromStr(s) == Some(Crc16Tms37157) ensures s == NameCrc16Tms37157 {}
  lemma ArmCrc16Umts(s: string) requires FromStr(s) == Some(Crc16Umts) ensures s == NameCrc16Umts {}
  lemma ArmCrc16Usb(s: string) requires FromStr(s) == Some(Crc16Usb) ensures s == NameCrc16Usb {}
  lemma ArmCrc16Xmodem(s: string) requires FromStr(s) == Some(Crc16Xmodem) ensures s == NameCrc16Xmodem {}
  lemma ArmCrc32Aixm(s: string) requires FromStr(s) == Some(Crc32Aixm) ensures s == NameCrc32Aixm {}
  lemma ArmCrc32Autosar(s: string) requires FromStr(s) == Some(Crc32Autosar) ensures s == NameCrc32Autosar {}
  lemma ArmCrc32Base91D(s: string) requires FromStr(s) == Some(Crc32Base91D) ensures s == NameCrc32Base91D {}
  lemma ArmCrc32Bzip2(s: string) requires FromStr(s) == Some(Crc32Bzip2) ensures s == NameCrc32Bzip2 {}
  lemma ArmCrc32CdRomEdc(s: string) requires FromStr(s) == Some(Crc32CdRomEdc) ensures s == NameCrc32CdRomEdc {}
  lemma ArmCrc32Cksum(s: string) requires FromStr(s) == Some(Crc32Cksum) ensures s == NameCrc32Cksum {}
  lemma ArmCrc32Iscsi(s: string) requires FromStr(s) == Some(Crc32Iscsi) ensures s == NameCrc32Iscsi {}
  lemma ArmCrc32IsoHdlc(s: string) requires FromStr(s) == Some(Crc32IsoHdlc) ensures s == NameCrc32IsoHdlc {}
  lemma ArmCrc32Jamcrc(s: string) requires FromStr(s) == Some(Crc32Jamcrc) ensures s == NameCrc32Jamcrc {}
  lemma ArmCrc32Mef(s: string) requires FromStr(s) == Some(Crc32Mef) ensures s == NameCrc32Mef {}
  lemma ArmCrc32Mpeg2(s: string) requires FromStr(s) == Some(Crc32Mpeg2) ensures s == NameCrc32Mpeg2 {}
  lemma ArmCrc32Xfer(s: string) requires FromStr(s) == Some(Crc32Xfer) ensures s == NameCrc32Xfer {}
  lemma ArmCrc64GoIso(s: string) requires FromStr(s) == Some(Crc64GoIso) ensures s == NameCrc64GoIso {}
  lemma ArmCrc64Ms(s: string) requires FromStr(s) == Some(Crc64Ms) ensures s == NameCrc64Ms {}
  lemma ArmCrc64Nvme(s: string) requires FromStr(s) == Some(Crc64Nvme) ensures s == NameCrc64Nvme {}
  lemma ArmCrc64Redis(s: string) requires FromStr(s) == Some(Crc64Redis) ensures s == NameCrc64Redis {}
  lemma ArmCrc64Xz(s: string) requires FromStr(s) == Some(Crc64Xz) ensures s == NameCrc64Xz {}
  lemma ArmCrc64Ecma182(s: string) requires FromStr(s) == Some(Crc64Ecma182) ensures s == NameCrc64Ecma182 {}
  lemma ArmCrc64We(s: string) requires FromStr(s) == Some(Crc64We) ensures s == NameCrc64We {}
}
